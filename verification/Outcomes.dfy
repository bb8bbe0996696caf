/** Event by event, the whole state that comes of it in every reachable state: what is
    answered, what is left alone, and what changes nothing. */
module Outcomes {
  import opened VaultTypes
  import opened Supervision
  import opened Registries
  import opened Management
  import opened TableProofs
  import opened ConnectionProofs
  import opened ManagerProofs
  import opened Relocation
  import opened Effects
  import opened Ownership
  import opened Shutdown

  // -------------------------------------------------------------------- exits

  /** Events that end a child, if they find one. */
  predicate Ends(e: Event) {
    e.ConnectionClosed? || e.TimeoutRuns? || e.ChildExited?
  }

  /** The first child with the connection, the label or the process id, or the end of the
      table. */
  function Leaver(m: Manager, e: Event): (i: nat)
    ensures i <= |m.sup.vaults|
  {
    match e
    case ConnectionClosed(c, _) => Find(m.sup.vaults, ByConnection(Some(c)))
    case TimeoutRuns(j, _) =>
      if j < |m.sup.expired| then Find(m.sup.vaults, ByLabel(m.sup.expired[j])) else |m.sup.vaults|
    case ChildExited(pid, _, _) => Find(m.sup.vaults, ByPid(pid))
    case _ => |m.sup.vaults|
  }

  /** How its functor hears of it. */
  function Ending(e: Event): ExitReport {
    if !e.ChildExited? then Terminated else if e.code == 0 then Succeeded else ExitedWithError(e.code)
  }

  /** The table without the handler that runs. */
  function Dequeued(m: Manager, e: Event): Supervisor {
    if e.TimeoutRuns? && e.k < |m.sup.expired| then m.sup.(expired := Without(m.sup.expired, e.k)) else m.sup
  }

  predicate Returns(s: Supervisor, i: nat, launch: Launch)
    requires i < |s.vaults|
  {
    s.vaults[i].onExit.Some? && MayReturn(s, i, launch)
  }

  /** The i-th child has left: its connection is closed, its functor called, its restart
      posted or its lineage ended, and nothing else was done. */
  predicate HasLeft(s: Supervisor, i: nat, report: ExitReport, launch: Launch, after: Supervisor)
    requires i < |s.vaults|
  {
    var child, rest := s.vaults[i], Without(s.vaults, i);
    var restarts := child.status != Stopping && child.restarts < 5;
    var end := if child.status == Stopping then Stopped else Exhausted;
    var labels := set j | 0 <= j < |rest| :: rest[j].info.vaultLabel;
    && (Returns(s, i, launch) ==>
          var info := child.onExit.value.info;
          after.vaults == rest + [Child(info, None, true, 0, Starting, launch.pid, |s.history.ledger|)])
    && (!Returns(s, i, launch) ==> after.vaults == rest)
    && after.posted == s.posted
       + (if restarts then [Restart(child.info.(connection := None), child.restarts, child.lineage)] else [])
    && after.history.ended == (if restarts then s.history.ended else s.history.ended[child.lineage := end])
    && after.history.ran == s.history.ran
       + (if child.onExit.None? then []
          else [Invocation(child.onExit.value, child.info.vaultLabel, report, labels)])
    && after.wire.sent == s.wire.sent
    && after.wire.closed == s.wire.closed + (if child.info.connection.Some? then {child.info.connection.value} else {})
    && after.expired == s.expired && after.stopAllCalled == s.stopAllCalled
  }

  lemma ExitIsExact(s: Supervisor, i: nat, report: ExitReport, launch: Launch, free: set<Connection>)
    requires TableInv(s.vaults) && HoldersInv(s.vaults, free) && i < |s.vaults|
    ensures HasLeft(s, i, report, launch, ExitAt(s, i, report, launch).0)
    ensures ExitAt(s, i, report, launch).1 <==> Returns(s, i, launch)
  {
    assert WellFormed(s.vaults[i]);
    ExitUnfolds(s, i, report, launch);
    if s.vaults[i].onExit.Some? {
      RelocationSound(s, i, report, launch, free);
    }
  }

  /** In every reachable state a closed connection, a timer's handler or a signal ends the
      child it finds, exactly so; the file is written if and only if a functor put its
      vault back and the write succeeds. */
  lemma ExitEventExact(k: Crypto, boot: Boot, events: seq<Event>, m: Manager, e: Event)
    requires m == Run(k, boot, events) && !m.halted && Ends(e) && Leaver(m, e) < |m.sup.vaults|
    ensures var s, i, after := Dequeued(m, e), Leaver(m, e), Step(k, m, e);
            && s.vaults == m.sup.vaults
            && HasLeft(s, i, Ending(e), e.world.launch, after.sup)
            && after.stored == (if Returns(s, i, e.world.launch) && e.world.writes
                                then Persisted(Infos(after.sup.vaults)) else m.stored)
            && after == m.(sup := after.sup, stored := after.stored)
  {
    assert TableInv(m.sup.vaults) && HoldersInv(m.sup.vaults, Free(m)) by {
      RunInv(k, boot, events);
    }
    var i := Leaver(m, e);
    FindIsExact(m.sup.vaults, i);
    ExitIsExact(Dequeued(m, e), i, Ending(e), e.world.launch, Free(m));
    EndsBy(k, m, e);
  }

  /** All three go through the one exit. */
  lemma EndsBy(k: Crypto, m: Manager, e: Event)
    requires !m.halted && Ends(e) && Leaver(m, e) < |m.sup.vaults|
    requires Find(m.sup.vaults, ByLabel(m.sup.vaults[Leaver(m, e)].info.vaultLabel)) == Leaver(m, e)
    ensures Step(k, m, e)
            == AfterExit(m, ExitAt(Dequeued(m, e), Leaver(m, e), Ending(e), e.world.launch), e.world.writes)
  {
    match e
    case ConnectionClosed(c, w) => assert Step(k, m, e) == HandleConnectionClosed(m, c, w);
    case TimeoutRuns(j, w) =>
      assert Step(k, m, e) == AfterExit(m, RunTimeout(m.sup, j, w.launch), w.writes);
    case ChildExited(pid, code, w) =>
      assert Step(k, m, e) == AfterExit(m, ChildSignalled(m.sup, pid, code, w.launch), w.writes);
  }

  /** One that finds no child ends none: a signal does nothing, a handler is off the queue,
      and a connection is out of its registry, timer and all. */
  lemma NobodyLeaves(k: Crypto, boot: Boot, events: seq<Event>, m: Manager, e: Event)
    requires m == Run(k, boot, events) && !m.halted && Ends(e) && Leaver(m, e) == |m.sup.vaults|
    ensures var after := Step(k, m, e);
            && (e.ChildExited? ==> after == m)
            && (e.TimeoutRuns? ==> after == m.(sup := Dequeued(m, e)))
            && (e.ConnectionClosed? ==>
                  && after == m.(incoming := m.incoming - {e.c}, limits := m.limits.(timed := m.limits.timed - {e.c}),
                                 clients := after.clients)
                  && after.clients == Clients(m.clients.unvalidated - {e.c}, m.clients.validated - {e.c},
                                              m.clients.limits.(timed := m.clients.limits.timed - {e.c})))
  {
    if e.ConnectionClosed? {
      assert RegistryInv(m) by {
        RunInv(k, boot, events);
      }
      RegistryLoses(m, e.c, e.world);
      assert Step(k, m, e) == HandleConnectionClosed(m, e.c, e.world);
    } else if e.TimeoutRuns? {
      assert Step(k, m, e) == AfterExit(m, RunTimeout(m.sup, e.k, e.world.launch), e.world.writes);
    } else {
      assert Step(k, m, e) == AfterExit(m, ChildSignalled(m.sup, e.pid, e.code, e.world.launch), e.world.writes);
    }
  }

  lemma RegistryLoses(m: Manager, c: Connection, w: World)
    requires RegistryInv(m) && Find(m.sup.vaults, ByConnection(Some(c))) == |m.sup.vaults|
    ensures var after := HandleConnectionClosed(m, c, w);
            && after.incoming == m.incoming - {c} && after.limits == m.limits.(timed := m.limits.timed - {c})
            && after.clients == Clients(m.clients.unvalidated - {c}, m.clients.validated - {c},
                                        m.clients.limits.(timed := m.clients.limits.timed - {c}))
            && after == m.(incoming := after.incoming, limits := after.limits, clients := after.clients)
  {
    assert c !in m.limits.timed ==> m.limits.timed - {c} == m.limits.timed;
    assert c !in m.clients.limits.timed ==> m.clients.limits.timed - {c} == m.clients.limits.timed;
    assert c !in m.clients.unvalidated ==> m.clients.unvalidated - {c} == m.clients.unvalidated;
    assert c !in m.clients.validated ==> m.clients.validated - {c} == m.clients.validated;
  }

  // --------------------------------------------------------------- take-overs

  /** More was sent, and nothing else is different. */
  function Sending(m: Manager, sent: seq<Sent>): Manager {
    m.(sup := m.sup.(wire := m.sup.wire.(sent := m.sup.wire.sent + sent)))
  }

  /** A client that is not validated, or names no vault, is refused, and that is all. */
  lemma TakeOverIsRefused(k: Crypto, m: Manager, c: Connection, l: string, dir: string, disk: nat, writes: bool)
    requires !m.halted
    requires c !in m.clients.validated || forall i :: 0 <= i < |m.sup.vaults| ==> m.sup.vaults[i].info.vaultLabel != l
    ensures Step(k, m, TakeOwnershipRequest(c, l, dir, disk, writes)) == Sending(m, [Sent(c, VaultRefused)])
  {
    var e := TakeOwnershipRequest(c, l, dir, disk, writes);
    assert Step(k, m, e) == HandleTakeOwnershipRequest(k, m, c, l, dir, disk, writes);
    if c !in m.clients.validated {
      UnvalidatedGetNothing(k, m, c, l, dir, disk, None, "", World(LaunchFails, writes));
    }
  }

  /** An unconnected vault that would have to be told brings the manager down. */
  lemma TakeOverHalts(k: Crypto, boot: Boot, events: seq<Event>, m: Manager, c: Connection, i: nat, dir: string,
                      disk: nat, writes: bool)
    requires m == Run(k, boot, events) && !m.halted && c in m.clients.validated && i < |m.sup.vaults|
    requires m.sup.vaults[i].info.connection.None?
    requires m.sup.vaults[i].info.dir != dir || (m.sup.vaults[i].info.maxDiskUsage != disk && disk != 0)
    ensures Step(k, m, TakeOwnershipRequest(c, m.sup.vaults[i].info.vaultLabel, dir, disk, writes))
            == m.(halted := true)
  {
    var l := m.sup.vaults[i].info.vaultLabel;
    assert Find(m.sup.vaults, ByLabel(l)) == i by {
      RunInv(k, boot, events);
      FindIsExact(m.sup.vaults, i);
    }
    assert Step(k, m, TakeOwnershipRequest(c, l, dir, disk, writes))
        == HandleTakeOwnershipRequest(k, m, c, l, dir, disk, writes);
  }

  /** A connected vault that is to go elsewhere is told twice to shut down and stopped with
      the functor that adds it again there; nobody is answered. */
  lemma TakeOverRelocates(k: Crypto, boot: Boot, events: seq<Event>, m: Manager, c: Connection, i: nat, dir: string,
                          disk: nat, writes: bool)
    requires m == Run(k, boot, events) && !m.halted && c in m.clients.validated && i < |m.sup.vaults|
    requires m.sup.vaults[i].info.connection.Some? && m.sup.vaults[i].info.dir != dir
    ensures var child := m.sup.vaults[i];
            var there := child.info.(dir := dir, owner := Some(m.clients.validated[c]), maxDiskUsage := disk);
            var functor := Functor(m.sup.history.installed, there);
            var after := Step(k, m, TakeOwnershipRequest(c, child.info.vaultLabel, dir, disk, writes));
            var told := Sending(m, [Sent(child.info.connection.value, VaultShutdownRequest),
                                    Sent(child.info.connection.value, VaultShutdownRequest)]);
            after == told.(sup := told.sup.(history := after.sup.history,
              vaults := m.sup.vaults[i := child.(onExit := Some(functor), status := Stopping, armed := true)]))
  {
    var l := m.sup.vaults[i].info.vaultLabel;
    assert TableInv(m.sup.vaults) by {
      RunInv(k, boot, events);
    }
    FindIsExact(m.sup.vaults, i);
    assert Step(k, m, TakeOwnershipRequest(c, l, dir, disk, writes))
        == HandleTakeOwnershipRequest(k, m, c, l, dir, disk, writes);
  }

  /** A vault that stays where it is, and is connected if it is to be told of a new limit,
      has its new owner and limit; the client is sent its keys if the file could be
      written, and is refused if not. */
  lemma TakeOverInPlace(k: Crypto, boot: Boot, events: seq<Event>, m: Manager, c: Connection, i: nat, disk: nat,
                        writes: bool)
    requires m == Run(k, boot, events) && !m.halted && c in m.clients.validated && i < |m.sup.vaults|
    requires var info := m.sup.vaults[i].info;
             info.connection.Some? || info.maxDiskUsage == disk || disk == 0
    ensures var child := m.sup.vaults[i];
            var owned := child.(info := child.info.(owner := Some(m.clients.validated[c]), maxDiskUsage := disk));
            var after := Step(k, m, TakeOwnershipRequest(c, child.info.vaultLabel, child.info.dir, disk, writes));
            var update := if child.info.maxDiskUsage != disk && disk != 0
                          then [Sent(child.info.connection.value, MaxDiskUsageUpdate(disk))] else [];
            && child.info.keys.Some?
            && after.sup.wire.sent == m.sup.wire.sent + update
               + [Sent(c, if writes then VaultRunning(child.info.vaultLabel, child.info.keys.value) else VaultRefused)]
            && after.sup.vaults == m.sup.vaults[i :=
                 if writes then ChildWithPair(owned, child.info.pair, k.moved(child.info.keys.value)) else owned]
            && after.stored == (if writes then Persisted(Infos(m.sup.vaults[i := owned])) else m.stored)
            && after.sup.wire.closed == m.sup.wire.closed && after.sup.expired == m.sup.expired
            && after.sup.stopAllCalled == m.sup.stopAllCalled && |after.sup.posted| == |m.sup.posted|
            && after == m.(sup := after.sup, stored := after.stored)
  {
    var info := m.sup.vaults[i].info;
    var after := TakeInPlace(k, m, c, m.clients.validated[c], i, disk, writes);
    assert TableInv(m.sup.vaults) by {
      RunInv(k, boot, events);
    }
    FindIsExact(m.sup.vaults, i);
    OwnershipIsTaken(k, boot, events, c, i, disk, writes);
    TakeInPlaceEffect(k, m, c, m.clients.validated[c], i, disk, writes);
    TakeInPlaceMoves(k, m, c, m.clients.validated[c], i, disk, writes);
    var e := TakeOwnershipRequest(c, info.vaultLabel, info.dir, disk, writes);
    assert Step(k, m, e) == HandleTakeOwnershipRequest(k, m, c, info.vaultLabel, info.dir, disk, writes) == after;
  }

  /** A request for a vault is granted or refused, and touches nothing else. */
  lemma RequestExact(k: Crypto, m: Manager, c: Connection, l: string, dir: string, disk: nat,
                     keys: Option<PmidAndSigner>, defaultDir: string, w: World)
    requires !m.halted
    ensures var after := Step(k, m, StartVaultRequest(c, l, dir, disk, keys, defaultDir, w));
            if c !in m.clients.validated then after == Sending(m, [Sent(c, VaultRefused)]) else
              var info := VaultInfo(keys, if dir == "" then defaultDir else dir, disk, Some(m.clients.validated[c]), l,
                                    None, m.pairs);
              var m1 := m.(pairs := m.pairs + 1);
              if !Startable(m.sup.vaults, info, w.launch) then after == Sending(m1, [Sent(c, VaultRefused)]) else
                var child := Child(info, None, true, 0, Starting, w.launch.pid, |m.sup.history.ledger|);
                var m2 := m1.(sup := m.sup.(vaults := m.sup.vaults + [child], history := after.sup.history));
                if w.writes then after == m2.(stored := Persisted(Infos(m.sup.vaults + [child])))
                else after == Sending(m2, [Sent(c, VaultRefused)])
  {
    assert Step(k, m, StartVaultRequest(c, l, dir, disk, keys, defaultDir, w))
        == HandleStartVaultRequest(m, c, l, dir, disk, keys, defaultDir, w);
    if c !in m.clients.validated {
      UnvalidatedGetNothing(k, m, c, l, dir, disk, keys, defaultDir, w);
    } else {
      StartVaultExact(m, c, l, dir, disk, keys, defaultDir, w);
      GrantMoves(m, c, l, dir, disk, keys, defaultDir, w);
    }
  }

  lemma GrantMoves(m: Manager, c: Connection, l: string, dir: string, disk: nat, keys: Option<PmidAndSigner>,
                   defaultDir: string, w: World)
    requires c in m.clients.validated
    ensures var after := HandleStartVaultRequest(m, c, l, dir, disk, keys, defaultDir, w);
            after == m.(pairs := m.pairs + 1, stored := after.stored,
                        sup := m.sup.(vaults := after.sup.vaults, history := after.sup.history, wire := after.sup.wire))
  {
    var info := RequestedVault(m.clients.validated[c], l, dir, disk, keys, defaultDir, m.pairs);
    assert HandleStartVaultRequest(m, c, l, dir, disk, keys, defaultDir, w)
        == StartRequested(m.(pairs := m.pairs + 1), c, info, w);
  }

  /** A timer that is set runs out: its handler is queued under the child's label. */
  lemma ExpiryExact(k: Crypto, m: Manager, i: nat)
    requires !m.halted && i < |m.sup.vaults| && m.sup.vaults[i].armed
    ensures Step(k, m, TimerExpires(i))
            == m.(sup := m.sup.(vaults := m.sup.vaults[i := m.sup.vaults[i].(armed := false)],
                                expired := m.sup.expired + [m.sup.vaults[i].info.vaultLabel]))
  {
    assert Step(k, m, TimerExpires(i)) == m.(sup := ExpireTimer(m.sup, i));
  }

  /** A posted restart that runs brings its vault back or ends its lineage, and touches
      nothing else. */
  lemma RestartRunsExact(k: Crypto, boot: Boot, events: seq<Event>, m: Manager, j: nat, launch: Launch)
    requires m == Run(k, boot, events) && !m.halted && j < |m.sup.posted|
    ensures var r, after := m.sup.posted[j], Step(k, m, RestartRuns(j, launch));
            var m1 := m.(sup := m.sup.(posted := Without(m.sup.posted, j), history := after.sup.history));
            if Startable(m.sup.vaults, r.info, launch) then
              var child := Child(r.info, None, true, r.restarts + 1, Starting, launch.pid, r.lineage);
              after == m1.(sup := m1.sup.(vaults := m.sup.vaults + [child]))
              && after.sup.history.ended == m.sup.history.ended
            else after == m1 && after.sup.history.ended == m.sup.history.ended[r.lineage := Refused]
  {
    assert Step(k, m, RestartRuns(j, launch)) == m.(sup := RunRestart(m.sup, j, launch));
    var r := m.sup.posted[j];
    assert Complete(r.info) && r.restarts + 1 <= MAX_VAULT_RESTARTS by {
      RunInv(k, boot, events);
    }
    AddProcessExact(m.sup.(posted := Without(m.sup.posted, j)), r.info, r.restarts + 1, Restarted(r.lineage), launch);
  }

  // ------------------------------------------------------------- registrations

  /** Events that are addressed to nobody: a connection that is no new one, or waits for no
      challenge, or is no vault's; a limit or timer that is not set; a handler or restart
      that is not queued; a request for news of a stable network before there is any, by
      one who is no client. */
  predicate AddressesNobody(m: Manager, e: Event) {
    match e
    case NewConnection(c) => c in m.seen
    case ValidateConnectionRequest(c, _) => c !in m.incoming
    case ChallengeResponse(c, _, _) => c !in m.clients.unvalidated
    case VaultStarted(c, _) => c !in m.incoming
    case VaultLog(c, _) => forall i :: 0 <= i < |m.sup.vaults| ==> m.sup.vaults[i].info.connection != Some(c)
    case NetworkStableRequest(c) => !m.stable && !m.clients.Tracks(c)
    case LimitExpires(registry, c) => c !in LimitsOf(m, registry).timed
    case LimitRuns(registry, c) => c !in LimitsOf(m, registry).overdue
    case TimerExpires(i) => i >= |m.sup.vaults| || !m.sup.vaults[i].armed
    case TimeoutRuns(j, _) => j >= |m.sup.expired|
    case ChildExited(pid, _, _) => forall i :: 0 <= i < |m.sup.vaults| ==> m.sup.vaults[i].pid != pid
    case RestartRuns(j, _) => j >= |m.sup.posted|
    case _ => false
  }

  lemma NobodyOnTable(m: Manager, e: Event)
    requires OnTable(e) && AddressesNobody(m, e)
    ensures TableStep(m, e) == m
  {
    match e
    case TimerExpires(i) => assert TableStep(m, e) == m.(sup := ExpireTimer(m.sup, i));
    case TimeoutRuns(j, w) => assert TableStep(m, e) == AfterExit(m, RunTimeout(m.sup, j, w.launch), w.writes);
    case ChildExited(pid, code, w) =>
      assert TableStep(m, e) == AfterExit(m, ChildSignalled(m.sup, pid, code, w.launch), w.writes);
    case RestartRuns(j, launch) => assert TableStep(m, e) == m.(sup := RunRestart(m.sup, j, launch));
  }

  lemma NobodyOffTable(k: Crypto, m: Manager, e: Event)
    requires OffTable(e) && AddressesNobody(m, e)
    ensures OffTableStep(k, m, e) == m
  {
    match e
    case NewConnection(c) => assert OffTableStep(k, m, e) == HandleNewConnection(m, c);
    case ValidateConnectionRequest(c, plain) =>
      assert OffTableStep(k, m, e) == HandleValidateConnectionRequest(m, c, plain);
    case ChallengeResponse(c, publicKey, signature) =>
      assert OffTableStep(k, m, e) == HandleChallengeResponse(k, m, c, publicKey, signature);
    case VaultLog(c, text) => assert OffTableStep(k, m, e) == HandleVaultLog(m, c, text);
    case NetworkStableRequest(c) => assert OffTableStep(k, m, e) == HandleNetworkStableRequest(m, c);
    case LimitExpires(registry, c) => assert OffTableStep(k, m, e) == HandleLimitExpires(m, registry, c);
    case LimitRuns(registry, c) => assert OffTableStep(k, m, e) == HandleLimitRuns(m, registry, c);
  }

  /** What is addressed to nobody changes nothing and is not answered. */
  lemma NobodyAnswers(k: Crypto, m: Manager, e: Event)
    requires AddressesNobody(m, e)
    ensures Step(k, m, e) == m
  {
    if m.halted {
      assert Step(k, m, e) == m;
    } else if OnTable(e) {
      NobodyOnTable(m, e);
    } else if OffTable(e) {
      NobodyOffTable(k, m, e);
    } else {
      assert Step(k, m, e) == HandleVaultStarted(m, e.c, e.pid);
    }
  }

  /** A new connection is registered and its time starts. */
  lemma ArrivalExact(k: Crypto, m: Manager, c: Connection)
    requires !m.halted && c !in m.seen
    ensures Step(k, m, NewConnection(c))
            == m.(incoming := m.incoming + {c}, limits := m.limits.(timed := m.limits.timed + {c}),
                  seen := m.seen + {c})
  {
    assert Step(k, m, NewConnection(c)) == HandleNewConnection(m, c);
  }

  /** One that asks to be validated waits with its challenge, which it is sent, and no
      longer as a new one. */
  lemma ChallengeExact(k: Crypto, boot: Boot, events: seq<Event>, m: Manager, c: Connection, plain: string)
    requires m == Run(k, boot, events) && !m.halted && c in m.incoming
    ensures Step(k, m, ValidateConnectionRequest(c, plain))
            == Sending(m, [Sent(c, Challenge(plain))]).(
                 incoming := m.incoming - {c}, limits := m.limits.(timed := m.limits.timed - {c}),
                 clients := Clients(m.clients.unvalidated[c := plain], m.clients.validated,
                                    m.clients.limits.(timed := m.clients.limits.timed + {c})))
  {
    assert RegistryInv(m) by {
      RunInv(k, boot, events);
    }
    assert Step(k, m, ValidateConnectionRequest(c, plain)) == HandleValidateConnectionRequest(m, c, plain);
  }

  /** A response to a challenge validates the client under the name of its key, or closes
      the connection and leaves it waiting. */
  lemma ResponseExact(k: Crypto, boot: Boot, events: seq<Event>, m: Manager, c: Connection, publicKey: string,
                      signature: string)
    requires m == Run(k, boot, events) && !m.halted && c in m.clients.unvalidated
    ensures var after := Step(k, m, ChallengeResponse(c, publicKey, signature));
            if k.verifies(m.clients.unvalidated[c], signature, publicKey)
            then after == m.(clients := Clients(m.clients.unvalidated - {c},
                                                m.clients.validated[c := k.maidName(publicKey)],
                                                m.clients.limits.(timed := m.clients.limits.timed - {c})))
            else after == m.(sup := m.sup.(wire := m.sup.wire.(closed := m.sup.wire.closed + {c})))
  {
    assert RegistryInv(m) by {
      RunInv(k, boot, events);
    }
    assert Step(k, m, ChallengeResponse(c, publicKey, signature))
        == HandleChallengeResponse(k, m, c, publicKey, signature);
  }

  /** A time limit that runs out is queued, and its handler closes the connection. */
  lemma LimitExact(k: Crypto, m: Manager, registry: Registry, c: Connection)
    requires !m.halted
    ensures var limits := LimitsOf(m, registry); var after := Step(k, m, LimitExpires(registry, c));
            c in limits.timed ==>
              && LimitsOf(after, registry) == Limits(limits.timed - {c}, limits.overdue + {c})
              && after == WithLimits(m, registry, LimitsOf(after, registry))
    ensures var limits := LimitsOf(m, registry); var after := Step(k, m, LimitRuns(registry, c));
            c in limits.overdue ==>
              && LimitsOf(after, registry) == Limits(limits.timed, limits.overdue - {c})
              && after.sup == m.sup.(wire := m.sup.wire.(closed := m.sup.wire.closed + {c}))
              && after == WithLimits(m, registry, LimitsOf(after, registry)).(sup := after.sup)
  {
    assert Step(k, m, LimitExpires(registry, c)) == HandleLimitExpires(m, registry, c);
    assert Step(k, m, LimitRuns(registry, c)) == HandleLimitRuns(m, registry, c);
  }

  // ------------------------------------------------------------------- owners

  predicate IsOwner(m: Manager, owner: Option<string>, to: Connection) {
    to in m.clients.validated && owner == Some(m.clients.validated[to])
  }

  /** The least connection of the owner was sent the message, if there is one, and that is
      all. */
  ghost predicate OwnerTold(m: Manager, owner: Option<string>, message: Message, after: Manager) {
    if exists to :: IsOwner(m, owner, to)
    then exists to :: IsOwner(m, owner, to) && (forall d :: IsOwner(m, owner, d) ==> to <= d)
                      && after == Sending(m, [Sent(to, message)])
    else after == m
  }

  lemma TellOwnerExact(m: Manager, info: VaultInfo, message: Message)
    ensures OwnerTold(m, info.owner, message, TellOwner(m, info, message))
  {
    if info.owner.Some? {
      var found := m.clients.FindValidated(info.owner.value);
      if found.Some? {
        assert IsOwner(m, info.owner, found.value);
      }
    }
  }

  /** A vault that logs has its owner told, and nobody else. */
  lemma LogExact(k: Crypto, boot: Boot, events: seq<Event>, m: Manager, c: Connection, text: string, i: nat)
    requires m == Run(k, boot, events) && !m.halted && i < |m.sup.vaults| && m.sup.vaults[i].info.connection == Some(c)
    ensures OwnerTold(m, m.sup.vaults[i].info.owner, LogText(text), Step(k, m, VaultLog(c, text)))
  {
    assert Find(m.sup.vaults, ByConnection(Some(c))) == i by {
      RunInv(k, boot, events);
      FindIsExact(m.sup.vaults, i);
    }
    assert Step(k, m, VaultLog(c, text)) == HandleVaultLog(m, c, text);
    TellOwnerExact(m, m.sup.vaults[i].info, LogText(text));
  }

  /** A process that reports over a new connection is no longer new; if it is a child's, that
      runs, over the connection, is sent its credentials, and then its owner the keys. */
  lemma ReportExact(k: Crypto, boot: Boot, events: seq<Event>, m: Manager, c: Connection, pid: nat)
    requires m == Run(k, boot, events) && !m.halted && c in m.incoming
    ensures var i, after := Find(m.sup.vaults, ByPid(pid)), Step(k, m, VaultStarted(c, pid));
            var left := m.(incoming := m.incoming - {c}, limits := m.limits.(timed := m.limits.timed - {c}));
            && (i == |m.sup.vaults| ==> after == left)
            && (i < |m.sup.vaults| ==>
                  var child := m.sup.vaults[i];
                  var running := child.(info := child.info.(connection := Some(c)), status := Running, armed := false);
                  && child.info.keys.Some?
                  && var keys := child.info.keys.value;
                     var credentials := VaultCredentials(keys.pmid, child.info.dir, child.info.maxDiskUsage);
                     var served := Sending(left.(sup := m.sup.(vaults := m.sup.vaults[i := running])),
                                           [Sent(c, credentials)]);
                     OwnerTold(served, child.info.owner, VaultRunning(child.info.vaultLabel, keys), after))
  {
    var i := Find(m.sup.vaults, ByPid(pid));
    assert Step(k, m, VaultStarted(c, pid)) == HandleVaultStarted(m, c, pid);
    if i < |m.sup.vaults| {
      assert m.sup.vaults[i].info.keys.Some? by {
        RunInv(k, boot, events);
        assert WellFormed(m.sup.vaults[i]);
      }
      var sup := ChildStarted(m.sup, c, pid).value;
      var info := sup.vaults[i].info;
      var served := Say(Leave(m, c).(sup := sup), c,
                        VaultCredentials(info.keys.value.pmid, info.dir, info.maxDiskUsage));
      TellOwnerExact(served, info, VaultRunning(info.vaultLabel, info.keys.value));
    }
  }

  // ---------------------------------------------------------------- stability

  /** Marking the network stable does so, and sends to clients only; a request is remembered
      of a client, and answered if the network is stable. */
  lemma StabilityExact(k: Crypto, m: Manager, c: Connection)
    requires !m.halted
    ensures var after := Step(k, m, SetNetworkAsStable);
            && after == m.(stable := true, sup := after.sup)
            && after.sup == m.sup.(wire := m.sup.wire.(sent := after.sup.wire.sent))
            && m.sup.wire.sent <= after.sup.wire.sent
    ensures var asked := m.(asked := if m.clients.Tracks(c) then m.asked + {c} else m.asked);
            Step(k, m, NetworkStableRequest(c)) == if m.stable then Sending(asked, [Sent(c, NetworkStable)]) else asked
  {
    assert Step(k, m, SetNetworkAsStable) == HandleSetNetworkAsStable(m);
    assert Step(k, m, NetworkStableRequest(c)) == HandleNetworkStableRequest(m, c);
  }

  // ----------------------------------------------------------------- tear-down

  /** A tear-down closes every registered connection; the first one also stops all children,
      or brings the manager down if one is unconnected; a later one leaves them alone. */
  lemma TearDownExact(k: Crypto, boot: Boot, events: seq<Event>, m: Manager)
    requires m == Run(k, boot, events) && !m.halted
    ensures var after := Step(k, m, TearDown);
            var closed := m.(sup := m.sup.(wire := m.sup.wire.(closed :=
              m.sup.wire.closed + m.incoming + m.clients.unvalidated.Keys + m.clients.validated.Keys)));
            if m.sup.stopAllCalled then after == closed
            else if exists i :: 0 <= i < |m.sup.vaults| && m.sup.vaults[i].info.connection.None?
            then after == closed.(halted := true)
            else
              && AllConnected(m.sup.vaults) && after.sup.stopAllCalled
              && |after.sup.vaults| == |m.sup.vaults|
              && (forall i :: 0 <= i < |m.sup.vaults| ==>
                    after.sup.vaults[i] == m.sup.vaults[i].(status := Stopping, onExit := None, armed := true))
              && after.sup.wire.sent == m.sup.wire.sent + ShutdownRequests(m.sup.vaults)
              && after.sup.wire.closed == closed.sup.wire.closed
              && after.sup.posted == m.sup.posted && after.sup.expired == m.sup.expired
              && after == m.(sup := after.sup)
  {
    assert TableInv(m.sup.vaults) by {
      RunInv(k, boot, events);
    }
    assert Step(k, m, TearDown) == HandleTearDown(m);
    if !m.sup.stopAllCalled && AllConnected(m.sup.vaults) {
      var wire := m.sup.wire.CloseAll(m.incoming)
                  .CloseAll(m.clients.unvalidated.Keys).CloseAll(m.clients.validated.Keys);
      var s := m.sup.(wire := wire);
      StopAllStopsAll(s);
      StopFromAsks(s.(stopAllCalled := true), 0);
      StopFromLeaves(s.(stopAllCalled := true), 0);
    }
  }

  lemma {:induction false} StopFromLeaves(s: Supervisor, i: nat)
    requires i <= |s.vaults| && AllConnected(s.vaults)
    ensures StopFrom(s, i).posted == s.posted && StopFrom(s, i).expired == s.expired
    decreases |s.vaults| - i
  {
    if i < |s.vaults| {
      StopFromLeaves(StopProcess(s, s.vaults[i].info.connection.value, None), i + 1);
    }
  }

  // -------------------------------------------------------- what is not found

  /** Why an AddProcess is refused: for what the vault lacks or its restarts, else for a
      key that is in use, else for its launch. */
  lemma RefusalsExact(s: Supervisor, info: VaultInfo, restarts: int, origin: Origin, launch: Launch)
    ensures var r := AddProcess(s, info, restarts, origin, launch);
            var complete := info.dir != "" && info.vaultLabel != "" && info.keys.Some? && restarts <= 5;
            && (r == NotAdded(InvalidArgument) <==> !complete)
            && (r == NotAdded(AlreadyInitialised) <==> complete && !Clear(s.vaults, info))
            && (r == NotAdded(LaunchError) <==> complete && Clear(s.vaults, info) && launch.LaunchFails?)
  {
    if Complete(info) {
      ConflictIsSharedKey(s.vaults, info);
    }
  }

  /** Operations on a process that is not there: none is stopped, started or given an owner. */
  lemma UnknownProcess(s: Supervisor, c: Connection, pid: nat, vaultLabel: string, owner: string, disk: nat,
                       onExit: Option<VaultInfo>)
    ensures (forall i :: 0 <= i < |s.vaults| ==> s.vaults[i].info.connection != Some(c)) ==>
              StopProcess(s, c, onExit) == s
    ensures ChildStarted(s, c, pid).None? <==> forall i :: 0 <= i < |s.vaults| ==> s.vaults[i].pid != pid
    ensures AssignOwner(s, vaultLabel, owner, disk).None?
            <==> forall i :: 0 <= i < |s.vaults| ==> s.vaults[i].info.vaultLabel != vaultLabel
  {
    assert forall i :: 0 <= i < |s.vaults| ==>
      (Matches(s.vaults[i], ByPid(pid)) <==> s.vaults[i].pid == pid)
      && (Matches(s.vaults[i], ByLabel(vaultLabel)) <==> s.vaults[i].info.vaultLabel == vaultLabel);
  }

  /** The name of a client, or which exception. */
  lemma NameOfExact(clients: Clients, c: Connection)
    ensures clients.NameOf(c) == if c in clients.validated then Success(clients.validated[c])
                                 else if c in clients.unvalidated then Failure(UnvalidatedClient)
                                 else Failure(ConnectionNotFound)
  {
  }

  /** The clients are listed in two ascending parts, the validated ones first. */
  lemma ListedInOrder(clients: Clients) returns (n: nat)
    ensures var all := clients.GetAll();
            && n <= |all|
            && (forall i :: 0 <= i < n ==> all[i] in clients.validated)
            && (forall i :: n <= i < |all| ==> all[i] in clients.unvalidated)
            && (forall i, j :: 0 <= i < j < n ==> all[i] < all[j])
            && (forall i, j :: n <= i < j < |all| ==> all[i] < all[j])
  {
    n := |InOrder(clients.validated.Keys)|;
    InOrderAscends(clients.validated.Keys);
    InOrderAscends(clients.unvalidated.Keys);
    var first, second := InOrder(clients.validated.Keys), InOrder(clients.unvalidated.Keys);
    assert forall i :: 0 <= i < |first| ==> first[i] in first;
    assert forall i :: 0 <= i < |second| ==> second[i] in second;
  }
}
