/** Which connections have been closed, over a run: time limits close new connections and,
    by a handler that comes late, those of running vaults; functors put vaults back with
    one that was closed under their predecessors. */
module ClosedConnections {
  import opened VaultTypes
  import opened Supervision
  import opened Registries
  import opened Management
  import opened TableProofs
  import opened ConnectionProofs
  import opened ManagerProofs
  import opened Relocation

  // --------------------------------------------------------------- time limits

  /** The connection whose time limit's handler the event runs, if it does. */
  function LimitOf(m: Manager, e: Event, registry: Registry): set<Connection> {
    if !m.halted && e.LimitRuns? && e.registry == registry && e.c in LimitsOf(m, registry).overdue then {e.c} else {}
  }

  /** The connections whose time limit's handler ran in the course of the events. */
  function Overran(k: Crypto, boot: Boot, events: seq<Event>, registry: Registry): set<Connection>
    decreases |events|
  {
    if events == [] then {} else
      var before, e := events[..|events| - 1], events[|events| - 1];
      Overran(k, boot, before, registry) + LimitOf(Run(k, boot, before), e, registry)
  }

  /** The n-th event is that. */
  predicate OverranAt(k: Crypto, boot: Boot, events: seq<Event>, registry: Registry, c: Connection, n: nat) {
    n < |events| && c in LimitOf(Run(k, boot, events[..n]), events[n], registry)
  }

  lemma {:induction false} WasOverran(k: Crypto, boot: Boot, events: seq<Event>, registry: Registry, c: Connection)
    returns (n: nat)
    requires c in Overran(k, boot, events, registry)
    ensures OverranAt(k, boot, events, registry, c, n)
    decreases |events|
  {
    var last := |events| - 1;
    if c in Overran(k, boot, events[..last], registry) {
      n := WasOverran(k, boot, events[..last], registry, c);
      assert events[..last][..n] == events[..n];
    } else {
      n := last;
    }
  }

  lemma OverranBefore(k: Crypto, boot: Boot, events: seq<Event>, registry: Registry, c: Connection, n: nat)
    requires OverranAt(k, boot, events, registry, c, n) && n < |events| - 1
    ensures OverranAt(k, boot, events[..|events| - 1], registry, c, n)
  {
    assert events[..|events| - 1][..n] == events[..n];
  }

  lemma {:induction false} IsOverran(k: Crypto, boot: Boot, events: seq<Event>, registry: Registry, c: Connection,
                                     n: nat)
    requires OverranAt(k, boot, events, registry, c, n)
    ensures c in Overran(k, boot, events, registry)
    decreases |events|
  {
    if n < |events| - 1 {
      OverranBefore(k, boot, events, registry, c, n);
      IsOverran(k, boot, events[..|events| - 1], registry, c, n);
    }
  }

  lemma OverranExactly(k: Crypto, boot: Boot, events: seq<Event>, registry: Registry, c: Connection)
    ensures c in Overran(k, boot, events, registry) <==> exists n: nat :: OverranAt(k, boot, events, registry, c, n)
  {
    if c in Overran(k, boot, events, registry) {
      var n := WasOverran(k, boot, events, registry, c);
    }
    if n: nat :| OverranAt(k, boot, events, registry, c, n) {
      IsOverran(k, boot, events, registry, c, n);
    }
  }

  // --------------------------------------------------------------- what is open

  /** No new connection is among the closed ones, nor that of a running child, but for those
      that their time limit closed; and what is closed is known. */
  predicate Open(vaults: seq<Child>, incoming: set<Connection>, closed: set<Connection>, known: set<Connection>) {
    && closed <= known
    && (forall c :: c in incoming ==> c !in closed)
    && (forall i :: 0 <= i < |vaults| && vaults[i].status == Running && vaults[i].info.connection.Some? ==>
          vaults[i].info.connection.value !in closed)
  }

  /** `over`: the connections that their time limit as new ones closed. */
  predicate OpenInv(m: Manager, over: set<Connection>) {
    over <= m.sup.wire.closed && Open(m.sup.vaults, m.incoming, m.sup.wire.closed - over, m.seen)
  }

  /** Children hold connections that are known, and no new ones or those of clients. */
  predicate OffRegistries(m: Manager) {
    forall i :: 0 <= i < |m.sup.vaults| && m.sup.vaults[i].info.connection.Some? ==>
      var c := m.sup.vaults[i].info.connection.value;
      c in m.seen && c !in m.incoming && c !in m.clients.unvalidated && c !in m.clients.limits.overdue
  }

  lemma ChildrenOffRegistries(m: Manager)
    requires Inv(m)
    ensures OffRegistries(m)
  {
    forall i | 0 <= i < |m.sup.vaults| && m.sup.vaults[i].info.connection.Some?
      ensures m.sup.vaults[i].info.connection.value in Free(m)
    {
      assert HeldBy(m.sup.vaults[i], m.sup.vaults[i].info.connection.value);
    }
  }

  lemma ExitStaysOpen(s: Supervisor, vaultLabel: string, report: ExitReport, launch: Launch, incoming: set<Connection>,
                      known: set<Connection>, over: set<Connection>)
    requires TableInv(s.vaults) && Open(s.vaults, incoming, s.wire.closed - over, known)
    requires forall i :: 0 <= i < |s.vaults| && s.vaults[i].info.connection.Some? ==>
               s.vaults[i].info.connection.value in known && s.vaults[i].info.connection.value !in incoming
    ensures var after := OnProcessExit(s, vaultLabel, report, launch).0;
            s.wire.closed <= after.wire.closed && Open(after.vaults, incoming, after.wire.closed - over, known)
  {
    var i := Find(s.vaults, ByLabel(vaultLabel));
    if i < |s.vaults| {
      ExitAtStaysOpen(s, i, report, launch, incoming, known, over);
    }
  }

  lemma ExitAtStaysOpen(s: Supervisor, i: nat, report: ExitReport, launch: Launch, incoming: set<Connection>,
                        known: set<Connection>, over: set<Connection>)
    requires TableInv(s.vaults) && Open(s.vaults, incoming, s.wire.closed - over, known) && i < |s.vaults|
    requires s.vaults[i].info.connection.Some? ==>
               s.vaults[i].info.connection.value in known && s.vaults[i].info.connection.value !in incoming
    ensures var after := ExitAt(s, i, report, launch).0;
            s.wire.closed <= after.wire.closed && Open(after.vaults, incoming, after.wire.closed - over, known)
  {
    var after, rest := ExitAt(s, i, report, launch).0, Without(s.vaults, i);
    ExitTable(s, i, report, launch);
    WithoutKeeps(s.vaults, i);
    forall j | 0 <= j < |after.vaults| && after.vaults[j].status == Running && after.vaults[j].info.connection.Some?
      ensures after.vaults[j].info.connection.value !in after.wire.closed - over
    {
      assert after.vaults[j] == rest[j];
      assert rest[j] == s.vaults[if j < i then j else j + 1];
    }
  }

  lemma TableEventStaysOpen(m: Manager, e: Event, over: set<Connection>)
    requires TableInv(m.sup.vaults) && !m.halted && OnTable(e) && !e.TearDown? && OffRegistries(m)
    requires OpenInv(m, over)
    ensures OpenInv(TableStep(m, e), over)
  {
    match e
    case TimerExpires(i) =>
      assert TableStep(m, e) == m.(sup := ExpireTimer(m.sup, i));
    case TimeoutRuns(j, w) =>
      assert TableStep(m, e) == AfterExit(m, RunTimeout(m.sup, j, w.launch), w.writes);
      if j < |m.sup.expired| {
        ExitStaysOpen(m.sup.(expired := Without(m.sup.expired, j)), m.sup.expired[j], Terminated, w.launch,
                      m.incoming, m.seen, over);
      }
    case ChildExited(pid, code, w) =>
      assert TableStep(m, e) == AfterExit(m, ChildSignalled(m.sup, pid, code, w.launch), w.writes);
      var i := Find(m.sup.vaults, ByPid(pid));
      if i < |m.sup.vaults| {
        ExitStaysOpen(m.sup, m.sup.vaults[i].info.vaultLabel, Report(code, false), w.launch, m.incoming, m.seen, over);
      }
    case RestartRuns(j, launch) =>
      assert TableStep(m, e) == m.(sup := RunRestart(m.sup, j, launch));
      RestartStaysOpen(m.sup, j, launch, m.incoming, m.seen, over);
  }

  lemma RestartStaysOpen(s: Supervisor, j: nat, launch: Launch, incoming: set<Connection>, known: set<Connection>,
                         over: set<Connection>)
    requires Open(s.vaults, incoming, s.wire.closed - over, known)
    ensures var after := RunRestart(s, j, launch);
            s.wire.closed <= after.wire.closed && Open(after.vaults, incoming, after.wire.closed - over, known)
  {
  }

  lemma ClosedStaysOpen(m: Manager, c: Connection, w: World, over: set<Connection>)
    requires TableInv(m.sup.vaults) && OffRegistries(m)
    requires OpenInv(m, over)
    ensures var after := HandleConnectionClosed(m, c, w);
            OpenInv(after, over)
  {
    var i := Find(m.sup.vaults, ByConnection(Some(c)));
    if i < |m.sup.vaults| {
      ExitStaysOpen(m.sup, m.sup.vaults[i].info.vaultLabel, Terminated, w.launch, m.incoming, m.seen, over);
    }
  }

  /** A new connection was never closed; the child that gets it is running over it. */
  lemma StartedStaysOpen(m: Manager, c: Connection, pid: nat, over: set<Connection>)
    requires OpenInv(m, over)
    ensures var after := HandleVaultStarted(m, c, pid);
            OpenInv(after, over)
  {
    if c in m.incoming && ChildStarted(m.sup, c, pid).Some? {
      var after := HandleVaultStarted(m, c, pid);
      assert after.sup.vaults == ChildStarted(m.sup, c, pid).value.vaults && after.sup.wire.closed == m.sup.wire.closed;
    }
  }

  lemma RequestedStaysOpen(m: Manager, c: Connection, info: VaultInfo, w: World, over: set<Connection>)
    requires OpenInv(m, over)
    ensures var after := StartRequested(m, c, info, w);
            OpenInv(after, over)
  {
  }

  lemma OwnershipStaysOpen(k: Crypto, m: Manager, c: Connection, l: string, dir: string, disk: nat, writes: bool,
                           over: set<Connection>)
    requires TableInv(m.sup.vaults) && !m.halted
    requires OpenInv(m, over)
    ensures OpenInv(HandleTakeOwnershipRequest(k, m, c, l, dir, disk, writes), over)
  {
    var after := HandleTakeOwnershipRequest(k, m, c, l, dir, disk, writes);
    OwnershipStops(k, m, c, l, dir, disk, writes);
    assert OpenInv(after, over);
  }

  /** A take-over stops children, it starts none, and gives none a connection. */
  predicate SameButStopped(m: Manager, after: Manager) {
    && after.incoming == m.incoming && after.seen == m.seen && after.sup.wire.closed == m.sup.wire.closed
    && |after.sup.vaults| == |m.sup.vaults|
    && forall j :: 0 <= j < |m.sup.vaults| ==>
         && after.sup.vaults[j].info.connection == m.sup.vaults[j].info.connection
         && (after.sup.vaults[j].status == Running ==> m.sup.vaults[j].status == Running)
  }

  lemma TakeInPlaceStops(k: Crypto, m: Manager, c: Connection, owner: string, i: nat, disk: nat, writes: bool)
    requires TableInv(m.sup.vaults) && !m.halted && i < |m.sup.vaults|
    ensures SameButStopped(m, TakeInPlace(k, m, c, owner, i, disk, writes))
  {
    TakeInPlaceEffect(k, m, c, owner, i, disk, writes);
    TakeInPlaceAlike(k, m, c, owner, i, disk, writes);
  }

  lemma RelocationStopsOne(m: Manager, info: VaultInfo)
    ensures SameButStopped(m, ChangeChunkstorePath(m, info))
  {
  }

  lemma OwnershipStops(k: Crypto, m: Manager, c: Connection, l: string, dir: string, disk: nat, writes: bool)
    requires TableInv(m.sup.vaults) && !m.halted
    ensures SameButStopped(m, HandleTakeOwnershipRequest(k, m, c, l, dir, disk, writes))
  {
    var i := Find(m.sup.vaults, ByLabel(l));
    if c in m.clients.validated && i < |m.sup.vaults| {
      var owner := m.clients.validated[c];
      if m.sup.vaults[i].info.dir == dir {
        TakeInPlaceStops(k, m, c, owner, i, disk, writes);
      } else {
        RelocationStopsOne(m, Relocated(m.sup.vaults[i].info, dir, owner, disk));
      }
    }
  }

  /** A failed challenge and the limit of a client close what no child and no new one has. */
  lemma OffTableStaysOpen(k: Crypto, m: Manager, e: Event, over: set<Connection>)
    requires OffRegistries(m) && RegistryInv(m) && !m.halted && OffTable(e) && OpenInv(m, over)
    ensures OpenInv(OffTableStep(k, m, e), over + LimitOf(m, e, OfNew))
  {
    match e
    case NewConnection(c) => assert OffTableStep(k, m, e) == HandleNewConnection(m, c);
    case ValidateConnectionRequest(c, plain) =>
      assert OffTableStep(k, m, e) == HandleValidateConnectionRequest(m, c, plain);
    case ChallengeResponse(c, publicKey, signature) =>
      assert OffTableStep(k, m, e) == HandleChallengeResponse(k, m, c, publicKey, signature);
    case VaultLog(c, text) => assert OffTableStep(k, m, e) == HandleVaultLog(m, c, text);
    case SetNetworkAsStable => assert OffTableStep(k, m, e) == HandleSetNetworkAsStable(m);
    case NetworkStableRequest(c) => assert OffTableStep(k, m, e) == HandleNetworkStableRequest(m, c);
    case LimitExpires(registry, c) => assert OffTableStep(k, m, e) == HandleLimitExpires(m, registry, c);
    case LimitRuns(registry, c) =>
      assert OffTableStep(k, m, e) == HandleLimitRuns(m, registry, c);
      if c in LimitsOf(m, registry).overdue {
        LimitStaysOpen(m, registry, c, over);
      }
  }

  lemma LimitStaysOpen(m: Manager, registry: Registry, c: Connection, over: set<Connection>)
    requires OffRegistries(m) && RegistryInv(m) && OpenInv(m, over) && c in LimitsOf(m, registry).overdue
    ensures OpenInv(HandleLimitRuns(m, registry, c), if registry.OfNew? then over + {c} else over)
  {
    var after := HandleLimitRuns(m, registry, c);
    assert after.sup.wire.closed == m.sup.wire.closed + {c};
  }

  lemma StepStaysOpen(k: Crypto, m: Manager, e: Event, over: set<Connection>)
    requires Inv(m) && OpenInv(m, over) && !e.TearDown?
    ensures OpenInv(Step(k, m, e), over + LimitOf(m, e, OfNew))
  {
    if m.halted {
      assert Step(k, m, e) == m;
    } else {
      ChildrenOffRegistries(m);
      if OnTable(e) {
        TableEventStaysOpen(m, e, over);
      } else if OffTable(e) {
        OffTableStaysOpen(k, m, e, over);
      } else {
        VaultStepStaysOpen(k, m, e, over);
      }
    }
  }

  lemma VaultStepStaysOpen(k: Crypto, m: Manager, e: Event, over: set<Connection>)
    requires Inv(m) && OffRegistries(m) && OpenInv(m, over) && !m.halted && !OnTable(e) && !OffTable(e)
    ensures OpenInv(VaultStep(k, m, e), over)
  {
    match e
    case ConnectionClosed(c, w) =>
      assert VaultStep(k, m, e) == HandleConnectionClosed(m, c, w);
      ClosedStaysOpen(m, c, w, over);
    case StartVaultRequest(c, l, dir, disk, keys, defaultDir, w) =>
      assert VaultStep(k, m, e) == HandleStartVaultRequest(m, c, l, dir, disk, keys, defaultDir, w);
      if c in m.clients.validated {
        var info := RequestedVault(m.clients.validated[c], l, dir, disk, keys, defaultDir, m.pairs);
        RequestedStaysOpen(m.(pairs := m.pairs + 1), c, info, w, over);
      }
    case VaultStarted(c, pid) =>
      assert VaultStep(k, m, e) == HandleVaultStarted(m, c, pid);
      StartedStaysOpen(m, c, pid, over);
    case TakeOwnershipRequest(c, l, dir, disk, writes) =>
      assert VaultStep(k, m, e) == HandleTakeOwnershipRequest(k, m, c, l, dir, disk, writes);
      OwnershipStaysOpen(k, m, c, l, dir, disk, writes, over);
  }

  lemma {:induction false} ReloadAllCloses(m: Manager, vaults: seq<Reload>)
    ensures var after := ReloadAll(m, vaults);
            && after.sup.wire == m.sup.wire && after.incoming == m.incoming && after.clients == m.clients
            && ((forall i :: 0 <= i < |m.sup.vaults| ==> m.sup.vaults[i].status == Starting) ==>
                 forall i :: 0 <= i < |after.sup.vaults| ==> after.sup.vaults[i].status == Starting)
    decreases |vaults|
  {
    if vaults != [] {
      var r := AddProcess(m.sup, vaults[0].info, 0, NewVault, vaults[0].launch);
      if r.Added? {
        ReloadAllCloses(m.(sup := r.s), vaults[1..]);
      }
    }
  }

  lemma ConstructIsOpen(boot: Boot)
    ensures OpenInv(Construct(boot), {})
  {
    match boot
    case Empty(_) =>
    case FromFile(vaults) => ReloadAllCloses(START.(stored := FileAt(boot), pairs := |vaults|), Unconnected(vaults));
    case Default(_, vault, _) => ReloadAllCloses(START.(stored := FileAt(boot), pairs := 1), Unconnected([vault]));
  }

  lemma {:induction false} OpenRun(k: Crypto, boot: Boot, events: seq<Event>)
    requires forall n :: 0 <= n < |events| ==> !events[n].TearDown?
    ensures OpenInv(Run(k, boot, events), Overran(k, boot, events, OfNew))
    decreases |events|
  {
    if events == [] {
      ConstructIsOpen(boot);
    } else {
      var before, e := events[..|events| - 1], events[|events| - 1];
      OpenRun(k, boot, before);
      NextOpen(k, boot, before, e, Overran(k, boot, before, OfNew));
    }
  }

  lemma NextOpen(k: Crypto, boot: Boot, events: seq<Event>, e: Event, over: set<Connection>)
    requires OpenInv(Run(k, boot, events), over) && !e.TearDown?
    ensures OpenInv(Step(k, Run(k, boot, events), e), over + LimitOf(Run(k, boot, events), e, OfNew))
  {
    assert Inv(Run(k, boot, events)) by {
      RunInv(k, boot, events);
    }
    StepStaysOpen(k, Run(k, boot, events), e, over);
  }

  /** The connection is a new one, or that of a running child. */
  predicate InUse(m: Manager, c: Connection) {
    || c in m.incoming
    || exists i :: 0 <= i < |m.sup.vaults| && m.sup.vaults[i].status == Running
                   && m.sup.vaults[i].info.connection == Some(c)
  }

  /** Over any run without a tear-down a connection that is new, or a running child's, was
      closed if and only if the handler of its time limit as a new connection ran, while
      it was new or, come late, since. */
  lemma ClosedByOwnLimit(k: Crypto, boot: Boot, events: seq<Event>, c: Connection)
    requires forall n :: 0 <= n < |events| ==> !events[n].TearDown?
    requires InUse(Run(k, boot, events), c)
    ensures c in Run(k, boot, events).sup.wire.closed <==> c in Overran(k, boot, events, OfNew)
  {
    OpenRun(k, boot, events);
  }

  // ------------------------------------------------------------ nobody lingers

  /** All new connections and unvalidated clients are under a time limit that has not run
      out, or its handler is queued, or has run. */
  predicate Timed(m: Manager, over: set<Connection>, clientsOver: set<Connection>) {
    && (forall c :: c in m.incoming ==> c in m.limits.timed || c in m.limits.overdue || c in over)
    && (forall c :: c in m.clients.unvalidated ==>
          c in m.clients.limits.timed || c in m.clients.limits.overdue || c in clientsOver)
  }

  lemma OffTableStaysTimed(k: Crypto, m: Manager, e: Event, over: set<Connection>, clientsOver: set<Connection>)
    requires Timed(m, over, clientsOver) && !m.halted && OffTable(e)
    ensures Timed(OffTableStep(k, m, e), over + LimitOf(m, e, OfNew), clientsOver + LimitOf(m, e, OfClients))
  {
    match e
    case NewConnection(c) => assert OffTableStep(k, m, e) == HandleNewConnection(m, c);
    case ValidateConnectionRequest(c, plain) =>
      assert OffTableStep(k, m, e) == HandleValidateConnectionRequest(m, c, plain);
    case ChallengeResponse(c, publicKey, signature) =>
      assert OffTableStep(k, m, e) == HandleChallengeResponse(k, m, c, publicKey, signature);
    case VaultLog(c, text) => assert OffTableStep(k, m, e) == HandleVaultLog(m, c, text);
    case SetNetworkAsStable => assert OffTableStep(k, m, e) == HandleSetNetworkAsStable(m);
    case NetworkStableRequest(c) => assert OffTableStep(k, m, e) == HandleNetworkStableRequest(m, c);
    case LimitExpires(registry, c) => assert OffTableStep(k, m, e) == HandleLimitExpires(m, registry, c);
    case LimitRuns(registry, c) => assert OffTableStep(k, m, e) == HandleLimitRuns(m, registry, c);
  }

  lemma StepStaysTimed(k: Crypto, m: Manager, e: Event, over: set<Connection>, clientsOver: set<Connection>)
    requires Timed(m, over, clientsOver)
    ensures Timed(Step(k, m, e), over + LimitOf(m, e, OfNew), clientsOver + LimitOf(m, e, OfClients))
  {
    if m.halted {
      assert Step(k, m, e) == m;
    } else if OnTable(e) {
      TableStepMoves(m, e);
    } else if OffTable(e) {
      OffTableStaysTimed(k, m, e, over, clientsOver);
    } else if e.ConnectionClosed? {
      assert Step(k, m, e) == HandleConnectionClosed(m, e.c, e.world);
    } else {
      VaultStepMoves(k, m, e);
    }
  }

  lemma ConstructIsTimed(boot: Boot)
    ensures Timed(Construct(boot), {}, {})
  {
    match boot
    case Empty(_) =>
    case FromFile(vaults) => ReloadAllCloses(START.(stored := FileAt(boot), pairs := |vaults|), Unconnected(vaults));
    case Default(_, vault, _) => ReloadAllCloses(START.(stored := FileAt(boot), pairs := 1), Unconnected([vault]));
  }

  /** Over every run no new connection and no client that is still to be validated is
      without a limit: it is set, or queued, or its handler has run and closed it. */
  lemma {:induction false} NobodyLingers(k: Crypto, boot: Boot, events: seq<Event>)
    ensures Timed(Run(k, boot, events), Overran(k, boot, events, OfNew), Overran(k, boot, events, OfClients))
    decreases |events|
  {
    if events == [] {
      ConstructIsTimed(boot);
    } else {
      var before, e := events[..|events| - 1], events[|events| - 1];
      NobodyLingers(k, boot, before);
      StepStaysTimed(k, Run(k, boot, before), e, Overran(k, boot, before, OfNew), Overran(k, boot, before, OfClients));
    }
  }

  /** ... and a limit that runs out and whose handler runs does close its connection. */
  lemma LimitCloses(m: Manager, registry: Registry, c: Connection)
    requires c in LimitsOf(m, registry).timed
    ensures c in HandleLimitRuns(HandleLimitExpires(m, registry, c), registry, c).sup.wire.closed
  {
  }

  // ------------------------------------------------------------ added again

  /** The vault a functor adds again holds the connection it was taken over with, which the
      exit has closed unless its predecessor had come to have another.  If the news of a
      closing comes then, it ends the vault just started, and a restart without a
      connection is all that is left of it. */
  lemma ReturnedIsCutOff(s: Supervisor, i: nat, report: ExitReport, launch: Launch, next: Launch, free: set<Connection>)
    requires TableInv(s.vaults) && HoldersInv(s.vaults, free) && i < |s.vaults| && s.vaults[i].onExit.Some?
    requires MayReturn(s, i, launch)
    ensures var info := s.vaults[i].onExit.value.info;
            var exited := OnProcessExit(s, s.vaults[i].info.vaultLabel, report, launch).0;
            && info.connection.Some?
            && (info.connection.value in exited.wire.closed <==>
                  info.connection == s.vaults[i].info.connection || info.connection.value in s.wire.closed)
            && exited.vaults == Without(s.vaults, i) + [Started(info, 0, launch.pid, |s.history.ledger|)]
            && var closed := ChildDisconnected(exited, info.connection.value, next).0;
               && closed.vaults == Without(s.vaults, i)
               && closed.posted == exited.posted + [Restart(info.(connection := None), 0, |s.history.ledger|)]
  {
    assert CapturesOwn(s.vaults[i]);
    var c := s.vaults[i].onExit.value.info.connection.value;
    var exited := OnProcessExit(s, s.vaults[i].info.vaultLabel, report, launch).0;
    RelocationReturns(s, i, report, launch, free);
    var last := |s.vaults| - 1;
    assert exited.vaults[last].info.connection == Some(c);
    assert TableInv(exited.vaults) by {
      ExitKeepsTable(s, i, report, launch);
      FindIsExact(s.vaults, i);
    }
    FindIsExact(exited.vaults, last);
    assert Without(exited.vaults, last) == Without(s.vaults, i);
  }
}
