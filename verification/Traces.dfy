/** What holds of whole runs: who was sent a vault's keys, and how a client came to be
    listed as validated. */
module Traces {
  import opened VaultTypes
  import opened Supervision
  import opened Registries
  import opened Management
  import opened TableProofs
  import opened ManagerProofs
  import opened Shutdown
  import opened Effects

  // ------------------------------------------------------------- key delivery

  /** The i-th child belongs to the client validated on connection `to`. */
  predicate OwnedOver(m: Manager, i: nat, to: Connection)
    requires i < |m.sup.vaults|
  {
    to in m.clients.validated && m.sup.vaults[i].info.owner == Some(m.clients.validated[to])
  }

  /** Sent by a step from `a` to `m`.  Keys go to the validated owner of the vault they
      are for, and are those it had just before; credentials go to the vault itself, log
      messages to a validated owner; a challenge is the one that is waited for, a shutdown
      request goes to a vault that is being stopped, a new disk limit to the vault that
      has it, and no one is told of a stable network early. */
  predicate Delivered(a: Manager, m: Manager, sent: Sent) {
    match sent.message
    case VaultRunning(l, keys) =>
      exists i :: 0 <= i < |m.sup.vaults| && i < |a.sup.vaults| && OwnedOver(m, i, sent.to)
                  && m.sup.vaults[i].lineage == a.sup.vaults[i].lineage
                  && a.sup.vaults[i].info.vaultLabel == l && a.sup.vaults[i].info.keys == Some(keys)
    case VaultCredentials(pmid, dir, disk) =>
      exists i :: 0 <= i < |m.sup.vaults| && m.sup.vaults[i].info.connection == Some(sent.to)
                  && m.sup.vaults[i].info.keys.Some? && m.sup.vaults[i].info.keys.value.pmid == pmid
                  && m.sup.vaults[i].info.dir == dir && m.sup.vaults[i].info.maxDiskUsage == disk
    case LogText(_) =>
      exists i :: 0 <= i < |m.sup.vaults| && OwnedOver(m, i, sent.to)
    case Challenge(plain) => sent.to in m.clients.unvalidated && m.clients.unvalidated[sent.to] == plain
    case VaultShutdownRequest =>
      exists i :: 0 <= i < |m.sup.vaults| && m.sup.vaults[i].info.connection == Some(sent.to)
                  && m.sup.vaults[i].status == Stopping
    case MaxDiskUsageUpdate(disk) =>
      exists i :: 0 <= i < |m.sup.vaults| && m.sup.vaults[i].info.connection == Some(sent.to)
                  && m.sup.vaults[i].info.maxDiskUsage == disk
    case NetworkStable => m.stable
    case VaultRefused => true
  }

  predicate NewlyDelivered(a: Manager, b: Manager) {
    |a.sup.wire.sent| <= |b.sup.wire.sent|
    && forall j :: |a.sup.wire.sent| <= j < |b.sup.wire.sent| ==> Delivered(a, b, b.sup.wire.sent[j])
  }

  lemma TellOwnerDelivers(m: Manager, i: nat, message: Message)
    requires i < |m.sup.vaults| && m.sup.vaults[i].info.keys.Some?
    requires var info := m.sup.vaults[i].info;
             message == VaultRunning(info.vaultLabel, info.keys.value) || message.LogText?
    ensures NewlyDelivered(m, TellOwner(m, m.sup.vaults[i].info, message))
  {
    var info := m.sup.vaults[i].info;
    var after := TellOwner(m, info, message);
    if info.owner.Some? && m.clients.FindValidated(info.owner.value).Some? {
      var client := m.clients.FindValidated(info.owner.value).value;
      assert OwnedOver(after, i, client);
    }
  }

  lemma VaultStartedDelivers(m: Manager, c: Connection, pid: nat)
    requires TableInv(m.sup.vaults)
    ensures NewlyDelivered(m, HandleVaultStarted(m, c, pid))
  {
    if c in m.incoming && ChildStarted(m.sup, c, pid).Some? {
      var i := Find(m.sup.vaults, ByPid(pid));
      assert WellFormed(m.sup.vaults[i]);
      var m2 := Leave(m, c).(sup := ChildStarted(m.sup, c, pid).value);
      var info := m2.sup.vaults[i].info;
      var m3 := Say(m2, c, VaultCredentials(info.keys.value.pmid, info.dir, info.maxDiskUsage));
      var after := TellOwner(m3, info, VaultRunning(info.vaultLabel, info.keys.value));
      TellOwnerDelivers(m3, i, VaultRunning(info.vaultLabel, info.keys.value));
      assert after.sup.vaults == m2.sup.vaults;
      assert Delivered(m, after, m3.sup.wire.sent[|m.sup.wire.sent|]) by {
        assert after.sup.vaults[i].info.connection == Some(c);
      }
      if |after.sup.wire.sent| > |m3.sup.wire.sent| {
        var last := after.sup.wire.sent[|m3.sup.wire.sent|];
        assert Delivered(m3, after, last);
        assert m.sup.vaults[i].info.keys == m3.sup.vaults[i].info.keys && OwnedOver(after, i, last.to);
        assert Delivered(m, after, last);
      }
    }
  }

  lemma AnswerDelivered(m: Manager, after: Manager, i: nat, c: Connection, writes: bool)
    requires i < |m.sup.vaults| && i < |after.sup.vaults| && OwnedOver(after, i, c)
    requires after.sup.vaults[i].lineage == m.sup.vaults[i].lineage && m.sup.vaults[i].info.keys.Some?
    ensures var info := m.sup.vaults[i].info;
            var answer := if writes then VaultRunning(info.vaultLabel, info.keys.value) else VaultRefused;
            Delivered(m, after, Sent(c, answer))
  {
  }

  lemma UpdateDelivered(m: Manager, after: Manager, i: nat, c: Connection, disk: nat)
    requires i < |after.sup.vaults| && after.sup.vaults[i].info.connection == Some(c)
    requires after.sup.vaults[i].info.maxDiskUsage == disk
    ensures Delivered(m, after, Sent(c, MaxDiskUsageUpdate(disk)))
  {
  }

  lemma TakeInPlaceDelivers(k: Crypto, m: Manager, c: Connection, i: nat, disk: nat, writes: bool)
    requires TableInv(m.sup.vaults) && i < |m.sup.vaults| && c in m.clients.validated && !m.halted
    ensures NewlyDelivered(m, TakeInPlace(k, m, c, m.clients.validated[c], i, disk, writes))
  {
    var after, info := TakeInPlace(k, m, c, m.clients.validated[c], i, disk, writes), m.sup.vaults[i].info;
    TakeInPlaceEffect(k, m, c, m.clients.validated[c], i, disk, writes);
    if !after.halted {
      assert info.keys.Some? by {
        assert WellFormed(m.sup.vaults[i]);
      }
      TakenOverIsOwned(k, m, c, i, disk, writes);
      AnswerDelivered(m, after, i, c, writes);
      if NeedsDiskUpdate(info, disk) {
        UpdateDelivered(m, after, i, info.connection.value, disk);
      }
    }
  }

  lemma TakenOverIsOwned(k: Crypto, m: Manager, c: Connection, i: nat, disk: nat, writes: bool)
    requires TableInv(m.sup.vaults) && i < |m.sup.vaults| && c in m.clients.validated && !m.halted
    ensures var after := TakeInPlace(k, m, c, m.clients.validated[c], i, disk, writes);
            !after.halted ==>
              && i < |after.sup.vaults| && OwnedOver(after, i, c)
              && after.sup.vaults[i].lineage == m.sup.vaults[i].lineage
              && after.sup.vaults[i].info.connection == m.sup.vaults[i].info.connection
              && after.sup.vaults[i].info.maxDiskUsage == disk
  {
    TakeInPlaceEffect(k, m, c, m.clients.validated[c], i, disk, writes);
    TakeInPlaceAlike(k, m, c, m.clients.validated[c], i, disk, writes);
  }

  lemma RelocationDelivers(m: Manager, i: nat, dir: string, owner: string, disk: nat)
    requires TableInv(m.sup.vaults) && i < |m.sup.vaults|
    ensures NewlyDelivered(m, ChangeChunkstorePath(m, Relocated(m.sup.vaults[i].info, dir, owner, disk)))
  {
    FindIsExact(m.sup.vaults, i);
    var after := ChangeChunkstorePath(m, Relocated(m.sup.vaults[i].info, dir, owner, disk));
    if m.sup.vaults[i].info.connection.Some? {
      assert after.sup.vaults[i].status == Stopping;
    }
  }

  lemma TearDownDelivers(m: Manager)
    requires TableInv(m.sup.vaults)
    ensures NewlyDelivered(m, HandleTearDown(m))
  {
    if !m.sup.stopAllCalled && AllConnected(m.sup.vaults) {
      var wire := m.sup.wire.CloseAll(m.incoming)
                  .CloseAll(m.clients.unvalidated.Keys).CloseAll(m.clients.validated.Keys);
      var after := HandleTearDown(m);
      StopAllStopsAll(m.sup.(wire := wire));
      forall j | |m.sup.wire.sent| <= j < |after.sup.wire.sent|
        ensures Delivered(m, after, after.sup.wire.sent[j])
      {
        var i := j - |m.sup.wire.sent|;
        assert after.sup.wire.sent[j] == ShutdownRequests(m.sup.vaults)[i];
        assert after.sup.vaults[i].status == Stopping;
      }
    }
  }

  lemma ClosedSends(m: Manager, c: Connection, w: World)
    ensures HandleConnectionClosed(m, c, w).sup.wire.sent == m.sup.wire.sent
  {
    var i := Find(m.sup.vaults, ByConnection(Some(c)));
    if i < |m.sup.vaults| {
      ProcessExitSends(m.sup, m.sup.vaults[i].info.vaultLabel, Terminated, w.launch);
    }
  }

  lemma ExitEventSends(m: Manager, pid: nat, j: nat, code: int, w: World)
    ensures ChildSignalled(m.sup, pid, code, w.launch).0.wire.sent == m.sup.wire.sent
    ensures RunTimeout(m.sup, j, w.launch).0.wire.sent == m.sup.wire.sent
  {
    var i := Find(m.sup.vaults, ByPid(pid));
    if i < |m.sup.vaults| {
      ProcessExitSends(m.sup, m.sup.vaults[i].info.vaultLabel, Report(code, false), w.launch);
    }
    if j < |m.sup.expired| {
      ProcessExitSends(m.sup.(expired := Without(m.sup.expired, j)), m.sup.expired[j], Terminated, w.launch);
    }
  }

  lemma OwnershipDelivers(k: Crypto, m: Manager, c: Connection, l: string, dir: string, disk: nat, writes: bool)
    requires TableInv(m.sup.vaults) && !m.halted
    ensures NewlyDelivered(m, HandleTakeOwnershipRequest(k, m, c, l, dir, disk, writes))
  {
    var i := Find(m.sup.vaults, ByLabel(l));
    if i < |m.sup.vaults| && m.clients.NameOf(c).Success? {
      if m.sup.vaults[i].info.dir == dir {
        TakeInPlaceDelivers(k, m, c, i, disk, writes);
      } else {
        RelocationDelivers(m, i, dir, m.clients.validated[c], disk);
      }
    }
  }

  lemma StableDelivers(m: Manager, c: Connection)
    ensures NewlyDelivered(m, HandleSetNetworkAsStable(m))
    ensures NewlyDelivered(m, HandleNetworkStableRequest(m, c))
  {
  }

  lemma ChallengeDelivers(k: Crypto, m: Manager, c: Connection, plain: string, publicKey: string, signature: string)
    requires forall c :: c in m.incoming ==> !m.clients.Tracks(c)
    ensures NewlyDelivered(m, HandleValidateConnectionRequest(m, c, plain))
    ensures NewlyDelivered(m, HandleChallengeResponse(k, m, c, publicKey, signature))
  {
  }

  lemma RequestDelivers(m: Manager, c: Connection, info: VaultInfo, w: World)
    ensures var after := StartRequested(m, c, info, w).sup.wire.sent;
            after == m.sup.wire.sent || after == m.sup.wire.sent + [Sent(c, VaultRefused)]
  {
  }

  lemma LogDelivers(m: Manager, c: Connection, text: string)
    requires TableInv(m.sup.vaults)
    ensures NewlyDelivered(m, HandleVaultLog(m, c, text))
  {
    var i := Find(m.sup.vaults, ByConnection(Some(c)));
    if i < |m.sup.vaults| {
      assert WellFormed(m.sup.vaults[i]);
      TellOwnerDelivers(m, i, LogText(text));
    }
  }

  lemma OffTableDelivers(k: Crypto, m: Manager, e: Event)
    requires TableInv(m.sup.vaults) && OffTable(e)
    requires forall c :: c in m.incoming ==> !m.clients.Tracks(c)
    ensures NewlyDelivered(m, OffTableStep(k, m, e))
  {
    match e
    case NewConnection(c) => assert OffTableStep(k, m, e).sup == m.sup;
    case ValidateConnectionRequest(c, plain) =>
      assert OffTableStep(k, m, e) == HandleValidateConnectionRequest(m, c, plain);
      ChallengeDelivers(k, m, c, plain, "", "");
    case ChallengeResponse(c, publicKey, signature) =>
      assert OffTableStep(k, m, e) == HandleChallengeResponse(k, m, c, publicKey, signature);
      ChallengeDelivers(k, m, c, "", publicKey, signature);
    case VaultLog(c, text) =>
      assert OffTableStep(k, m, e) == HandleVaultLog(m, c, text);
      LogDelivers(m, c, text);
    case SetNetworkAsStable =>
      assert OffTableStep(k, m, e) == HandleSetNetworkAsStable(m);
      StableDelivers(m, 0);
    case NetworkStableRequest(c) =>
      assert OffTableStep(k, m, e) == HandleNetworkStableRequest(m, c);
      StableDelivers(m, c);
    case LimitExpires(registry, c) => assert OffTableStep(k, m, e).sup == m.sup;
    case LimitRuns(registry, c) => assert OffTableStep(k, m, e).sup.wire.sent == m.sup.wire.sent;
  }

  lemma TableEventDelivers(m: Manager, e: Event)
    requires TableInv(m.sup.vaults) && OnTable(e)
    ensures NewlyDelivered(m, TableStep(m, e))
  {
    match e
    case TimerExpires(i) => assert TableStep(m, e).sup.wire == m.sup.wire;
    case TimeoutRuns(j, w) =>
      assert TableStep(m, e) == AfterExit(m, RunTimeout(m.sup, j, w.launch), w.writes);
      ExitEventSends(m, 0, j, 0, w);
    case ChildExited(pid, code, w) =>
      assert TableStep(m, e) == AfterExit(m, ChildSignalled(m.sup, pid, code, w.launch), w.writes);
      ExitEventSends(m, pid, 0, code, w);
    case RestartRuns(j, launch) =>
      assert TableStep(m, e).sup == RunRestart(m.sup, j, launch);
      assert RunRestart(m.sup, j, launch).wire == m.sup.wire;
    case TearDown =>
      assert TableStep(m, e) == HandleTearDown(m);
      TearDownDelivers(m);
  }

  /** Whatever one step sends is properly addressed in the state it sends it from. */
  lemma StepDelivers(k: Crypto, m: Manager, e: Event)
    requires TableInv(m.sup.vaults)
    requires forall c :: c in m.incoming ==> !m.clients.Tracks(c)
    ensures NewlyDelivered(m, Step(k, m, e))
  {
    if m.halted {
      assert Step(k, m, e) == m;
    } else if OnTable(e) {
      TableEventDelivers(m, e);
    } else if OffTable(e) {
      OffTableDelivers(k, m, e);
    } else {
      match e
      case ConnectionClosed(c, w) =>
        assert Step(k, m, e) == HandleConnectionClosed(m, c, w);
        ClosedSends(m, c, w);
      case StartVaultRequest(c, l, dir, disk, keys, defaultDir, w) =>
        assert Step(k, m, e) == HandleStartVaultRequest(m, c, l, dir, disk, keys, defaultDir, w);
        if c in m.clients.validated {
          var info := RequestedVault(m.clients.validated[c], l, dir, disk, keys, defaultDir, m.pairs);
          RequestDelivers(m.(pairs := m.pairs + 1), c, info, w);
        }
      case TakeOwnershipRequest(c, l, dir, disk, writes) =>
        assert Step(k, m, e) == HandleTakeOwnershipRequest(k, m, c, l, dir, disk, writes);
        OwnershipDelivers(k, m, c, l, dir, disk, writes);
      case VaultStarted(c, pid) =>
        assert Step(k, m, e) == HandleVaultStarted(m, c, pid);
        VaultStartedDelivers(m, c, pid);
    }
  }

  lemma {:induction false} ReloadAllSends(m: Manager, vaults: seq<Reload>)
    ensures ReloadAll(m, vaults).sup.wire == m.sup.wire
    decreases |vaults|
  {
    if vaults != [] {
      var r := AddProcess(m.sup, vaults[0].info, 0, NewVault, vaults[0].launch);
      if r.Added? {
        ReloadAllSends(m.(sup := r.s), vaults[1..]);
      }
    }
  }

  lemma ConstructSends(boot: Boot)
    ensures Construct(boot).sup.wire.sent == []
  {
    match boot
    case Empty(_) =>
    case FromFile(vaults) => ReloadAllSends(START.(stored := FileAt(boot), pairs := |vaults|), Unconnected(vaults));
    case Default(_, vault, _) => ReloadAllSends(START.(stored := FileAt(boot), pairs := 1), Unconnected([vault]));
  }

  lemma NextDelivers(k: Crypto, boot: Boot, events: seq<Event>, e: Event)
    ensures var m := Run(k, boot, events);
            m.sup.wire.sent <= Step(k, m, e).sup.wire.sent && NewlyDelivered(m, Step(k, m, e))
  {
    RunInv(k, boot, events);
    StepKeeps(k, Run(k, boot, events), e);
    StepDelivers(k, Run(k, boot, events), e);
  }

  /** Key delivery over every run: each message was sent by some step, and was
      properly addressed at that time. */
  lemma {:induction false} KeysGoToOwners(k: Crypto, boot: Boot, events: seq<Event>, j: nat) returns (n: nat)
    requires j < |Run(k, boot, events).sup.wire.sent|
    ensures n < |events|
    ensures |Run(k, boot, events[..n]).sup.wire.sent| <= j < |Run(k, boot, events[..n + 1]).sup.wire.sent|
    ensures Run(k, boot, events[..n + 1]).sup.wire.sent[j] == Run(k, boot, events).sup.wire.sent[j]
    ensures Delivered(Run(k, boot, events[..n]), Run(k, boot, events[..n + 1]), Run(k, boot, events).sup.wire.sent[j])
    decreases |events|
  {
    if events == [] {
      ConstructSends(boot);
    } else {
      var before := events[..|events| - 1];
      NextDelivers(k, boot, before, events[|events| - 1]);
      assert events[..|events|] == events;
      if j < |Run(k, boot, before).sup.wire.sent| {
        n := KeysGoToOwners(k, boot, before, j);
        assert before[..n] == events[..n] && before[..n + 1] == events[..n + 1];
      } else {
        n := |events| - 1;
      }
    }
  }

  // --------------------------------------------------------------- validation

  /** The n-th event issued `plain` as a challenge on the connection. */
  predicate Challenged(k: Crypto, boot: Boot, events: seq<Event>, c: Connection, plain: string, n: nat) {
    && n < |events|
    && events[n] == ValidateConnectionRequest(c, plain)
    && Sent(c, Challenge(plain)) in Run(k, boot, events[..n + 1]).sup.wire.sent
  }

  /** A later event answered it with a signature that verifies under a key of the name. */
  predicate Proved(k: Crypto, boot: Boot, events: seq<Event>, c: Connection, name: string, n: nat, j: nat,
                   plain: string) {
    && Challenged(k, boot, events, c, plain, n)
    && n < j < |events|
    && events[j].ChallengeResponse? && events[j].c == c
    && k.verifies(plain, events[j].signature, events[j].publicKey)
    && k.maidName(events[j].publicKey) == name
  }

  lemma ChallengedLater(k: Crypto, boot: Boot, events: seq<Event>, e: Event, c: Connection, plain: string, n: nat)
    requires Challenged(k, boot, events, c, plain, n)
    ensures Challenged(k, boot, events + [e], c, plain, n)
  {
    assert (events + [e])[..n + 1] == events[..n + 1];
  }

  /** Three events change the registry of clients. */
  lemma OthersKeepClients(k: Crypto, m: Manager, e: Event)
    requires !e.ValidateConnectionRequest? && !e.ChallengeResponse? && !e.ConnectionClosed?
    ensures var after := Step(k, m, e).clients;
            after.unvalidated == m.clients.unvalidated && after.validated == m.clients.validated
  {
    if m.halted {
      assert Step(k, m, e) == m;
    } else if OnTable(e) {
      TableStepMoves(m, e);
    } else if !OffTable(e) {
      VaultStepMoves(k, m, e);
    }
  }

  predicate NewlyWaits(m: Manager, e: Event, c: Connection, plain: string) {
    e == ValidateConnectionRequest(c, plain) && !m.halted && c in m.incoming
  }

  predicate NewlyProves(k: Crypto, m: Manager, e: Event, c: Connection, name: string) {
    && e.ChallengeResponse? && e.c == c && c in m.clients.unvalidated
    && k.verifies(m.clients.unvalidated[c], e.signature, e.publicKey)
    && k.maidName(e.publicKey) == name
  }

  /** ... and two of them add to it. */
  lemma RegistriesChange(k: Crypto, m: Manager, e: Event, c: Connection)
    ensures var after := Step(k, m, e).clients;
            && (c in after.unvalidated ==>
                  || (c in m.clients.unvalidated && m.clients.unvalidated[c] == after.unvalidated[c])
                  || NewlyWaits(m, e, c, after.unvalidated[c]))
            && (c in after.validated ==>
                  || (c in m.clients.validated && m.clients.validated[c] == after.validated[c])
                  || NewlyProves(k, m, e, c, after.validated[c]))
  {
    if m.halted {
      assert Step(k, m, e) == m;
    } else if e.ValidateConnectionRequest? {
      assert Step(k, m, e) == HandleValidateConnectionRequest(m, e.c, e.plain);
    } else if e.ChallengeResponse? {
      assert Step(k, m, e) == HandleChallengeResponse(k, m, e.c, e.publicKey, e.signature);
    } else if e.ConnectionClosed? {
      assert Step(k, m, e) == HandleConnectionClosed(m, e.c, e.world);
    } else {
      OthersKeepClients(k, m, e);
    }
  }

  lemma {:induction false} ReloadAllClients(m: Manager, vaults: seq<Reload>)
    ensures ReloadAll(m, vaults).clients == m.clients
    decreases |vaults|
  {
    if vaults != [] {
      var r := AddProcess(m.sup, vaults[0].info, 0, NewVault, vaults[0].launch);
      if r.Added? {
        ReloadAllClients(m.(sup := r.s), vaults[1..]);
      }
    }
  }

  lemma ConstructClients(boot: Boot)
    ensures Construct(boot).clients == NO_CLIENTS
  {
    match boot
    case Empty(_) =>
    case FromFile(vaults) => ReloadAllClients(START.(stored := FileAt(boot), pairs := |vaults|), Unconnected(vaults));
    case Default(_, vault, _) => ReloadAllClients(START.(stored := FileAt(boot), pairs := 1), Unconnected([vault]));
  }

  lemma ChallengeIsSent(k: Crypto, m: Manager, c: Connection, plain: string)
    requires !m.halted && c in m.incoming
    ensures Sent(c, Challenge(plain)) in Step(k, m, ValidateConnectionRequest(c, plain)).sup.wire.sent
  {
    var after := HandleValidateConnectionRequest(m, c, plain);
    assert after.sup.wire.sent[|m.sup.wire.sent|] == Sent(c, Challenge(plain));
    assert Step(k, m, ValidateConnectionRequest(c, plain)) == after;
  }

  /** A step after which a connection newly waits is the one that challenged it. */
  lemma NewlyChallenged(k: Crypto, boot: Boot, before: seq<Event>, e: Event, c: Connection, plain: string)
    requires e == ValidateConnectionRequest(c, plain)
    requires !Run(k, boot, before).halted && c in Run(k, boot, before).incoming
    ensures Challenged(k, boot, before + [e], c, plain, |before|)
  {
    RunOn(k, boot, before, e);
    ChallengeIsSent(k, Run(k, boot, before), c, plain);
    assert (before + [e])[..|before| + 1] == before + [e];
  }

  predicate WaitsWith(m: Manager, c: Connection, plain: string) {
    c in m.clients.unvalidated && m.clients.unvalidated[c] == plain
  }

  lemma WaitingStep(k: Crypto, boot: Boot, before: seq<Event>, e: Event, c: Connection, plain: string)
    requires WaitsWith(Run(k, boot, before + [e]), c, plain)
    ensures WaitsWith(Run(k, boot, before), c, plain) || Challenged(k, boot, before + [e], c, plain, |before|)
  {
    var m := Run(k, boot, before);
    RunOn(k, boot, before, e);
    RegistriesChange(k, m, e, c);
    if !WaitsWith(m, c, plain) {
      NewlyChallenged(k, boot, before, e, c, plain);
    }
  }

  /** A connection that waits to be validated was issued the challenge it waits with. */
  lemma {:induction false} WaitingWasChallenged(k: Crypto, boot: Boot, events: seq<Event>, c: Connection, plain: string)
    returns (n: nat)
    requires WaitsWith(Run(k, boot, events), c, plain)
    ensures Challenged(k, boot, events, c, plain, n)
    decreases |events|
  {
    if events == [] {
      ConstructClients(boot);
    } else {
      var before, e := events[..|events| - 1], events[|events| - 1];
      assert events == before + [e];
      WaitingStep(k, boot, before, e, c, plain);
      if WaitsWith(Run(k, boot, before), c, plain) {
        n := WaitingWasChallenged(k, boot, before, c, plain);
        ChallengedLater(k, boot, before, e, c, plain, n);
      } else {
        n := |before|;
      }
    }
  }

  /** A connection listed as validated under a name was issued a challenge, and then
      returned a signature on exactly that challenge by a key of that name. */
  lemma {:induction false} ValidatedWasProved(k: Crypto, boot: Boot, events: seq<Event>, c: Connection)
    returns (n: nat, j: nat, plain: string)
    requires c in Run(k, boot, events).clients.validated
    ensures Proved(k, boot, events, c, Run(k, boot, events).clients.validated[c], n, j, plain)
    decreases |events|
  {
    ConstructClients(boot);
    var before, e := events[..|events| - 1], events[|events| - 1];
    var m := Run(k, boot, before);
    RegistriesChange(k, m, e, c);
    assert events == before + [e];
    if c in m.clients.validated && m.clients.validated[c] == Run(k, boot, events).clients.validated[c] {
      n, j, plain := ValidatedWasProved(k, boot, before, c);
    } else {
      plain := m.clients.unvalidated[c];
      n := WaitingWasChallenged(k, boot, before, c, plain);
      j := |events| - 1;
    }
    ChallengedLater(k, boot, before, e, c, plain, n);
  }

  // ------------------------------------------------------------ who is told

  /** What was sent is never forgotten. */
  lemma {:induction false} SentStays(k: Crypto, boot: Boot, events: seq<Event>, n: nat)
    requires n <= |events|
    ensures Run(k, boot, events[..n]).sup.wire.sent <= Run(k, boot, events).sup.wire.sent
    decreases |events| - n
  {
    if n < |events| {
      NextDelivers(k, boot, events[..n], events[n]);
      StepInRun(k, boot, events, n);
      SentStays(k, boot, events, n + 1);
    } else {
      assert events[..n] == events;
    }
  }

  /** Over any run the owner of a vault, if validated when the vault reports, is sent the
      keys the vault has then. */
  lemma OwnersAreTold(k: Crypto, boot: Boot, events: seq<Event>, n: nat, client: Connection)
    requires n < |events| && events[n].VaultStarted?
    ensures var m := Run(k, boot, events[..n]); var i := Find(m.sup.vaults, ByPid(events[n].pid));
            && !m.halted && events[n].c in m.incoming && i < |m.sup.vaults| && OwnedOver(m, i, client) ==>
              var info, sent := m.sup.vaults[i].info, Run(k, boot, events).sup.wire.sent;
              && info.keys.Some?
              && exists to :: to in m.clients.validated && m.clients.validated[to] == m.clients.validated[client]
                              && Sent(to, VaultRunning(info.vaultLabel, info.keys.value)) in sent
  {
    var m, e := Run(k, boot, events[..n]), events[n];
    var i := Find(m.sup.vaults, ByPid(e.pid));
    if !m.halted && e.c in m.incoming && i < |m.sup.vaults| && OwnedOver(m, i, client) {
      var info, sent := m.sup.vaults[i].info, HandleVaultStarted(m, e.c, e.pid).sup.wire.sent;
      OwnerHearsOfStart(k, boot, events[..n], m, e.c, e.pid, client);
      assert info.keys.Some? by {
        RunInv(k, boot, events[..n]);
        assert WellFormed(m.sup.vaults[i]);
      }
      assert Step(k, m, e) == HandleVaultStarted(m, e.c, e.pid);
      SentInStep(k, boot, events, n, sent[|sent| - 1]);
    }
  }

  lemma StepInRun(k: Crypto, boot: Boot, events: seq<Event>, n: nat)
    requires n < |events|
    ensures Step(k, Run(k, boot, events[..n]), events[n]) == Run(k, boot, events[..n + 1])
  {
    RunOn(k, boot, events[..n], events[n]);
    assert events[..n] + [events[n]] == events[..n + 1];
  }

  lemma SentInStep(k: Crypto, boot: Boot, events: seq<Event>, n: nat, sent: Sent)
    requires n < |events| && sent in Step(k, Run(k, boot, events[..n]), events[n]).sup.wire.sent
    ensures sent in Run(k, boot, events).sup.wire.sent
  {
    StepInRun(k, boot, events, n);
    SentStays(k, boot, events, n + 1);
  }

  /** ... and what the vault logs. */
  lemma LogsAreTold(k: Crypto, boot: Boot, events: seq<Event>, n: nat, i: nat, client: Connection)
    requires n < |events| && events[n].VaultLog? && i < |Run(k, boot, events[..n]).sup.vaults|
    ensures var m := Run(k, boot, events[..n]);
            && !m.halted && m.sup.vaults[i].info.connection == Some(events[n].c) && OwnedOver(m, i, client) ==>
              exists to :: to in m.clients.validated && m.clients.validated[to] == m.clients.validated[client]
                           && Sent(to, LogText(events[n].text)) in Run(k, boot, events).sup.wire.sent
  {
    var m, e := Run(k, boot, events[..n]), events[n];
    if !m.halted && m.sup.vaults[i].info.connection == Some(e.c) && OwnedOver(m, i, client) {
      var sent := HandleVaultLog(m, e.c, e.text).sup.wire.sent;
      LogReachesOwner(k, boot, events[..n], m, e.c, e.text, i, client);
      assert Step(k, m, e) == HandleVaultLog(m, e.c, e.text);
      SentInStep(k, boot, events, n, sent[|sent| - 1]);
    }
  }

  /** Over any run every client that is tracked when the network is marked stable is told. */
  lemma AllAreTold(k: Crypto, boot: Boot, events: seq<Event>, n: nat, c: Connection)
    requires n < |events| && events[n] == SetNetworkAsStable
    ensures var m := Run(k, boot, events[..n]);
            !m.halted && m.clients.Tracks(c) ==> Sent(c, NetworkStable) in Run(k, boot, events).sup.wire.sent
  {
    var m := Run(k, boot, events[..n]);
    if !m.halted && m.clients.Tracks(c) {
      MarkingTellsEveryClient(m);
      assert Step(k, m, events[n]) == HandleSetNetworkAsStable(m);
      SentInStep(k, boot, events, n, Sent(c, NetworkStable));
    }
  }

  // --------------------------------------------------------------- who is gone

  /** The connection was handed out, and no registry has it. */
  predicate Gone(m: Manager, c: Connection) {
    c in m.seen && c !in m.incoming && !m.clients.Tracks(c)
  }

  lemma StaysGone(k: Crypto, m: Manager, e: Event, c: Connection)
    requires Gone(m, c)
    ensures Gone(Step(k, m, e), c)
  {
    RegistriesChange(k, m, e, c);
    if m.halted {
      assert Step(k, m, e) == m;
    } else if OnTable(e) {
      TableStepMoves(m, e);
    } else if OffTable(e) {
      OffTableIncoming(k, m, e, c);
    } else if e.ConnectionClosed? {
      assert Step(k, m, e) == HandleConnectionClosed(m, e.c, e.world);
    } else {
      VaultStepMoves(k, m, e);
    }
  }

  lemma OffTableIncoming(k: Crypto, m: Manager, e: Event, c: Connection)
    requires OffTable(e) && c in m.seen && c !in m.incoming
    ensures c in OffTableStep(k, m, e).seen && c !in OffTableStep(k, m, e).incoming
  {
  }

  lemma {:induction false} GoneForGood(k: Crypto, m: Manager, more: seq<Event>, c: Connection)
    requires Gone(m, c)
    ensures Gone(Continue(k, m, more), c)
    decreases |more|
  {
    if more != [] {
      StaysGone(k, m, more[0], c);
      GoneForGood(k, Step(k, m, more[0]), more[1..], c);
    }
  }

  /** A connection that has closed is in no registry then, nor ever after. */
  lemma ClosedIsGone(k: Crypto, boot: Boot, events: seq<Event>, c: Connection, w: World, more: seq<Event>)
    requires !Run(k, boot, events).halted && c in Run(k, boot, events).seen
    ensures Gone(Continue(k, Step(k, Run(k, boot, events), ConnectionClosed(c, w)), more), c)
  {
    var m := Run(k, boot, events);
    ClosedLeavesRegistries(k, boot, events, m, c, w);
    assert Step(k, m, ConnectionClosed(c, w)) == HandleConnectionClosed(m, c, w);
    GoneForGood(k, HandleConnectionClosed(m, c, w), more, c);
  }
}
