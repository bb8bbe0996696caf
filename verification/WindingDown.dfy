/** Shutting down with restarts still posted: vaults may come back then, but no oftener than
    their restarts allow, and none stays. */
module WindingDown {
  import opened VaultTypes
  import opened Supervision
  import opened Registries
  import opened Management
  import opened TableProofs
  import opened SupervisorProofs
  import opened ManagerProofs
  import opened Safety
  import opened Effects
  import opened Shutdown

  /** No child runs, and none has a functor: each is on its way up or down. */
  predicate Winding(s: Supervisor) {
    forall i :: 0 <= i < |s.vaults| ==> s.vaults[i].status in {Starting, Stopping} && s.vaults[i].onExit.None?
  }

  /** Of what breaks a shutdown, all but a request that is granted. */
  predicate Rouses(m: Manager, e: Event) {
    Breaks(m, e) && !e.StartVaultRequest?
  }

  /** From the one to the other no vault was added. */
  predicate NoneAdded(a: Supervisor, b: Supervisor) {
    |a.history.ledger| == |b.history.ledger|
  }

  lemma WindingExit(s: Supervisor, vaultLabel: string, report: ExitReport, launch: Launch)
    requires Winding(s)
    ensures var r := OnProcessExit(s, vaultLabel, report, launch); Winding(r.0) && NoneAdded(s, r.0) && !r.1
  {
    var i := Find(s.vaults, ByLabel(vaultLabel));
    if i < |s.vaults| {
      assert OnProcessExit(s, vaultLabel, report, launch).0.vaults == Without(s.vaults, i);
    }
  }

  lemma WindingRestart(s: Supervisor, j: nat, launch: Launch)
    requires Winding(s)
    ensures Winding(RunRestart(s, j, launch)) && NoneAdded(s, RunRestart(s, j, launch))
  {
    if j < |s.posted| {
      var r := s.posted[j];
      AddProcessExact(s.(posted := Without(s.posted, j)), r.info, r.restarts + 1, Restarted(r.lineage), launch);
    }
  }

  lemma WindingTearDown(m: Manager)
    requires Winding(m.sup) && TableInv(m.sup.vaults)
    ensures Winding(HandleTearDown(m).sup) && NoneAdded(m.sup, HandleTearDown(m).sup)
  {
    if !m.sup.stopAllCalled && AllConnected(m.sup.vaults) {
      var wire := m.sup.wire.CloseAll(m.incoming)
                  .CloseAll(m.clients.unvalidated.Keys).CloseAll(m.clients.validated.Keys);
      var s := m.sup.(wire := wire);
      StopAllStopsAll(s);
      StopAllPairs(s);
      assert HandleTearDown(m).sup == StopAll(s);
    }
  }

  lemma WindingTableStep(m: Manager, e: Event)
    requires Winding(m.sup) && TableInv(m.sup.vaults) && OnTable(e)
    ensures Winding(TableStep(m, e).sup) && NoneAdded(m.sup, TableStep(m, e).sup)
  {
    match e
    case TimerExpires(i) => assert TableStep(m, e).sup == ExpireTimer(m.sup, i);
    case TimeoutRuns(j, w) =>
      assert TableStep(m, e) == AfterExit(m, RunTimeout(m.sup, j, w.launch), w.writes);
      if j < |m.sup.expired| {
        WindingExit(m.sup.(expired := Without(m.sup.expired, j)), m.sup.expired[j], Terminated, w.launch);
      }
    case ChildExited(pid, code, w) =>
      assert TableStep(m, e) == AfterExit(m, ChildSignalled(m.sup, pid, code, w.launch), w.writes);
      var i := Find(m.sup.vaults, ByPid(pid));
      if i < |m.sup.vaults| {
        WindingExit(m.sup, m.sup.vaults[i].info.vaultLabel, Report(code, false), w.launch);
      }
    case RestartRuns(j, launch) =>
      assert TableStep(m, e).sup == RunRestart(m.sup, j, launch);
      WindingRestart(m.sup, j, launch);
    case TearDown =>
      assert TableStep(m, e) == HandleTearDown(m);
      WindingTearDown(m);
  }

  lemma WindingClosed(m: Manager, c: Connection, w: World)
    requires Winding(m.sup)
    ensures Winding(HandleConnectionClosed(m, c, w).sup) && NoneAdded(m.sup, HandleConnectionClosed(m, c, w).sup)
  {
    var i := Find(m.sup.vaults, ByConnection(Some(c)));
    if i < |m.sup.vaults| {
      WindingExit(m.sup, m.sup.vaults[i].info.vaultLabel, Terminated, w.launch);
    }
  }

  lemma WindingRequest(k: Crypto, m: Manager, c: Connection, l: string, dir: string, disk: nat,
                       keys: Option<PmidAndSigner>, defaultDir: string, w: World)
    requires Winding(m.sup) && !m.halted
    ensures var after := HandleStartVaultRequest(m, c, l, dir, disk, keys, defaultDir, w).sup;
            && Winding(after)
            && (!Breaks(m, StartVaultRequest(c, l, dir, disk, keys, defaultDir, w)) ==> NoneAdded(m.sup, after))
  {
    if c in m.clients.validated {
      StartVaultExact(m, c, l, dir, disk, keys, defaultDir, w);
    } else {
      UnvalidatedGetNothing(k, m, c, l, dir, disk, keys, defaultDir, w);
    }
  }

  lemma WindingStarted(m: Manager, c: Connection, pid: nat)
    requires Winding(m.sup) && !m.halted
    ensures var after := HandleVaultStarted(m, c, pid).sup;
            && (Winding(after) <==> !Breaks(m, VaultStarted(c, pid)))
            && NoneAdded(m.sup, after)
  {
    var i := Find(m.sup.vaults, ByPid(pid));
    if c in m.incoming && i < |m.sup.vaults| {
      assert HandleVaultStarted(m, c, pid).sup.vaults[i].status == Running;
    }
  }

  lemma WindingTakeInPlace(k: Crypto, m: Manager, c: Connection, owner: string, i: nat, disk: nat, writes: bool)
    requires Winding(m.sup) && TableInv(m.sup.vaults) && !m.halted && i < |m.sup.vaults|
    ensures var after := TakeInPlace(k, m, c, owner, i, disk, writes).sup; Winding(after) && NoneAdded(m.sup, after)
  {
    var after := TakeInPlace(k, m, c, owner, i, disk, writes).sup;
    assert NoneAdded(m.sup, after) by {
      TakeInPlaceEffect(k, m, c, owner, i, disk, writes);
    }
    TakeInPlaceAlike(k, m, c, owner, i, disk, writes);
    forall j | 0 <= j < |after.vaults|
      ensures after.vaults[j].status in {Starting, Stopping} && after.vaults[j].onExit.None?
    {
      assert Alike(m.sup.vaults[j], after.vaults[j]);
    }
  }

  lemma WindingRelocation(m: Manager, i: nat, info: VaultInfo)
    requires Winding(m.sup) && TableInv(m.sup.vaults) && i < |m.sup.vaults|
    requires info.connection == m.sup.vaults[i].info.connection
    ensures var after := ChangeChunkstorePath(m, info).sup;
            (Winding(after) <==> info.connection.None?) && NoneAdded(m.sup, after)
  {
    FindIsExact(m.sup.vaults, i);
    if info.connection.Some? {
      assert ChangeChunkstorePath(m, info).sup.vaults[i].onExit.Some?;
    }
  }

  lemma WindingOwnership(k: Crypto, m: Manager, c: Connection, l: string, dir: string, disk: nat, writes: bool)
    requires Winding(m.sup) && TableInv(m.sup.vaults) && !m.halted
    ensures var after := HandleTakeOwnershipRequest(k, m, c, l, dir, disk, writes).sup;
            && (Winding(after) <==> !Breaks(m, TakeOwnershipRequest(c, l, dir, disk, writes)))
            && NoneAdded(m.sup, after)
  {
    var i := Find(m.sup.vaults, ByLabel(l));
    if c !in m.clients.validated {
      UnvalidatedGetNothing(k, m, c, l, dir, disk, None, "", World(LaunchFails, writes));
    } else if i < |m.sup.vaults| {
      forall j | 0 <= j < |m.sup.vaults| && m.sup.vaults[j].info.vaultLabel == l
        ensures j == i
      {
        FindIsExact(m.sup.vaults, j);
      }
      var owner := m.clients.validated[c];
      if m.sup.vaults[i].info.dir == dir {
        WindingTakeInPlace(k, m, c, owner, i, disk, writes);
      } else {
        WindingRelocation(m, i, Relocated(m.sup.vaults[i].info, dir, owner, disk));
      }
    }
  }

  lemma WindingVaultStep(k: Crypto, m: Manager, e: Event)
    requires Winding(m.sup) && TableInv(m.sup.vaults) && !m.halted && !OnTable(e) && !OffTable(e)
    ensures Winding(VaultStep(k, m, e).sup) <==> !Rouses(m, e)
    ensures !Breaks(m, e) ==> NoneAdded(m.sup, VaultStep(k, m, e).sup)
  {
    match e
    case ConnectionClosed(c, w) =>
      assert VaultStep(k, m, e) == HandleConnectionClosed(m, c, w);
      WindingClosed(m, c, w);
    case StartVaultRequest(c, l, dir, disk, keys, defaultDir, w) =>
      assert VaultStep(k, m, e) == HandleStartVaultRequest(m, c, l, dir, disk, keys, defaultDir, w);
      WindingRequest(k, m, c, l, dir, disk, keys, defaultDir, w);
    case VaultStarted(c, pid) =>
      assert VaultStep(k, m, e) == HandleVaultStarted(m, c, pid);
      WindingStarted(m, c, pid);
    case TakeOwnershipRequest(c, l, dir, disk, writes) =>
      assert VaultStep(k, m, e) == HandleTakeOwnershipRequest(k, m, c, l, dir, disk, writes);
      WindingOwnership(k, m, c, l, dir, disk, writes);
  }

  /** Every event keeps the state winding if and only if it does not rouse it; and if it does
      not break it either, no vault is added. */
  lemma WindingStep(k: Crypto, m: Manager, e: Event)
    requires Winding(m.sup) && TableInv(m.sup.vaults)
    ensures Winding(Step(k, m, e).sup) <==> !Rouses(m, e)
    ensures !Breaks(m, e) ==> NoneAdded(m.sup, Step(k, m, e).sup)
  {
    if m.halted {
      assert Step(k, m, e) == m;
    } else if OnTable(e) {
      assert Step(k, m, e) == TableStep(m, e);
      WindingTableStep(m, e);
    } else if OffTable(e) {
      assert Step(k, m, e) == OffTableStep(k, m, e);
      OffTableMoves(k, m, e);
    } else {
      assert Step(k, m, e) == VaultStep(k, m, e);
      WindingVaultStep(k, m, e);
    }
  }

  /** What remains of a shutdown that is not broken: launches and restarts to come do not
      exceed what there was, nor do the exits. */
  predicate WoundFrom(a: Supervisor, b: Supervisor) {
    && Winding(b) && NoneAdded(a, b)
    && 0 <= Budget(b) && b.history.launches + Budget(b) <= a.history.launches + Budget(a)
    && b.history.exits <= a.history.exits + |a.vaults| + Budget(a)
  }

  lemma {:induction false} WindsOn(k: Crypto, m: Manager, more: seq<Event>)
    requires Inv(m) && Winding(m.sup) && Calm(k, m, more)
    ensures var after := Continue(k, m, more).sup; Winding(after) && NoneAdded(m.sup, after)
    decreases |more|
  {
    if more != [] {
      WindingStep(k, m, more[0]);
      assert Inv(Step(k, m, more[0])) by {
        StepKeeps(k, m, more[0]);
      }
      WindsOn(k, Step(k, m, more[0]), more[1..]);
    }
  }

  /** From a winding state on, as long as no event breaks it, every sequence of events keeps
      it winding, with no more launches than the restarts that were left; and the table is
      empty if and only if no timer is set or queued for a child. */
  lemma WindsDown(k: Crypto, m: Manager, more: seq<Event>)
    requires Inv(m) && Winding(m.sup) && Calm(k, m, more)
    ensures var after := Continue(k, m, more).sup;
            && WoundFrom(m.sup, after)
            && (after.vaults == [] <==>
                  forall j :: 0 <= j < |after.vaults| ==>
                    !after.vaults[j].armed && after.vaults[j].info.vaultLabel !in after.expired)
  {
    var after := Continue(k, m, more);
    WindsOn(k, m, more);
    assert Inv(after) && Slack(m.sup) <= Slack(after.sup) by {
      ContinueKeeps(k, m, more);
    }
    InvBudget(after);
    assert CountInv(m.sup) && CountInv(after.sup);
    if after.sup.vaults != [] {
      assert Watched(after.sup.vaults[0], after.sup.expired);
    }
  }

  // ------------------------------------------------------------- to the very end

  /** One child out by its timer. */
  lemma OneOut(k: Crypto, m: Manager) returns (events: seq<Event>)
    requires Inv(m) && Winding(m.sup) && !m.halted && m.sup.vaults != []
    ensures Calm(k, m, events) && forall e :: e in events ==> e.TimerExpires? || e.TimeoutRuns?
    ensures var after := Continue(k, m, events);
            && !after.halted && |after.sup.vaults| == |m.sup.vaults| - 1
            && after.sup.history.launches == m.sup.history.launches
  {
    var l, w := m.sup.vaults[0].info.vaultLabel, World(LaunchFails, false);
    assert Watched(m.sup.vaults[0], m.sup.expired);
    if l in m.sup.expired {
      var n :| 0 <= n < |m.sup.expired| && m.sup.expired[n] == l;
      events := [TimeoutRuns(n, w)];
      HandlerTakesOut(k, m, n);
      ContinueOne(k, m, TimeoutRuns(n, w));
    } else {
      var n := |m.sup.expired|;
      var m1 := Step(k, m, TimerExpires(0));
      assert m1 == m.(sup := ExpireTimer(m.sup, 0));
      events := [TimerExpires(0)] + [TimeoutRuns(n, w)];
      ContinueOne(k, m, TimerExpires(0));
      HandlerTakesOut(k, m1, n);
      ContinueOne(k, m1, TimeoutRuns(n, w));
      ContinueJoins(k, m, [TimerExpires(0)], [TimeoutRuns(n, w)]);
    }
  }

  lemma HandlerTakesOut(k: Crypto, m: Manager, n: nat)
    requires Winding(m.sup) && !m.halted && n < |m.sup.expired|
    requires Find(m.sup.vaults, ByLabel(m.sup.expired[n])) < |m.sup.vaults|
    ensures var after := Step(k, m, TimeoutRuns(n, World(LaunchFails, false)));
            && !after.halted && |after.sup.vaults| == |m.sup.vaults| - 1
            && after.sup.history.launches == m.sup.history.launches
  {
    var w := World(LaunchFails, false);
    assert Step(k, m, TimeoutRuns(n, w)) == AfterExit(m, RunTimeout(m.sup, n, w.launch), w.writes);
    var s := m.sup.(expired := Without(m.sup.expired, n));
    var i := Find(s.vaults, ByLabel(m.sup.expired[n]));
    assert RunTimeout(m.sup, n, w.launch) == ExitAt(s, i, Terminated, LaunchFails);
    ExitUnfolds(s, i, Terminated, LaunchFails);
  }

  /** A posted restart runs: its vault is back, or not. */
  lemma OneRestart(k: Crypto, m: Manager, launch: Launch)
    requires Inv(m) && Winding(m.sup) && !m.halted && m.sup.posted != []
    ensures var after := Step(k, m, RestartRuns(0, launch));
            && !after.halted && |after.sup.posted| == |m.sup.posted| - 1
            && 2 * Budget(after.sup) + |after.sup.vaults| < 2 * Budget(m.sup) + |m.sup.vaults|
  {
    var after := Step(k, m, RestartRuns(0, launch));
    assert after == m.(sup := RunRestart(m.sup, 0, launch));
    var r := m.sup.posted[0];
    PostedRestartExact(m.sup, 0, launch);
    PostedBudgetWithout(m.sup.posted, 0);
    assert RestartsOrEnds(m.sup, 0, launch);
    if Startable(m.sup.vaults, r.info, launch) {
      ChildBudgetAppend(m.sup.vaults, Child(r.info, None, true, r.restarts + 1, Starting, launch.pid, r.lineage));
    }
  }

  /** Timers and posted restarts, whether those launch or not, get a winding state to where
      nothing is left: no child, and no restart. */
  lemma {:induction false} NothingIsLeft(k: Crypto, m: Manager, launch: Launch) returns (events: seq<Event>)
    requires Inv(m) && Winding(m.sup) && !m.halted
    ensures Calm(k, m, events)
    ensures forall e :: e in events ==> e.TimerExpires? || e.TimeoutRuns? || e.RestartRuns?
    ensures forall e :: e in events && e.RestartRuns? ==> e.launch == launch
    ensures var after := Continue(k, m, events).sup; after.vaults == [] && after.posted == []
    decreases 2 * Budget(m.sup) + |m.sup.vaults|
  {
    InvBudget(m);
    if m.sup.vaults == [] && m.sup.posted == [] {
      return [];
    }
    var first;
    if m.sup.vaults != [] {
      first := OneOut(k, m);
      WindsDown(k, m, first);
    } else {
      first := [RestartRuns(0, launch)];
      ContinueOne(k, m, RestartRuns(0, launch));
      OneRestart(k, m, launch);
    }
    var m1 := Continue(k, m, first);
    assert Inv(m1) by {
      ContinueKeeps(k, m, first);
    }
    WindsOn(k, m, first);
    InvBudget(m1);
    var rest := NothingIsLeft(k, m1, launch);
    events := first + rest;
    ContinueJoins(k, m, first, rest);
  }

  // ----------------------------------------------------------------- tear-down

  lemma TearDownTable(m: Manager)
    requires TableInv(m.sup.vaults) && AllConnected(m.sup.vaults) && !m.halted && !m.sup.stopAllCalled
    ensures var down := HandleTearDown(m);
            && !down.halted && Winding(down.sup) && NoneAdded(m.sup, down.sup)
            && |down.sup.vaults| == |m.sup.vaults| && down.sup.posted == m.sup.posted
            && Budget(down.sup) == Budget(m.sup) && down.sup.history.launches == m.sup.history.launches
            && down.sup.wire.sent == m.sup.wire.sent + ShutdownRequests(m.sup.vaults)
  {
    var wire := m.sup.wire.CloseAll(m.incoming)
                .CloseAll(m.clients.unvalidated.Keys).CloseAll(m.clients.validated.Keys);
    var s := m.sup.(wire := wire);
    assert HandleTearDown(m).sup == StopAll(s);
    StopAllStopsAll(s);
    StopAllPairs(s);
    StopFromStops(s.(stopAllCalled := true), 0);
    StopFromCalled(s.(stopAllCalled := true), 0);
    ChildBudgetSame(m.sup.vaults, StopAll(s).vaults);
  }

  /** Tearing down any reachable state in which every vault is connected, restarts posted or
      not: whatever follows and does not break it, vaults come back no oftener than the
      restarts that were left at the tear-down allow. */
  lemma TearDownWindsDown(k: Crypto, boot: Boot, events: seq<Event>, m: Manager, more: seq<Event>)
    requires m == Run(k, boot, events) && !m.halted && !m.sup.stopAllCalled && AllConnected(m.sup.vaults)
    requires Calm(k, HandleTearDown(m), more)
    ensures var down := HandleTearDown(m); var after := Continue(k, down, more).sup;
            && !down.halted && Winding(down.sup) && Budget(down.sup) == Budget(m.sup)
            && WoundFrom(down.sup, after)
            && after.history.launches <= m.sup.history.launches + Budget(m.sup)
            && (after.vaults == [] <==>
                  forall j :: 0 <= j < |after.vaults| ==>
                    !after.vaults[j].armed && after.vaults[j].info.vaultLabel !in after.expired)
  {
    var down := HandleTearDown(m);
    assert TableInv(m.sup.vaults) && Inv(down) by {
      RunInv(k, boot, events);
      TearDownKeeps(m);
    }
    TearDownTable(m);
    WindsDown(k, down, more);
  }
}
