/** Taking vaults over in another directory: the vault is stopped with a functor that adds
    it again, and what becomes of that functor until the vault exits. */
module Relocation {
  import opened VaultTypes
  import opened Supervision
  import opened Registries
  import opened Management
  import opened TableProofs
  import opened LineageProofs
  import opened ConnectionProofs
  import opened ManagerProofs

  /** What taking a connected vault over in another directory does at once. */
  lemma RelocationStops(k: Crypto, m: Manager, c: Connection, i: nat, dir: string, disk: nat, writes: bool)
    requires TableInv(m.sup.vaults) && c in m.clients.validated && i < |m.sup.vaults|
    requires m.sup.vaults[i].info.connection.Some? && m.sup.vaults[i].info.dir != dir
    ensures var child := m.sup.vaults[i];
            var info := Relocated(child.info, dir, m.clients.validated[c], disk);
            var after := HandleTakeOwnershipRequest(k, m, c, child.info.vaultLabel, dir, disk, writes);
            && after.sup.vaults == m.sup.vaults[i := BeingStopped(child, Some(Functor(m.sup.history.installed, info)))]
            && after.sup.history.ledger == m.sup.history.ledger
            && after.sup.history.installed == m.sup.history.installed + 1
            && after.sup.wire.sent == m.sup.wire.sent + [Sent(info.connection.value, VaultShutdownRequest),
                                                         Sent(info.connection.value, VaultShutdownRequest)]
            && after.halted == m.halted
  {
    FindIsExact(m.sup.vaults, i);
  }

  /** What the vault that the functor of the i-th child adds again needs. */
  predicate MayReturn(s: Supervisor, i: nat, launch: Launch)
    requires i < |s.vaults| && s.vaults[i].onExit.Some?
  {
    && s.vaults[i].onExit.value.info.dir != ""
    && (forall j :: 0 <= j < |s.vaults| && j != i ==> s.vaults[j].info.dir != s.vaults[i].onExit.value.info.dir)
    && (forall j :: 0 <= j < |s.vaults| && j != i ==> PmidName(s.vaults[j].info) != PmidName(s.vaults[i].info))
    && launch.Launches?
  }

  /** What the exit of a child with a functor does: its vault is back, once, at the end
      of the table and with the connection it was taken over with, if it may return; else
      it is gone. */
  lemma RelocationReturns(s: Supervisor, i: nat, report: ExitReport, launch: Launch, free: set<Connection>)
    requires TableInv(s.vaults) && HoldersInv(s.vaults, free) && i < |s.vaults| && s.vaults[i].onExit.Some?
    ensures var r := OnProcessExit(s, s.vaults[i].info.vaultLabel, report, launch);
            var info := s.vaults[i].onExit.value.info;
            && (r.1 <==> MayReturn(s, i, launch))
            && (r.1 ==> r.0.vaults == Without(s.vaults, i) + [Started(info, 0, launch.pid, |s.history.ledger|)])
            && (!r.1 ==> r.0.vaults == Without(s.vaults, i))
            && (s.vaults[i].info.connection.Some? ==> s.vaults[i].info.connection.value in r.0.wire.closed)
            && (s.vaults[i].status == Stopping ==>
                  s.vaults[i].lineage in r.0.history.ended && r.0.history.ended[s.vaults[i].lineage] == Stopped)
  {
    FindIsExact(s.vaults, i);
    RelocationSound(s, i, report, launch, free);
  }

  /** In every reachable state a vault that is to be added again is so unless its new
      directory is empty or in use, its Pmid name is in use, or the launch fails: never
      for its own old entry, label or connection. */
  lemma RelocationNeverSelfConflicts(k: Crypto, boot: Boot, events: seq<Event>, i: nat, report: ExitReport,
                                     launch: Launch)
    requires i < |Run(k, boot, events).sup.vaults| && Run(k, boot, events).sup.vaults[i].onExit.Some?
    ensures var s := Run(k, boot, events).sup; var info := s.vaults[i].onExit.value.info;
            AddProcess(Called(s, i, report), info, 0, NewVault, launch).Added? <==> MayReturn(s, i, launch)
  {
    RunInv(k, boot, events);
    RelocationSound(Run(k, boot, events).sup, i, report, launch, Free(Run(k, boot, events)));
  }

  // -------------------------------------------- functors stay what they were

  predicate SameButKeys(a: VaultInfo, b: VaultInfo) {
    a.(keys := b.keys) == b
  }

  /** The i-th child has the functor of the other, and both are one vault. */
  predicate HasFunctorOf(vaults: seq<Child>, i: nat, child: Child)
    requires child.onExit.Some?
  {
    && i < |vaults| && vaults[i].onExit.Some? && vaults[i].lineage == child.lineage
    && vaults[i].onExit.value.id == child.onExit.value.id
    && SameButKeys(vaults[i].onExit.value.info, child.onExit.value.info)
  }

  /** Functors that were there before sit where they sat and will add what they would
      have added, but for what became of the keys. */
  ghost predicate FunctorsStay(a: Supervisor, b: Supervisor) {
    && a.history.installed <= b.history.installed
    && forall j :: 0 <= j < |b.vaults| ==>
         b.vaults[j].onExit.Some? && b.vaults[j].onExit.value.id < a.history.installed ==>
           exists i: nat :: HasFunctorOf(a.vaults, i, b.vaults[j])
  }

  lemma FunctorsStayTrans(a: Supervisor, b: Supervisor, c: Supervisor)
    requires FunctorsStay(a, b) && FunctorsStay(b, c)
    ensures FunctorsStay(a, c)
  {
    forall j | 0 <= j < |c.vaults| && c.vaults[j].onExit.Some? && c.vaults[j].onExit.value.id < a.history.installed
      ensures exists i: nat :: HasFunctorOf(a.vaults, i, c.vaults[j])
    {
      var n: nat :| HasFunctorOf(b.vaults, n, c.vaults[j]);
      var i: nat :| HasFunctorOf(a.vaults, i, b.vaults[n]);
      assert HasFunctorOf(a.vaults, i, c.vaults[j]);
    }
  }

  /** Child by child, the functor is the same, gone, or newly installed. */
  lemma InPlaceFunctors(a: Supervisor, b: Supervisor)
    requires |a.vaults| == |b.vaults| && a.history.installed <= b.history.installed
    requires forall j :: 0 <= j < |b.vaults| && b.vaults[j].onExit.Some? ==>
               HasFunctorOf(a.vaults, j, b.vaults[j]) || b.vaults[j].onExit.value.id >= a.history.installed
    ensures FunctorsStay(a, b)
  {
  }

  /** An exit takes the child out and adds at most one, without a functor. */
  lemma ExitTable(s: Supervisor, i: nat, report: ExitReport, launch: Launch)
    requires i < |s.vaults|
    ensures var b := ExitAt(s, i, report, launch).0; var n := |s.vaults| - 1;
            && n <= |b.vaults| <= n + 1 && b.history.installed == s.history.installed
            && (forall j :: 0 <= j < n ==> b.vaults[j] == Without(s.vaults, i)[j])
            && (|b.vaults| == n + 1 ==> b.vaults[n].onExit.None?)
  {
    ExitUnfolds(s, i, report, launch);
  }

  lemma ExitFunctorsStay(s: Supervisor, vaultLabel: string, report: ExitReport, launch: Launch)
    ensures FunctorsStay(s, OnProcessExit(s, vaultLabel, report, launch).0)
  {
    var i := Find(s.vaults, ByLabel(vaultLabel));
    var b := OnProcessExit(s, vaultLabel, report, launch).0;
    if i < |s.vaults| {
      var rest := Without(s.vaults, i);
      ExitTable(s, i, report, launch);
      forall j | 0 <= j < |b.vaults| && b.vaults[j].onExit.Some?
        ensures exists n: nat :: HasFunctorOf(s.vaults, n, b.vaults[j])
      {
        assert b.vaults[j] == rest[j];
        assert HasFunctorOf(s.vaults, if j < i then j else j + 1, b.vaults[j]);
      }
    } else {
      InPlaceFunctors(s, b);
    }
  }

  lemma RestartFunctorsStay(s: Supervisor, n: nat, launch: Launch)
    ensures FunctorsStay(s, RunRestart(s, n, launch))
  {
    var b := RunRestart(s, n, launch);
    forall j | 0 <= j < |b.vaults| && b.vaults[j].onExit.Some?
      ensures exists i: nat :: HasFunctorOf(s.vaults, i, b.vaults[j])
    {
      assert HasFunctorOf(s.vaults, j, b.vaults[j]);
    }
  }

  lemma RequestFunctorsStay(m: Manager, c: Connection, info: VaultInfo, w: World)
    ensures FunctorsStay(m.sup, StartRequested(m, c, info, w).sup)
  {
    var b := StartRequested(m, c, info, w).sup;
    forall j | 0 <= j < |b.vaults| && b.vaults[j].onExit.Some?
      ensures exists i: nat :: HasFunctorOf(m.sup.vaults, i, b.vaults[j])
    {
      assert HasFunctorOf(m.sup.vaults, j, b.vaults[j]);
    }
  }

  lemma {:induction false} StopFromFunctorsStay(s: Supervisor, i: nat)
    requires i <= |s.vaults| && AllConnected(s.vaults)
    ensures FunctorsStay(s, StopFrom(s, i))
    decreases |s.vaults| - i
  {
    if i < |s.vaults| {
      var s1 := StopProcess(s, s.vaults[i].info.connection.value, None);
      InPlaceFunctors(s, s1);
      StopFromFunctorsStay(s1, i + 1);
      FunctorsStayTrans(s, s1, StopFrom(s1, i + 1));
    } else {
      InPlaceFunctors(s, s);
    }
  }

  lemma TearDownFunctorsStay(m: Manager)
    ensures FunctorsStay(m.sup, HandleTearDown(m).sup)
  {
    var wire := m.sup.wire.CloseAll(m.incoming)
                .CloseAll(m.clients.unvalidated.Keys).CloseAll(m.clients.validated.Keys);
    if !m.sup.stopAllCalled && AllConnected(m.sup.vaults) {
      var s0 := m.sup.(wire := wire, stopAllCalled := true);
      StopFromFunctorsStay(s0, 0);
      InPlaceFunctors(m.sup, s0);
      FunctorsStayTrans(m.sup, s0, StopFrom(s0, 0));
    } else {
      InPlaceFunctors(m.sup, HandleTearDown(m).sup);
    }
  }

  lemma OwnershipFunctorsStay(k: Crypto, m: Manager, c: Connection, l: string, dir: string, disk: nat, writes: bool)
    requires TableInv(m.sup.vaults) && !m.halted
    ensures FunctorsStay(m.sup, HandleTakeOwnershipRequest(k, m, c, l, dir, disk, writes).sup)
  {
    var after := HandleTakeOwnershipRequest(k, m, c, l, dir, disk, writes);
    var i := Find(m.sup.vaults, ByLabel(l));
    if c in m.clients.validated && i < |m.sup.vaults| && m.sup.vaults[i].info.dir == dir {
      TakeInPlaceFunctorsStay(k, m, c, m.clients.validated[c], i, disk, writes);
    } else {
      InPlaceFunctors(m.sup, after.sup);
    }
  }

  lemma PairedFunctor(vaults: seq<Child>, j: nat, child: Child, pair: nat, keys: PmidAndSigner)
    requires j < |vaults| && child.onExit == vaults[j].onExit && child.lineage == vaults[j].lineage
    ensures child.onExit.Some? ==>
      HasFunctorOf(vaults, j, child) && HasFunctorOf(vaults, j, ChildWithPair(child, pair, keys))
  {
  }

  lemma TakeInPlaceFunctorsStay(k: Crypto, m: Manager, c: Connection, owner: string, i: nat, disk: nat, writes: bool)
    requires TableInv(m.sup.vaults) && !m.halted && i < |m.sup.vaults|
    ensures FunctorsStay(m.sup, TakeInPlace(k, m, c, owner, i, disk, writes).sup)
  {
    var b := TakeInPlace(k, m, c, owner, i, disk, writes).sup;
    var taken := Taken(m.sup.vaults, i, owner, disk);
    TakeInPlaceEffect(k, m, c, owner, i, disk, writes);
    assert |b.vaults| == |taken| && b.history.installed == m.sup.history.installed;
    forall j | 0 <= j < |b.vaults| && b.vaults[j].onExit.Some?
      ensures HasFunctorOf(m.sup.vaults, j, b.vaults[j])
    {
      var info := m.sup.vaults[i].info;
      assert b.vaults[j] == taken[j] || b.vaults[j] == m.sup.vaults[j]
             || b.vaults[j] == ChildWithPair(taken[j], info.pair, k.moved(info.keys.value));
      PairedFunctor(m.sup.vaults, j, taken[j], info.pair, k.moved(info.keys.value));
    }
    InPlaceFunctors(m.sup, b);
  }

  lemma ClosedFunctorsStay(m: Manager, c: Connection, w: World)
    ensures FunctorsStay(m.sup, HandleConnectionClosed(m, c, w).sup)
  {
    var i := Find(m.sup.vaults, ByConnection(Some(c)));
    if i < |m.sup.vaults| {
      ExitFunctorsStay(m.sup, m.sup.vaults[i].info.vaultLabel, Terminated, w.launch);
    } else {
      InPlaceFunctors(m.sup, m.sup);
    }
  }

  lemma StartedFunctorsStay(m: Manager, c: Connection, pid: nat)
    ensures FunctorsStay(m.sup, HandleVaultStarted(m, c, pid).sup)
  {
    var b := HandleVaultStarted(m, c, pid).sup;
    assert |b.vaults| == |m.sup.vaults| && b.history == m.sup.history
           && forall j :: 0 <= j < |b.vaults| ==> b.vaults[j].onExit == m.sup.vaults[j].onExit
                                                  && b.vaults[j].lineage == m.sup.vaults[j].lineage;
    InPlaceFunctors(m.sup, b);
  }

  lemma TableEventFunctorsStay(m: Manager, e: Event)
    requires OnTable(e)
    ensures FunctorsStay(m.sup, TableStep(m, e).sup)
  {
    match e
    case TimerExpires(i) =>
      assert TableStep(m, e).sup == ExpireTimer(m.sup, i);
      InPlaceFunctors(m.sup, ExpireTimer(m.sup, i));
    case TimeoutRuns(j, w) =>
      assert TableStep(m, e) == AfterExit(m, RunTimeout(m.sup, j, w.launch), w.writes);
      if j < |m.sup.expired| {
        var s0 := m.sup.(expired := Without(m.sup.expired, j));
        InPlaceFunctors(m.sup, s0);
        ExitFunctorsStay(s0, m.sup.expired[j], Terminated, w.launch);
        FunctorsStayTrans(m.sup, s0, RunTimeout(m.sup, j, w.launch).0);
      } else {
        InPlaceFunctors(m.sup, m.sup);
      }
    case ChildExited(pid, code, w) =>
      assert TableStep(m, e) == AfterExit(m, ChildSignalled(m.sup, pid, code, w.launch), w.writes);
      var i := Find(m.sup.vaults, ByPid(pid));
      if i < |m.sup.vaults| {
        ExitFunctorsStay(m.sup, m.sup.vaults[i].info.vaultLabel, Report(code, false), w.launch);
      } else {
        InPlaceFunctors(m.sup, m.sup);
      }
    case RestartRuns(j, launch) =>
      assert TableStep(m, e).sup == RunRestart(m.sup, j, launch);
      RestartFunctorsStay(m.sup, j, launch);
    case TearDown =>
      assert TableStep(m, e) == HandleTearDown(m);
      TearDownFunctorsStay(m);
  }

  lemma StepFunctorsStay(k: Crypto, m: Manager, e: Event)
    requires TableInv(m.sup.vaults)
    ensures FunctorsStay(m.sup, Step(k, m, e).sup)
  {
    if m.halted {
      assert Step(k, m, e) == m;
      InPlaceFunctors(m.sup, m.sup);
    } else if OnTable(e) {
      TableEventFunctorsStay(m, e);
    } else if OffTable(e) {
      OffTableMoves(k, m, e);
      InPlaceFunctors(m.sup, Step(k, m, e).sup);
    } else {
      match e
      case ConnectionClosed(c, w) =>
        assert Step(k, m, e) == HandleConnectionClosed(m, c, w);
        ClosedFunctorsStay(m, c, w);
      case StartVaultRequest(c, l, dir, disk, keys, defaultDir, w) =>
        assert Step(k, m, e) == HandleStartVaultRequest(m, c, l, dir, disk, keys, defaultDir, w);
        if c in m.clients.validated {
          var info := RequestedVault(m.clients.validated[c], l, dir, disk, keys, defaultDir, m.pairs);
          RequestFunctorsStay(m.(pairs := m.pairs + 1), c, info, w);
        } else {
          InPlaceFunctors(m.sup, Step(k, m, e).sup);
        }
      case VaultStarted(c, pid) =>
        assert Step(k, m, e) == HandleVaultStarted(m, c, pid);
        StartedFunctorsStay(m, c, pid);
      case TakeOwnershipRequest(c, l, dir, disk, writes) =>
        assert Step(k, m, e) == HandleTakeOwnershipRequest(k, m, c, l, dir, disk, writes);
        OwnershipFunctorsStay(k, m, c, l, dir, disk, writes);
    }
  }

  lemma {:induction false} ContinueFunctorsStay(k: Crypto, m: Manager, more: seq<Event>)
    requires Inv(m)
    ensures FunctorsStay(m.sup, Continue(k, m, more).sup)
    decreases |more|
  {
    if more == [] {
      InPlaceFunctors(m.sup, m.sup);
    } else {
      var m1 := Step(k, m, more[0]);
      StepFunctorsStay(k, m, more[0]);
      assert Inv(m1) by {
        StepKeeps(k, m, more[0]);
      }
      ContinueFunctorsStay(k, m1, more[1..]);
      FunctorsStayTrans(m.sup, m1.sup, Continue(k, m1, more[1..]).sup);
    }
  }

  // --------------------------------------------------------------- end to end

  /** The functor of the j-th child is as the take-over of the earlier child made it. */
  predicate Bound(child: Child, later: Supervisor, j: nat, dir: string, owner: string, disk: nat)
    requires j < |later.vaults| && later.vaults[j].onExit.Some?
  {
    var now, info := later.vaults[j], later.vaults[j].onExit.value.info;
    && now.lineage == child.lineage
    && now.info.vaultLabel == child.info.vaultLabel
    && info == child.info.(keys := now.info.keys, dir := dir, maxDiskUsage := disk, owner := Some(owner))
  }

  lemma FunctorIsBound(k: Crypto, m: Manager, c: Connection, i: nat, dir: string, disk: nat, more: seq<Event>, j: nat)
    requires Inv(m) && c in m.clients.validated && i < |m.sup.vaults|
    requires m.sup.vaults[i].info.connection.Some? && m.sup.vaults[i].info.dir != dir
    requires var stopping := HandleTakeOwnershipRequest(k, m, c, m.sup.vaults[i].info.vaultLabel, dir, disk, true);
             var later := Continue(k, stopping, more).sup;
             && j < |later.vaults| && later.vaults[j].onExit.Some?
             && later.vaults[j].onExit.value.id == m.sup.history.installed
    ensures var stopping := HandleTakeOwnershipRequest(k, m, c, m.sup.vaults[i].info.vaultLabel, dir, disk, true);
            Bound(m.sup.vaults[i], Continue(k, stopping, more).sup, j, dir, m.clients.validated[c], disk)
  {
    var child := m.sup.vaults[i];
    var stopping := HandleTakeOwnershipRequest(k, m, c, child.info.vaultLabel, dir, disk, true);
    var later := Continue(k, stopping, more);
    assert Inv(stopping) && Inv(later) by {
      TakeOwnershipRequestKeeps(k, m, c, child.info.vaultLabel, dir, disk, true);
      ContinueKeeps(k, stopping, more);
    }
    RelocationStops(k, m, c, i, dir, disk, true);
    assert exists n: nat :: HasFunctorOf(stopping.sup.vaults, n, later.sup.vaults[j]) by {
      ContinueFunctorsStay(k, stopping, more);
    }
    var n: nat :| HasFunctorOf(stopping.sup.vaults, n, later.sup.vaults[j]);
    assert n == i by {
      assert FunctorInv(m.sup);
    }
    SameFunctorIsBound(child, stopping.sup, i, later.sup, j, dir, m.clients.validated[c], disk);
  }

  lemma SameFunctorIsBound(child: Child, stopping: Supervisor, i: nat, later: Supervisor, j: nat, dir: string,
                           owner: string, disk: nat)
    requires i < |stopping.vaults| && j < |later.vaults| && later.vaults[j].onExit.Some?
    requires HasFunctorOf(stopping.vaults, i, later.vaults[j]) && CapturesOwn(later.vaults[j])
    requires stopping.vaults[i].onExit.value.info == Relocated(child.info, dir, owner, disk)
    requires stopping.vaults[i].lineage == child.lineage
    ensures Bound(child, later, j, dir, owner, disk)
  {
  }

  /** Taking a connected vault over in another directory stops it.  Whatever happens then,
      as long as the functor is in place it sits on that vault, and when the vault exits
      it is back, once, in that directory, with its label, its keys as they are by then,
      its new owner and its old connection, as a new lineage: if and only if no other
      child has come to use the directory or the Pmid name, and it launches. */
  lemma RelocationEndToEnd(k: Crypto, boot: Boot, events: seq<Event>, m: Manager, c: Connection, i: nat, dir: string,
                           disk: nat, more: seq<Event>, j: nat, report: ExitReport, launch: Launch)
    requires m == Run(k, boot, events) && c in m.clients.validated && i < |m.sup.vaults|
    requires m.sup.vaults[i].info.connection.Some? && m.sup.vaults[i].info.dir != dir
    requires var stopping := HandleTakeOwnershipRequest(k, m, c, m.sup.vaults[i].info.vaultLabel, dir, disk, true);
             var later := Continue(k, stopping, more).sup;
             && j < |later.vaults| && later.vaults[j].onExit.Some?
             && later.vaults[j].onExit.value.id == m.sup.history.installed
    ensures var stopping := HandleTakeOwnershipRequest(k, m, c, m.sup.vaults[i].info.vaultLabel, dir, disk, true);
            var later := Continue(k, stopping, more).sup;
            var r := OnProcessExit(later, m.sup.vaults[i].info.vaultLabel, report, launch);
            var info := later.vaults[j].onExit.value.info;
            && Bound(m.sup.vaults[i], later, j, dir, m.clients.validated[c], disk)
            && (r.1 <==> MayReturn(later, j, launch))
            && (r.1 ==> r.0.vaults == Without(later.vaults, j) + [Started(info, 0, launch.pid, |later.history.ledger|)])
            && (!r.1 ==> r.0.vaults == Without(later.vaults, j))
            && (later.vaults[j].status == Stopping ==>
                  m.sup.vaults[i].lineage in r.0.history.ended && r.0.history.ended[m.sup.vaults[i].lineage] == Stopped)
  {
    assert Inv(m) by {
      RunInv(k, boot, events);
    }
    var stopping := HandleTakeOwnershipRequest(k, m, c, m.sup.vaults[i].info.vaultLabel, dir, disk, true);
    var later := Continue(k, stopping, more);
    assert TableInv(later.sup.vaults) && HoldersInv(later.sup.vaults, Free(later)) by {
      TakeOwnershipRequestKeeps(k, m, c, m.sup.vaults[i].info.vaultLabel, dir, disk, true);
      ContinueKeeps(k, stopping, more);
    }
    FunctorIsBound(k, m, c, i, dir, disk, more, j);
    RelocationReturns(later.sup, j, report, launch, Free(later));
  }
}
