/** Shutting down: StopAll stops every child, and from there the table only empties. */
module Shutdown {
  import opened VaultTypes
  import opened Supervision
  import opened Registries
  import opened Management
  import opened TableProofs
  import opened ManagerProofs
  import opened Effects

  /** Every child is being stopped for good, and no restart is waiting. */
  predicate Draining(s: Supervisor) {
    s.posted == [] && forall i :: 0 <= i < |s.vaults| ==> s.vaults[i].status == Stopping && s.vaults[i].onExit.None?
  }

  /** One request for every child, in table order. */
  function ShutdownRequests(vaults: seq<Child>): seq<Sent>
    requires AllConnected(vaults)
  {
    seq(|vaults|, i requires 0 <= i < |vaults| => Sent(vaults[i].info.connection.value, VaultShutdownRequest))
  }

  lemma StopProcessAsks(s: Supervisor, i: nat)
    requires i < |s.vaults| && AllConnected(s.vaults)
    ensures var c := s.vaults[i].info.connection.value; var after := StopProcess(s, c, None);
            && after.wire == s.wire.Send(c, VaultShutdownRequest)
            && AllConnected(after.vaults) && ShutdownRequests(after.vaults) == ShutdownRequests(s.vaults)
  {
    assert Matches(s.vaults[i], ByConnection(s.vaults[i].info.connection));
    var after := StopProcess(s, s.vaults[i].info.connection.value, None);
    assert forall j :: 0 <= j < |s.vaults| ==> after.vaults[j].info == s.vaults[j].info;
  }

  lemma {:induction false} StopFromAsks(s: Supervisor, i: nat)
    requires i <= |s.vaults| && AllConnected(s.vaults)
    ensures StopFrom(s, i).wire.sent == s.wire.sent + ShutdownRequests(s.vaults)[i..]
    ensures StopFrom(s, i).wire.closed == s.wire.closed
    decreases |s.vaults| - i
  {
    if i < |s.vaults| {
      var c := s.vaults[i].info.connection.value;
      StopProcessAsks(s, i);
      StopFromAsks(StopProcess(s, c, None), i + 1);
      assert ShutdownRequests(s.vaults)[i] == Sent(c, VaultShutdownRequest);
      NextElement(s.wire.sent, ShutdownRequests(s.vaults), i);
      assert StopFrom(s, i) == StopFrom(StopProcess(s, c, None), i + 1);
    }
  }

  lemma {:induction false} StopFromStops(s: Supervisor, i: nat)
    requires TableInv(s.vaults) && i <= |s.vaults| && AllConnected(s.vaults)
    requires forall j :: 0 <= j < i ==> s.vaults[j] == BeingStopped(s.vaults[j], None)
    ensures var after := StopFrom(s, i);
            && |after.vaults| == |s.vaults|
            && after.posted == s.posted
            && forall j :: 0 <= j < |s.vaults| ==> after.vaults[j] == BeingStopped(s.vaults[j], None)
    decreases |s.vaults| - i
  {
    if i < |s.vaults| {
      var c := s.vaults[i].info.connection.value;
      FindIsExact(s.vaults, i);
      StopProcessKeepsTable(s, c, None);
      StopFromStops(StopProcess(s, c, None), i + 1);
    }
  }

  /** StopAll on a connected table leaves each child in its place, stopping, without an
      on-exit functor and with its timer running.  It stops by looking connections up,
      so this needs them to be unique. */
  lemma StopAllStopsAll(s: Supervisor)
    requires TableInv(s.vaults) && AllConnected(s.vaults) && !s.stopAllCalled
    ensures var after := StopAll(s);
            && after.stopAllCalled
            && |after.vaults| == |s.vaults|
            && forall j :: 0 <= j < |s.vaults| ==>
                 after.vaults[j] == s.vaults[j].(status := Stopping, onExit := None, armed := true)
    ensures StopAll(s).wire.sent == s.wire.sent + ShutdownRequests(s.vaults)
    ensures Draining(StopAll(s)) <==> s.posted == []
  {
    StopFromAsks(s.(stopAllCalled := true), 0);
    StopFromStops(s.(stopAllCalled := true), 0);
    StopFromCalled(s.(stopAllCalled := true), 0);
  }

  lemma {:induction false} StopFromCalled(s: Supervisor, i: nat)
    requires i <= |s.vaults| && AllConnected(s.vaults)
    ensures StopFrom(s, i).stopAllCalled == s.stopAllCalled
    ensures StopFrom(s, i).history.launches == s.history.launches
    decreases |s.vaults| - i
  {
    if i < |s.vaults| {
      StopFromCalled(StopProcess(s, s.vaults[i].info.connection.value, None), i + 1);
    }
  }

  // -------------------------------------------------------------- convergence

  /** Events that bring a vault in or back: a request that does start one, a report by a
      process in the table over a new connection, and a validated client that takes a
      connected vault over in another directory. */
  predicate Breaks(m: Manager, e: Event) {
    !m.halted &&
    match e
    case StartVaultRequest(c, l, dir, disk, keys, defaultDir, w) =>
      c in m.clients.validated
      && var info := RequestedVault(m.clients.validated[c], l, dir, disk, keys, defaultDir, m.pairs);
         Startable(m.sup.vaults, info, w.launch)
    case VaultStarted(c, pid) => c in m.incoming && Find(m.sup.vaults, ByPid(pid)) < |m.sup.vaults|
    case TakeOwnershipRequest(c, l, dir, _, _) =>
      c in m.clients.validated
      && exists i :: 0 <= i < |m.sup.vaults| && m.sup.vaults[i].info.vaultLabel == l
                     && m.sup.vaults[i].info.connection.Some? && m.sup.vaults[i].info.dir != dir
    case _ => false
  }

  predicate Calm(k: Crypto, m: Manager, events: seq<Event>)
    decreases |events|
  {
    events == [] || (!Breaks(m, events[0]) && Calm(k, Step(k, m, events[0]), events[1..]))
  }

  /** The table loses children and gains none; nothing is launched. */
  predicate Shrinks(a: Supervisor, b: Supervisor) {
    && |b.vaults| <= |a.vaults|
    && b.history.launches == a.history.launches
    && (forall j :: 0 <= j < |b.vaults| ==> HasChild(a.vaults, b.vaults[j].lineage))
  }

  predicate HasChild(vaults: seq<Child>, l: nat) {
    exists i :: 0 <= i < |vaults| && vaults[i].lineage == l
  }

  lemma SamePlacesShrink(a: Supervisor, b: Supervisor)
    requires |a.vaults| == |b.vaults| && b.history.launches == a.history.launches
    requires forall j :: 0 <= j < |b.vaults| ==> b.vaults[j].lineage == a.vaults[j].lineage
    ensures Shrinks(a, b)
  {
    forall j | 0 <= j < |b.vaults|
      ensures HasChild(a.vaults, b.vaults[j].lineage)
    {
      assert a.vaults[j].lineage == b.vaults[j].lineage;
    }
  }

  lemma ShrinksTrans(a: Supervisor, b: Supervisor, c: Supervisor)
    requires Shrinks(a, b) && Shrinks(b, c)
    ensures Shrinks(a, c)
  {
    forall j | 0 <= j < |c.vaults|
      ensures HasChild(a.vaults, c.vaults[j].lineage)
    {
      var i :| 0 <= i < |b.vaults| && b.vaults[i].lineage == c.vaults[j].lineage;
    }
  }

  lemma DrainingExit(s: Supervisor, vaultLabel: string, report: ExitReport, launch: Launch)
    requires Draining(s)
    ensures var r := OnProcessExit(s, vaultLabel, report, launch);
            Draining(r.0) && Shrinks(s, r.0) && !r.1
  {
    var i := Find(s.vaults, ByLabel(vaultLabel));
    if i < |s.vaults| {
      var after := OnProcessExit(s, vaultLabel, report, launch).0;
      assert after.vaults == Without(s.vaults, i);
      forall j | 0 <= j < |after.vaults|
        ensures HasChild(s.vaults, after.vaults[j].lineage)
      {
        assert s.vaults[if j < i then j else j + 1].lineage == after.vaults[j].lineage;
      }
    } else {
      SamePlacesShrink(s, s);
    }
  }

  lemma DrainingStopFrom(s: Supervisor)
    requires Draining(s) && TableInv(s.vaults) && AllConnected(s.vaults)
    ensures Draining(StopFrom(s, 0)) && Shrinks(s, StopFrom(s, 0))
  {
    StopFromStops(s, 0);
    StopFromCalled(s, 0);
    SamePlacesShrink(s, StopFrom(s, 0));
  }

  lemma DrainingTearDown(m: Manager)
    requires Draining(m.sup) && TableInv(m.sup.vaults)
    ensures Draining(HandleTearDown(m).sup) && Shrinks(m.sup, HandleTearDown(m).sup)
  {
    SamePlacesShrink(m.sup, m.sup);
    if !m.sup.stopAllCalled && AllConnected(m.sup.vaults) {
      var wire := m.sup.wire.CloseAll(m.incoming)
                  .CloseAll(m.clients.unvalidated.Keys).CloseAll(m.clients.validated.Keys);
      DrainingStopFrom(m.sup.(wire := wire, stopAllCalled := true));
    } else {
      SamePlacesShrink(m.sup, HandleTearDown(m).sup);
    }
  }

  /** A take-over ends the draining if and only if it relocates a vault. */
  lemma DrainingOwnership(k: Crypto, m: Manager, c: Connection, l: string, dir: string, disk: nat, writes: bool)
    requires Draining(m.sup) && TableInv(m.sup.vaults) && !m.halted
    ensures var after := HandleTakeOwnershipRequest(k, m, c, l, dir, disk, writes).sup;
            var breaks := Breaks(m, TakeOwnershipRequest(c, l, dir, disk, writes));
            && (Draining(after) <==> !breaks)
            && (!breaks ==> Shrinks(m.sup, after))
  {
    var after := HandleTakeOwnershipRequest(k, m, c, l, dir, disk, writes);
    var i := Find(m.sup.vaults, ByLabel(l));
    if c !in m.clients.validated {
      UnvalidatedGetNothing(k, m, c, l, dir, disk, None, "", World(LaunchFails, writes));
      SamePlacesShrink(m.sup, after.sup);
    } else if i < |m.sup.vaults| {
      forall j | 0 <= j < |m.sup.vaults| && m.sup.vaults[j].info.vaultLabel == l
        ensures j == i
      {
        FindIsExact(m.sup.vaults, j);
      }
      var owner := m.clients.NameOf(c).value;
      if m.sup.vaults[i].info.dir == dir {
        DrainingTakeInPlace(k, m, c, owner, i, disk, writes);
      } else {
        DrainingRelocation(m, i, Relocated(m.sup.vaults[i].info, dir, owner, disk));
      }
    } else {
      SamePlacesShrink(m.sup, after.sup);
    }
  }

  lemma DrainingTakeInPlace(k: Crypto, m: Manager, c: Connection, owner: string, i: nat, disk: nat, writes: bool)
    requires Draining(m.sup) && TableInv(m.sup.vaults) && !m.halted && i < |m.sup.vaults|
    ensures var after := TakeInPlace(k, m, c, owner, i, disk, writes).sup; Draining(after) && Shrinks(m.sup, after)
  {
    var after := TakeInPlace(k, m, c, owner, i, disk, writes).sup;
    assert after.posted == [] && after.history.launches == m.sup.history.launches by {
      TakeInPlaceEffect(k, m, c, owner, i, disk, writes);
    }
    TakeInPlaceAlike(k, m, c, owner, i, disk, writes);
    forall j | 0 <= j < |after.vaults|
      ensures after.vaults[j].status == Stopping && after.vaults[j].onExit.None?
      ensures after.vaults[j].lineage == m.sup.vaults[j].lineage
    {
      assert Alike(m.sup.vaults[j], after.vaults[j]);
    }
    SamePlacesShrink(m.sup, after);
  }

  lemma DrainingRelocation(m: Manager, i: nat, info: VaultInfo)
    requires Draining(m.sup) && TableInv(m.sup.vaults) && i < |m.sup.vaults|
    requires info.connection == m.sup.vaults[i].info.connection
    ensures var after := ChangeChunkstorePath(m, info).sup;
            && (Draining(after) <==> info.connection.None?)
            && (info.connection.None? ==> Shrinks(m.sup, after))
  {
    FindIsExact(m.sup.vaults, i);
    SamePlacesShrink(m.sup, m.sup);
    if info.connection.Some? {
      assert ChangeChunkstorePath(m, info).sup.vaults[i].onExit.Some?;
    }
  }

  /** A request ends the draining if and only if it is granted. */
  lemma DrainingRequest(k: Crypto, m: Manager, c: Connection, l: string, dir: string, disk: nat,
                        keys: Option<PmidAndSigner>, defaultDir: string, w: World)
    requires Draining(m.sup) && !m.halted
    ensures var after := HandleStartVaultRequest(m, c, l, dir, disk, keys, defaultDir, w).sup;
            var breaks := Breaks(m, StartVaultRequest(c, l, dir, disk, keys, defaultDir, w));
            && (Draining(after) <==> !breaks)
            && (!breaks ==> Shrinks(m.sup, after))
  {
    var after := HandleStartVaultRequest(m, c, l, dir, disk, keys, defaultDir, w).sup;
    if c in m.clients.validated {
      StartVaultExact(m, c, l, dir, disk, keys, defaultDir, w);
      var info := RequestedVault(m.clients.validated[c], l, dir, disk, keys, defaultDir, m.pairs);
      assert Startable(m.sup.vaults, info, w.launch) ==> after.vaults[|m.sup.vaults|].status == Starting;
    } else {
      UnvalidatedGetNothing(k, m, c, l, dir, disk, keys, defaultDir, w);
    }
    if after.vaults == m.sup.vaults {
      SamePlacesShrink(m.sup, after);
    }
  }

  /** A report ends the draining if and only if it is for a child. */
  lemma DrainingStarted(m: Manager, c: Connection, pid: nat)
    requires Draining(m.sup) && !m.halted
    ensures var after := HandleVaultStarted(m, c, pid).sup; var breaks := Breaks(m, VaultStarted(c, pid));
            && (Draining(after) <==> !breaks)
            && (!breaks ==> Shrinks(m.sup, after))
  {
    var i := Find(m.sup.vaults, ByPid(pid));
    if c in m.incoming && i < |m.sup.vaults| {
      assert HandleVaultStarted(m, c, pid).sup.vaults[i].status == Running;
    } else {
      SamePlacesShrink(m.sup, m.sup);
    }
  }

  lemma DrainingClosed(m: Manager, c: Connection, w: World)
    requires Draining(m.sup)
    ensures Draining(HandleConnectionClosed(m, c, w).sup) && Shrinks(m.sup, HandleConnectionClosed(m, c, w).sup)
  {
    var i := Find(m.sup.vaults, ByConnection(Some(c)));
    if i < |m.sup.vaults| {
      DrainingExit(m.sup, m.sup.vaults[i].info.vaultLabel, Terminated, w.launch);
    } else {
      SamePlacesShrink(m.sup, m.sup);
    }
  }

  lemma DrainingSignal(s: Supervisor, pid: nat, code: int, launch: Launch)
    requires Draining(s)
    ensures Draining(ChildSignalled(s, pid, code, launch).0) && Shrinks(s, ChildSignalled(s, pid, code, launch).0)
    ensures !ChildSignalled(s, pid, code, launch).1
  {
    var i := Find(s.vaults, ByPid(pid));
    if i < |s.vaults| {
      DrainingExit(s, s.vaults[i].info.vaultLabel, Report(code, false), launch);
    } else {
      SamePlacesShrink(s, s);
    }
  }

  lemma DrainingTimeout(s: Supervisor, j: nat, launch: Launch)
    requires Draining(s)
    ensures Draining(RunTimeout(s, j, launch).0) && Shrinks(s, RunTimeout(s, j, launch).0)
    ensures !RunTimeout(s, j, launch).1
  {
    if j < |s.expired| {
      DrainingExit(s.(expired := Without(s.expired, j)), s.expired[j], Terminated, launch);
    } else {
      SamePlacesShrink(s, s);
    }
  }

  lemma DrainingTableEvent(m: Manager, e: Event)
    requires Draining(m.sup) && TableInv(m.sup.vaults) && OnTable(e)
    ensures Draining(TableStep(m, e).sup) && Shrinks(m.sup, TableStep(m, e).sup)
  {
    match e
    case TimerExpires(i) =>
      assert TableStep(m, e).sup == ExpireTimer(m.sup, i);
      SamePlacesShrink(m.sup, ExpireTimer(m.sup, i));
    case TimeoutRuns(j, w) =>
      assert TableStep(m, e) == AfterExit(m, RunTimeout(m.sup, j, w.launch), w.writes);
      DrainingTimeout(m.sup, j, w.launch);
    case ChildExited(pid, code, w) =>
      assert TableStep(m, e) == AfterExit(m, ChildSignalled(m.sup, pid, code, w.launch), w.writes);
      DrainingSignal(m.sup, pid, code, w.launch);
    case RestartRuns(j, launch) =>
      assert TableStep(m, e).sup == RunRestart(m.sup, j, launch) == m.sup;
      SamePlacesShrink(m.sup, m.sup);
    case TearDown =>
      assert TableStep(m, e) == HandleTearDown(m);
      DrainingTearDown(m);
  }

  lemma DrainingVaultStep(k: Crypto, m: Manager, e: Event)
    requires Draining(m.sup) && TableInv(m.sup.vaults) && !m.halted && !OnTable(e) && !OffTable(e)
    ensures Draining(VaultStep(k, m, e).sup) <==> !Breaks(m, e)
    ensures !Breaks(m, e) ==> Shrinks(m.sup, VaultStep(k, m, e).sup)
  {
    match e
    case ConnectionClosed(c, w) =>
      assert VaultStep(k, m, e) == HandleConnectionClosed(m, c, w);
      DrainingClosed(m, c, w);
    case StartVaultRequest(c, l, dir, disk, keys, defaultDir, w) =>
      assert VaultStep(k, m, e) == HandleStartVaultRequest(m, c, l, dir, disk, keys, defaultDir, w);
      DrainingRequest(k, m, c, l, dir, disk, keys, defaultDir, w);
    case VaultStarted(c, pid) =>
      assert VaultStep(k, m, e) == HandleVaultStarted(m, c, pid);
      DrainingStarted(m, c, pid);
    case TakeOwnershipRequest(c, l, dir, disk, writes) =>
      assert VaultStep(k, m, e) == HandleTakeOwnershipRequest(k, m, c, l, dir, disk, writes);
      DrainingOwnership(k, m, c, l, dir, disk, writes);
  }

  /** Every event keeps the state draining if and only if it does not break it, and then
      children only leave and none is launched. */
  lemma DrainingStep(k: Crypto, m: Manager, e: Event)
    requires Draining(m.sup) && TableInv(m.sup.vaults)
    ensures Draining(Step(k, m, e).sup) <==> !Breaks(m, e)
    ensures !Breaks(m, e) ==> Shrinks(m.sup, Step(k, m, e).sup)
  {
    if m.halted {
      assert Step(k, m, e) == m;
      SamePlacesShrink(m.sup, m.sup);
    } else if OffTable(e) {
      OffTableMoves(k, m, e);
      SamePlacesShrink(m.sup, Step(k, m, e).sup);
    } else if OnTable(e) {
      DrainingTableEvent(m, e);
    } else {
      DrainingVaultStep(k, m, e);
    }
  }

  /** From a draining state on, as long as no event breaks it, every sequence of events
      only takes children out of the table and launches none. */
  lemma {:induction false} ShutdownConverges(k: Crypto, m: Manager, events: seq<Event>)
    requires Inv(m) && Draining(m.sup) && Calm(k, m, events)
    ensures var after := Continue(k, m, events); Draining(after.sup) && Shrinks(m.sup, after.sup)
    decreases |events|
  {
    SamePlacesShrink(m.sup, m.sup);
    if events != [] {
      var m1 := Step(k, m, events[0]);
      StepKeeps(k, m, events[0]);
      DrainingStep(k, m, events[0]);
      ShutdownConverges(k, m1, events[1..]);
      ShrinksTrans(m.sup, m1.sup, Continue(k, m1, events[1..]).sup);
    }
  }

  /** The state goes on draining throughout the events. */
  predicate StaysDraining(k: Crypto, m: Manager, events: seq<Event>) {
    forall n :: 0 <= n <= |events| ==> Draining(Continue(k, m, events[..n]).sup)
  }

  lemma StaysDrainingUnfolds(k: Crypto, m: Manager, events: seq<Event>)
    requires events != [] && Draining(m.sup)
    ensures StaysDraining(k, m, events) <==> StaysDraining(k, Step(k, m, events[0]), events[1..])
  {
    var m1, rest := Step(k, m, events[0]), events[1..];
    forall n | 0 <= n <= |rest|
      ensures Continue(k, m, events[..n + 1]) == Continue(k, m1, rest[..n])
    {
      assert events[..n + 1][0] == events[0] && events[..n + 1][1..] == rest[..n];
    }
    assert events[..0] == [];
    if StaysDraining(k, m1, rest) {
      forall n | 0 <= n <= |events|
        ensures Draining(Continue(k, m, events[..n]).sup)
      {
        if n > 0 {
          assert Draining(Continue(k, m1, rest[..n - 1]).sup);
        }
      }
    }
    if StaysDraining(k, m, events) {
      forall n | 0 <= n <= |rest|
        ensures Draining(Continue(k, m1, rest[..n]).sup)
      {
        assert Draining(Continue(k, m, events[..n + 1]).sup);
      }
    }
  }

  /** ... and it is no more than what is needed: a draining state stays so throughout a
      run of events if and only if none of them breaks it. */
  lemma {:induction false} DrainsExactlyWhenCalm(k: Crypto, m: Manager, events: seq<Event>)
    requires Inv(m) && Draining(m.sup)
    ensures StaysDraining(k, m, events) <==> Calm(k, m, events)
    decreases |events|
  {
    if events == [] {
      assert forall n :: 0 <= n <= |events| ==> events[..n] == [];
    } else {
      var m1, rest := Step(k, m, events[0]), events[1..];
      assert Inv(m1) by {
        StepKeeps(k, m, events[0]);
      }
      DrainingStep(k, m, events[0]);
      StaysDrainingUnfolds(k, m, events);
      if Draining(m1.sup) {
        DrainsExactlyWhenCalm(k, m1, rest);
      } else {
        assert rest[..0] == [] && Continue(k, m1, []) == m1;
      }
    }
  }

  // ---------------------------------------------------------------- emptiness

  lemma ContinueOne(k: Crypto, m: Manager, e: Event)
    ensures Continue(k, m, [e]) == Step(k, m, e)
    ensures Calm(k, m, [e]) <==> !Breaks(m, e)
  {
    assert [e][1..] == [];
  }

  lemma TakenOut(k: Crypto, m: Manager, n: nat)
    requires Draining(m.sup) && !m.halted && n < |m.sup.expired|
    requires Find(m.sup.vaults, ByLabel(m.sup.expired[n])) < |m.sup.vaults|
    ensures var after := Step(k, m, TimeoutRuns(n, World(LaunchFails, false)));
            !after.halted && |after.sup.vaults| == |m.sup.vaults| - 1
  {
  }

  /** In a draining state a child can always be taken out by timers alone. */
  lemma TimersTakeOut(k: Crypto, m: Manager) returns (events: seq<Event>)
    requires TimerInv(m.sup) && Draining(m.sup) && !m.halted && m.sup.vaults != []
    ensures Calm(k, m, events)
    ensures forall e :: e in events ==> e.TimerExpires? || e.TimeoutRuns?
    ensures var after := Continue(k, m, events); !after.halted && |after.sup.vaults| == |m.sup.vaults| - 1
  {
    var l := m.sup.vaults[0].info.vaultLabel;
    var w := World(LaunchFails, false);
    assert Watched(m.sup.vaults[0], m.sup.expired);
    if l in m.sup.expired {
      var n :| 0 <= n < |m.sup.expired| && m.sup.expired[n] == l;
      events := [TimeoutRuns(n, w)];
      TakenOut(k, m, n);
      ContinueOne(k, m, TimeoutRuns(n, w));
    } else {
      var n := |m.sup.expired|;
      events := [TimerExpires(0)] + [TimeoutRuns(n, w)];
      ContinueOne(k, m, TimerExpires(0));
      var m1 := Step(k, m, TimerExpires(0));
      TakenOut(k, m1, n);
      ContinueOne(k, m1, TimeoutRuns(n, w));
      ContinueJoins(k, m, [TimerExpires(0)], [TimeoutRuns(n, w)]);
    }
  }

  lemma {:induction false} ContinueJoins(k: Crypto, m: Manager, a: seq<Event>, b: seq<Event>)
    ensures Continue(k, m, a + b) == Continue(k, Continue(k, m, a), b)
    ensures Calm(k, m, a) && Calm(k, Continue(k, m, a), b) ==> Calm(k, m, a + b)
    decreases |a|
  {
    if a == [] {
      assert a + b == b;
    } else {
      assert (a + b)[1..] == a[1..] + b;
      ContinueJoins(k, Step(k, m, a[0]), a[1..], b);
    }
  }

  /** ... and so, whatever else happens, the table is empty once no timer is set or
      queued for any of its children. */
  lemma DrainedWhenTimersRan(k: Crypto, m: Manager, more: seq<Event>)
    requires Inv(m) && Draining(m.sup) && Calm(k, m, more)
    ensures var after := Continue(k, m, more).sup;
            after.vaults == [] <==>
            forall j :: 0 <= j < |after.vaults| ==>
              !after.vaults[j].armed && after.vaults[j].info.vaultLabel !in after.expired
  {
    ShutdownConverges(k, m, more);
    ContinueKeeps(k, m, more);
    var after := Continue(k, m, more).sup;
    if after.vaults != [] {
      assert Watched(after.vaults[0], after.expired) && after.vaults[0].status == Stopping;
    }
  }

  /** There always are timer events that get it there. */
  lemma {:induction false} TimersEmptyTheTable(k: Crypto, m: Manager) returns (events: seq<Event>)
    requires Inv(m) && Draining(m.sup) && !m.halted
    ensures Calm(k, m, events)
    ensures forall e :: e in events ==> e.TimerExpires? || e.TimeoutRuns?
    ensures Continue(k, m, events).sup.vaults == []
    decreases |m.sup.vaults|
  {
    if m.sup.vaults == [] {
      return [];
    }
    var first := TimersTakeOut(k, m);
    var m1 := Continue(k, m, first);
    ContinueKeeps(k, m, first);
    ShutdownConverges(k, m, first);
    var rest := TimersEmptyTheTable(k, m1);
    events := first + rest;
    ContinueJoins(k, m, first, rest);
  }

  lemma TearDownStops(m: Manager)
    requires TableInv(m.sup.vaults) && AllConnected(m.sup.vaults)
    requires !m.halted && !m.sup.stopAllCalled && m.sup.posted == []
    ensures var down := HandleTearDown(m);
            && !down.halted && Draining(down.sup) && |down.sup.vaults| == |m.sup.vaults| && Shrinks(m.sup, down.sup)
            && down.sup.wire.sent == m.sup.wire.sent + ShutdownRequests(m.sup.vaults)
            && m.incoming + m.clients.unvalidated.Keys + m.clients.validated.Keys <= down.sup.wire.closed
  {
    var wire := m.sup.wire.CloseAll(m.incoming)
                .CloseAll(m.clients.unvalidated.Keys).CloseAll(m.clients.validated.Keys);
    StopAllStopsAll(m.sup.(wire := wire));
    StopFromCalled(m.sup.(wire := wire, stopAllCalled := true), 0);
    StopFromAsks(m.sup.(wire := wire, stopAllCalled := true), 0);
    SamePlacesShrink(m.sup, HandleTearDown(m).sup);
  }

  /** The whole of it: tearing down a reachable state with every vault connected and no
      restart waiting stops them all, and the table drains. */
  lemma TearDownDrains(k: Crypto, boot: Boot, events: seq<Event>, m: Manager, more: seq<Event>)
    requires m == Run(k, boot, events) && !m.halted && !m.sup.stopAllCalled
    requires AllConnected(m.sup.vaults) && m.sup.posted == []
    requires Calm(k, HandleTearDown(m), more)
    ensures var down := HandleTearDown(m); var after := Continue(k, down, more);
            && !down.halted && Draining(down.sup) && |down.sup.vaults| == |m.sup.vaults|
            && down.sup.wire.sent == m.sup.wire.sent + ShutdownRequests(m.sup.vaults)
            && (forall c :: c in m.incoming || m.clients.Tracks(c) ==> c in down.sup.wire.closed)
            && Draining(after.sup) && Shrinks(m.sup, after.sup)
  {
    var down := HandleTearDown(m);
    assert TableInv(m.sup.vaults) && Inv(down) by {
      RunInv(k, boot, events);
      TearDownKeeps(m);
    }
    TearDownStops(m);
    ShutdownConverges(k, down, more);
    ShrinksTrans(m.sup, down.sup, Continue(k, down, more).sup);
  }
}
