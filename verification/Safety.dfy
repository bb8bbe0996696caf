/** What holds in every state the manager can reach, whatever events came. */
module Safety {
  import opened VaultTypes
  import opened Supervision
  import opened Registries
  import opened Management
  import opened TableProofs
  import opened LineageProofs
  import opened SupervisorProofs
  import opened ConnectionProofs
  import opened ManagerProofs

  // ------------------------------------------------------------- connections

  function ChildrenHolding(vaults: seq<Child>, c: Connection): nat {
    if vaults == [] then 0 else (if HeldBy(vaults[0], c) then 1 else 0) + ChildrenHolding(vaults[1..], c)
  }

  function Count(b: bool): nat {
    if b then 1 else 0
  }

  /** How many places a connection is kept in, on-exit functors included. */
  function Holders(m: Manager, c: Connection): nat {
    Count(c in m.incoming) + Count(c in m.clients.unvalidated) + Count(c in m.clients.validated)
    + ChildrenHolding(m.sup.vaults, c)
  }

  lemma {:induction false} AtMostOneChild(vaults: seq<Child>, c: Connection)
    requires forall i, j :: 0 <= i < j < |vaults| && HeldBy(vaults[i], c) ==> !HeldBy(vaults[j], c)
    ensures ChildrenHolding(vaults, c) <= 1
    ensures ChildrenHolding(vaults, c) == 0 <==> forall i :: 0 <= i < |vaults| ==> !HeldBy(vaults[i], c)
  {
    if vaults != [] {
      var rest := vaults[1..];
      AtMostOneChild(rest, c);
      assert forall i :: 0 <= i < |rest| ==> rest[i] == vaults[i + 1];
      if HeldBy(vaults[0], c) {
        assert forall i :: 0 <= i < |rest| ==> !HeldBy(rest[i], c);
      } else {
        assert forall i :: 1 <= i < |vaults| ==> vaults[i] == rest[i - 1];
      }
    }
  }

  /** Each connection is held by at most one of the registries and children. */
  lemma OneHolder(k: Crypto, boot: Boot, events: seq<Event>, c: Connection)
    ensures Holders(Run(k, boot, events), c) <= 1
  {
    var m := Run(k, boot, events);
    RunInv(k, boot, events);
    AtMostOneChild(m.sup.vaults, c);
    assert c in Free(m) ==> c !in m.incoming && !m.clients.Tracks(c);
  }

  /** The asserts in the registries' Add and in Validate, on the path of an event. */
  predicate AssertsHold(k: Crypto, m: Manager, e: Event) {
    match e
    case NewConnection(c) => c !in m.seen ==> c !in m.incoming
    case ValidateConnectionRequest(c, _) => c in m.incoming ==> c !in m.clients.validated && c !in m.clients.unvalidated
    case ChallengeResponse(c, publicKey, signature) =>
      m.clients.Validate(k, c, publicKey, signature).Success? ==> c !in m.clients.validated
    case _ => true
  }

  lemma AssertsNeverFire(k: Crypto, boot: Boot, events: seq<Event>, e: Event)
    ensures AssertsHold(k, Run(k, boot, events), e)
  {
    RunInv(k, boot, events);
  }

  // -------------------------------------------------------------------- keys

  /** Labels, directories and connections are pairwise distinct; no child is left before
      its start, and no restart count leaves its range. */
  lemma KeysStayUnique(k: Crypto, boot: Boot, events: seq<Event>)
    ensures var vaults := Run(k, boot, events).sup.vaults;
            && (forall i :: 0 <= i < |vaults| ==>
                  && Complete(vaults[i].info) && vaults[i].status != BeforeStarted
                  && 0 <= vaults[i].restarts <= MAX_VAULT_RESTARTS)
            && (forall i, j :: 0 <= i < j < |vaults| ==>
                  && vaults[i].info.vaultLabel != vaults[j].info.vaultLabel
                  && vaults[i].info.dir != vaults[j].info.dir
                  && vaults[i].info.connection != vaults[j].info.connection)
  {
    RunInv(k, boot, events);
    var vaults := Run(k, boot, events).sup.vaults;
    assert forall i :: 0 <= i < |vaults| ==> WellFormed(vaults[i]);
    assert forall i, j :: 0 <= i < j < |vaults| ==> Apart(vaults[i].info, vaults[j].info);
  }

  // ----------------------------------------------------------------- launches

  lemma {:induction false} BudgetNotNegative(vaults: seq<Child>, posted: seq<Restart>)
    requires forall i :: 0 <= i < |vaults| ==> vaults[i].restarts <= MAX_VAULT_RESTARTS
    requires forall i :: 0 <= i < |posted| ==> posted[i].restarts <= MAX_VAULT_RESTARTS
    ensures ChildBudget(vaults) >= 0 && PostedBudget(posted) >= 0
    decreases |vaults| + |posted|
  {
    if vaults != [] {
      BudgetNotNegative(vaults[1..], posted);
    } else if posted != [] {
      BudgetNotNegative(vaults, posted[1..]);
    }
  }

  lemma InvBudget(m: Manager)
    requires Inv(m)
    ensures Budget(m.sup) >= 0
  {
    assert forall i :: 0 <= i < |m.sup.vaults| ==> WellFormed(m.sup.vaults[i]);
    BudgetNotNegative(m.sup.vaults, m.sup.posted);
  }

  /** Launches made and launches still possible never exceed six for each vault added;
      no single vault is launched more often than that. */
  lemma LaunchesBounded6(k: Crypto, boot: Boot, events: seq<Event>)
    ensures var s := Run(k, boot, events).sup;
            && 0 <= Budget(s)
            && s.history.launches + Budget(s) <= (MAX_VAULT_RESTARTS + 1) * |s.history.ledger|
            && s.history.launches == s.history.exits + |s.vaults|
            && (forall l :: 0 <= l < |s.history.ledger| ==> 1 <= s.history.ledger[l].launches <= MAX_VAULT_RESTARTS + 1)
            && (forall j :: 0 <= j < |s.posted| ==> 0 <= s.posted[j].restarts + 1 <= MAX_VAULT_RESTARTS)
  {
    RunInv(k, boot, events);
    InvBudget(Run(k, boot, events));
  }

  /** From any reachable state on, each further vault added buys six launches and no
      more; with none added, what is left is the budget.  Exits are bounded alike. */
  lemma LaunchesToCome(k: Crypto, boot: Boot, events: seq<Event>, more: seq<Event>)
    ensures var a := Run(k, boot, events).sup; var b := Continue(k, Run(k, boot, events), more).sup;
            var added := |b.history.ledger| - |a.history.ledger|;
            && 0 <= added
            && b.history.launches <= a.history.launches + Budget(a) + (MAX_VAULT_RESTARTS + 1) * added
            && b.history.exits <= a.history.exits + |a.vaults| + Budget(a) + (MAX_VAULT_RESTARTS + 1) * added
  {
    var m := Run(k, boot, events);
    RunInv(k, boot, events);
    ContinueKeeps(k, m, more);
    InvBudget(Continue(k, m, more));
  }

  // ----------------------------------------------------------------- lineages

  /** Every vault that was ever added is exactly one child, or exactly one posted
      restart, or has ended. */
  lemma LineagesBalance(k: Crypto, boot: Boot, events: seq<Event>, l: nat)
    ensures var s := Run(k, boot, events).sup;
            multiset(ChildLineages(s.vaults))[l] + multiset(PostedLineages(s.posted))[l]
            + Count(l in s.history.ended) == Count(l < |s.history.ledger|)
  {
    RunInv(k, boot, events);
    var s := Run(k, boot, events).sup;
    assert Places(s, {})[l] == Count(l < |s.history.ledger|);
  }

  /** A posted restart is the vault as it was recorded, without a connection. */
  lemma PostedRestartsAreClean(k: Crypto, boot: Boot, events: seq<Event>, j: nat)
    requires j < |Run(k, boot, events).sup.posted|
    ensures var s := Run(k, boot, events).sup; var r := s.posted[j];
            && r.info.connection == None
            && r.lineage < |s.history.ledger|
            && s.history.ledger[r.lineage].terms == TermsOf(r.info)
            && s.history.ledger[r.lineage].launches == r.restarts + 1
  {
    RunInv(k, boot, events);
  }

  lemma ExitKeepsTerms(s: Supervisor, vaultLabel: string, report: ExitReport, launch: Launch)
    requires AllWellFormed(s.vaults)
    ensures KeepsTerms(s, OnProcessExit(s, vaultLabel, report, launch).0)
  {
    var i := Find(s.vaults, ByLabel(vaultLabel));
    if i < |s.vaults| {
      ExitAdvances(s, i, report, launch);
    }
  }

  lemma ClosedKeepsTerms(m: Manager, c: Connection, w: World)
    requires AllWellFormed(m.sup.vaults)
    ensures KeepsTerms(m.sup, HandleConnectionClosed(m, c, w).sup)
  {
    var i := Find(m.sup.vaults, ByConnection(Some(c)));
    if i < |m.sup.vaults| {
      ExitKeepsTerms(m.sup, m.sup.vaults[i].info.vaultLabel, Terminated, w.launch);
    }
  }

  lemma ChildExitKeepsTerms(m: Manager, pid: nat, code: int, w: World)
    requires AllWellFormed(m.sup.vaults)
    ensures KeepsTerms(m.sup, ChildSignalled(m.sup, pid, code, w.launch).0)
  {
    var i := Find(m.sup.vaults, ByPid(pid));
    if i < |m.sup.vaults| {
      ExitKeepsTerms(m.sup, m.sup.vaults[i].info.vaultLabel, Report(code, false), w.launch);
    }
  }

  lemma StartedKeepsTerms(m: Manager, c: Connection, pid: nat)
    ensures KeepsTerms(m.sup, HandleVaultStarted(m, c, pid).sup)
  {
    if ChildStarted(m.sup, c, pid).Some? {
      VaultStartedAdvances(m.sup, c, pid);
    }
  }

  lemma TearDownKeepsTerms(m: Manager)
    ensures KeepsTerms(m.sup, HandleTearDown(m).sup)
  {
    if !m.sup.stopAllCalled && AllConnected(m.sup.vaults) {
      var wire := m.sup.wire.CloseAll(m.incoming)
                  .CloseAll(m.clients.unvalidated.Keys).CloseAll(m.clients.validated.Keys);
      StopFromAdvances(m.sup.(wire := wire, stopAllCalled := true), 0);
    }
  }

  lemma TableEventTerms(m: Manager, e: Event)
    requires AllWellFormed(m.sup.vaults) && LedgerInv(m.sup) && OnTable(e)
    ensures KeepsTerms(m.sup, TableStep(m, e).sup)
  {
    match e
    case TimerExpires(i) =>
      assert TableStep(m, e).sup == ExpireTimer(m.sup, i);
      ExpireAdvances(m.sup, i);
    case TimeoutRuns(j, w) =>
      assert TableStep(m, e) == AfterExit(m, RunTimeout(m.sup, j, w.launch), w.writes);
      TimeoutAdvances(m.sup, j, w.launch);
    case ChildExited(pid, code, w) =>
      assert TableStep(m, e) == AfterExit(m, ChildSignalled(m.sup, pid, code, w.launch), w.writes);
      ChildExitKeepsTerms(m, pid, code, w);
    case RestartRuns(j, launch) =>
      assert TableStep(m, e).sup == RunRestart(m.sup, j, launch);
      RunRestartAdvances(m.sup, j, launch);
    case TearDown =>
      assert TableStep(m, e) == HandleTearDown(m);
      TearDownKeepsTerms(m);
  }

  lemma RequestKeepsTerms(m: Manager, c: Connection, info: VaultInfo, w: World)
    ensures KeepsTerms(m.sup, StartRequested(m, c, info, w).sup)
  {
  }

  /** No event but a TakeOwnershipRequest changes what is recorded of a lineage. */
  lemma TermsStand(k: Crypto, m: Manager, e: Event)
    requires AllWellFormed(m.sup.vaults) && LedgerInv(m.sup) && !e.TakeOwnershipRequest?
    ensures KeepsTerms(m.sup, Step(k, m, e).sup)
  {
    if m.halted {
      assert Step(k, m, e) == m;
    } else if OnTable(e) {
      TableEventTerms(m, e);
    } else if OffTable(e) {
      OffTableMoves(k, m, e);
    } else {
      match e
      case ConnectionClosed(c, w) =>
        assert Step(k, m, e) == HandleConnectionClosed(m, c, w);
        ClosedKeepsTerms(m, c, w);
      case StartVaultRequest(c, l, dir, disk, keys, defaultDir, w) =>
        assert Step(k, m, e) == HandleStartVaultRequest(m, c, l, dir, disk, keys, defaultDir, w);
        if c in m.clients.validated {
          var info := RequestedVault(m.clients.validated[c], l, dir, disk, keys, defaultDir, m.pairs);
          RequestKeepsTerms(m.(pairs := m.pairs + 1), c, info, w);
        }
      case VaultStarted(c, pid) =>
        assert Step(k, m, e) == HandleVaultStarted(m, c, pid);
        StartedKeepsTerms(m, c, pid);
    }
  }

  // ------------------------------------------------------- timers and functors

  /** No child is stuck in starting or stopping: its timer is running or has queued a
      handler, and that handler, when it runs, removes the child. */
  lemma NoChildIsStuck(k: Crypto, boot: Boot, events: seq<Event>, i: nat)
    requires i < |Run(k, boot, events).sup.vaults|
    requires Run(k, boot, events).sup.vaults[i].status in {Starting, Stopping}
    ensures var s := Run(k, boot, events).sup; var child := s.vaults[i];
            && (child.armed || child.info.vaultLabel in s.expired)
            && (child.armed ==> ExpireTimer(s, i).expired == s.expired + [child.info.vaultLabel]
                                && !ExpireTimer(s, i).vaults[i].armed)
            && (forall n, launch :: 0 <= n < |s.expired| && s.expired[n] == child.info.vaultLabel ==>
                  var after := RunTimeout(s, n, launch).0;
                  child.lineage !in ChildLineages(after.vaults) && |after.expired| == |s.expired| - 1)
  {
    RunInv(k, boot, events);
    var s := Run(k, boot, events).sup;
    assert Watched(s.vaults[i], s.expired);
    PartitionSpreads(s, {});
    forall n, launch | 0 <= n < |s.expired| && s.expired[n] == s.vaults[i].info.vaultLabel
      ensures var after := RunTimeout(s, n, launch).0;
              s.vaults[i].lineage !in ChildLineages(after.vaults) && |after.expired| == |s.expired| - 1
    {
      TimeoutRemoves(s, i, n, launch);
    }
  }

  /** Each functor that was installed is on one child, or was replaced, or has run: one
      of the three, once, and after its child had left the table. */
  lemma FunctorsRunOnce(k: Crypto, boot: Boot, events: seq<Event>, id: nat)
    ensures var h := Run(k, boot, events).sup.history; var vaults := Run(k, boot, events).sup.vaults;
            && (id < h.installed <==> id in h.dropped || Ran(h.ran, id) || Installed(vaults, id))
            && !(id in h.dropped && Ran(h.ran, id))
            && !(id in h.dropped && Installed(vaults, id))
            && !(Ran(h.ran, id) && Installed(vaults, id))
            && (forall i, j :: 0 <= i < |h.ran| && 0 <= j < |h.ran| && i != j ==>
                  h.ran[i].functor.id != h.ran[j].functor.id)
            && (forall j :: 0 <= j < |h.ran| ==> h.ran[j].vaultLabel !in h.ran[j].present)
  {
    RunInv(k, boot, events);
  }

  // ---------------------------------------------------------------- stability

  lemma AskedStays(k: Crypto, m: Manager, e: Event)
    ensures m.asked <= Step(k, m, e).asked
  {
    if m.halted {
      assert Step(k, m, e) == m;
    } else if OnTable(e) {
      TableStepMoves(m, e);
    } else if !OffTable(e) {
      VaultStepMoves(k, m, e);
    }
  }

  lemma {:induction false} AskedIsRemembered(k: Crypto, boot: Boot, events: seq<Event>, n: nat, c: Connection)
    requires n < |events| && events[n] == NetworkStableRequest(c)
    requires !Run(k, boot, events[..n]).halted && Run(k, boot, events[..n]).clients.Tracks(c)
    ensures c in Run(k, boot, events).asked
    decreases |events|
  {
    var before := events[..|events| - 1];
    AskedStays(k, Run(k, boot, before), events[|events| - 1]);
    if n < |events| - 1 {
      assert before[..n] == events[..n];
      AskedIsRemembered(k, boot, before, n, c);
    } else {
      assert before == events[..n];
    }
  }

  /** Once the network is marked stable, no client still tracked that asked while it was
      tracked, before the marking or after, is without an answer. */
  lemma NoLostStabilityNotice(k: Crypto, boot: Boot, events: seq<Event>, n: nat, c: Connection)
    requires n < |events| && events[n] == NetworkStableRequest(c)
    ensures var asked, m := Run(k, boot, events[..n]), Run(k, boot, events);
            !asked.halted && asked.clients.Tracks(c) && m.stable && m.clients.Tracks(c) ==>
              Sent(c, NetworkStable) in m.sup.wire.sent
  {
    var asked, m := Run(k, boot, events[..n]), Run(k, boot, events);
    if !asked.halted && asked.clients.Tracks(c) {
      AskedIsRemembered(k, boot, events, n, c);
      assert StableInv(m) by {
        RunInv(k, boot, events);
      }
    }
  }

  // ------------------------------------------------------------ empty pointers

  /** The events on which the code dereferences an empty connection. */
  predicate DereferencesEmpty(m: Manager, e: Event) {
    match e
    case TakeOwnershipRequest(c, vaultLabel, dir, disk, _) =>
      && c in m.clients.validated
      && (exists i :: 0 <= i < |m.sup.vaults| && m.sup.vaults[i].info.vaultLabel == vaultLabel
                      && m.sup.vaults[i].info.connection.None?
                      && (m.sup.vaults[i].info.dir != dir || NeedsDiskUpdate(m.sup.vaults[i].info, disk)))
    case TearDown =>
      !m.sup.stopAllCalled && exists i :: 0 <= i < |m.sup.vaults| && m.sup.vaults[i].info.connection.None?
    case _ => false
  }

  lemma TakeOwnershipHalts(k: Crypto, m: Manager, c: Connection, vaultLabel: string, dir: string, disk: nat,
                           writes: bool)
    requires TableInv(m.sup.vaults) && !m.halted
    ensures HandleTakeOwnershipRequest(k, m, c, vaultLabel, dir, disk, writes).halted
            <==> DereferencesEmpty(m, TakeOwnershipRequest(c, vaultLabel, dir, disk, writes))
  {
    var i := Find(m.sup.vaults, ByLabel(vaultLabel));
    if i < |m.sup.vaults| {
      assert WellFormed(m.sup.vaults[i]);
      forall j | 0 <= j < |m.sup.vaults| && m.sup.vaults[j].info.vaultLabel == vaultLabel
        ensures j == i
      {
        FindIsExact(m.sup.vaults, j);
      }
    }
  }

  /** Credentials are always there to be sent. */
  lemma VaultStartedNeverHalts(m: Manager, c: Connection, pid: nat)
    requires TableInv(m.sup.vaults) && !m.halted
    ensures !HandleVaultStarted(m, c, pid).halted
  {
    var i := Find(m.sup.vaults, ByPid(pid));
    if i < |m.sup.vaults| {
      assert WellFormed(m.sup.vaults[i]);
    }
  }

  lemma OffTableNeverHalts(k: Crypto, m: Manager, e: Event)
    requires OffTable(e)
    ensures OffTableStep(k, m, e).halted == m.halted
  {
  }

  /** The handlers are brought down by a vault without a connection if and only if it is
      taken over elsewhere or with another disk limit, or torn down with. */
  lemma HaltsExactlyOnEmpty(k: Crypto, boot: Boot, events: seq<Event>, e: Event)
    requires !Run(k, boot, events).halted
    ensures Step(k, Run(k, boot, events), e).halted <==> DereferencesEmpty(Run(k, boot, events), e)
  {
    var m := Run(k, boot, events);
    assert TableInv(m.sup.vaults) by {
      RunInv(k, boot, events);
    }
    if OnTable(e) {
      TableStepMoves(m, e);
      assert e.TearDown? ==> TableStep(m, e) == HandleTearDown(m);
    } else if OffTable(e) {
      OffTableNeverHalts(k, m, e);
    } else {
      VaultStepMoves(k, m, e);
      match e
      case TakeOwnershipRequest(c, vaultLabel, dir, disk, writes) =>
        assert Step(k, m, e) == HandleTakeOwnershipRequest(k, m, c, vaultLabel, dir, disk, writes);
        TakeOwnershipHalts(k, m, c, vaultLabel, dir, disk, writes);
      case VaultStarted(c, pid) =>
        assert Step(k, m, e) == HandleVaultStarted(m, c, pid);
        VaultStartedNeverHalts(m, c, pid);
      case ConnectionClosed(_, _) =>
      case StartVaultRequest(_, _, _, _, _, _, _) =>
    }
  }

  /** With one unconnected vault in the table the next one to be reloaded is refused. */
  lemma SecondReloadRefused(m: Manager, vaults: seq<Reload>)
    requires vaults != [] && vaults[0].info.connection.None?
    requires m.sup.vaults != [] && m.sup.vaults[0].info.connection.None?
    ensures ReloadAll(m, vaults).halted
  {
    assert Conflicts(vaults[0].info, m.sup.vaults[0].info);
  }

  /** What the constructor starts of a file with one vault, if it launches. */
  lemma OneReloads(vault: Reload)
    ensures var m := Construct(FromFile([vault]));
            && (!m.halted <==> Complete(vault.info) && vault.launch.Launches?)
            && (!m.halted ==>
                  var info := vault.info.(connection := None, pair := 0);
                  m.sup.vaults == [Child(info, None, true, 0, Starting, vault.launch.pid, 0)])
  {
    var m := START.(stored := FileAt(FromFile([vault])), pairs := 1);
    var reload := vault.(info := vault.info.(connection := None, pair := 0));
    assert Unconnected([vault]) == [reload];
    assert Construct(FromFile([vault])) == ReloadAll(m, [reload]);
    var r := AddProcess(m.sup, reload.info, 0, NewVault, reload.launch);
    AddProcessExact(m.sup, reload.info, 0, NewVault, reload.launch);
    if r.Added? {
      assert [reload][1..] == [];
      assert ReloadAll(m, [reload]) == ReloadAll(m.(sup := r.s), []) == m.(sup := r.s);
    }
  }

  lemma ManyDoNotReload(vaults: seq<Reload>)
    requires |vaults| >= 2
    ensures Construct(FromFile(vaults)).halted
  {
    var reloads := Unconnected(vaults);
    var m := START.(stored := FileAt(FromFile(vaults)), pairs := |vaults|);
    assert Construct(FromFile(vaults)) == ReloadAll(m, reloads);
    var r := AddProcess(m.sup, reloads[0].info, 0, NewVault, reloads[0].launch);
    if r.Added? {
      assert ReloadAll(m, reloads) == ReloadAll(m.(sup := r.s), reloads[1..]);
      SecondReloadRefused(m.(sup := r.s), reloads[1..]);
    }
  }

  /** The constructor's loop gets through the config file if and only if there is at
      most one vault in it, complete, and it launches: reloaded vaults have no
      connection yet, and a second one is refused for having the same. */
  lemma ReloadExact(vaults: seq<Reload>)
    ensures !Construct(FromFile(vaults)).halted <==>
              |vaults| == 0 || (|vaults| == 1 && Complete(vaults[0].info) && vaults[0].launch.Launches?)
    ensures |vaults| == 1 && !Construct(FromFile(vaults)).halted ==>
              var info := vaults[0].info.(connection := None, pair := 0);
              Construct(FromFile(vaults)).sup.vaults
              == [Child(info, None, true, 0, Starting, vaults[0].launch.pid, 0)]
  {
    if |vaults| == 1 {
      assert vaults == [vaults[0]];
      OneReloads(vaults[0]);
    } else if |vaults| >= 2 {
      ManyDoNotReload(vaults);
    }
  }

  /** A vault of the constructor's own is started and written, over whatever the file
      recorded, or construction fails. */
  lemma DefaultExact(recorded: seq<VaultInfo>, vault: Reload, writes: bool)
    ensures var m := Construct(Default(recorded, vault, writes));
            var info := vault.info.(connection := None, pair := 0);
            && (!m.halted <==> Complete(info) && vault.launch.Launches? && writes)
            && (!m.halted ==> Infos(m.sup.vaults) == [info] && m.stored == [info])
  {
    var start := START.(stored := Persisted(recorded), pairs := 1);
    var reload := vault.(info := vault.info.(connection := None, pair := 0));
    assert Unconnected([vault]) == [reload];
    var r := AddProcess(start.sup, reload.info, 0, NewVault, vault.launch);
    AddProcessExact(start.sup, reload.info, 0, NewVault, vault.launch);
    assert [reload][1..] == [];
    if r.Added? {
      assert ReloadAll(start, [reload]) == ReloadAll(start.(sup := r.s), []) == start.(sup := r.s);
    } else {
      assert ReloadAll(start, [reload]).halted;
    }
  }

  /** Vaults that differ in everything but their missing connections. */
  const TWO_VAULTS: seq<Reload> := [
    Reload(VaultInfo(Some(PmidAndSigner(Pmid("p", "x"), Signer("s"))), "d", 1, None, "A", None, 0), Launches(1)),
    Reload(VaultInfo(Some(PmidAndSigner(Pmid("q", "y"), Signer("t"))), "e", 1, None, "B", None, 0), Launches(2))]

  /** Two vaults in the file are enough for the constructor to throw. */
  lemma TwoVaultsDoNotReload()
    ensures Construct(FromFile(TWO_VAULTS)).halted
  {
    ReloadExact(TWO_VAULTS);
  }
}
