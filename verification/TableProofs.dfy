/** What every operation on the child table keeps: its unique keys, the timers
    that stand behind every child that is starting or stopping, and the restart
    budget. */
module TableProofs {
  import opened VaultTypes
  import opened Supervision

  /** The table once the child is gone and its functor has been called, but before
      the functor's AddProcess. */
  function Called(s: Supervisor, i: nat, report: ExitReport): Supervisor
    requires i < |s.vaults|
  {
    var s0 := Erase(s, i);
    if s.vaults[i].onExit.None? then s0 else
      var call := Invocation(s.vaults[i].onExit.value, s.vaults[i].info.vaultLabel, report, Labels(s0.vaults));
      s0.(history := s0.history.(ran := s0.history.ran + [call]))
  }

  /** ... and once that AddProcess is done, if it is refused or not. */
  function Readded(s: Supervisor, onExit: Option<Functor>, launch: Launch): Supervisor {
    if onExit.None? then s else
      match AddProcess(s, onExit.value.info, 0, NewVault, launch)
      case Added(s') => s'
      case NotAdded(_) => s
  }

  /** An exit is an erasure, a call, perhaps an AddProcess, and a restart decision. */
  lemma ExitUnfolds(s: Supervisor, i: nat, report: ExitReport, launch: Launch)
    requires i < |s.vaults|
    ensures ExitAt(s, i, report, launch).0
            == RestartIfRequired(Readded(Called(s, i, report), s.vaults[i].onExit, launch), s.vaults[i])
  {
  }

  // --------------------------------------------------------------- unique keys

  function PmidName(info: VaultInfo): Option<string> {
    if info.keys.Some? then Some(info.keys.value.pmid.name) else None
  }

  /** The three keys no one can change but by an operation on the table.  The fourth,
      the Pmid name, sits behind a shared pointer. */
  predicate Apart(a: VaultInfo, b: VaultInfo) {
    && a.vaultLabel != b.vaultLabel
    && a.dir != b.dir
    && a.connection != b.connection
  }

  predicate WellFormed(child: Child) {
    Complete(child.info) && child.status != BeforeStarted && 0 <= child.restarts <= MAX_VAULT_RESTARTS
  }

  predicate AllWellFormed(vaults: seq<Child>) {
    forall i :: 0 <= i < |vaults| ==> WellFormed(vaults[i])
  }

  /** None is a connection like any other here, so at most one child has none. */
  predicate Unique(vaults: seq<Child>) {
    forall i, j :: 0 <= i < j < |vaults| ==> Apart(vaults[i].info, vaults[j].info)
  }

  predicate TableInv(vaults: seq<Child>) {
    AllWellFormed(vaults) && Unique(vaults)
  }

  /** No two children have the same Pmid name. */
  predicate Distinct(vaults: seq<Child>) {
    forall i, j :: 0 <= i < j < |vaults| ==> PmidName(vaults[i].info) != PmidName(vaults[j].info)
  }

  /** No child has any of the four keys of the vault. */
  predicate Clear(vaults: seq<Child>, info: VaultInfo) {
    forall i :: 0 <= i < |vaults| ==> Apart(vaults[i].info, info) && PmidName(vaults[i].info) != PmidName(info)
  }

  /** Nothing stands in the way of the vault. */
  predicate Startable(vaults: seq<Child>, info: VaultInfo, launch: Launch) {
    Complete(info) && launch.Launches? && Clear(vaults, info)
  }

  /** Where all four keys are unique, to be clear is to keep them so. */
  lemma ClearKeepsUnique(vaults: seq<Child>, child: Child)
    requires Unique(vaults) && Distinct(vaults)
    ensures Clear(vaults, child.info) <==> Unique(vaults + [child]) && Distinct(vaults + [child])
  {
    var after := vaults + [child];
    if Clear(vaults, child.info) {
      forall i, j | 0 <= i < j < |after|
        ensures Apart(after[i].info, after[j].info) && PmidName(after[i].info) != PmidName(after[j].info)
      {
      }
    } else {
      var i :| 0 <= i < |vaults|
               && !(Apart(vaults[i].info, child.info) && PmidName(vaults[i].info) != PmidName(child.info));
      assert after[i] == vaults[i] && after[|vaults|] == child;
    }
  }

  /** Of a complete vault, the conflict check refuses exactly what is not clear. */
  lemma ConflictIsSharedKey(vaults: seq<Child>, info: VaultInfo)
    requires Complete(info)
    ensures ConflictsWithAny(info, vaults) <==> !Clear(vaults, info)
  {
    if ConflictsWithAny(info, vaults) {
      var i :| 0 <= i < |vaults| && Conflicts(info, vaults[i].info);
      assert !(Apart(vaults[i].info, info) && PmidName(vaults[i].info) != PmidName(info));
    } else if !Clear(vaults, info) {
      var i :| 0 <= i < |vaults| && !(Apart(vaults[i].info, info) && PmidName(vaults[i].info) != PmidName(info));
      assert Conflicts(info, vaults[i].info);
    }
  }

  /** A child that is clear of the table joins it without harm. */
  lemma ClearKeepsTable(vaults: seq<Child>, child: Child)
    requires TableInv(vaults) && WellFormed(child) && Clear(vaults, child.info)
    ensures TableInv(vaults + [child])
  {
    var after := vaults + [child];
    forall i, j | 0 <= i < j < |after|
      ensures Apart(after[i].info, after[j].info)
    {
    }
  }

  /** The strong guarantee of AddProcess: exactly one child is appended when, and
      only when, the vault is complete, its restarts are allowed, the executable
      starts and no child has any of its four keys. */
  lemma AddProcessExact(s: Supervisor, info: VaultInfo, restarts: int, origin: Origin, launch: Launch)
    ensures var r := AddProcess(s, info, restarts, origin, launch);
            var lineage := LineageOf(s.history, origin);
            && (r.Added? <==> Startable(s.vaults, info, launch) && restarts <= MAX_VAULT_RESTARTS)
            && (r.Added? && 0 <= restarts && TableInv(s.vaults) ==> TableInv(r.s.vaults))
            && (r.Added? && Unique(s.vaults) && Distinct(s.vaults) ==> Distinct(r.s.vaults))
            && (r.Added? ==> r.s == s.(history := r.s.history,
                  vaults := s.vaults + [Child(info, None, true, restarts, Starting, launch.pid, lineage)]))
  {
    if Complete(info) {
      ConflictIsSharedKey(s.vaults, info);
      var r := AddProcess(s, info, restarts, origin, launch);
      if r.Added? {
        var child := Started(info, restarts, launch.pid, LineageOf(s.history, origin));
        if 0 <= restarts && TableInv(s.vaults) {
          ClearKeepsTable(s.vaults, child);
        }
        if Unique(s.vaults) && Distinct(s.vaults) {
          ClearKeepsUnique(s.vaults, child);
        }
      }
    }
  }

  /** With unique keys a lookup finds the child whichever way it is asked for. */
  lemma FindIsExact(vaults: seq<Child>, i: nat)
    requires TableInv(vaults) && i < |vaults|
    ensures Find(vaults, ByLabel(vaults[i].info.vaultLabel)) == i
    ensures Find(vaults, ByConnection(vaults[i].info.connection)) == i
  {
    forall j | 0 <= j < i
      ensures Apart(vaults[j].info, vaults[i].info)
    {
    }
  }

  /** Changing a child without touching its keys keeps the table. */
  lemma SameKeysKeep(vaults: seq<Child>, i: nat, child: Child)
    requires TableInv(vaults) && i < |vaults| && WellFormed(child)
    requires child.info.vaultLabel == vaults[i].info.vaultLabel
    requires child.info.dir == vaults[i].info.dir
    requires child.info.connection == vaults[i].info.connection
    ensures TableInv(vaults[i := child])
  {
    var after := vaults[i := child];
    forall j, k | 0 <= j < k < |after|
      ensures Apart(after[j].info, after[k].info)
    {
      assert Apart(vaults[j].info, vaults[k].info);
    }
  }

  lemma WithoutKeeps(vaults: seq<Child>, i: nat)
    requires TableInv(vaults) && i < |vaults|
    ensures TableInv(Without(vaults, i))
    ensures forall j :: 0 <= j < |Without(vaults, i)| ==> Apart(vaults[i].info, Without(vaults, i)[j].info)
  {
    var after := Without(vaults, i);
    forall j, k | 0 <= j < k < |after|
      ensures Apart(after[j].info, after[k].info)
    {
      assert Apart(vaults[if j < i then j else j + 1].info, vaults[if k < i then k else k + 1].info);
    }
    forall j | 0 <= j < |after|
      ensures Apart(vaults[i].info, after[j].info)
    {
      if j < i {
        assert Apart(vaults[j].info, vaults[i].info);
      } else {
        assert Apart(vaults[i].info, vaults[j + 1].info);
      }
    }
    forall j | 0 <= j < |after|
      ensures WellFormed(after[j])
    {
      assert WellFormed(vaults[if j < i then j else j + 1]);
    }
  }

  /** ChildStarted overwrites a connection: the keys stay unique if and only if
      no other child has the new one. */
  lemma VaultStartedKeepsUnique(s: Supervisor, c: Connection, pid: nat)
    requires TableInv(s.vaults) && ChildStarted(s, c, pid).Some?
    ensures var i := Find(s.vaults, ByPid(pid));
            TableInv(ChildStarted(s, c, pid).value.vaults) <==>
            forall j :: 0 <= j < |s.vaults| && j != i ==> s.vaults[j].info.connection != Some(c)
  {
    var i := Find(s.vaults, ByPid(pid));
    var after := ChildStarted(s, c, pid).value.vaults;
    assert WellFormed(s.vaults[i]);
    if forall j :: 0 <= j < |s.vaults| && j != i ==> s.vaults[j].info.connection != Some(c) {
      forall j, k | 0 <= j < k < |after|
        ensures Apart(after[j].info, after[k].info)
      {
        assert Apart(s.vaults[j].info, s.vaults[k].info);
      }
      assert TableInv(after);
    } else {
      var j :| 0 <= j < |s.vaults| && j != i && s.vaults[j].info.connection == Some(c);
      assert !Apart(after[if j < i then j else i].info, after[if j < i then i else j].info);
    }
  }

  lemma AssignOwnerKeepsTable(s: Supervisor, vaultLabel: string, owner: string, disk: nat)
    requires TableInv(s.vaults) && AssignOwner(s, vaultLabel, owner, disk).Some?
    ensures TableInv(AssignOwner(s, vaultLabel, owner, disk).value.vaults)
  {
    var i := Find(s.vaults, ByLabel(vaultLabel));
    assert WellFormed(s.vaults[i]);
    SameKeysKeep(s.vaults, i, s.vaults[i].(info := WithOwner(s.vaults[i].info, owner, disk)));
  }

  lemma StopProcessKeepsTable(s: Supervisor, c: Connection, onExit: Option<VaultInfo>)
    requires TableInv(s.vaults)
    ensures TableInv(StopProcess(s, c, onExit).vaults)
  {
    var i := Find(s.vaults, ByConnection(Some(c)));
    if i < |s.vaults| {
      assert WellFormed(s.vaults[i]);
      SameKeysKeep(s.vaults, i, BeingStopped(s.vaults[i], NewFunctor(s.history, onExit)));
    }
  }

  lemma ExitKeepsTable(s: Supervisor, i: nat, report: ExitReport, launch: Launch)
    requires TableInv(s.vaults) && i < |s.vaults|
    ensures TableInv(ExitAt(s, i, report, launch).0.vaults)
  {
    WithoutKeeps(s.vaults, i);
    ExitUnfolds(s, i, report, launch);
    if s.vaults[i].onExit.Some? {
      AddProcessExact(Called(s, i, report), s.vaults[i].onExit.value.info, 0, NewVault, launch);
    }
  }

  lemma RunRestartKeepsTable(s: Supervisor, k: nat, launch: Launch)
    requires TableInv(s.vaults)
    requires forall i :: 0 <= i < |s.posted| ==> 0 <= s.posted[i].restarts < MAX_VAULT_RESTARTS
    ensures TableInv(RunRestart(s, k, launch).vaults)
  {
    if k < |s.posted| {
      var r := s.posted[k];
      AddProcessExact(s.(posted := Without(s.posted, k)), r.info, r.restarts + 1, Restarted(r.lineage), launch);
    }
  }

  /** Assigning to a key pair touches neither the three keys nor the status. */
  lemma SetPairKeepsTable(s: Supervisor, pair: nat, keys: PmidAndSigner)
    requires TableInv(s.vaults)
    ensures TableInv(SetPair(s, pair, keys).vaults)
  {
    var after := SetPair(s, pair, keys).vaults;
    forall i | 0 <= i < |after|
      ensures WellFormed(after[i])
    {
      assert WellFormed(s.vaults[i]);
    }
    forall i, j | 0 <= i < j < |after|
      ensures Apart(after[i].info, after[j].info)
    {
      assert Apart(s.vaults[i].info, s.vaults[j].info);
    }
  }

  // ------------------------------------------------------------------- timers

  /** A child that is starting or stopping has a timer that will end it. */
  predicate Watched(child: Child, expired: seq<string>) {
    child.status in {Starting, Stopping} ==> child.armed || child.info.vaultLabel in expired
  }

  predicate TimerInv(s: Supervisor) {
    forall i :: 0 <= i < |s.vaults| ==> Watched(s.vaults[i], s.expired)
  }

  lemma ExitKeepsTimers(s: Supervisor, i: nat, report: ExitReport, launch: Launch, queued: seq<string>)
    requires TableInv(s.vaults) && i < |s.vaults|
    requires TimerInv(s.(expired := queued))
    requires forall l :: l in queued && l != s.vaults[i].info.vaultLabel ==> l in s.expired
    ensures TimerInv(ExitAt(s, i, report, launch).0)
  {
    WithoutKeeps(s.vaults, i);
    var rest := Without(s.vaults, i);
    forall j | 0 <= j < |rest|
      ensures Watched(rest[j], s.expired)
    {
      assert Apart(s.vaults[i].info, rest[j].info);
      assert Watched(s.vaults[if j < i then j else j + 1], queued);
    }
    var after := ExitAt(s, i, report, launch).0;
    assert after.vaults == rest
           || (|after.vaults| == |rest| + 1 && after.vaults[..|rest|] == rest && after.vaults[|rest|].armed);
    forall j | 0 <= j < |after.vaults|
      ensures Watched(after.vaults[j], after.expired)
    {
      if j < |rest| {
        assert after.vaults[j] == after.vaults[..|rest|][j];
      }
    }
  }

  lemma ExpireKeepsTimers(s: Supervisor, i: nat)
    requires TimerInv(s)
    ensures TimerInv(ExpireTimer(s, i))
  {
    var after := ExpireTimer(s, i);
    forall j | 0 <= j < |after.vaults|
      ensures Watched(after.vaults[j], after.expired)
    {
      assert Watched(s.vaults[j], s.expired);
    }
  }

  lemma SetPairKeepsTimers(s: Supervisor, pair: nat, keys: PmidAndSigner)
    requires TimerInv(s)
    ensures TimerInv(SetPair(s, pair, keys))
  {
    var after := SetPair(s, pair, keys);
    forall j | 0 <= j < |after.vaults|
      ensures Watched(after.vaults[j], after.expired)
    {
      assert Watched(s.vaults[j], s.expired);
    }
  }

  /** The queue without one handler still has those of all other labels. */
  lemma OthersQueued(expired: seq<string>, k: nat)
    requires k < |expired|
    ensures forall l :: l in expired && l != expired[k] ==> l in Without(expired, k)
  {
    forall l | l in expired && l != expired[k]
      ensures l in Without(expired, k)
    {
      var n :| 0 <= n < |expired| && expired[n] == l;
      assert Without(expired, k)[if n < k then n else n - 1] == l;
    }
  }

  lemma TimeoutKeepsTimers(s: Supervisor, k: nat, launch: Launch)
    requires TableInv(s.vaults) && TimerInv(s)
    ensures TimerInv(RunTimeout(s, k, launch).0)
  {
    if k < |s.expired| {
      var left := Without(s.expired, k);
      var s0 := s.(expired := left);
      OthersQueued(s.expired, k);
      var i := Find(s.vaults, ByLabel(s.expired[k]));
      if i < |s.vaults| {
        ExitKeepsTimers(s0, i, Terminated, launch, s.expired);
      } else {
        forall j | 0 <= j < |s.vaults|
          ensures Watched(s.vaults[j], left)
        {
          assert !Matches(s.vaults[j], ByLabel(s.expired[k]));
          assert Watched(s.vaults[j], s.expired);
        }
      }
    }
  }

  /** No child is stuck: the queued handler of its timer takes it out of the table,
      even if its on-exit functor puts the vault straight back. */
  lemma TimeoutRemoves(s: Supervisor, i: nat, k: nat, launch: Launch)
    requires TableInv(s.vaults) && i < |s.vaults| && k < |s.expired|
    requires s.expired[k] == s.vaults[i].info.vaultLabel
    requires forall j :: 0 <= j < |s.vaults| && j != i ==> s.vaults[j].lineage != s.vaults[i].lineage
    requires s.vaults[i].lineage < |s.history.ledger|
    ensures var after := RunTimeout(s, k, launch).0;
            && |after.expired| == |s.expired| - 1
            && forall j :: 0 <= j < |after.vaults| ==> after.vaults[j].lineage != s.vaults[i].lineage
  {
    FindIsExact(s.vaults, i);
    ExitUnfolds(s.(expired := Without(s.expired, k)), i, Terminated, launch);
    var rest := Without(s.vaults, i);
    forall j | 0 <= j < |rest|
      ensures rest[j].lineage != s.vaults[i].lineage
    {
      assert rest[j] == s.vaults[if j < i then j else j + 1];
    }
  }

  // ----------------------------------------------------------- restart budget

  /** The restarts a set of children may still use up. */
  function ChildBudget(vaults: seq<Child>): int {
    if vaults == [] then 0 else (MAX_VAULT_RESTARTS - vaults[0].restarts) + ChildBudget(vaults[1..])
  }

  function PostedBudget(posted: seq<Restart>): int {
    if posted == [] then 0 else (MAX_VAULT_RESTARTS - posted[0].restarts) + PostedBudget(posted[1..])
  }

  /** Launches still possible without a new AddProcess call. */
  function Budget(s: Supervisor): int {
    ChildBudget(s.vaults) + PostedBudget(s.posted)
  }

  /** Six launches for every lineage, less those made and those still possible. */
  function Slack(s: Supervisor): int {
    (MAX_VAULT_RESTARTS + 1) * |s.history.ledger| - s.history.launches - Budget(s)
  }

  lemma {:induction false} ChildBudgetAppend(vaults: seq<Child>, child: Child)
    ensures ChildBudget(vaults + [child]) == ChildBudget(vaults) + MAX_VAULT_RESTARTS - child.restarts
  {
    if vaults != [] {
      ChildBudgetAppend(vaults[1..], child);
      assert (vaults + [child])[1..] == vaults[1..] + [child];
    }
  }

  lemma {:induction false} ChildBudgetWithout(vaults: seq<Child>, i: nat)
    requires i < |vaults|
    ensures ChildBudget(Without(vaults, i)) == ChildBudget(vaults) - MAX_VAULT_RESTARTS + vaults[i].restarts
  {
    if i == 0 {
      assert Without(vaults, 0) == vaults[1..];
    } else {
      ChildBudgetWithout(vaults[1..], i - 1);
      assert Without(vaults, i) == [vaults[0]] + Without(vaults[1..], i - 1);
    }
  }

  /** Only the restart counts matter to the budget. */
  lemma {:induction false} ChildBudgetSame(a: seq<Child>, b: seq<Child>)
    requires |a| == |b| && forall i :: 0 <= i < |a| ==> a[i].restarts == b[i].restarts
    ensures ChildBudget(a) == ChildBudget(b)
  {
    if a != [] {
      ChildBudgetSame(a[1..], b[1..]);
    }
  }

  lemma {:induction false} PostedBudgetSame(a: seq<Restart>, b: seq<Restart>)
    requires |a| == |b| && forall i :: 0 <= i < |a| ==> a[i].restarts == b[i].restarts
    ensures PostedBudget(a) == PostedBudget(b)
  {
    if a != [] {
      PostedBudgetSame(a[1..], b[1..]);
    }
  }

  lemma {:induction false} PostedBudgetAppend(posted: seq<Restart>, r: Restart)
    ensures PostedBudget(posted + [r]) == PostedBudget(posted) + MAX_VAULT_RESTARTS - r.restarts
  {
    if posted != [] {
      PostedBudgetAppend(posted[1..], r);
      assert (posted + [r])[1..] == posted[1..] + [r];
    }
  }

  lemma {:induction false} PostedBudgetWithout(posted: seq<Restart>, i: nat)
    requires i < |posted|
    ensures PostedBudget(Without(posted, i)) == PostedBudget(posted) - MAX_VAULT_RESTARTS + posted[i].restarts
  {
    if i == 0 {
      assert Without(posted, 0) == posted[1..];
    } else {
      PostedBudgetWithout(posted[1..], i - 1);
      assert Without(posted, i) == [posted[0]] + Without(posted[1..], i - 1);
    }
  }

  /** A new vault brings its six launches along; a restart uses one of them. */
  lemma AddProcessSlack(s: Supervisor, info: VaultInfo, restarts: int, origin: Origin, launch: Launch)
    requires AddProcess(s, info, restarts, origin, launch).Added?
    requires origin.Restarted? ==> origin.lineage < |s.history.ledger|
    ensures var after := AddProcess(s, info, restarts, origin, launch).s;
            var gained := if origin.NewVault? then MAX_VAULT_RESTARTS + 1 else 0;
            Slack(after) == Slack(s) + gained - 1 - MAX_VAULT_RESTARTS + restarts
  {
    ChildBudgetAppend(s.vaults, Started(info, restarts, launch.pid, LineageOf(s.history, origin)));
  }

  /** An exit never creates budget: what the child had left is posted or given up. */
  lemma ExitSlack(s: Supervisor, i: nat, report: ExitReport, launch: Launch)
    requires i < |s.vaults| && AllWellFormed(s.vaults)
    ensures Slack(ExitAt(s, i, report, launch).0) >= Slack(s)
  {
    var child := s.vaults[i];
    assert WellFormed(child);
    ExitUnfolds(s, i, report, launch);
    var s1 := Called(s, i, report);
    ChildBudgetWithout(s.vaults, i);
    assert Slack(s1) == Slack(s) + MAX_VAULT_RESTARTS - child.restarts;
    var s2 := Readded(s1, child.onExit, launch);
    if s2 != s1 {
      AddProcessSlack(s1, child.onExit.value.info, 0, NewVault, launch);
    }
    PostedBudgetAppend(s2.posted, Restart(child.info.(connection := None), child.restarts, child.lineage));
  }

  lemma RunRestartSlack(s: Supervisor, k: nat, launch: Launch)
    requires forall i :: 0 <= i < |s.posted| ==>
      0 <= s.posted[i].restarts < MAX_VAULT_RESTARTS && s.posted[i].lineage < |s.history.ledger|
    ensures Slack(RunRestart(s, k, launch)) >= Slack(s)
    ensures |RunRestart(s, k, launch).history.ledger| == |s.history.ledger|
  {
    if k < |s.posted| {
      var r := s.posted[k];
      PostedBudgetWithout(s.posted, k);
      var s0 := s.(posted := Without(s.posted, k));
      if AddProcess(s0, r.info, r.restarts + 1, Restarted(r.lineage), launch).Added? {
        AddProcessSlack(s0, r.info, r.restarts + 1, Restarted(r.lineage), launch);
      }
    }
  }
}
