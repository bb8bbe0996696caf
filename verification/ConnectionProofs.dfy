/** Who holds which connection: a child by its own entry or by what its on-exit
    functor has captured. */
module ConnectionProofs {
  import opened VaultTypes
  import opened Supervision
  import opened TableProofs
  import opened LineageProofs

  predicate HeldBy(child: Child, c: Connection) {
    child.info.connection == Some(c) || (child.onExit.Some? && child.onExit.value.info.connection == Some(c))
  }

  /** A functor re-adds the vault it sits on, over a connection the vault had. */
  predicate CapturesOwn(child: Child) {
    child.onExit.Some? ==>
      var info := child.onExit.value.info;
      && info.vaultLabel == child.info.vaultLabel
      && info.keys == child.info.keys
      && info.pair == child.info.pair
      && info.connection.Some?
  }

  /** Children hold connections out of `free` only, and no two hold the same one. */
  ghost predicate HoldersInv(vaults: seq<Child>, free: set<Connection>) {
    && (forall i :: 0 <= i < |vaults| ==> CapturesOwn(vaults[i]))
    && (forall i, c :: 0 <= i < |vaults| && HeldBy(vaults[i], c) ==> c in free)
    && (forall i, j, c :: 0 <= i < j < |vaults| && HeldBy(vaults[i], c) ==> !HeldBy(vaults[j], c))
  }

  lemma HoldersGrow(vaults: seq<Child>, free: set<Connection>, more: set<Connection>)
    requires HoldersInv(vaults, free) && free <= more
    ensures HoldersInv(vaults, more)
  {
  }

  lemma HoldersWithout(vaults: seq<Child>, i: nat, free: set<Connection>)
    requires HoldersInv(vaults, free) && i < |vaults|
    ensures HoldersInv(Without(vaults, i), free)
    ensures forall j, c :: 0 <= j < |vaults| - 1 && HeldBy(vaults[i], c) ==> !HeldBy(Without(vaults, i)[j], c)
  {
    var rest := Without(vaults, i);
    forall j | 0 <= j < |rest|
      ensures rest[j] == vaults[if j < i then j else j + 1]
    {
    }
  }

  lemma HoldersAppend(vaults: seq<Child>, child: Child, free: set<Connection>)
    requires HoldersInv(vaults, free) && child.onExit.None?
    requires child.info.connection.Some? ==> child.info.connection.value in free
    requires forall j, c :: 0 <= j < |vaults| && HeldBy(child, c) ==> !HeldBy(vaults[j], c)
    ensures HoldersInv(vaults + [child], free)
  {
    var after := vaults + [child];
    forall i, j, c | 0 <= i < j < |after| && HeldBy(after[i], c)
      ensures !HeldBy(after[j], c)
    {
    }
  }

  /** A child may come to hold a connection no child holds. */
  lemma HoldersUpdate(vaults: seq<Child>, i: nat, child: Child, free: set<Connection>, gained: set<Connection>)
    requires HoldersInv(vaults, free) && i < |vaults| && CapturesOwn(child)
    requires forall c :: HeldBy(child, c) ==> HeldBy(vaults[i], c) || c in gained
    requires forall j, c :: 0 <= j < |vaults| && c in gained ==> !HeldBy(vaults[j], c)
    ensures HoldersInv(vaults[i := child], free + gained)
  {
    var after := vaults[i := child];
    forall j, k, c | 0 <= j < k < |after| && HeldBy(after[j], c)
      ensures !HeldBy(after[k], c)
    {
    }
  }

  // ------------------------------------------------------ operation by operation

  lemma ExitHolders(s: Supervisor, i: nat, report: ExitReport, launch: Launch, free: set<Connection>)
    requires HoldersInv(s.vaults, free) && i < |s.vaults|
    ensures HoldersInv(ExitAt(s, i, report, launch).0.vaults, free)
  {
    HoldersWithout(s.vaults, i, free);
    ExitUnfolds(s, i, report, launch);
    var s1 := Called(s, i, report);
    var s2 := Readded(s1, s.vaults[i].onExit, launch);
    if s2 != s1 {
      var child := s2.vaults[|s1.vaults|];
      assert forall c :: HeldBy(child, c) ==> HeldBy(s.vaults[i], c);
      HoldersAppend(s1.vaults, child, free);
    }
  }

  lemma TimeoutHolders(s: Supervisor, k: nat, launch: Launch, free: set<Connection>)
    requires HoldersInv(s.vaults, free)
    ensures HoldersInv(RunTimeout(s, k, launch).0.vaults, free)
  {
    if k < |s.expired| {
      var i := Find(s.vaults, ByLabel(s.expired[k]));
      if i < |s.vaults| {
        ExitHolders(s.(expired := Without(s.expired, k)), i, Terminated, launch, free);
      }
    }
  }

  lemma ProcessExitHolders(s: Supervisor, vaultLabel: string, report: ExitReport, launch: Launch, free: set<Connection>)
    requires HoldersInv(s.vaults, free)
    ensures HoldersInv(OnProcessExit(s, vaultLabel, report, launch).0.vaults, free)
  {
    var i := Find(s.vaults, ByLabel(vaultLabel));
    if i < |s.vaults| {
      ExitHolders(s, i, report, launch, free);
    }
  }

  lemma ProcessExitPairs(s: Supervisor, vaultLabel: string, report: ExitReport, launch: Launch, free: set<Connection>,
                         pairs: nat)
    requires HoldersInv(s.vaults, free) && PairsInv(s.history, pairs) && ChildrenFaithful(s)
    ensures PairsInv(OnProcessExit(s, vaultLabel, report, launch).0.history, pairs)
  {
    var i := Find(s.vaults, ByLabel(vaultLabel));
    if i < |s.vaults| {
      assert CapturesOwn(s.vaults[i]);
      ExitKeepsPairs(s, i, report, launch, pairs);
    }
  }

  lemma ExpireHolders(s: Supervisor, i: nat, free: set<Connection>)
    requires HoldersInv(s.vaults, free)
    ensures HoldersInv(ExpireTimer(s, i).vaults, free)
  {
    if i < |s.vaults| && s.vaults[i].armed {
      assert CapturesOwn(s.vaults[i]);
      HoldersUpdate(s.vaults, i, s.vaults[i].(armed := false), free, {});
      assert free + {} == free;
    }
  }

  lemma RunRestartHolders(s: Supervisor, k: nat, launch: Launch, free: set<Connection>)
    requires HoldersInv(s.vaults, free) && PostedFaithful(s)
    ensures HoldersInv(RunRestart(s, k, launch).vaults, free)
  {
    if k < |s.posted| {
      var after := RunRestart(s, k, launch);
      if |after.vaults| > |s.vaults| {
        HoldersAppend(s.vaults, after.vaults[|s.vaults|], free);
      }
    }
  }

  lemma AssignOwnerHolders(s: Supervisor, vaultLabel: string, owner: string, disk: nat, free: set<Connection>)
    requires HoldersInv(s.vaults, free) && AssignOwner(s, vaultLabel, owner, disk).Some?
    ensures HoldersInv(AssignOwner(s, vaultLabel, owner, disk).value.vaults, free)
  {
    var i := Find(s.vaults, ByLabel(vaultLabel));
    assert CapturesOwn(s.vaults[i]);
    HoldersUpdate(s.vaults, i, s.vaults[i].(info := WithOwner(s.vaults[i].info, owner, disk)), free, {});
    assert free + {} == free;
  }

  /** Child and functor see the same key pair. */
  lemma SetPairHolders(s: Supervisor, pair: nat, keys: PmidAndSigner, free: set<Connection>)
    requires HoldersInv(s.vaults, free)
    ensures HoldersInv(SetPair(s, pair, keys).vaults, free)
  {
    var after := SetPair(s, pair, keys).vaults;
    forall i | 0 <= i < |after|
      ensures CapturesOwn(after[i]) && forall c :: HeldBy(after[i], c) <==> HeldBy(s.vaults[i], c)
    {
      assert CapturesOwn(s.vaults[i]);
    }
  }

  /** A functor that captures what its child holds, or none. */
  lemma StopProcessHolders(s: Supervisor, c: Connection, onExit: Option<VaultInfo>, free: set<Connection>)
    requires HoldersInv(s.vaults, free)
    requires onExit.Some? ==>
      var i := Find(s.vaults, ByConnection(Some(c)));
      i < |s.vaults| ==>
        && onExit.value.vaultLabel == s.vaults[i].info.vaultLabel
        && onExit.value.keys == s.vaults[i].info.keys
        && onExit.value.pair == s.vaults[i].info.pair
        && onExit.value.connection == Some(c)
    ensures HoldersInv(StopProcess(s, c, onExit).vaults, free)
  {
    var i := Find(s.vaults, ByConnection(Some(c)));
    if i < |s.vaults| {
      HoldersUpdate(s.vaults, i, BeingStopped(s.vaults[i], NewFunctor(s.history, onExit)), free, {});
      assert free + {} == free;
    }
  }

  lemma {:induction false} StopFromHolders(s: Supervisor, i: nat, free: set<Connection>)
    requires HoldersInv(s.vaults, free) && i <= |s.vaults| && AllConnected(s.vaults)
    ensures HoldersInv(StopFrom(s, i).vaults, free)
    decreases |s.vaults| - i
  {
    if i < |s.vaults| {
      StopProcessHolders(s, s.vaults[i].info.connection.value, None, free);
      StopFromHolders(StopProcess(s, s.vaults[i].info.connection.value, None), i + 1, free);
    }
  }

  lemma VaultStartedHolders(s: Supervisor, c: Connection, pid: nat, free: set<Connection>)
    requires HoldersInv(s.vaults, free) && ChildStarted(s, c, pid).Some? && c !in free
    ensures HoldersInv(ChildStarted(s, c, pid).value.vaults, free + {c})
  {
    var i := Find(s.vaults, ByPid(pid));
    assert CapturesOwn(s.vaults[i]);
    HoldersUpdate(s.vaults, i, WithConnection(s.vaults[i], c), free, {c});
  }

  // --------------------------------------------------------------- relocation

  /** Re-adding a relocated vault never conflicts with its own old entry, label, keys
      or connection: it succeeds if and only if it has a new directory, no other child
      uses that directory or has its Pmid name, and the launch succeeds. */
  lemma RelocationSound(s: Supervisor, i: nat, report: ExitReport, launch: Launch, free: set<Connection>)
    requires TableInv(s.vaults) && HoldersInv(s.vaults, free) && i < |s.vaults| && s.vaults[i].onExit.Some?
    ensures var info := s.vaults[i].onExit.value.info;
            AddProcess(Called(s, i, report), info, 0, NewVault, launch).Added? <==>
              && info.dir != ""
              && (forall j :: 0 <= j < |s.vaults| && j != i ==> s.vaults[j].info.dir != info.dir)
              && (forall j :: 0 <= j < |s.vaults| && j != i ==>
                    PmidName(s.vaults[j].info) != PmidName(s.vaults[i].info))
              && launch.Launches?
  {
    var info := s.vaults[i].onExit.value.info;
    var rest := Without(s.vaults, i);
    assert WellFormed(s.vaults[i]) && CapturesOwn(s.vaults[i]);
    WithoutKeeps(s.vaults, i);
    HoldersWithout(s.vaults, i, free);
    forall j | 0 <= j < |rest|
      ensures Conflicts(info, rest[j].info) <==>
              rest[j].info.dir == info.dir || PmidName(rest[j].info) == PmidName(info)
    {
      assert Apart(s.vaults[i].info, rest[j].info);
      assert WellFormed(rest[j]);
      assert HeldBy(s.vaults[i], info.connection.value);
      assert !HeldBy(rest[j], info.connection.value);
    }
    forall j | 0 <= j < |s.vaults| && j != i
      ensures s.vaults[j] == rest[if j < i then j else j - 1]
    {
    }
  }
}
