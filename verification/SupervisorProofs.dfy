/** One invariant of the child table, its queues and its history, and its
    preservation by every operation. */
module SupervisorProofs {
  import opened VaultTypes
  import opened Supervision
  import opened TableProofs
  import opened LineageProofs

  /** Every launch is still in the table or has come out of it. */
  predicate CountInv(s: Supervisor) {
    s.history.launches == s.history.exits + |s.vaults|
  }

  ghost predicate SupInv(s: Supervisor) {
    && TableInv(s.vaults)
    && TimerInv(s)
    && Partition(s, {})
    && LedgerInv(s)
    && FunctorInv(s)
    && CountInv(s)
    && Slack(s) >= 0
  }

  /** What an operation may do to the history: it opens lineages, never loses one, and
      makes no more launches than the budget and the new lineages allow. */
  predicate Advances(a: Supervisor, b: Supervisor) {
    && |a.history.ledger| <= |b.history.ledger|
    && Slack(a) <= Slack(b)
    && (forall l :: 0 <= l < |a.history.ledger| ==> SameVault(a.history.ledger[l].terms, b.history.ledger[l].terms))
  }

  /** ... and the owner and disk limit of a lineage stay what they were. */
  predicate KeepsTerms(a: Supervisor, b: Supervisor) {
    && |a.history.ledger| <= |b.history.ledger|
    && forall l :: 0 <= l < |a.history.ledger| ==> a.history.ledger[l].terms == b.history.ledger[l].terms
  }

  lemma EmptyInv()
    ensures SupInv(EMPTY)
  {
    assert ChildLineages(EMPTY.vaults) == [] && PostedLineages(EMPTY.posted) == [];
  }

  lemma AddNewVaultInv(s: Supervisor, info: VaultInfo, launch: Launch)
    requires SupInv(s) && AddProcess(s, info, 0, NewVault, launch).Added?
    ensures var after := AddProcess(s, info, 0, NewVault, launch).s;
            SupInv(after) && Advances(s, after) && KeepsTerms(s, after)
  {
    AddProcessExact(s, info, 0, NewVault, launch);
    AddNewVaultPartition(s, info, launch, {});
    AddNewVaultLedger(s, info, launch);
    AddKeepsFunctors(s, info, 0, NewVault, launch);
    AddProcessSlack(s, info, 0, NewVault, launch);
  }

  lemma VaultStartedAdvances(s: Supervisor, c: Connection, pid: nat)
    requires ChildStarted(s, c, pid).Some?
    ensures var after := ChildStarted(s, c, pid).value;
            Advances(s, after) && KeepsTerms(s, after) && Slack(after) == Slack(s)
  {
    ChildBudgetSame(s.vaults, ChildStarted(s, c, pid).value.vaults);
  }

  lemma VaultStartedInv(s: Supervisor, c: Connection, pid: nat)
    requires SupInv(s) && ChildStarted(s, c, pid).Some?
    requires forall j :: 0 <= j < |s.vaults| ==> s.vaults[j].info.connection != Some(c)
    ensures SupInv(ChildStarted(s, c, pid).value)
  {
    var after := ChildStarted(s, c, pid).value;
    VaultStartedKeepsUnique(s, c, pid);
    assert ChildLineages(after.vaults) == ChildLineages(s.vaults);
    SamePlacesKeep(s, after);
    SameFunctorsKeep(s, after);
    VaultStartedAdvances(s, c, pid);
  }

  lemma AssignOwnerTimers(s: Supervisor, vaultLabel: string, owner: string, disk: nat)
    requires TimerInv(s) && CountInv(s) && AssignOwner(s, vaultLabel, owner, disk).Some?
    ensures var after := AssignOwner(s, vaultLabel, owner, disk).value;
            TimerInv(after) && CountInv(after) && Slack(after) == Slack(s)
  {
    ChildBudgetSame(s.vaults, AssignOwner(s, vaultLabel, owner, disk).value.vaults);
  }

  lemma AssignOwnerInv(s: Supervisor, vaultLabel: string, owner: string, disk: nat)
    requires SupInv(s) && AssignOwner(s, vaultLabel, owner, disk).Some?
    ensures SupInv(AssignOwner(s, vaultLabel, owner, disk).value)
  {
    var after := AssignOwner(s, vaultLabel, owner, disk).value;
    AssignOwnerKeepsTable(s, vaultLabel, owner, disk);
    AssignOwnerTimers(s, vaultLabel, owner, disk);
    assert ChildLineages(after.vaults) == ChildLineages(s.vaults);
    SamePlacesKeep(s, after);
    PartitionSpreads(s, {});
    AssignOwnerLedger(s, vaultLabel, owner, disk);
    SameFunctorsKeep(s, after);
  }

  lemma AssignOwnerAdvances(s: Supervisor, vaultLabel: string, owner: string, disk: nat)
    requires LedgerInv(s) && AssignOwner(s, vaultLabel, owner, disk).Some?
    ensures Advances(s, AssignOwner(s, vaultLabel, owner, disk).value)
  {
    var i := Find(s.vaults, ByLabel(vaultLabel));
    assert Faithful(s.history, s.vaults[i].lineage, s.vaults[i].info, s.vaults[i].restarts);
    ChildBudgetSame(s.vaults, AssignOwner(s, vaultLabel, owner, disk).value.vaults);
  }

  lemma StopProcessAdvances(s: Supervisor, c: Connection, onExit: Option<VaultInfo>)
    ensures Advances(s, StopProcess(s, c, onExit)) && KeepsTerms(s, StopProcess(s, c, onExit))
    ensures Slack(StopProcess(s, c, onExit)) == Slack(s)
  {
    ChildBudgetSame(s.vaults, StopProcess(s, c, onExit).vaults);
  }

  lemma StopProcessLedger(s: Supervisor, c: Connection, onExit: Option<VaultInfo>)
    requires LedgerInv(s) && TimerInv(s)
    ensures LedgerInv(StopProcess(s, c, onExit)) && TimerInv(StopProcess(s, c, onExit))
  {
  }

  lemma StopProcessInv(s: Supervisor, c: Connection, onExit: Option<VaultInfo>)
    requires SupInv(s)
    ensures SupInv(StopProcess(s, c, onExit))
  {
    var after := StopProcess(s, c, onExit);
    StopProcessKeepsTable(s, c, onExit);
    StopProcessLedger(s, c, onExit);
    assert ChildLineages(after.vaults) == ChildLineages(s.vaults);
    SamePlacesKeep(s, after);
    StopProcessFunctors(s, c, onExit);
    StopProcessAdvances(s, c, onExit);
  }

  lemma CalledKeepsTerms(s: Supervisor, i: nat, report: ExitReport, launch: Launch)
    requires i < |s.vaults|
    ensures var after := Readded(Called(s, i, report), s.vaults[i].onExit, launch);
            && KeepsTerms(s, after)
            && (CountInv(s) ==> CountInv(after))
  {
  }

  lemma ExitAdvances(s: Supervisor, i: nat, report: ExitReport, launch: Launch)
    requires i < |s.vaults| && AllWellFormed(s.vaults)
    ensures var after := ExitAt(s, i, report, launch).0;
            && Advances(s, after) && KeepsTerms(s, after)
            && (CountInv(s) ==> CountInv(after))
  {
    ExitSlack(s, i, report, launch);
    ExitUnfolds(s, i, report, launch);
    CalledKeepsTerms(s, i, report, launch);
  }

  /** `queued`: the handler of the child's own timer may be off the queue already. */
  lemma ExitInv(s: Supervisor, i: nat, report: ExitReport, launch: Launch, queued: seq<string>)
    requires SupInv(s.(expired := queued)) && i < |s.vaults|
    requires forall l :: l in queued && l != s.vaults[i].info.vaultLabel ==> l in s.expired
    ensures SupInv(ExitAt(s, i, report, launch).0)
  {
    ExitKeepsTable(s, i, report, launch);
    ExitKeepsTimers(s, i, report, launch, queued);
    SamePlacesKeep(s.(expired := queued), s);
    ExitPartition(s, i, report, launch);
    assert LedgerInv(s) && FunctorInv(s);
    ExitLedger(s, i, report, launch);
    ExitFunctors(s, i, report, launch);
    ExitAdvances(s, i, report, launch);
  }

  lemma ProcessExitInv(s: Supervisor, vaultLabel: string, report: ExitReport, launch: Launch)
    requires SupInv(s)
    ensures var after := OnProcessExit(s, vaultLabel, report, launch).0;
            SupInv(after) && Advances(s, after) && KeepsTerms(s, after)
  {
    var i := Find(s.vaults, ByLabel(vaultLabel));
    if i < |s.vaults| {
      assert s.(expired := s.expired) == s;
      ExitInv(s, i, report, launch, s.expired);
      ExitAdvances(s, i, report, launch);
    }
  }

  lemma ExpireAdvances(s: Supervisor, i: nat)
    ensures Advances(s, ExpireTimer(s, i)) && KeepsTerms(s, ExpireTimer(s, i))
    ensures Slack(ExpireTimer(s, i)) == Slack(s)
  {
    ChildBudgetSame(s.vaults, ExpireTimer(s, i).vaults);
  }

  lemma ExpireInv(s: Supervisor, i: nat)
    requires SupInv(s)
    ensures SupInv(ExpireTimer(s, i))
  {
    var after := ExpireTimer(s, i);
    if i < |s.vaults| && s.vaults[i].armed {
      assert WellFormed(s.vaults[i]);
      SameKeysKeep(s.vaults, i, s.vaults[i].(armed := false));
      ExpireKeepsTimers(s, i);
      assert ChildLineages(after.vaults) == ChildLineages(s.vaults);
      SamePlacesKeep(s, after);
      SameFunctorsKeep(s, after);
      ExpireAdvances(s, i);
    }
  }

  lemma TimeoutInv(s: Supervisor, k: nat, launch: Launch)
    requires SupInv(s)
    ensures SupInv(RunTimeout(s, k, launch).0)
  {
    if k < |s.expired| {
      var s0 := s.(expired := Without(s.expired, k));
      var i := Find(s.vaults, ByLabel(s.expired[k]));
      if i < |s.vaults| {
        OthersQueued(s.expired, k);
        assert s0.(expired := s.expired) == s;
        ExitInv(s0, i, Terminated, launch, s.expired);
      } else {
        TimeoutKeepsTimers(s, k, launch);
        SamePlacesKeep(s, s0);
        SameFunctorsKeep(s, s0);
      }
    }
  }

  lemma TimeoutAdvances(s: Supervisor, k: nat, launch: Launch)
    requires AllWellFormed(s.vaults)
    ensures Advances(s, RunTimeout(s, k, launch).0) && KeepsTerms(s, RunTimeout(s, k, launch).0)
  {
    if k < |s.expired| {
      var s0 := s.(expired := Without(s.expired, k));
      var i := Find(s.vaults, ByLabel(s.expired[k]));
      if i < |s.vaults| {
        ExitAdvances(s0, i, Terminated, launch);
      }
    }
  }

  lemma RunRestartTimers(s: Supervisor, k: nat, launch: Launch)
    requires TimerInv(s)
    ensures TimerInv(RunRestart(s, k, launch))
  {
  }

  lemma RestartNowFunctors(s: Supervisor, r: Restart, launch: Launch)
    requires FunctorInv(s)
    ensures FunctorInv(RestartNow(s, r, launch))
  {
    if AddProcess(s, r.info, r.restarts + 1, Restarted(r.lineage), launch).Added? {
      AddKeepsFunctors(s, r.info, r.restarts + 1, Restarted(r.lineage), launch);
    } else {
      SameFunctorsKeep(s, RestartNow(s, r, launch));
    }
  }

  lemma RunRestartFunctors(s: Supervisor, k: nat, launch: Launch)
    requires FunctorInv(s)
    ensures FunctorInv(RunRestart(s, k, launch))
  {
    if k < |s.posted| {
      var s0 := s.(posted := Without(s.posted, k));
      SameFunctorsKeep(s, s0);
      RestartNowFunctors(s0, s.posted[k], launch);
    }
  }

  lemma RunRestartAdvances(s: Supervisor, k: nat, launch: Launch)
    requires LedgerInv(s)
    ensures var after := RunRestart(s, k, launch);
            && Advances(s, after) && KeepsTerms(s, after)
            && (CountInv(s) ==> CountInv(after))
  {
    RunRestartSlack(s, k, launch);
  }

  lemma RunRestartInv(s: Supervisor, k: nat, launch: Launch)
    requires SupInv(s)
    ensures SupInv(RunRestart(s, k, launch))
  {
    PartitionSpreads(s, {});
    RunRestartKeepsTable(s, k, launch);
    RunRestartTimers(s, k, launch);
    RunRestartPartition(s, k, launch);
    RunRestartLedger(s, k, launch);
    RunRestartFunctors(s, k, launch);
    RunRestartAdvances(s, k, launch);
  }

  lemma SetPairAdvances(s: Supervisor, pair: nat, keys: PmidAndSigner)
    ensures Advances(s, SetPair(s, pair, keys)) && Slack(SetPair(s, pair, keys)) == Slack(s)
  {
    var after := SetPair(s, pair, keys);
    ChildBudgetSame(s.vaults, after.vaults);
    PostedBudgetSame(s.posted, after.posted);
  }

  lemma SetPairInv(s: Supervisor, pair: nat, keys: PmidAndSigner)
    requires SupInv(s)
    ensures SupInv(SetPair(s, pair, keys))
  {
    var after := SetPair(s, pair, keys);
    SetPairKeepsTable(s, pair, keys);
    SetPairKeepsTimers(s, pair, keys);
    assert ChildLineages(after.vaults) == ChildLineages(s.vaults);
    assert PostedLineages(after.posted) == PostedLineages(s.posted);
    SamePlacesKeep(s, after);
    SetPairLedger(s, pair, keys);
    SameFunctorsKeep(s, after);
    SetPairAdvances(s, pair, keys);
  }

  /** The wire is no part of the invariant. */
  lemma WireInv(s: Supervisor, wire: Wire)
    requires SupInv(s)
    ensures SupInv(s.(wire := wire))
    ensures Slack(s.(wire := wire)) == Slack(s)
  {
    SamePlacesKeep(s, s.(wire := wire));
  }

  lemma AdvancesTrans(a: Supervisor, b: Supervisor, c: Supervisor)
    requires Advances(a, b) && Advances(b, c)
    ensures Advances(a, c)
    ensures KeepsTerms(a, b) && KeepsTerms(b, c) ==> KeepsTerms(a, c)
  {
  }

  lemma {:induction false} StopFromInv(s: Supervisor, i: nat)
    requires SupInv(s) && i <= |s.vaults| && AllConnected(s.vaults)
    ensures SupInv(StopFrom(s, i))
    decreases |s.vaults| - i
  {
    if i < |s.vaults| {
      StopProcessInv(s, s.vaults[i].info.connection.value, None);
      StopFromInv(StopProcess(s, s.vaults[i].info.connection.value, None), i + 1);
    }
  }

  lemma {:induction false} StopFromAdvances(s: Supervisor, i: nat)
    requires i <= |s.vaults| && AllConnected(s.vaults)
    ensures Advances(s, StopFrom(s, i)) && KeepsTerms(s, StopFrom(s, i))
    decreases |s.vaults| - i
  {
    if i < |s.vaults| {
      var s1 := StopProcess(s, s.vaults[i].info.connection.value, None);
      StopProcessAdvances(s, s.vaults[i].info.connection.value, None);
      StopFromAdvances(s1, i + 1);
      AdvancesTrans(s, s1, StopFrom(s1, i + 1));
    }
  }

  lemma StopAllInv(s: Supervisor)
    requires SupInv(s) && (s.stopAllCalled || AllConnected(s.vaults))
    ensures SupInv(StopAll(s)) && Advances(s, StopAll(s)) && KeepsTerms(s, StopAll(s))
  {
    if !s.stopAllCalled {
      var s0 := s.(stopAllCalled := true);
      SamePlacesKeep(s, s0);
      StopFromInv(s0, 0);
      StopFromAdvances(s0, 0);
    }
  }
}
