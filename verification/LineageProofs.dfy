/** Where every vault that was ever added has got to, which vaults share a key pair, and
    what became of every on-exit functor that was ever installed. */
module LineageProofs {
  import opened VaultTypes
  import opened Supervision
  import opened TableProofs

  // ----------------------------------------------------------------- lineages

  function ChildLineages(vaults: seq<Child>): seq<nat> {
    seq(|vaults|, i requires 0 <= i < |vaults| => vaults[i].lineage)
  }

  function PostedLineages(posted: seq<Restart>): seq<nat> {
    seq(|posted|, i requires 0 <= i < |posted| => posted[i].lineage)
  }

  /** All the places a lineage may be in; `limbo` is for handlers half way through. */
  function Places(s: Supervisor, limbo: set<nat>): multiset<nat> {
    multiset(ChildLineages(s.vaults)) + multiset(PostedLineages(s.posted))
    + multiset(s.history.ended.Keys) + multiset(limbo)
  }

  /** Every lineage that was opened is in exactly one place, and no other is. */
  ghost predicate Partition(s: Supervisor, limbo: set<nat>) {
    forall l: nat :: Places(s, limbo)[l] == if l < |s.history.ledger| then 1 else 0
  }

  lemma ChildLineagesAppend(vaults: seq<Child>, child: Child)
    ensures multiset(ChildLineages(vaults + [child])) == multiset(ChildLineages(vaults)) + multiset{child.lineage}
  {
    assert ChildLineages(vaults + [child]) == ChildLineages(vaults) + [child.lineage];
  }

  lemma PostedLineagesAppend(posted: seq<Restart>, r: Restart)
    ensures multiset(PostedLineages(posted + [r])) == multiset(PostedLineages(posted)) + multiset{r.lineage}
  {
    assert PostedLineages(posted + [r]) == PostedLineages(posted) + [r.lineage];
  }

  lemma ErasedOnce(s: seq<nat>, i: nat)
    requires i < |s|
    ensures multiset(s) == multiset(Without(s, i)) + multiset{s[i]}
  {
    assert s == s[..i] + [s[i]] + s[i + 1..];
  }

  lemma ChildLineagesWithout(vaults: seq<Child>, i: nat)
    requires i < |vaults|
    ensures multiset(ChildLineages(vaults)) == multiset(ChildLineages(Without(vaults, i))) + multiset{vaults[i].lineage}
  {
    ErasedOnce(ChildLineages(vaults), i);
    assert ChildLineages(Without(vaults, i)) == Without(ChildLineages(vaults), i);
  }

  lemma PostedLineagesWithout(posted: seq<Restart>, i: nat)
    requires i < |posted|
    ensures multiset(PostedLineages(posted))
            == multiset(PostedLineages(Without(posted, i))) + multiset{posted[i].lineage}
  {
    ErasedOnce(PostedLineages(posted), i);
    assert PostedLineages(Without(posted, i)) == Without(PostedLineages(posted), i);
  }

  /** What the partition says child by child and restart by restart. */
  predicate Spread(s: Supervisor) {
    && (forall i :: 0 <= i < |s.vaults| ==> s.vaults[i].lineage < |s.history.ledger|)
    && (forall i :: 0 <= i < |s.posted| ==> s.posted[i].lineage < |s.history.ledger|)
    && (forall i, j :: 0 <= i < j < |s.vaults| ==> s.vaults[i].lineage != s.vaults[j].lineage)
    && (forall i, j :: 0 <= i < j < |s.posted| ==> s.posted[i].lineage != s.posted[j].lineage)
    && (forall i, j :: 0 <= i < |s.vaults| && 0 <= j < |s.posted| ==> s.vaults[i].lineage != s.posted[j].lineage)
    && (forall i :: 0 <= i < |s.vaults| ==> s.vaults[i].lineage !in s.history.ended)
    && (forall i :: 0 <= i < |s.posted| ==> s.posted[i].lineage !in s.history.ended)
  }

  lemma OnceMeansApart(s: seq<nat>, i: nat, j: nat)
    requires i < j < |s| && multiset(s)[s[i]] <= 1
    ensures s[i] != s[j]
  {
    assert s == s[..j] + s[j..];
    assert s[i] in s[..j] && s[j] in s[j..];
  }

  lemma PartitionSpreads(s: Supervisor, limbo: set<nat>)
    requires Partition(s, limbo)
    ensures Spread(s)
  {
    var c, p := ChildLineages(s.vaults), PostedLineages(s.posted);
    forall i, j | 0 <= i < j < |s.vaults|
      ensures s.vaults[i].lineage != s.vaults[j].lineage
    {
      assert Places(s, limbo)[c[i]] <= 1;
      OnceMeansApart(c, i, j);
    }
    forall i, j | 0 <= i < j < |s.posted|
      ensures s.posted[i].lineage != s.posted[j].lineage
    {
      assert Places(s, limbo)[p[i]] <= 1;
      OnceMeansApart(p, i, j);
    }
    forall i | 0 <= i < |s.vaults|
      ensures c[i] in c && s.vaults[i].lineage == c[i] && Places(s, limbo)[c[i]] == 1
    {
      assert c[i] in Places(s, limbo);
    }
    forall i | 0 <= i < |s.posted|
      ensures p[i] in p && s.posted[i].lineage == p[i] && Places(s, limbo)[p[i]] == 1
    {
      assert p[i] in Places(s, limbo);
    }
  }

  // ------------------------------------------- the partition, handler by handler

  lemma ErasePartition(s: Supervisor, i: nat)
    requires Partition(s, {}) && i < |s.vaults|
    ensures Partition(Erase(s, i), {s.vaults[i].lineage})
  {
    ChildLineagesWithout(s.vaults, i);
    assert Places(Erase(s, i), {s.vaults[i].lineage}) == Places(s, {});
  }

  lemma AddNewVaultPartition(s: Supervisor, info: VaultInfo, launch: Launch, limbo: set<nat>)
    requires Partition(s, limbo) && AddProcess(s, info, 0, NewVault, launch).Added?
    ensures Partition(AddProcess(s, info, 0, NewVault, launch).s, limbo)
  {
    var after := AddProcess(s, info, 0, NewVault, launch).s;
    ChildLineagesAppend(s.vaults, after.vaults[|s.vaults|]);
    OpenedPartition(s, after, limbo);
  }

  /** A lineage that is opened is that of one child more. */
  lemma OpenedPartition(s: Supervisor, after: Supervisor, limbo: set<nat>)
    requires Partition(s, limbo)
    requires var next: nat := |s.history.ledger|;
             multiset(ChildLineages(after.vaults)) == multiset(ChildLineages(s.vaults)) + multiset{next}
    requires after.posted == s.posted && after.history.ended == s.history.ended
    requires |after.history.ledger| == |s.history.ledger| + 1
    ensures Partition(after, limbo)
  {
    assert Places(after, limbo) == Places(s, limbo) + multiset{|s.history.ledger|};
  }

  lemma EndPartition(s: Supervisor, l: nat, end: End)
    requires Partition(s, {l})
    ensures Partition(s.(history := s.history.(ended := s.history.ended[l := end])), {})
  {
    var after := s.(history := s.history.(ended := s.history.ended[l := end]));
    assert Places(s, {l})[l] == 1 by {
      assert l in Places(s, {l});
    }
    assert after.history.ended.Keys == s.history.ended.Keys + {l};
    assert Places(after, {}) == Places(s, {l});
  }

  lemma SettlePartition(s: Supervisor, child: Child)
    requires Partition(s, {child.lineage})
    ensures Partition(RestartIfRequired(s, child), {})
  {
    var after := RestartIfRequired(s, child);
    if after.posted == s.posted {
      EndPartition(s, child.lineage, after.history.ended[child.lineage]);
    } else {
      PostedLineagesAppend(s.posted, after.posted[|s.posted|]);
      assert Places(after, {}) == Places(s, {child.lineage});
    }
  }

  lemma RestartAddedPartition(s: Supervisor, r: Restart, launch: Launch)
    requires Partition(s, {r.lineage})
    requires AddProcess(s, r.info, r.restarts + 1, Restarted(r.lineage), launch).Added?
    ensures Partition(RestartNow(s, r, launch), {})
  {
    var after := RestartNow(s, r, launch);
    ChildLineagesAppend(s.vaults, after.vaults[|s.vaults|]);
    assert |after.history.ledger| == |s.history.ledger| && after.posted == s.posted;
    assert Places(after, {}) == Places(s, {r.lineage});
  }

  lemma RestartNowPartition(s: Supervisor, r: Restart, launch: Launch)
    requires Partition(s, {r.lineage})
    ensures Partition(RestartNow(s, r, launch), {})
  {
    if AddProcess(s, r.info, r.restarts + 1, Restarted(r.lineage), launch).Added? {
      RestartAddedPartition(s, r, launch);
    } else {
      EndPartition(s, r.lineage, Refused);
    }
  }

  /** A posted restart that runs leaves the queue for the table, or for good. */
  lemma RunRestartPartition(s: Supervisor, k: nat, launch: Launch)
    requires Partition(s, {})
    ensures Partition(RunRestart(s, k, launch), {})
  {
    if k < |s.posted| {
      var s0 := s.(posted := Without(s.posted, k));
      PostedLineagesWithout(s.posted, k);
      assert Places(s0, {s.posted[k].lineage}) == Places(s, {});
      RestartNowPartition(s0, s.posted[k], launch);
    }
  }

  /** An exit moves its lineage to a posted restart or ends it, and touches no other;
      a functor that re-adds the vault opens a lineage of its own. */
  lemma ExitPartition(s: Supervisor, i: nat, report: ExitReport, launch: Launch)
    requires Partition(s, {}) && i < |s.vaults|
    ensures Partition(ExitAt(s, i, report, launch).0, {})
  {
    var child := s.vaults[i];
    var s1 := Called(s, i, report);
    ErasePartition(s, i);
    ExitUnfolds(s, i, report, launch);
    assert Places(s1, {child.lineage}) == Places(Erase(s, i), {child.lineage});
    var s2 := Readded(s1, child.onExit, launch);
    if s2 != s1 {
      AddNewVaultPartition(s1, child.onExit.value.info, launch, {child.lineage});
    }
    SettlePartition(s2, child);
  }

  lemma SamePlacesKeep(s: Supervisor, after: Supervisor)
    requires Partition(s, {})
    requires ChildLineages(after.vaults) == ChildLineages(s.vaults)
    requires PostedLineages(after.posted) == PostedLineages(s.posted)
    requires |after.history.ledger| == |s.history.ledger| && after.history.ended == s.history.ended
    ensures Partition(after, {})
  {
    assert Places(after, {}) == Places(s, {});
  }

  // --------------------------------------------------------------- the ledger

  /** The ledger has the vault's terms, and a launch for every time it started. */
  predicate Faithful(h: History, lineage: nat, info: VaultInfo, restarts: int) {
    lineage < |h.ledger| && h.ledger[lineage].terms == TermsOf(info) && h.ledger[lineage].launches == restarts + 1
  }

  predicate ChildrenFaithful(s: Supervisor) {
    forall i :: 0 <= i < |s.vaults| ==>
      Faithful(s.history, s.vaults[i].lineage, s.vaults[i].info, s.vaults[i].restarts)
  }

  predicate PostedFaithful(s: Supervisor) {
    forall i :: 0 <= i < |s.posted| ==>
      && Faithful(s.history, s.posted[i].lineage, s.posted[i].info, s.posted[i].restarts)
      && Complete(s.posted[i].info) && s.posted[i].info.connection == None
      && 0 <= s.posted[i].restarts < MAX_VAULT_RESTARTS
  }

  predicate LaunchesBounded(h: History) {
    forall l :: 0 <= l < |h.ledger| ==> 1 <= h.ledger[l].launches <= MAX_VAULT_RESTARTS + 1
  }

  predicate LedgerInv(s: Supervisor) {
    ChildrenFaithful(s) && PostedFaithful(s) && LaunchesBounded(s.history)
  }

  lemma AddNewVaultLedger(s: Supervisor, info: VaultInfo, launch: Launch)
    requires LedgerInv(s) && AddProcess(s, info, 0, NewVault, launch).Added?
    ensures LedgerInv(AddProcess(s, info, 0, NewVault, launch).s)
  {
  }

  lemma RestartNowLedger(s: Supervisor, r: Restart, launch: Launch)
    requires LedgerInv(s) && Faithful(s.history, r.lineage, r.info, r.restarts) && 0 <= r.restarts < MAX_VAULT_RESTARTS
    requires forall i :: 0 <= i < |s.vaults| ==> s.vaults[i].lineage != r.lineage
    requires forall i :: 0 <= i < |s.posted| ==> s.posted[i].lineage != r.lineage
    ensures LedgerInv(RestartNow(s, r, launch))
  {
  }

  lemma RunRestartLedger(s: Supervisor, k: nat, launch: Launch)
    requires LedgerInv(s) && Spread(s)
    ensures LedgerInv(RunRestart(s, k, launch))
  {
    if k < |s.posted| {
      var s0 := s.(posted := Without(s.posted, k));
      assert forall i :: 0 <= i < |s0.posted| ==> s0.posted[i] == s.posted[if i < k then i else i + 1];
      RestartNowLedger(s0, s.posted[k], launch);
    }
  }

  lemma CalledLedger(s: Supervisor, i: nat, report: ExitReport)
    requires LedgerInv(s) && i < |s.vaults|
    ensures LedgerInv(Called(s, i, report))
  {
  }

  lemma SettleLedger(s: Supervisor, child: Child)
    requires LedgerInv(s) && Faithful(s.history, child.lineage, child.info, child.restarts) && 0 <= child.restarts
    requires Complete(child.info)
    ensures LedgerInv(RestartIfRequired(s, child))
  {
  }

  lemma ExitLedger(s: Supervisor, i: nat, report: ExitReport, launch: Launch)
    requires LedgerInv(s) && i < |s.vaults| && AllWellFormed(s.vaults)
    ensures LedgerInv(ExitAt(s, i, report, launch).0)
  {
    var child := s.vaults[i];
    assert WellFormed(child);
    var s1 := Called(s, i, report);
    CalledLedger(s, i, report);
    ExitUnfolds(s, i, report, launch);
    var s2 := Readded(s1, child.onExit, launch);
    if s2 != s1 {
      AddNewVaultLedger(s1, child.onExit.value.info, launch);
    }
    SettleLedger(s2, child);
  }

  lemma AssignOwnerLedger(s: Supervisor, vaultLabel: string, owner: string, disk: nat)
    requires LedgerInv(s) && Spread(s) && AssignOwner(s, vaultLabel, owner, disk).Some?
    ensures LedgerInv(AssignOwner(s, vaultLabel, owner, disk).value)
  {
  }

  /** Where the exit of a child takes its lineage. */
  lemma ExitFate(s: Supervisor, i: nat, report: ExitReport, launch: Launch)
    requires Partition(s, {}) && i < |s.vaults| && AllWellFormed(s.vaults)
    ensures var l := s.vaults[i].lineage; var after := ExitAt(s, i, report, launch).0;
            && l !in ChildLineages(after.vaults)
            && (s.vaults[i].status == Stopping <==> l in after.history.ended && after.history.ended[l] == Stopped)
            && (s.vaults[i].status != Stopping && s.vaults[i].restarts == MAX_VAULT_RESTARTS <==>
                l in after.history.ended && after.history.ended[l] == Exhausted)
            && (s.vaults[i].status != Stopping && s.vaults[i].restarts < MAX_VAULT_RESTARTS <==>
                l in PostedLineages(after.posted))
  {
    var l := s.vaults[i].lineage;
    var after := ExitAt(s, i, report, launch).0;
    assert WellFormed(s.vaults[i]);
    PartitionSpreads(s, {});
    ExitPartition(s, i, report, launch);
    assert l in after.history.ended || PostedLineages(after.posted)[|s.posted|] == l;
    assert Places(after, {})[l] == 1;
    assert l in PostedLineages(after.posted) ==> l in multiset(PostedLineages(after.posted));
    assert l in ChildLineages(after.vaults) ==> l in multiset(ChildLineages(after.vaults));
  }

  /** What stays of a ledger entry for good: the vault's label, its directory and the
      pair its keys are in. */
  predicate SameVault(a: Terms, b: Terms) {
    a.pair == b.pair && a.vaultLabel == b.vaultLabel && a.dir == b.dir
  }

  lemma SetPairLedger(s: Supervisor, pair: nat, keys: PmidAndSigner)
    requires LedgerInv(s)
    ensures LedgerInv(SetPair(s, pair, keys))
  {
    var after := SetPair(s, pair, keys);
    forall i | 0 <= i < |s.vaults|
      ensures Faithful(after.history, after.vaults[i].lineage, after.vaults[i].info, after.vaults[i].restarts)
    {
      assert Faithful(s.history, s.vaults[i].lineage, s.vaults[i].info, s.vaults[i].restarts);
    }
    forall i | 0 <= i < |s.posted|
      ensures Faithful(after.history, after.posted[i].lineage, after.posted[i].info, after.posted[i].restarts)
    {
      assert Faithful(s.history, s.posted[i].lineage, s.posted[i].info, s.posted[i].restarts);
    }
  }

  // ---------------------------------------------------------------- key pairs

  /** The pair of a new vault is new, or is one that a vault of the label has. */
  predicate PairFits(h: History, info: VaultInfo, pairs: nat) {
    && info.pair < pairs
    && forall l :: 0 <= l < |h.ledger| && h.ledger[l].terms.pair == info.pair ==>
         h.ledger[l].terms.vaultLabel == info.vaultLabel && h.ledger[l].terms.keys == info.keys
  }

  /** Vaults that share a pair have its keys and, being one and the same, a label. */
  predicate PairsInv(h: History, pairs: nat) {
    && (forall l :: 0 <= l < |h.ledger| ==> h.ledger[l].terms.pair < pairs)
    && (forall l, n :: 0 <= l < |h.ledger| && 0 <= n < |h.ledger| ==>
          var a, b := h.ledger[l].terms, h.ledger[n].terms;
          a.pair == b.pair ==> a.vaultLabel == b.vaultLabel && a.keys == b.keys)
  }

  /** The pairs, labels and keys of all lineages are what they were. */
  predicate SamePairs(a: History, b: History) {
    && |a.ledger| <= |b.ledger|
    && forall l :: 0 <= l < |a.ledger| ==>
         && b.ledger[l].terms.pair == a.ledger[l].terms.pair
         && b.ledger[l].terms.vaultLabel == a.ledger[l].terms.vaultLabel
         && b.ledger[l].terms.keys == a.ledger[l].terms.keys
  }

  lemma SamePairsKeep(a: History, b: History, pairs: nat)
    requires PairsInv(a, pairs) && SamePairs(a, b) && |a.ledger| == |b.ledger|
    ensures PairsInv(b, pairs)
  {
  }

  lemma NewPairKeeps(a: History, b: History, info: VaultInfo, pairs: nat)
    requires PairsInv(a, pairs) && PairFits(a, info, pairs) && SamePairs(a, b)
    requires |b.ledger| == |a.ledger| + 1 && b.ledger[|a.ledger|].terms == TermsOf(info)
    ensures PairsInv(b, pairs)
  {
  }

  lemma SetPairKeepsPairs(s: Supervisor, pair: nat, keys: PmidAndSigner, pairs: nat)
    requires PairsInv(s.history, pairs)
    ensures PairsInv(SetPair(s, pair, keys).history, pairs)
  {
    var after := SetPair(s, pair, keys).history.ledger;
    assert forall l :: 0 <= l < |after| ==> after[l] == EntryWithPair(s.history.ledger[l], pair, keys);
  }

  /** Two children never share a pair. */
  lemma ChildrenOwnPairs(s: Supervisor, pairs: nat, i: nat, j: nat)
    requires TableInv(s.vaults) && ChildrenFaithful(s) && PairsInv(s.history, pairs)
    requires i < |s.vaults| && j < |s.vaults| && s.vaults[i].info.pair == s.vaults[j].info.pair
    ensures i == j
  {
    assert Faithful(s.history, s.vaults[i].lineage, s.vaults[i].info, s.vaults[i].restarts);
    assert Faithful(s.history, s.vaults[j].lineage, s.vaults[j].info, s.vaults[j].restarts);
    assert s.vaults[i].info.vaultLabel == s.vaults[j].info.vaultLabel;
  }

  /** The functor of an exiting child re-adds it with the pair it had. */
  lemma ExitKeepsPairs(s: Supervisor, i: nat, report: ExitReport, launch: Launch, pairs: nat)
    requires PairsInv(s.history, pairs) && ChildrenFaithful(s) && i < |s.vaults|
    requires s.vaults[i].onExit.Some? ==>
      var info := s.vaults[i].onExit.value.info;
      info.pair == s.vaults[i].info.pair && info.keys == s.vaults[i].info.keys
      && info.vaultLabel == s.vaults[i].info.vaultLabel
    ensures PairsInv(ExitAt(s, i, report, launch).0.history, pairs)
  {
    assert Faithful(s.history, s.vaults[i].lineage, s.vaults[i].info, s.vaults[i].restarts);
    ExitUnfolds(s, i, report, launch);
    var s1 := Called(s, i, report);
    var s2 := Readded(s1, s.vaults[i].onExit, launch);
    if s2 == s1 {
      SamePairsKeep(s.history, s2.history, pairs);
    } else {
      NewPairKeeps(s.history, s2.history, s.vaults[i].onExit.value.info, pairs);
    }
    SamePairsKeep(s2.history, RestartIfRequired(s2, s.vaults[i]).history, pairs);
  }

  // ----------------------------------------------------------------- functors

  predicate Ran(ran: seq<Invocation>, id: nat) {
    exists j :: 0 <= j < |ran| && ran[j].functor.id == id
  }

  predicate Installed(vaults: seq<Child>, id: nat) {
    exists i :: 0 <= i < |vaults| && vaults[i].onExit.Some? && vaults[i].onExit.value.id == id
  }

  /** Every functor is in exactly one place: on one child, replaced, or run once; and
      it ran only after its child had left the table. */
  ghost predicate FunctorInv(s: Supervisor) {
    var h := s.history;
    && (forall i :: 0 <= i < |s.vaults| && s.vaults[i].onExit.Some? ==>
          var id := s.vaults[i].onExit.value.id; id < h.installed && id !in h.dropped && !Ran(h.ran, id))
    && (forall i, j :: 0 <= i < j < |s.vaults| && s.vaults[i].onExit.Some? && s.vaults[j].onExit.Some? ==>
          s.vaults[i].onExit.value.id != s.vaults[j].onExit.value.id)
    && (forall j :: 0 <= j < |h.ran| ==>
          && h.ran[j].functor.id < h.installed && h.ran[j].functor.id !in h.dropped
          && h.ran[j].vaultLabel !in h.ran[j].present)
    && (forall i, j :: 0 <= i < j < |h.ran| ==> h.ran[i].functor.id != h.ran[j].functor.id)
    && (forall id :: id in h.dropped ==> id < h.installed)
    && (forall id: nat :: id < h.installed ==> id in h.dropped || Ran(h.ran, id) || Installed(s.vaults, id))
  }

  lemma InstalledElsewhere(a: seq<Child>, b: seq<Child>, k: nat, id: nat)
    requires |a| == |b| && k < |a| && Installed(a, id)
    requires forall i :: 0 <= i < |a| && i != k ==> a[i].onExit == b[i].onExit
    ensures Installed(b, id) || (a[k].onExit.Some? && a[k].onExit.value.id == id)
  {
    var i :| 0 <= i < |a| && a[i].onExit.Some? && a[i].onExit.value.id == id;
    assert i != k ==> b[i].onExit.Some? && b[i].onExit.value.id == id;
  }

  /** Stopping a child installs the next functor, or none, and drops the child's
      previous one. */
  lemma StopProcessFunctors(s: Supervisor, c: Connection, onExit: Option<VaultInfo>)
    requires FunctorInv(s)
    ensures FunctorInv(StopProcess(s, c, onExit))
  {
    var k := Find(s.vaults, ByConnection(Some(c)));
    if k < |s.vaults| {
      var after := StopProcess(s, c, onExit);
      forall id: nat | id < after.history.installed
        ensures id in after.history.dropped || Ran(after.history.ran, id) || Installed(after.vaults, id)
      {
        if id == s.history.installed {
          assert after.vaults[k].onExit.Some? && after.vaults[k].onExit.value.id == id;
        } else if Installed(s.vaults, id) {
          InstalledElsewhere(s.vaults, after.vaults, k, id);
        }
      }
    }
  }

  predicate SameFunctor(a: Option<Functor>, b: Option<Functor>) {
    (a.None? && b.None?) || (a.Some? && b.Some? && a.value.id == b.value.id)
  }

  /** Operations that leave every functor on its child. */
  lemma SameFunctorsKeep(s: Supervisor, after: Supervisor)
    requires FunctorInv(s)
    requires |after.vaults| == |s.vaults|
    requires forall i :: 0 <= i < |s.vaults| ==> SameFunctor(after.vaults[i].onExit, s.vaults[i].onExit)
    requires after.history.installed == s.history.installed && after.history.dropped == s.history.dropped
    requires after.history.ran == s.history.ran
    ensures FunctorInv(after)
  {
    forall id: nat | Installed(s.vaults, id)
      ensures Installed(after.vaults, id)
    {
      var i :| 0 <= i < |s.vaults| && s.vaults[i].onExit.Some? && s.vaults[i].onExit.value.id == id;
      assert after.vaults[i].onExit.Some? && after.vaults[i].onExit.value.id == id;
    }
  }

  /** A child that comes without a functor changes nothing either. */
  lemma AddKeepsFunctors(s: Supervisor, info: VaultInfo, restarts: int, origin: Origin, launch: Launch)
    requires FunctorInv(s) && AddProcess(s, info, restarts, origin, launch).Added?
    ensures FunctorInv(AddProcess(s, info, restarts, origin, launch).s)
  {
    var after := AddProcess(s, info, restarts, origin, launch).s;
    forall id: nat | Installed(s.vaults, id)
      ensures Installed(after.vaults, id)
    {
      var i :| 0 <= i < |s.vaults| && s.vaults[i].onExit.Some? && s.vaults[i].onExit.value.id == id;
      assert after.vaults[i].onExit.Some? && after.vaults[i].onExit.value.id == id;
    }
  }

  lemma RanAppend(ran: seq<Invocation>, call: Invocation, id: nat)
    ensures Ran(ran + [call], id) <==> Ran(ran, id) || call.functor.id == id
  {
    var after := ran + [call];
    if Ran(ran, id) {
      var j :| 0 <= j < |ran| && ran[j].functor.id == id;
      assert after[j].functor.id == id;
    }
    if call.functor.id == id {
      assert after[|ran|].functor.id == id;
    }
  }

  lemma InstalledAfterErase(vaults: seq<Child>, i: nat, id: nat)
    requires i < |vaults| && Installed(vaults, id)
    ensures Installed(Without(vaults, i), id) || (vaults[i].onExit.Some? && vaults[i].onExit.value.id == id)
  {
    var j :| 0 <= j < |vaults| && vaults[j].onExit.Some? && vaults[j].onExit.value.id == id;
    assert j != i ==> Without(vaults, i)[if j < i then j else j - 1].onExit == vaults[j].onExit;
  }

  lemma CalledFunctors(s: Supervisor, i: nat, report: ExitReport)
    requires FunctorInv(s) && TableInv(s.vaults) && i < |s.vaults|
    ensures FunctorInv(Called(s, i, report))
  {
    WithoutKeeps(s.vaults, i);
    var rest := Without(s.vaults, i);
    var after := Called(s, i, report);
    forall id: nat | Installed(s.vaults, id)
      ensures Installed(rest, id) || (s.vaults[i].onExit.Some? && s.vaults[i].onExit.value.id == id)
    {
      InstalledAfterErase(s.vaults, i, id);
    }
    if s.vaults[i].onExit.Some? {
      var call := after.history.ran[|s.history.ran|];
      assert call.vaultLabel !in call.present;
      forall id: nat
        ensures Ran(after.history.ran, id) <==> Ran(s.history.ran, id) || call.functor.id == id
      {
        RanAppend(s.history.ran, call, id);
      }
    }
  }

  lemma ExitFunctors(s: Supervisor, i: nat, report: ExitReport, launch: Launch)
    requires FunctorInv(s) && TableInv(s.vaults) && i < |s.vaults|
    ensures FunctorInv(ExitAt(s, i, report, launch).0)
  {
    CalledFunctors(s, i, report);
    ExitUnfolds(s, i, report, launch);
    var s1 := Called(s, i, report);
    var s2 := Readded(s1, s.vaults[i].onExit, launch);
    if s2 != s1 {
      AddKeepsFunctors(s1, s.vaults[i].onExit.value.info, 0, NewVault, launch);
    }
    SameFunctorsKeep(s2, RestartIfRequired(s2, s.vaults[i]));
  }

  /** The functor in place when a child is removed runs, that once, with the report of
      how the process ended, and finds the child gone. */
  lemma ExitRunsFunctorOnce(s: Supervisor, i: nat, report: ExitReport, launch: Launch)
    requires FunctorInv(s) && TableInv(s.vaults) && i < |s.vaults|
    ensures var ran := ExitAt(s, i, report, launch).0.history.ran;
            match s.vaults[i].onExit
            case None => ran == s.history.ran
            case Some(f) =>
              && !Ran(s.history.ran, f.id)
              && |ran| == |s.history.ran| + 1 && ran[..|s.history.ran|] == s.history.ran
              && ran[|s.history.ran|].functor == f && ran[|s.history.ran|].report == report
              && s.vaults[i].info.vaultLabel !in ran[|s.history.ran|].present
  {
    WithoutKeeps(s.vaults, i);
  }
}
