/** Taking vaults over where they are: whose a vault is, what is left of its keys, and
    what that does to its identity and to the uniqueness of Pmid names.

    The answer to the new owner is made by moving the key pair out of where the table has
    it.  `Crypto.moved` is what such a move leaves behind; nothing is assumed of it. */
module Ownership {
  import opened VaultTypes
  import opened Supervision
  import opened Registries
  import opened Management
  import opened TableProofs
  import opened LineageProofs
  import opened ConnectionProofs
  import opened ManagerProofs
  import opened Safety

  /** The child an event takes over where it is, or the end of the table. */
  function TakenOver(m: Manager, e: Event): (i: nat)
    ensures i <= |m.sup.vaults|
  {
    if m.halted || !e.TakeOwnershipRequest? || e.c !in m.clients.validated then |m.sup.vaults| else
      var i := Find(m.sup.vaults, ByLabel(e.vaultLabel));
      if i == |m.sup.vaults| || m.sup.vaults[i].info.dir != e.dir
         || (NeedsDiskUpdate(m.sup.vaults[i].info, e.disk) && m.sup.vaults[i].info.connection.None?)
      then |m.sup.vaults|
      else i
  }

  /** The event moves the keys out of the pair. */
  predicate MovesOut(m: Manager, e: Event, pair: nat) {
    var i := TakenOver(m, e);
    i < |m.sup.vaults| && e.writes && m.sup.vaults[i].info.pair == pair
  }

  // ----------------------------------------------------- one step, exactly

  /** What the event makes of the terms of a vault; `taken` if it takes that vault over. */
  function TermsAfter(k: Crypto, m: Manager, e: Event, terms: Terms, taken: bool): Terms {
    var t := if taken && e.TakeOwnershipRequest? && e.c in m.clients.validated
             then terms.(owner := Some(m.clients.validated[e.c]), maxDiskUsage := e.disk) else terms;
    if MovesOut(m, e, terms.pair) && terms.keys.Some? then t.(keys := Some(k.moved(terms.keys.value))) else t
  }

  lemma AnswerLedger(k: Crypto, m: Manager, c: Connection, info: VaultInfo, writes: bool, l: nat)
    requires info.keys.Some? && l < |m.sup.history.ledger|
    ensures var after := Answer(k, m, c, info, writes).sup.history.ledger;
            && |after| == |m.sup.history.ledger|
            && after[l] == if writes then EntryWithPair(m.sup.history.ledger[l], info.pair, k.moved(info.keys.value))
                           else m.sup.history.ledger[l]
  {
  }

  lemma TakeInPlaceLedger(k: Crypto, m: Manager, c: Connection, owner: string, i: nat, disk: nat, writes: bool, l: nat)
    requires TableInv(m.sup.vaults) && ChildrenFaithful(m.sup) && i < |m.sup.vaults| && l < |m.sup.history.ledger|
    requires !(NeedsDiskUpdate(m.sup.vaults[i].info, disk) && m.sup.vaults[i].info.connection.None?)
    ensures var info := m.sup.vaults[i].info;
            var after := TakeInPlace(k, m, c, owner, i, disk, writes).sup.history.ledger;
            var entry := m.sup.history.ledger[l];
            var owned := if m.sup.vaults[i].lineage == l
                         then entry.(terms := entry.terms.(owner := Some(owner), maxDiskUsage := disk)) else entry;
            && |after| == |m.sup.history.ledger|
            && after[l] == if writes then EntryWithPair(owned, info.pair, k.moved(info.keys.value)) else owned
  {
    var info := m.sup.vaults[i].info;
    FindIsExact(m.sup.vaults, i);
    assert WellFormed(m.sup.vaults[i]);
    assert Faithful(m.sup.history, m.sup.vaults[i].lineage, info, m.sup.vaults[i].restarts);
    var m1 := if NeedsDiskUpdate(info, disk) then Say(m, info.connection.value, MaxDiskUsageUpdate(disk)) else m;
    var m2 := m1.(sup := AssignOwner(m1.sup, info.vaultLabel, owner, disk).value);
    assert TakeInPlace(k, m, c, owner, i, disk, writes) == Answer(k, m2, c, info, writes);
    AnswerLedger(k, m2, c, info, writes, l);
  }

  lemma RelocationKeepsLedger(m: Manager, info: VaultInfo)
    ensures ChangeChunkstorePath(m, info).sup.history.ledger == m.sup.history.ledger
  {
  }

  lemma OwnershipLedger(k: Crypto, m: Manager, e: Event, l: nat)
    requires Inv(m) && !m.halted && e.TakeOwnershipRequest? && l < |m.sup.history.ledger|
    ensures var taken := HandleTakeOwnershipRequest(k, m, e.c, e.vaultLabel, e.dir, e.disk, e.writes);
            var after, i := taken.sup.history.ledger, TakenOver(m, e);
            && |after| == |m.sup.history.ledger|
            && after[l].terms == TermsAfter(k, m, e, m.sup.history.ledger[l].terms,
                                            i < |m.sup.vaults| && m.sup.vaults[i].lineage == l)
  {
    var i := Find(m.sup.vaults, ByLabel(e.vaultLabel));
    if e.c in m.clients.validated && i < |m.sup.vaults| {
      var info := m.sup.vaults[i].info;
      if info.dir != e.dir {
        RelocationKeepsLedger(m, Relocated(info, e.dir, m.clients.validated[e.c], e.disk));
      } else if TakenOver(m, e) == i {
        TakeInPlaceLedger(k, m, e.c, m.clients.validated[e.c], i, e.disk, e.writes, l);
        assert Faithful(m.sup.history, m.sup.vaults[i].lineage, info, m.sup.vaults[i].restarts);
        assert WellFormed(m.sup.vaults[i]);
      }
    }
  }

  /** Every event does to what is recorded of a vault exactly this. */
  lemma TermsStep(k: Crypto, m: Manager, e: Event, l: nat)
    requires Inv(m) && l < |m.sup.history.ledger|
    ensures var after := Step(k, m, e).sup.history.ledger; var i := TakenOver(m, e);
            && l < |after|
            && after[l].terms == TermsAfter(k, m, e, m.sup.history.ledger[l].terms,
                                            i < |m.sup.vaults| && m.sup.vaults[i].lineage == l)
  {
    if m.halted {
      assert Step(k, m, e) == m;
    } else if e.TakeOwnershipRequest? {
      assert Step(k, m, e) == HandleTakeOwnershipRequest(k, m, e.c, e.vaultLabel, e.dir, e.disk, e.writes);
      OwnershipLedger(k, m, e, l);
    } else {
      TermsStand(k, m, e);
    }
  }

  // ------------------------------------------------------------- over any run

  /** A TakeOwnershipRequest names the vault. */
  predicate Named(events: seq<Event>, vaultLabel: string) {
    exists n :: 0 <= n < |events| && events[n].TakeOwnershipRequest? && events[n].vaultLabel == vaultLabel
  }

  /** Who takes a vault over, or moves keys out of its pair, names it. */
  lemma TakenIsNamed(m: Manager, e: Event, l: nat)
    requires Inv(m) && l < |m.sup.history.ledger| && TakenOver(m, e) < |m.sup.vaults|
    requires m.sup.vaults[TakenOver(m, e)].lineage == l || MovesOut(m, e, m.sup.history.ledger[l].terms.pair)
    ensures Named([e], m.sup.history.ledger[l].terms.vaultLabel)
  {
    var child := m.sup.vaults[TakenOver(m, e)];
    assert Faithful(m.sup.history, child.lineage, child.info, child.restarts);
    assert [e][0].TakeOwnershipRequest? && [e][0].vaultLabel == m.sup.history.ledger[l].terms.vaultLabel;
  }

  /** What is left of the keys in the pair after the events. */
  function KeysAfter(k: Crypto, m: Manager, more: seq<Event>, pair: nat, keys: PmidAndSigner): PmidAndSigner
    decreases |more|
  {
    if more == [] then keys
    else KeysAfter(k, Step(k, m, more[0]), more[1..], pair, if MovesOut(m, more[0], pair) then k.moved(keys) else keys)
  }

  /** From the one to the other the keys became these, and nothing changed unless the vault
      was named. */
  predicate Evolves(a: Terms, b: Terms, keys: PmidAndSigner, named: bool) {
    && a.vaultLabel == b.vaultLabel && a.dir == b.dir && a.pair == b.pair && b.keys == Some(keys)
    && (!named ==> a == b)
  }

  lemma EvolvesStep(k: Crypto, m: Manager, e: Event, l: nat)
    requires Inv(m) && l < |m.sup.history.ledger| && m.sup.history.ledger[l].terms.keys.Some?
    ensures var a, after := m.sup.history.ledger[l].terms, Step(k, m, e).sup.history.ledger;
            && l < |after|
            && Evolves(a, after[l].terms, if MovesOut(m, e, a.pair) then k.moved(a.keys.value) else a.keys.value,
                       Named([e], a.vaultLabel))
  {
    var a := m.sup.history.ledger[l].terms;
    TermsStep(k, m, e, l);
    var i := TakenOver(m, e);
    if i < |m.sup.vaults| && (m.sup.vaults[i].lineage == l || MovesOut(m, e, a.pair)) {
      TakenIsNamed(m, e, l);
    }
  }

  lemma NamedJoins(e: Event, rest: seq<Event>, vaultLabel: string)
    ensures Named([e] + rest, vaultLabel) <==> Named([e], vaultLabel) || Named(rest, vaultLabel)
  {
    var all := [e] + rest;
    if Named([e], vaultLabel) {
      assert all[0] == [e][0];
    }
    if n :| 0 <= n < |rest| && rest[n].TakeOwnershipRequest? && rest[n].vaultLabel == vaultLabel {
      assert all[n + 1] == rest[n];
    }
    if n :| 0 <= n < |all| && all[n].TakeOwnershipRequest? && all[n].vaultLabel == vaultLabel {
      assert n == 0 || rest[n - 1] == all[n];
      assert n == 0 ==> [e][0] == all[0];
    }
  }

  lemma EvolvesTwice(a: Terms, b: Terms, c: Terms, once: PmidAndSigner, twice: PmidAndSigner, named: bool, again: bool)
    requires Evolves(a, b, once, named) && Evolves(b, c, twice, again)
    ensures Evolves(a, c, twice, named || again)
  {
  }

  lemma KeysUnfold(k: Crypto, m: Manager, more: seq<Event>, pair: nat, keys: PmidAndSigner, vaultLabel: string)
    requires more != []
    ensures Continue(k, m, more) == Continue(k, Step(k, m, more[0]), more[1..])
    ensures var now := if MovesOut(m, more[0], pair) then k.moved(keys) else keys;
            KeysAfter(k, m, more, pair, keys) == KeysAfter(k, Step(k, m, more[0]), more[1..], pair, now)
    ensures Named(more, vaultLabel) <==> Named([more[0]], vaultLabel) || Named(more[1..], vaultLabel)
  {
    assert more == [more[0]] + more[1..];
    NamedJoins(more[0], more[1..], vaultLabel);
  }

  lemma {:induction false} TermsOver(k: Crypto, m: Manager, more: seq<Event>, l: nat)
    requires Inv(m) && l < |m.sup.history.ledger| && m.sup.history.ledger[l].terms.keys.Some?
    ensures var a, after := m.sup.history.ledger[l].terms, Continue(k, m, more).sup.history.ledger;
            && l < |after|
            && Evolves(a, after[l].terms, KeysAfter(k, m, more, a.pair, a.keys.value), Named(more, a.vaultLabel))
    decreases |more|
  {
    if more != [] {
      var e, rest, a, m1 := more[0], more[1..], m.sup.history.ledger[l].terms, Step(k, m, more[0]);
      EvolvesStep(k, m, e, l);
      assert Inv(m1) by {
        StepKeeps(k, m, e);
      }
      TermsOver(k, m1, rest, l);
      KeysUnfold(k, m, more, a.pair, a.keys.value, a.vaultLabel);
      var b := m1.sup.history.ledger[l].terms;
      EvolvesTwice(a, b, Continue(k, m1, rest).sup.history.ledger[l].terms, b.keys.value,
                   KeysAfter(k, m1, rest, a.pair, b.keys.value), Named([e], a.vaultLabel), Named(rest, a.vaultLabel));
    }
  }

  lemma ChildRecorded(m: Manager, i: nat)
    requires Inv(m) && i < |m.sup.vaults|
    ensures var child := m.sup.vaults[i];
            && child.lineage < |m.sup.history.ledger| && child.info.keys.Some?
            && m.sup.history.ledger[child.lineage].terms == TermsOf(child.info)
  {
    assert Faithful(m.sup.history, m.sup.vaults[i].lineage, m.sup.vaults[i].info, m.sup.vaults[i].restarts);
    assert WellFormed(m.sup.vaults[i]);
  }

  /** A child of a later state that carries on the lineage of an earlier child has its
      label, directory and key pair, however many restarts lie between.  Its keys are what
      the moves in between left of them; and keys, owner and disk limit are the same
      unless a TakeOwnershipRequest named it. */
  lemma LineageIdentity(k: Crypto, boot: Boot, events: seq<Event>, more: seq<Event>, i: nat, j: nat)
    requires i < |Run(k, boot, events).sup.vaults|
    requires j < |Continue(k, Run(k, boot, events), more).sup.vaults|
    requires Run(k, boot, events).sup.vaults[i].lineage == Continue(k, Run(k, boot, events), more).sup.vaults[j].lineage
    ensures var m := Run(k, boot, events);
            var a, b := m.sup.vaults[i].info, Continue(k, m, more).sup.vaults[j].info;
            && a.vaultLabel == b.vaultLabel && a.dir == b.dir && a.pair == b.pair
            && a.keys.Some? && b.keys == Some(KeysAfter(k, m, more, a.pair, a.keys.value))
            && (!Named(more, a.vaultLabel) ==>
                  a.keys == b.keys && a.owner == b.owner && a.maxDiskUsage == b.maxDiskUsage)
  {
    var m := Run(k, boot, events);
    assert Inv(m) by {
      RunInv(k, boot, events);
    }
    SameLineage(k, m, more, i, j);
  }

  lemma SameLineage(k: Crypto, m: Manager, more: seq<Event>, i: nat, j: nat)
    requires Inv(m) && i < |m.sup.vaults| && j < |Continue(k, m, more).sup.vaults|
    requires m.sup.vaults[i].lineage == Continue(k, m, more).sup.vaults[j].lineage
    ensures var a, b := TermsOf(m.sup.vaults[i].info), TermsOf(Continue(k, m, more).sup.vaults[j].info);
            && a.keys.Some?
            && Evolves(a, b, KeysAfter(k, m, more, a.pair, a.keys.value), Named(more, a.vaultLabel))
  {
    var a, l, after := TermsOf(m.sup.vaults[i].info), m.sup.vaults[i].lineage, Continue(k, m, more);
    ChildRecorded(m, i);
    TermsOver(k, m, more, l);
    assert after.sup.history.ledger[l].terms == TermsOf(after.sup.vaults[j].info) by {
      ContinueKeeps(k, m, more);
      ChildRecorded(after, j);
    }
  }

  /** In one step of any run a child that stays has a new owner and disk limit if and
      only if it is the one taken over, and then those of the request. */
  lemma OwnerChangesExactly(k: Crypto, boot: Boot, events: seq<Event>, e: Event, i: nat, j: nat)
    requires i < |Run(k, boot, events).sup.vaults|
    requires j < |Step(k, Run(k, boot, events), e).sup.vaults|
    requires Run(k, boot, events).sup.vaults[i].lineage == Step(k, Run(k, boot, events), e).sup.vaults[j].lineage
    ensures var m := Run(k, boot, events);
            var a, b := m.sup.vaults[i].info, Step(k, m, e).sup.vaults[j].info;
            if TakenOver(m, e) == i then
              e.c in m.clients.validated && b.owner == Some(m.clients.validated[e.c]) && b.maxDiskUsage == e.disk
            else
              b.owner == a.owner && b.maxDiskUsage == a.maxDiskUsage
  {
    var m := Run(k, boot, events);
    RunInv(k, boot, events);
    StepKeeps(k, m, e);
    ChildRecorded(m, i);
    ChildRecorded(Step(k, m, e), j);
    PartitionSpreads(m.sup, {});
    TermsStep(k, m, e, m.sup.vaults[i].lineage);
  }

  /** A vault taken over by a client that is validated belongs to that client, with the
      disk limit it named.  If the file was written its own keys, and those in its
      functor, are what the move left; no other child is touched. */
  lemma OwnershipIsTaken(k: Crypto, boot: Boot, events: seq<Event>, c: Connection, i: nat, disk: nat, writes: bool)
    requires var m := Run(k, boot, events);
             && !m.halted && c in m.clients.validated && i < |m.sup.vaults|
             && (m.sup.vaults[i].info.connection.Some? || !NeedsDiskUpdate(m.sup.vaults[i].info, disk))
    ensures var m := Run(k, boot, events); var child := m.sup.vaults[i];
            var owned := child.(info := child.info.(owner := Some(m.clients.validated[c]), maxDiskUsage := disk));
            child.info.keys.Some?
            && Step(k, m, TakeOwnershipRequest(c, child.info.vaultLabel, child.info.dir, disk, writes)).sup.vaults
               == m.sup.vaults[i := if writes then ChildWithPair(owned, child.info.pair, k.moved(child.info.keys.value))
                                    else owned]
  {
    var m := Run(k, boot, events);
    assert Inv(m) by {
      RunInv(k, boot, events);
    }
    TakenOverExactly(k, m, c, i, disk, writes);
  }

  lemma TakenOverExactly(k: Crypto, m: Manager, c: Connection, i: nat, disk: nat, writes: bool)
    requires Inv(m) && !m.halted && c in m.clients.validated && i < |m.sup.vaults|
    requires m.sup.vaults[i].info.connection.Some? || !NeedsDiskUpdate(m.sup.vaults[i].info, disk)
    ensures var child := m.sup.vaults[i]; var owner := m.clients.validated[c];
            var owned := Taken(m.sup.vaults, i, owner, disk)[i];
            && child.info.keys.Some?
            && HandleTakeOwnershipRequest(k, m, c, child.info.vaultLabel, child.info.dir, disk, writes).sup.vaults
               == m.sup.vaults[i := if writes then ChildWithPair(owned, child.info.pair, k.moved(child.info.keys.value))
                                    else owned]
  {
    var info := m.sup.vaults[i].info;
    assert TableInv(m.sup.vaults);
    FindIsExact(m.sup.vaults, i);
    assert WellFormed(m.sup.vaults[i]);
    OthersKeepPair(m, i, k.moved(info.keys.value));
    var after := TakeInPlace(k, m, c, m.clients.validated[c], i, disk, writes);
    TakeInPlaceEffect(k, m, c, m.clients.validated[c], i, disk, writes);
    assert HandleTakeOwnershipRequest(k, m, c, info.vaultLabel, info.dir, disk, writes) == after;
    assert !after.halted;
  }

  /** Assigning to the pair of a child leaves the other children alone. */
  lemma OthersKeepPair(m: Manager, i: nat, keys: PmidAndSigner)
    requires Inv(m) && i < |m.sup.vaults|
    ensures forall j :: 0 <= j < |m.sup.vaults| && j != i ==>
              ChildWithPair(m.sup.vaults[j], m.sup.vaults[i].info.pair, keys) == m.sup.vaults[j]
  {
    forall j | 0 <= j < |m.sup.vaults| && j != i
      ensures ChildWithPair(m.sup.vaults[j], m.sup.vaults[i].info.pair, keys) == m.sup.vaults[j]
    {
      assert CapturesOwn(m.sup.vaults[j]);
      if m.sup.vaults[j].info.pair == m.sup.vaults[i].info.pair {
        ChildrenOwnPairs(m.sup, m.pairs, i, j);
      }
    }
  }

  // --------------------------------------------------------------- Pmid names

  /** Taking the vault over leaves it with the Pmid name of another child. */
  predicate Clashes(k: Crypto, m: Manager, e: Event) {
    var i := TakenOver(m, e);
    && i < |m.sup.vaults| && e.writes && m.sup.vaults[i].info.keys.Some?
    && exists j :: 0 <= j < |m.sup.vaults| && j != i
                   && PmidName(m.sup.vaults[j].info) == Some(k.moved(m.sup.vaults[i].info.keys.value).pmid.name)
  }

  lemma SameNamesKeep(a: seq<Child>, b: seq<Child>)
    requires |a| == |b| && forall i :: 0 <= i < |a| ==> PmidName(b[i].info) == PmidName(a[i].info)
    ensures Distinct(a) <==> Distinct(b)
  {
    if !Distinct(a) {
      var i, j :| 0 <= i < j < |a| && PmidName(a[i].info) == PmidName(a[j].info);
      assert PmidName(b[i].info) == PmidName(b[j].info);
    }
  }

  lemma ExitKeepsNames(s: Supervisor, i: nat, report: ExitReport, launch: Launch)
    requires TableInv(s.vaults) && Distinct(s.vaults) && i < |s.vaults|
    ensures Distinct(ExitAt(s, i, report, launch).0.vaults)
  {
    var rest := Without(s.vaults, i);
    forall j, n | 0 <= j < n < |rest|
      ensures PmidName(rest[j].info) != PmidName(rest[n].info)
    {
      assert rest[j] == s.vaults[if j < i then j else j + 1] && rest[n] == s.vaults[if n < i then n else n + 1];
    }
    WithoutKeeps(s.vaults, i);
    ExitUnfolds(s, i, report, launch);
    if s.vaults[i].onExit.Some? {
      AddProcessExact(Called(s, i, report), s.vaults[i].onExit.value.info, 0, NewVault, launch);
    }
  }

  lemma ProcessExitNames(s: Supervisor, vaultLabel: string, report: ExitReport, launch: Launch)
    requires TableInv(s.vaults) && Distinct(s.vaults)
    ensures Distinct(OnProcessExit(s, vaultLabel, report, launch).0.vaults)
  {
    var i := Find(s.vaults, ByLabel(vaultLabel));
    if i < |s.vaults| {
      ExitKeepsNames(s, i, report, launch);
    }
  }

  lemma RestartKeepsNames(s: Supervisor, j: nat, launch: Launch)
    requires TableInv(s.vaults) && Distinct(s.vaults)
    ensures Distinct(RunRestart(s, j, launch).vaults)
  {
    if j < |s.posted| {
      var r := s.posted[j];
      AddProcessExact(s.(posted := Without(s.posted, j)), r.info, r.restarts + 1, Restarted(r.lineage), launch);
    }
  }

  lemma TearDownNames(m: Manager)
    requires Distinct(m.sup.vaults)
    ensures Distinct(HandleTearDown(m).sup.vaults)
  {
    SameNamesKeep(m.sup.vaults, HandleTearDown(m).sup.vaults);
  }

  lemma TableEventNames(m: Manager, e: Event)
    requires TableInv(m.sup.vaults) && Distinct(m.sup.vaults) && OnTable(e)
    ensures Distinct(TableStep(m, e).sup.vaults)
  {
    match e
    case TimerExpires(i) =>
      assert TableStep(m, e).sup == ExpireTimer(m.sup, i);
      SameNamesKeep(m.sup.vaults, ExpireTimer(m.sup, i).vaults);
    case TimeoutRuns(j, w) =>
      assert TableStep(m, e) == AfterExit(m, RunTimeout(m.sup, j, w.launch), w.writes);
      if j < |m.sup.expired| {
        ProcessExitNames(m.sup.(expired := Without(m.sup.expired, j)), m.sup.expired[j], Terminated, w.launch);
      }
    case ChildExited(pid, code, w) =>
      assert TableStep(m, e) == AfterExit(m, ChildSignalled(m.sup, pid, code, w.launch), w.writes);
      var i := Find(m.sup.vaults, ByPid(pid));
      if i < |m.sup.vaults| {
        ProcessExitNames(m.sup, m.sup.vaults[i].info.vaultLabel, Report(code, false), w.launch);
      }
    case RestartRuns(j, launch) =>
      assert TableStep(m, e).sup == RunRestart(m.sup, j, launch);
      RestartKeepsNames(m.sup, j, launch);
    case TearDown =>
      assert TableStep(m, e) == HandleTearDown(m);
      TearDownNames(m);
  }

  lemma ClosedNames(m: Manager, c: Connection, w: World)
    requires TableInv(m.sup.vaults) && Distinct(m.sup.vaults)
    ensures Distinct(HandleConnectionClosed(m, c, w).sup.vaults)
  {
    var i := Find(m.sup.vaults, ByConnection(Some(c)));
    if i < |m.sup.vaults| {
      ProcessExitNames(m.sup, m.sup.vaults[i].info.vaultLabel, Terminated, w.launch);
    }
  }

  lemma StartedNames(m: Manager, c: Connection, pid: nat)
    requires Distinct(m.sup.vaults)
    ensures Distinct(HandleVaultStarted(m, c, pid).sup.vaults)
  {
    if c in m.incoming && ChildStarted(m.sup, c, pid).Some? {
      SameNamesKeep(m.sup.vaults, ChildStarted(m.sup, c, pid).value.vaults);
      assert HandleVaultStarted(m, c, pid).sup.vaults == ChildStarted(m.sup, c, pid).value.vaults;
    }
  }

  lemma RequestedNames(m: Manager, c: Connection, info: VaultInfo, w: World)
    requires TableInv(m.sup.vaults) && Distinct(m.sup.vaults)
    ensures Distinct(StartRequested(m, c, info, w).sup.vaults)
  {
    AddProcessExact(m.sup, info, 0, NewVault, w.launch);
  }

  /** A take-over that does not take a vault over where it is leaves all keys alone. */
  lemma NotTakenNames(k: Crypto, m: Manager, e: Event)
    requires e.TakeOwnershipRequest? && TakenOver(m, e) == |m.sup.vaults| && !m.halted
    ensures var after := HandleTakeOwnershipRequest(k, m, e.c, e.vaultLabel, e.dir, e.disk, e.writes).sup.vaults;
            && |after| == |m.sup.vaults|
            && forall j :: 0 <= j < |after| ==> after[j].info == m.sup.vaults[j].info
  {
  }

  lemma TakenNames(k: Crypto, m: Manager, e: Event)
    requires Inv(m) && Distinct(m.sup.vaults) && e.TakeOwnershipRequest? && TakenOver(m, e) < |m.sup.vaults|
    ensures Distinct(HandleTakeOwnershipRequest(k, m, e.c, e.vaultLabel, e.dir, e.disk, e.writes).sup.vaults)
            <==> !Clashes(k, m, e)
  {
    var i := TakenOver(m, e);
    var after := HandleTakeOwnershipRequest(k, m, e.c, e.vaultLabel, e.dir, e.disk, e.writes).sup.vaults;
    TakenOverExactly(k, m, e.c, i, e.disk, e.writes);
    if e.writes {
      OneNameChanges(m.sup.vaults, after, i);
    } else {
      SameNamesKeep(m.sup.vaults, after);
    }
  }

  /** The one event that can spoil the names does so if and only if it clashes. */
  lemma OwnershipNames(k: Crypto, m: Manager, e: Event)
    requires Inv(m) && Distinct(m.sup.vaults) && !m.halted && e.TakeOwnershipRequest?
    ensures Distinct(HandleTakeOwnershipRequest(k, m, e.c, e.vaultLabel, e.dir, e.disk, e.writes).sup.vaults)
            <==> !Clashes(k, m, e)
  {
    if TakenOver(m, e) < |m.sup.vaults| {
      TakenNames(k, m, e);
    } else {
      NotTakenNames(k, m, e);
      SameNamesKeep(m.sup.vaults,
                    HandleTakeOwnershipRequest(k, m, e.c, e.vaultLabel, e.dir, e.disk, e.writes).sup.vaults);
    }
  }

  lemma OneNameChanges(a: seq<Child>, b: seq<Child>, i: nat)
    requires |a| == |b| && i < |a| && Distinct(a)
    requires forall j :: 0 <= j < |a| && j != i ==> PmidName(b[j].info) == PmidName(a[j].info)
    ensures Distinct(b) <==> forall j :: 0 <= j < |a| && j != i ==> PmidName(a[j].info) != PmidName(b[i].info)
  {
    if j :| 0 <= j < |a| && j != i && PmidName(a[j].info) == PmidName(b[i].info) {
      assert PmidName(b[if j < i then j else i].info) == PmidName(b[if j < i then i else j].info);
    }
  }

  lemma VaultStepNames(k: Crypto, m: Manager, e: Event)
    requires Inv(m) && Distinct(m.sup.vaults) && !m.halted && !OnTable(e) && !OffTable(e)
    ensures Distinct(VaultStep(k, m, e).sup.vaults) <==> !Clashes(k, m, e)
  {
    match e
    case ConnectionClosed(c, w) =>
      assert VaultStep(k, m, e) == HandleConnectionClosed(m, c, w);
      ClosedNames(m, c, w);
    case StartVaultRequest(c, l, dir, disk, keys, defaultDir, w) =>
      assert VaultStep(k, m, e) == HandleStartVaultRequest(m, c, l, dir, disk, keys, defaultDir, w);
      if c in m.clients.validated {
        var info := RequestedVault(m.clients.validated[c], l, dir, disk, keys, defaultDir, m.pairs);
        RequestedNames(m.(pairs := m.pairs + 1), c, info, w);
      }
    case VaultStarted(c, pid) =>
      assert VaultStep(k, m, e) == HandleVaultStarted(m, c, pid);
      StartedNames(m, c, pid);
    case TakeOwnershipRequest(c, l, dir, disk, writes) =>
      assert VaultStep(k, m, e) == HandleTakeOwnershipRequest(k, m, c, l, dir, disk, writes);
      OwnershipNames(k, m, e);
  }

  /** Every step keeps the Pmid names of the children distinct if and only if it does not
      leave one with another's. */
  lemma NamesStep(k: Crypto, m: Manager, e: Event)
    requires Inv(m) && Distinct(m.sup.vaults)
    ensures Distinct(Step(k, m, e).sup.vaults) <==> !Clashes(k, m, e)
  {
    if m.halted {
      assert Step(k, m, e) == m && !Clashes(k, m, e);
    } else if OnTable(e) {
      assert Step(k, m, e) == TableStep(m, e) && !Clashes(k, m, e);
      TableEventNames(m, e);
    } else if OffTable(e) {
      assert Step(k, m, e) == OffTableStep(k, m, e) && !Clashes(k, m, e);
      OffTableMoves(k, m, e);
    } else {
      assert Step(k, m, e) == VaultStep(k, m, e);
      VaultStepNames(k, m, e);
    }
  }

  lemma {:induction false} ReloadAllNames(m: Manager, vaults: seq<Reload>)
    requires TableInv(m.sup.vaults) && Distinct(m.sup.vaults)
    ensures Distinct(ReloadAll(m, vaults).sup.vaults)
    decreases |vaults|
  {
    if vaults != [] {
      var r := AddProcess(m.sup, vaults[0].info, 0, NewVault, vaults[0].launch);
      AddProcessExact(m.sup, vaults[0].info, 0, NewVault, vaults[0].launch);
      if r.Added? {
        ReloadAllNames(m.(sup := r.s), vaults[1..]);
      }
    }
  }

  lemma ConstructNames(boot: Boot)
    ensures Distinct(Construct(boot).sup.vaults)
  {
    match boot
    case Empty(_) =>
    case FromFile(vaults) => ReloadAllNames(START.(stored := FileAt(boot), pairs := |vaults|), Unconnected(vaults));
    case Default(_, vault, _) => ReloadAllNames(START.(stored := FileAt(boot), pairs := 1), Unconnected([vault]));
  }

  /** Distinct in the last state of the run and all before it. */
  predicate AllDistinct(k: Crypto, boot: Boot, events: seq<Event>)
    decreases |events|
  {
    Distinct(Run(k, boot, events).sup.vaults) && (events == [] || AllDistinct(k, boot, events[..|events| - 1]))
  }

  /** No step of the run clashes. */
  predicate NoneClashes(k: Crypto, boot: Boot, events: seq<Event>)
    decreases |events|
  {
    events == [] ||
      (NoneClashes(k, boot, events[..|events| - 1])
       && !Clashes(k, Run(k, boot, events[..|events| - 1]), events[|events| - 1]))
  }

  lemma OneMoreEvent(k: Crypto, boot: Boot, events: seq<Event>, e: Event)
    ensures Run(k, boot, events + [e]) == Step(k, Run(k, boot, events), e)
    ensures AllDistinct(k, boot, events + [e])
            <==> AllDistinct(k, boot, events) && Distinct(Run(k, boot, events + [e]).sup.vaults)
    ensures NoneClashes(k, boot, events + [e])
            <==> NoneClashes(k, boot, events) && !Clashes(k, Run(k, boot, events), e)
  {
    assert (events + [e])[..|events|] == events;
  }

  lemma NextNames(k: Crypto, boot: Boot, events: seq<Event>, e: Event)
    requires Distinct(Run(k, boot, events).sup.vaults)
    ensures Distinct(Step(k, Run(k, boot, events), e).sup.vaults) <==> !Clashes(k, Run(k, boot, events), e)
  {
    assert Inv(Run(k, boot, events)) by {
      RunInv(k, boot, events);
    }
    NamesStep(k, Run(k, boot, events), e);
  }

  /** Over any run the Pmid names of the children are distinct in all its states if and
      only if none of its steps takes a vault over that is left with another's name. */
  lemma {:induction false} NamesStayDistinct(k: Crypto, boot: Boot, events: seq<Event>)
    ensures AllDistinct(k, boot, events) <==> NoneClashes(k, boot, events)
    decreases |events|
  {
    if events == [] {
      ConstructNames(boot);
    } else {
      var before, e := events[..|events| - 1], events[|events| - 1];
      NamesStayDistinct(k, boot, before);
      if AllDistinct(k, boot, before) {
        NextNames(k, boot, before, e);
      }
    }
  }
}
