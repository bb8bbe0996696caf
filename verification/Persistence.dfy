/** The config file over a run, and from one life of the manager to the next. */
module Persistence {
  import opened VaultTypes
  import opened Supervision
  import opened Registries
  import opened Management
  import opened TableProofs
  import opened ManagerProofs
  import opened Safety
  import opened Ownership

  /** Records that could be the vaults of one table: complete, and no two with the same
      label or directory. */
  predicate SoundFile(vaults: seq<VaultInfo>) {
    && (forall i :: 0 <= i < |vaults| ==>
          Complete(vaults[i]) && vaults[i].connection.None? && vaults[i].pair == 0)
    && (forall i, j :: 0 <= i < j < |vaults| ==>
          vaults[i].vaultLabel != vaults[j].vaultLabel && vaults[i].dir != vaults[j].dir)
  }

  predicate DistinctFile(vaults: seq<VaultInfo>) {
    forall i, j :: 0 <= i < j < |vaults| ==> PmidName(vaults[i]) != PmidName(vaults[j])
  }

  lemma TableIsSound(vaults: seq<Child>)
    requires TableInv(vaults)
    ensures SoundFile(Persisted(Infos(vaults)))
    ensures Distinct(vaults) ==> DistinctFile(Persisted(Infos(vaults)))
  {
    var file := Persisted(Infos(vaults));
    forall i | 0 <= i < |file|
      ensures Complete(file[i])
    {
      assert WellFormed(vaults[i]);
    }
    forall i, j | 0 <= i < j < |file|
      ensures file[i].vaultLabel != file[j].vaultLabel && file[i].dir != file[j].dir
    {
      assert Apart(vaults[i].info, vaults[j].info);
    }
  }

  /** A step that writes the file writes the table as it was, with the change of the step
      but before any keys were moved out of it. */
  predicate WritesSound(m: Manager, after: Manager) {
    || after.stored == m.stored
    || (SoundFile(after.stored) && (Distinct(m.sup.vaults) ==> DistinctFile(after.stored)))
  }

  lemma ExitWrites(m: Manager, s: Supervisor, vaultLabel: string, report: ExitReport, w: World)
    requires TableInv(s.vaults) && s.vaults == m.sup.vaults
    ensures WritesSound(m, AfterExit(m, OnProcessExit(s, vaultLabel, report, w.launch), w.writes))
  {
    var i := Find(s.vaults, ByLabel(vaultLabel));
    if i < |s.vaults| {
      ExitKeepsTable(s, i, report, w.launch);
      if Distinct(s.vaults) {
        ProcessExitNames(s, vaultLabel, report, w.launch);
      }
      TableIsSound(OnProcessExit(s, vaultLabel, report, w.launch).0.vaults);
    }
  }

  lemma RequestWrites(m: Manager, c: Connection, info: VaultInfo, w: World)
    requires TableInv(m.sup.vaults)
    ensures WritesSound(m, StartRequested(m, c, info, w))
  {
    AddProcessExact(m.sup, info, 0, NewVault, w.launch);
    var r := AddProcess(m.sup, info, 0, NewVault, w.launch);
    if r.Added? {
      TableIsSound(r.s.vaults);
    }
  }

  lemma TakeInPlaceWrites(k: Crypto, m: Manager, c: Connection, owner: string, i: nat, disk: nat, writes: bool)
    requires TableInv(m.sup.vaults) && i < |m.sup.vaults| && !m.halted
    ensures var after := TakeInPlace(k, m, c, owner, i, disk, writes); WritesSound(m, after)
  {
    var taken := Taken(m.sup.vaults, i, owner, disk);
    TakeInPlaceEffect(k, m, c, owner, i, disk, writes);
    assert WellFormed(m.sup.vaults[i]);
    SameKeysKeep(m.sup.vaults, i, taken[i]);
    SameNamesKeep(m.sup.vaults, taken);
    TableIsSound(taken);
  }

  lemma OwnershipWrites(k: Crypto, m: Manager, c: Connection, l: string, dir: string, disk: nat, writes: bool)
    requires TableInv(m.sup.vaults) && !m.halted
    ensures var after := HandleTakeOwnershipRequest(k, m, c, l, dir, disk, writes);
            WritesSound(m, after)
  {
    var i := Find(m.sup.vaults, ByLabel(l));
    if c in m.clients.validated && i < |m.sup.vaults| && m.sup.vaults[i].info.dir == dir {
      TakeInPlaceWrites(k, m, c, m.clients.validated[c], i, disk, writes);
    }
  }

  lemma TableEventWrites(m: Manager, e: Event)
    requires TableInv(m.sup.vaults) && OnTable(e)
    ensures WritesSound(m, TableStep(m, e))
  {
    match e
    case TimerExpires(i) => assert TableStep(m, e).stored == m.stored;
    case TimeoutRuns(j, w) =>
      assert TableStep(m, e) == AfterExit(m, RunTimeout(m.sup, j, w.launch), w.writes);
      if j < |m.sup.expired| {
        ExitWrites(m, m.sup.(expired := Without(m.sup.expired, j)), m.sup.expired[j], Terminated, w);
      }
    case ChildExited(pid, code, w) =>
      assert TableStep(m, e) == AfterExit(m, ChildSignalled(m.sup, pid, code, w.launch), w.writes);
      var i := Find(m.sup.vaults, ByPid(pid));
      if i < |m.sup.vaults| {
        ExitWrites(m, m.sup, m.sup.vaults[i].info.vaultLabel, Report(code, false), w);
      }
    case RestartRuns(j, launch) => assert TableStep(m, e).stored == m.stored;
    case TearDown =>
      assert TableStep(m, e) == HandleTearDown(m);
      assert HandleTearDown(m).stored == m.stored;
  }

  lemma StepWrites(k: Crypto, m: Manager, e: Event)
    requires TableInv(m.sup.vaults)
    ensures WritesSound(m, Step(k, m, e))
  {
    if m.halted {
      assert Step(k, m, e) == m;
    } else if OnTable(e) {
      TableEventWrites(m, e);
    } else if OffTable(e) {
      OffTableWrites(k, m, e);
    } else {
      match e
      case ConnectionClosed(c, w) =>
        assert Step(k, m, e) == HandleConnectionClosed(m, c, w);
        ClosedWrites(m, c, w);
      case StartVaultRequest(c, l, dir, disk, keys, defaultDir, w) =>
        assert Step(k, m, e) == HandleStartVaultRequest(m, c, l, dir, disk, keys, defaultDir, w);
        if c in m.clients.validated {
          var info := RequestedVault(m.clients.validated[c], l, dir, disk, keys, defaultDir, m.pairs);
          RequestWrites(m.(pairs := m.pairs + 1), c, info, w);
        }
      case VaultStarted(c, pid) =>
        assert Step(k, m, e) == HandleVaultStarted(m, c, pid);
        StartedWrites(m, c, pid);
      case TakeOwnershipRequest(c, l, dir, disk, writes) =>
        assert Step(k, m, e) == HandleTakeOwnershipRequest(k, m, c, l, dir, disk, writes);
        OwnershipWrites(k, m, c, l, dir, disk, writes);
    }
  }

  lemma ClosedWrites(m: Manager, c: Connection, w: World)
    requires TableInv(m.sup.vaults)
    ensures WritesSound(m, HandleConnectionClosed(m, c, w))
  {
    var i := Find(m.sup.vaults, ByConnection(Some(c)));
    if i < |m.sup.vaults| {
      ExitWrites(m, m.sup, m.sup.vaults[i].info.vaultLabel, Terminated, w);
    }
  }

  lemma StartedWrites(m: Manager, c: Connection, pid: nat)
    ensures HandleVaultStarted(m, c, pid).stored == m.stored
  {
  }

  lemma OffTableWrites(k: Crypto, m: Manager, e: Event)
    requires OffTable(e)
    ensures OffTableStep(k, m, e).stored == m.stored
  {
  }

  /** A construction that works leaves a sound file, if a file that is neither read nor
      written was sound. */
  lemma ConstructedFile(boot: Boot)
    requires boot.Empty? ==> SoundFile(FileAt(boot)) && DistinctFile(FileAt(boot))
    ensures var m := Construct(boot); m.halted || (SoundFile(m.stored) && DistinctFile(m.stored))
  {
    match boot
    case Empty(_) =>
    case FromFile(vaults) =>
      ReloadExact(vaults);
      ReloadKeepsFile(START.(stored := FileAt(boot), pairs := |vaults|), Unconnected(vaults));
    case Default(recorded, vault, writes) => DefaultExact(recorded, vault, writes);
  }

  lemma {:induction false} ReloadKeepsFile(m: Manager, vaults: seq<Reload>)
    ensures ReloadAll(m, vaults).stored == m.stored
    decreases |vaults|
  {
    if vaults != [] {
      var r := AddProcess(m.sup, vaults[0].info, 0, NewVault, vaults[0].launch);
      if r.Added? {
        ReloadKeepsFile(m.(sup := r.s), vaults[1..]);
      }
    }
  }

  /** Over any run of a manager that was constructed, up to its being brought down and after,
      the file records complete vaults with distinct labels and directories, and distinct
      Pmid names if the children always had them. */
  lemma {:induction false} FileStaysSound(k: Crypto, boot: Boot, events: seq<Event>)
    requires boot.Empty? ==> SoundFile(FileAt(boot)) && DistinctFile(FileAt(boot))
    requires !Construct(boot).halted
    ensures var m := Run(k, boot, events);
            SoundFile(m.stored) && (AllDistinct(k, boot, events) ==> DistinctFile(m.stored))
    decreases |events|
  {
    if events == [] {
      ConstructedFile(boot);
    } else {
      var before, e := events[..|events| - 1], events[|events| - 1];
      var m := Run(k, boot, before);
      assert events == before + [e];
      OneMoreEvent(k, boot, before, e);
      FileStaysSound(k, boot, before);
      assert TableInv(m.sup.vaults) by {
        RunInv(k, boot, before);
      }
      StepWrites(k, m, e);
    }
  }

  // ---------------------------------------------------------------- next life

  /** What the next construction reloads, as was intended. */
  function Reloads(stored: seq<VaultInfo>, launches: seq<Launch>): seq<Reload>
    requires |launches| == |stored|
  {
    seq(|stored|, i requires 0 <= i < |stored| => Reload(stored[i], launches[i]))
  }

  lemma ReloadsRead(stored: seq<VaultInfo>, launches: seq<Launch>)
    requires |launches| == |stored| && SoundFile(stored)
    ensures FileAt(FromFile(Reloads(stored, launches))) == stored
  {
  }

  /** Had the reader kept what it reads, the vaults that the file of one life records would
      be up, and recorded, in the next if and only if there is at most one and it launches. */
  lemma NextLifeIntended(k: Crypto, boot: Boot, events: seq<Event>, m: Manager, launches: seq<Launch>)
    requires boot.Empty? ==> SoundFile(FileAt(boot)) && DistinctFile(FileAt(boot))
    requires m == Run(k, boot, events) && !Construct(boot).halted && |launches| == |m.stored|
    ensures var next := Construct(FromFile(Reloads(m.stored, launches)));
            && FileAt(FromFile(Reloads(m.stored, launches))) == m.stored
            && (!next.halted <==> |m.stored| == 0 || (|m.stored| == 1 && launches[0].Launches?))
            && (!next.halted ==> Persisted(Infos(next.sup.vaults)) == m.stored && next.stored == m.stored)
  {
    FileStaysSound(k, boot, events);
    var reloads := Reloads(m.stored, launches);
    ReloadsRead(m.stored, launches);
    ReloadExact(reloads);
    ReloadKeepsFile(START.(stored := m.stored, pairs := |reloads|), Unconnected(reloads));
  }

  /** As the code stands none of them is up in the next life.  A build that starts a vault
      of its own overwrites the file with that; one for testing leaves it alone at first. */
  lemma NextLifeAsWritten(k: Crypto, boot: Boot, events: seq<Event>, m: Manager, vault: Reload, writes: bool)
    requires boot.Empty? ==> SoundFile(FileAt(boot)) && DistinctFile(FileAt(boot))
    requires m == Run(k, boot, events) && !Construct(boot).halted
    ensures var own := Construct(Default(m.stored, vault, writes));
            var info := vault.info.(connection := None, pair := 0);
            var none := Construct(Empty(m.stored));
            && FileAt(Default(m.stored, vault, writes)) == FileAt(Empty(m.stored)) == m.stored
            && (!own.halted ==> Infos(own.sup.vaults) == own.stored == [info])
            && (!own.halted ==> forall v :: v in m.stored ==> (v in own.stored <==> v == info))
            && !none.halted && none.sup.vaults == [] && none.stored == m.stored
  {
    FileStaysSound(k, boot, events);
    DefaultExact(m.stored, vault, writes);
    assert Persisted(m.stored) == m.stored;
  }
}
