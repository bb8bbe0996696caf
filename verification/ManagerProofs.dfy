/** The invariant of the whole manager and its preservation by every event. */
module ManagerProofs {
  import opened VaultTypes
  import opened Supervision
  import opened Registries
  import opened Management
  import opened TableProofs
  import opened LineageProofs
  import opened SupervisorProofs
  import opened ConnectionProofs

  /** The connections the listener handed out that no registry has, nor is going to close. */
  function Free(m: Manager): set<Connection> {
    m.seen - m.incoming - m.clients.unvalidated.Keys - m.clients.validated.Keys - m.clients.limits.overdue
  }

  /** A connection is in at most one registry; whoever asked has left `incoming`.  A
      registry waits only on the timers of what it has. */
  ghost predicate RegistryInv(m: Manager) {
    && m.incoming <= m.seen
    && (forall c :: m.clients.Tracks(c) ==> c in m.seen && c !in m.incoming)
    && (forall c :: c in m.clients.unvalidated ==> c !in m.clients.validated)
    && (forall c :: c in m.asked ==> c in m.seen && c !in m.incoming)
    && m.limits.timed <= m.incoming && m.limits.overdue <= m.seen
    && m.clients.limits.timed <= m.clients.unvalidated.Keys
    && (forall c :: c in m.clients.limits.overdue ==> c in m.seen && c !in m.incoming)
  }

  ghost predicate StableInv(m: Manager) {
    m.stable ==> forall c :: c in m.asked && m.clients.Tracks(c) ==> Sent(c, NetworkStable) in m.sup.wire.sent
  }

  ghost predicate Inv(m: Manager) {
    && SupInv(m.sup)
    && PairsInv(m.sup.history, m.pairs)
    && RegistryInv(m)
    && HoldersInv(m.sup.vaults, Free(m))
    && StableInv(m)
  }

  /** The two-state part: the history advances and nothing sent is forgotten. */
  predicate Onward(a: Manager, b: Manager) {
    Advances(a.sup, b.sup) && a.sup.wire.sent <= b.sup.wire.sent
  }

  lemma OnwardTrans(a: Manager, b: Manager, c: Manager)
    requires Onward(a, b) && Onward(b, c)
    ensures Onward(a, c)
  {
    AdvancesTrans(a.sup, b.sup, c.sup);
  }

  // -------------------------------------------------------- shared by handlers

  /** The child table moved on; the registries did not. */
  lemma SupMoves(m: Manager, sup: Supervisor)
    requires Inv(m) && SupInv(sup) && HoldersInv(sup.vaults, Free(m)) && m.sup.wire.sent <= sup.wire.sent
    requires PairsInv(sup.history, m.pairs)
    ensures Inv(m.(sup := sup))
  {
    assert Free(m.(sup := sup)) == Free(m);
    assert forall x :: x in m.sup.wire.sent ==> x in sup.wire.sent;
  }

  lemma WireMoves(m: Manager, wire: Wire)
    requires Inv(m) && m.sup.wire.sent <= wire.sent
    ensures Inv(m.(sup := m.sup.(wire := wire))) && Onward(m, m.(sup := m.sup.(wire := wire)))
  {
    WireInv(m.sup, wire);
    SupMoves(m, m.sup.(wire := wire));
  }

  lemma SayKeeps(m: Manager, to: Connection, message: Message)
    requires Inv(m)
    ensures Inv(Say(m, to, message)) && Onward(m, Say(m, to, message))
  {
    WireMoves(m, m.sup.wire.Send(to, message));
  }

  /** The config file and the halted flag are no part of the invariant. */
  lemma FileKeeps(m: Manager, stored: seq<VaultInfo>, halted: bool)
    requires Inv(m)
    ensures Inv(m.(stored := stored, halted := halted)) && Onward(m, m.(stored := stored, halted := halted))
  {
    assert Free(m.(stored := stored, halted := halted)) == Free(m);
  }

  lemma AfterExitKeeps(m: Manager, r: (Supervisor, bool), writes: bool)
    requires Inv(m) && SupInv(r.0) && HoldersInv(r.0.vaults, Free(m))
    requires PairsInv(r.0.history, m.pairs)
    requires Advances(m.sup, r.0) && r.0.wire.sent == m.sup.wire.sent
    ensures Inv(AfterExit(m, r, writes)) && Onward(m, AfterExit(m, r, writes))
  {
    SupMoves(m, r.0);
    var m1 := m.(sup := r.0);
    FileKeeps(m1, Persisted(Infos(m1.sup.vaults)), m1.halted);
  }

  lemma ProcessExitSends(s: Supervisor, vaultLabel: string, report: ExitReport, launch: Launch)
    ensures OnProcessExit(s, vaultLabel, report, launch).0.wire.sent == s.wire.sent
  {
  }

  lemma AddVaultKeeps(m: Manager, info: VaultInfo, launch: Launch)
    requires Inv(m) && info.connection.None? && PairFits(m.sup.history, info, m.pairs)
    requires AddProcess(m.sup, info, 0, NewVault, launch).Added?
    ensures var m1 := m.(sup := AddProcess(m.sup, info, 0, NewVault, launch).s);
            Inv(m1) && Onward(m, m1)
  {
    var sup := AddProcess(m.sup, info, 0, NewVault, launch).s;
    AddNewVaultInv(m.sup, info, launch);
    HoldersAppend(m.sup.vaults, sup.vaults[|m.sup.vaults|], Free(m));
    NewPairKeeps(m.sup.history, sup.history, info, m.pairs);
    SupMoves(m, sup);
  }

  // ------------------------------------------------------- handler by handler

  lemma NewConnectionKeeps(m: Manager, c: Connection)
    requires Inv(m)
    ensures Inv(HandleNewConnection(m, c)) && Onward(m, HandleNewConnection(m, c))
  {
    if c !in m.seen {
      assert Free(HandleNewConnection(m, c)) == Free(m);
    }
  }

  /** A connection that closes frees itself of its registry. */
  lemma LeaveKeeps(m: Manager, c: Connection)
    requires Inv(m)
    ensures Inv(Leave(m, c)) && Onward(m, Leave(m, c))
  {
    HoldersGrow(m.sup.vaults, Free(m), Free(Leave(m, c)));
  }

  lemma ClientLeavesKeeps(m: Manager, c: Connection)
    requires Inv(m)
    ensures var after := m.(clients := m.clients.Remove(c)); Inv(after) && Onward(m, after)
  {
    var after := m.(clients := m.clients.Remove(c));
    assert forall d :: after.clients.Tracks(d) ==> m.clients.Tracks(d);
    HoldersGrow(m.sup.vaults, Free(m), Free(after));
  }

  lemma ConnectionClosedKeeps(m: Manager, c: Connection, world: World)
    requires Inv(m)
    ensures Inv(HandleConnectionClosed(m, c, world)) && Onward(m, HandleConnectionClosed(m, c, world))
  {
    var i := Find(m.sup.vaults, ByConnection(Some(c)));
    if i < |m.sup.vaults| {
      var l := m.sup.vaults[i].info.vaultLabel;
      ProcessExitInv(m.sup, l, Terminated, world.launch);
      ProcessExitHolders(m.sup, l, Terminated, world.launch, Free(m));
      ProcessExitPairs(m.sup, l, Terminated, world.launch, Free(m), m.pairs);
      ProcessExitSends(m.sup, l, Terminated, world.launch);
      AfterExitKeeps(m, OnProcessExit(m.sup, l, Terminated, world.launch), world.writes);
    } else if m.clients.Tracks(c) {
      ClientLeavesKeeps(m, c);
    } else {
      LeaveKeeps(m, c);
    }
  }

  lemma ValidateConnectionRequestKeeps(m: Manager, c: Connection, plain: string)
    requires Inv(m)
    ensures var after := HandleValidateConnectionRequest(m, c, plain); Inv(after) && Onward(m, after)
  {
    if c in m.incoming {
      var m1 := Leave(m, c).(clients := m.clients.Add(c, plain));
      assert Free(m1) == Free(m);
      SayKeeps(m1, c, Challenge(plain));
    }
  }

  lemma ChallengeResponseKeeps(k: Crypto, m: Manager, c: Connection, publicKey: string, signature: string)
    requires Inv(m)
    ensures var after := HandleChallengeResponse(k, m, c, publicKey, signature); Inv(after) && Onward(m, after)
  {
    match m.clients.Validate(k, c, publicKey, signature)
    case Success(clients) =>
      assert Free(m.(clients := clients)) == Free(m);
    case Failure(known) =>
      WireMoves(m, m.sup.wire.Close(c));
  }

  lemma PairAllocated(m: Manager)
    requires Inv(m)
    ensures Inv(m.(pairs := m.pairs + 1)) && Onward(m, m.(pairs := m.pairs + 1))
    ensures forall info: VaultInfo :: info.pair == m.pairs ==> PairFits(m.sup.history, info, m.pairs + 1)
  {
    assert Free(m.(pairs := m.pairs + 1)) == Free(m);
  }

  lemma StartRequestedKeeps(m: Manager, c: Connection, info: VaultInfo, world: World)
    requires Inv(m) && info.connection.None? && PairFits(m.sup.history, info, m.pairs)
    ensures var after := StartRequested(m, c, info, world); Inv(after) && Onward(m, after)
  {
    SayKeeps(m, c, VaultRefused);
    var r := AddProcess(m.sup, info, 0, NewVault, world.launch);
    if r.Added? {
      AddVaultKeeps(m, info, world.launch);
      var m1 := m.(sup := r.s);
      FileKeeps(m1, Persisted(Infos(m1.sup.vaults)), m1.halted);
      SayKeeps(m1, c, VaultRefused);
      OnwardTrans(m, m1, Stored(m1));
      OnwardTrans(m, m1, Say(m1, c, VaultRefused));
    }
  }

  lemma StartVaultRequestKeeps(m: Manager, c: Connection, vaultLabel: string, dir: string, disk: nat,
                               keys: Option<PmidAndSigner>, defaultDir: string, world: World)
    requires Inv(m)
    ensures var after := HandleStartVaultRequest(m, c, vaultLabel, dir, disk, keys, defaultDir, world);
            Inv(after) && Onward(m, after)
  {
    if m.clients.NameOf(c).Success? {
      var info := RequestedVault(m.clients.NameOf(c).value, vaultLabel, dir, disk, keys, defaultDir, m.pairs);
      var m0 := m.(pairs := m.pairs + 1);
      var after := StartRequested(m0, c, info, world);
      assert HandleStartVaultRequest(m, c, vaultLabel, dir, disk, keys, defaultDir, world) == after;
      assert Inv(after) && Onward(m, after) by {
        PairAllocated(m);
        assert PairFits(m0.sup.history, info, m0.pairs);
        StartRequestedKeeps(m0, c, info, world);
        OnwardTrans(m, m0, after);
      }
    } else {
      SayKeeps(m, c, VaultRefused);
    }
  }

  lemma ChangeChunkstorePathKeeps(m: Manager, i: nat, dir: string, owner: string, disk: nat)
    requires Inv(m) && i < |m.sup.vaults|
    ensures var after := ChangeChunkstorePath(m, Relocated(m.sup.vaults[i].info, dir, owner, disk));
            Inv(after) && Onward(m, after)
  {
    var info := Relocated(m.sup.vaults[i].info, dir, owner, disk);
    if info.connection.None? {
      FileKeeps(m, m.stored, true);
    } else {
      var c := info.connection.value;
      var m1 := Say(m, c, VaultShutdownRequest);
      SayKeeps(m, c, VaultShutdownRequest);
      FindIsExact(m.sup.vaults, i);
      StopProcessInv(m1.sup, c, Some(info));
      StopProcessAdvances(m1.sup, c, Some(info));
      StopProcessHolders(m1.sup, c, Some(info), Free(m1));
      SamePairsKeep(m1.sup.history, StopProcess(m1.sup, c, Some(info)).history, m1.pairs);
      SupMoves(m1, StopProcess(m1.sup, c, Some(info)));
      OnwardTrans(m, m1, m1.(sup := StopProcess(m1.sup, c, Some(info))));
    }
  }

  lemma AssignOwnerPairs(s: Supervisor, vaultLabel: string, owner: string, disk: nat)
    requires LedgerInv(s) && AssignOwner(s, vaultLabel, owner, disk).Some?
    ensures SamePairs(s.history, AssignOwner(s, vaultLabel, owner, disk).value.history)
  {
    var i := Find(s.vaults, ByLabel(vaultLabel));
    assert Faithful(s.history, s.vaults[i].lineage, s.vaults[i].info, s.vaults[i].restarts);
  }

  lemma SetPairKeeps(m: Manager, pair: nat, keys: PmidAndSigner)
    requires Inv(m)
    ensures var m1 := m.(sup := SetPair(m.sup, pair, keys)); Inv(m1) && Onward(m, m1)
  {
    SetPairInv(m.sup, pair, keys);
    SetPairAdvances(m.sup, pair, keys);
    SetPairHolders(m.sup, pair, keys, Free(m));
    SetPairKeepsPairs(m.sup, pair, keys, m.pairs);
    SupMoves(m, SetPair(m.sup, pair, keys));
  }

  lemma AssignKeeps(m: Manager, vaultLabel: string, owner: string, disk: nat)
    requires Inv(m) && AssignOwner(m.sup, vaultLabel, owner, disk).Some?
    ensures var m1 := m.(sup := AssignOwner(m.sup, vaultLabel, owner, disk).value); Inv(m1) && Onward(m, m1)
  {
    AssignOwnerInv(m.sup, vaultLabel, owner, disk);
    AssignOwnerAdvances(m.sup, vaultLabel, owner, disk);
    AssignOwnerHolders(m.sup, vaultLabel, owner, disk, Free(m));
    AssignOwnerPairs(m.sup, vaultLabel, owner, disk);
    SamePairsKeep(m.sup.history, AssignOwner(m.sup, vaultLabel, owner, disk).value.history, m.pairs);
    SupMoves(m, AssignOwner(m.sup, vaultLabel, owner, disk).value);
  }

  lemma AnswerKeeps(k: Crypto, m: Manager, c: Connection, info: VaultInfo, writes: bool)
    requires Inv(m)
    ensures var after := Answer(k, m, c, info, writes); Inv(after) && Onward(m, after)
  {
    if !writes {
      SayKeeps(m, c, VaultRefused);
    } else if info.keys.None? {
      FileKeeps(m, Persisted(Infos(m.sup.vaults)), true);
    } else {
      FileKeeps(m, Persisted(Infos(m.sup.vaults)), m.halted);
      var m1 := Say(Stored(m), c, VaultRunning(info.vaultLabel, info.keys.value));
      SayKeeps(Stored(m), c, VaultRunning(info.vaultLabel, info.keys.value));
      OnwardTrans(m, Stored(m), m1);
      SetPairKeeps(m1, info.pair, k.moved(info.keys.value));
      OnwardTrans(m, m1, m1.(sup := SetPair(m1.sup, info.pair, k.moved(info.keys.value))));
    }
  }

  lemma TakeInPlaceKeeps(k: Crypto, m: Manager, c: Connection, owner: string, i: nat, disk: nat, writes: bool)
    requires Inv(m) && i < |m.sup.vaults|
    ensures var after := TakeInPlace(k, m, c, owner, i, disk, writes); Inv(after) && Onward(m, after)
  {
    var info := m.sup.vaults[i].info;
    if NeedsDiskUpdate(info, disk) && info.connection.None? {
      FileKeeps(m, m.stored, true);
    } else {
      var m1 := if NeedsDiskUpdate(info, disk) then Say(m, info.connection.value, MaxDiskUsageUpdate(disk)) else m;
      if NeedsDiskUpdate(info, disk) {
        SayKeeps(m, info.connection.value, MaxDiskUsageUpdate(disk));
      }
      FindIsExact(m.sup.vaults, i);
      AssignKeeps(m1, info.vaultLabel, owner, disk);
      var m2 := m1.(sup := AssignOwner(m1.sup, info.vaultLabel, owner, disk).value);
      OnwardTrans(m, m1, m2);
      AnswerKeeps(k, m2, c, info, writes);
      OnwardTrans(m, m2, Answer(k, m2, c, info, writes));
    }
  }

  lemma TakeOwnershipRequestKeeps(k: Crypto, m: Manager, c: Connection, vaultLabel: string, dir: string, disk: nat,
                                  writes: bool)
    requires Inv(m)
    ensures var after := HandleTakeOwnershipRequest(k, m, c, vaultLabel, dir, disk, writes);
            Inv(after) && Onward(m, after)
  {
    SayKeeps(m, c, VaultRefused);
    if m.clients.NameOf(c).Success? {
      var owner := m.clients.NameOf(c).value;
      var i := Find(m.sup.vaults, ByLabel(vaultLabel));
      if i < |m.sup.vaults| {
        if m.sup.vaults[i].info.dir != dir {
          ChangeChunkstorePathKeeps(m, i, dir, owner, disk);
        } else {
          TakeInPlaceKeeps(k, m, c, owner, i, disk, writes);
        }
      }
    }
  }

  lemma TellOwnerKeeps(m: Manager, info: VaultInfo, message: Message)
    requires Inv(m)
    ensures Inv(TellOwner(m, info, message)) && Onward(m, TellOwner(m, info, message))
  {
    if info.owner.Some? && m.clients.FindValidated(info.owner.value).Some? {
      SayKeeps(m, m.clients.FindValidated(info.owner.value).value, message);
    }
  }

  /** The connection leaves `incoming`, and the child that has the process gets it. */
  lemma StartedKeeps(m: Manager, c: Connection, pid: nat)
    requires Inv(m) && c in m.incoming && ChildStarted(m.sup, c, pid).Some?
    ensures var m2 := Leave(m, c).(sup := ChildStarted(m.sup, c, pid).value);
            Inv(m2) && Onward(m, m2)
  {
    var sup := ChildStarted(m.sup, c, pid).value;
    var m2 := Leave(m, c).(sup := sup);
    forall j | 0 <= j < |m.sup.vaults|
      ensures m.sup.vaults[j].info.connection != Some(c)
    {
      assert HeldBy(m.sup.vaults[j], c) ==> c in Free(m);
    }
    VaultStartedInv(m.sup, c, pid);
    VaultStartedAdvances(m.sup, c, pid);
    SamePairsKeep(m.sup.history, sup.history, m.pairs);
    VaultStartedHolders(m.sup, c, pid, Free(m));
    assert Free(m2) == Free(m) + {c};
  }

  lemma VaultStartedKeeps(m: Manager, c: Connection, pid: nat)
    requires Inv(m)
    ensures var after := HandleVaultStarted(m, c, pid); Inv(after) && Onward(m, after)
  {
    if c in m.incoming {
      if ChildStarted(m.sup, c, pid).None? {
        LeaveKeeps(m, c);
      } else {
        StartedKeeps(m, c, pid);
        var i := Find(m.sup.vaults, ByPid(pid));
        var m2 := Leave(m, c).(sup := ChildStarted(m.sup, c, pid).value);
        var info := m2.sup.vaults[i].info;
        assert WellFormed(m2.sup.vaults[i]);
        var m3 := Say(m2, c, VaultCredentials(info.keys.value.pmid, info.dir, info.maxDiskUsage));
        SayKeeps(m2, c, VaultCredentials(info.keys.value.pmid, info.dir, info.maxDiskUsage));
        OnwardTrans(m, m2, m3);
        TellOwnerKeeps(m3, info, VaultRunning(info.vaultLabel, info.keys.value));
        OnwardTrans(m, m3, TellOwner(m3, info, VaultRunning(info.vaultLabel, info.keys.value)));
      }
    }
  }

  lemma SetNetworkAsStableKeeps(m: Manager)
    requires Inv(m)
    ensures Inv(HandleSetNetworkAsStable(m)) && Onward(m, HandleSetNetworkAsStable(m))
  {
    var all := m.clients.GetAll();
    var m1 := m.(sup := m.sup.(wire := m.sup.wire.SendAll(all, NetworkStable)));
    WireMoves(m, m.sup.wire.SendAll(all, NetworkStable));
    assert Free(m1.(stable := true)) == Free(m1);
    forall c | m.clients.Tracks(c)
      ensures Sent(c, NetworkStable) in m1.sup.wire.sent
    {
      var n :| 0 <= n < |all| && all[n] == c;
      assert m1.sup.wire.sent[|m.sup.wire.sent| + n] == Sent(c, NetworkStable);
    }
  }

  lemma NetworkStableRequestKeeps(m: Manager, c: Connection)
    requires Inv(m)
    ensures Inv(HandleNetworkStableRequest(m, c)) && Onward(m, HandleNetworkStableRequest(m, c))
  {
    SayKeeps(m, c, NetworkStable);
    var after := HandleNetworkStableRequest(m, c);
    assert Free(after) == Free(m);
    assert m.stable ==> after.sup == Say(m, c, NetworkStable).sup
                        && after.sup.wire.sent[|m.sup.wire.sent|] == Sent(c, NetworkStable);
  }

  lemma LimitExpiresKeeps(m: Manager, registry: Registry, c: Connection)
    requires Inv(m)
    ensures Inv(HandleLimitExpires(m, registry, c)) && Onward(m, HandleLimitExpires(m, registry, c))
  {
    var after := HandleLimitExpires(m, registry, c);
    assert Free(after) == Free(m);
  }

  /** Whatever it closes, it leaves no child with a connection that is not free. */
  lemma LimitRunsKeeps(m: Manager, registry: Registry, c: Connection)
    requires Inv(m)
    ensures Inv(HandleLimitRuns(m, registry, c)) && Onward(m, HandleLimitRuns(m, registry, c))
  {
    if c in LimitsOf(m, registry).overdue {
      var m1 := WithLimits(m, registry, LimitsOf(m, registry).Done(c));
      assert forall d :: m1.clients.Tracks(d) <==> m.clients.Tracks(d);
      HoldersGrow(m.sup.vaults, Free(m), Free(m1));
      WireMoves(m1, m1.sup.wire.Close(c));
    }
  }

  lemma {:induction false} StopFromSends(s: Supervisor, i: nat)
    requires i <= |s.vaults| && AllConnected(s.vaults)
    ensures s.wire.sent <= StopFrom(s, i).wire.sent
    decreases |s.vaults| - i
  {
    if i < |s.vaults| {
      StopFromSends(StopProcess(s, s.vaults[i].info.connection.value, None), i + 1);
    }
  }

  lemma {:induction false} StopFromPairs(s: Supervisor, i: nat)
    requires i <= |s.vaults| && AllConnected(s.vaults)
    ensures StopFrom(s, i).history.ledger == s.history.ledger
    decreases |s.vaults| - i
  {
    if i < |s.vaults| {
      StopFromPairs(StopProcess(s, s.vaults[i].info.connection.value, None), i + 1);
    }
  }

  lemma StopAllPairs(s: Supervisor)
    requires s.stopAllCalled || AllConnected(s.vaults)
    ensures StopAll(s).history.ledger == s.history.ledger
  {
    if !s.stopAllCalled {
      StopFromPairs(s.(stopAllCalled := true), 0);
    }
  }

  lemma TearDownKeeps(m: Manager)
    requires Inv(m)
    ensures Inv(HandleTearDown(m)) && Onward(m, HandleTearDown(m))
  {
    var wire := m.sup.wire.CloseAll(m.incoming)
                .CloseAll(m.clients.unvalidated.Keys).CloseAll(m.clients.validated.Keys);
    var m1 := m.(sup := m.sup.(wire := wire));
    WireMoves(m, wire);
    if m.sup.stopAllCalled || AllConnected(m.sup.vaults) {
      StopAllInv(m1.sup);
      if !m.sup.stopAllCalled {
        StopFromHolders(m1.sup.(stopAllCalled := true), 0, Free(m1));
        StopFromSends(m1.sup.(stopAllCalled := true), 0);
      }
      StopAllPairs(m1.sup);
      SamePairsKeep(m1.sup.history, StopAll(m1.sup).history, m1.pairs);
      SupMoves(m1, StopAll(m1.sup));
      OnwardTrans(m, m1, m1.(sup := StopAll(m1.sup)));
    } else {
      FileKeeps(m1, m1.stored, true);
      OnwardTrans(m, m1, HandleTearDown(m));
    }
  }

  lemma TimerEventKeeps(m: Manager, i: nat, world: World)
    requires Inv(m)
    ensures Inv(m.(sup := ExpireTimer(m.sup, i))) && Onward(m, m.(sup := ExpireTimer(m.sup, i)))
    ensures var after := AfterExit(m, RunTimeout(m.sup, i, world.launch), world.writes); Inv(after) && Onward(m, after)
  {
    ExpireInv(m.sup, i);
    ExpireAdvances(m.sup, i);
    ExpireHolders(m.sup, i, Free(m));
    SupMoves(m, ExpireTimer(m.sup, i));
    var r := RunTimeout(m.sup, i, world.launch);
    TimeoutInv(m.sup, i, world.launch);
    TimeoutAdvances(m.sup, i, world.launch);
    TimeoutHolders(m.sup, i, world.launch, Free(m));
    if i < |m.sup.expired| {
      var s0 := m.sup.(expired := Without(m.sup.expired, i));
      ProcessExitSends(s0, m.sup.expired[i], Terminated, world.launch);
      ProcessExitPairs(s0, m.sup.expired[i], Terminated, world.launch, Free(m), m.pairs);
    }
    AfterExitKeeps(m, r, world.writes);
  }

  lemma ChildExitedKeeps(m: Manager, pid: nat, code: int, world: World)
    requires Inv(m)
    ensures var after := AfterExit(m, ChildSignalled(m.sup, pid, code, world.launch), world.writes);
            Inv(after) && Onward(m, after)
  {
    var i := Find(m.sup.vaults, ByPid(pid));
    if i < |m.sup.vaults| {
      var l := m.sup.vaults[i].info.vaultLabel;
      ProcessExitInv(m.sup, l, Report(code, false), world.launch);
      ProcessExitHolders(m.sup, l, Report(code, false), world.launch, Free(m));
      ProcessExitPairs(m.sup, l, Report(code, false), world.launch, Free(m), m.pairs);
      ProcessExitSends(m.sup, l, Report(code, false), world.launch);
    }
    AfterExitKeeps(m, ChildSignalled(m.sup, pid, code, world.launch), world.writes);
  }

  lemma RunRestartPairs(s: Supervisor, j: nat, launch: Launch)
    requires LedgerInv(s)
    ensures SamePairs(s.history, RunRestart(s, j, launch).history)
    ensures |RunRestart(s, j, launch).history.ledger| == |s.history.ledger|
  {
    RunRestartSlack(s, j, launch);
    RunRestartAdvances(s, j, launch);
  }

  lemma RestartRunsKeeps(m: Manager, j: nat, launch: Launch)
    requires Inv(m)
    ensures Inv(m.(sup := RunRestart(m.sup, j, launch))) && Onward(m, m.(sup := RunRestart(m.sup, j, launch)))
  {
    RunRestartInv(m.sup, j, launch);
    RunRestartAdvances(m.sup, j, launch);
    RunRestartHolders(m.sup, j, launch, Free(m));
    RunRestartPairs(m.sup, j, launch);
    SamePairsKeep(m.sup.history, RunRestart(m.sup, j, launch).history, m.pairs);
    SupMoves(m, RunRestart(m.sup, j, launch));
  }

  lemma AnswerEffect(k: Crypto, m: Manager, c: Connection, info: VaultInfo, writes: bool)
    requires info.keys.Some? && !m.halted
    ensures var after := Answer(k, m, c, info, writes);
            var answer := if writes then VaultRunning(info.vaultLabel, info.keys.value) else VaultRefused;
            && after.clients == m.clients && !after.halted
            && |after.sup.posted| == |m.sup.posted| && after.sup.history.launches == m.sup.history.launches
            && after.sup.history.installed == m.sup.history.installed
            && |after.sup.history.ledger| == |m.sup.history.ledger|
            && after.sup.expired == m.sup.expired && after.sup.stopAllCalled == m.sup.stopAllCalled
            && after.incoming == m.incoming && after.seen == m.seen && after.sup.wire.closed == m.sup.wire.closed
            && after.sup.vaults == (if writes then SetPair(m.sup, info.pair, k.moved(info.keys.value)).vaults
                                    else m.sup.vaults)
            && after.sup.wire.sent == m.sup.wire.sent + [Sent(c, answer)]
            && after.stored == if writes then Persisted(Infos(m.sup.vaults)) else m.stored
  {
  }

  /** The i-th child as it is taken over, and its table. */
  function Taken(vaults: seq<Child>, i: nat, owner: string, disk: nat): seq<Child>
    requires i < |vaults|
  {
    vaults[i := vaults[i].(info := vaults[i].info.(owner := Some(owner), maxDiskUsage := disk))]
  }

  /** Taking a vault over where it is: the child gets the new owner and disk limit and,
      once the answer is sent, all who share its keys have what is left of them; nothing
      else changes in the table; a connected vault hears of a new limit, and the client
      gets the keys once the file is written. */
  lemma TakeInPlaceEffect(k: Crypto, m: Manager, c: Connection, owner: string, i: nat, disk: nat, writes: bool)
    requires TableInv(m.sup.vaults) && i < |m.sup.vaults| && !m.halted
    ensures var after := TakeInPlace(k, m, c, owner, i, disk, writes); var info := m.sup.vaults[i].info;
            var update := info.maxDiskUsage != disk && disk != 0;
            var taken := Taken(m.sup.vaults, i, owner, disk);
            var moved := SetPair(m.sup.(vaults := taken), info.pair, k.moved(info.keys.value)).vaults;
            var answer := if writes then VaultRunning(info.vaultLabel, info.keys.value) else VaultRefused;
            && after.clients == m.clients
            && |after.sup.posted| == |m.sup.posted| && after.sup.history.launches == m.sup.history.launches
            && after.sup.history.installed == m.sup.history.installed
            && |after.sup.history.ledger| == |m.sup.history.ledger|
            && after.sup.expired == m.sup.expired && after.sup.stopAllCalled == m.sup.stopAllCalled
            && after.incoming == m.incoming && after.seen == m.seen && after.sup.wire.closed == m.sup.wire.closed
            && (after.halted <==> update && info.connection.None?)
            && (after.halted ==> after.sup == m.sup && after.stored == m.stored)
            && (!after.halted ==>
                  && after.sup.vaults == (if writes then moved else taken)
                  && after.sup.wire.sent == m.sup.wire.sent
                     + (if update then [Sent(info.connection.value, MaxDiskUsageUpdate(disk))] else [])
                     + [Sent(c, answer)]
                  && after.stored == if writes then Persisted(Infos(taken)) else m.stored)
  {
    var info := m.sup.vaults[i].info;
    FindIsExact(m.sup.vaults, i);
    assert WellFormed(m.sup.vaults[i]);
    if !(NeedsDiskUpdate(info, disk) && info.connection.None?) {
      var m1 := if NeedsDiskUpdate(info, disk) then Say(m, info.connection.value, MaxDiskUsageUpdate(disk)) else m;
      var m2 := m1.(sup := AssignOwner(m1.sup, info.vaultLabel, owner, disk).value);
      assert m2.sup.vaults == Taken(m.sup.vaults, i, owner, disk);
      AnswerEffect(k, m2, c, info, writes);
    }
  }

  /** The same child but for its owner, its disk limit and what became of its keys. */
  predicate Alike(a: Child, b: Child) {
    && a.(info := b.info, onExit := b.onExit) == b
    && a.info.(owner := b.info.owner, maxDiskUsage := b.info.maxDiskUsage, keys := b.info.keys) == b.info
    && (a.onExit.None? <==> b.onExit.None?)
  }

  lemma WithPairAlike(child: Child, owner: Option<string>, disk: nat, pair: nat, keys: PmidAndSigner)
    ensures var owned := child.(info := child.info.(owner := owner, maxDiskUsage := disk));
            Alike(child, child) && Alike(child, owned) && Alike(child, ChildWithPair(owned, pair, keys))
    ensures Alike(child, ChildWithPair(child, pair, keys))
  {
  }

  lemma TakeInPlaceAlike(k: Crypto, m: Manager, c: Connection, owner: string, i: nat, disk: nat, writes: bool)
    requires TableInv(m.sup.vaults) && !m.halted && i < |m.sup.vaults|
    ensures var after := TakeInPlace(k, m, c, owner, i, disk, writes).sup.vaults;
            |after| == |m.sup.vaults| && forall j :: 0 <= j < |after| ==> Alike(m.sup.vaults[j], after[j])
  {
    var after := TakeInPlace(k, m, c, owner, i, disk, writes);
    var taken, info := Taken(m.sup.vaults, i, owner, disk), m.sup.vaults[i].info;
    TakeInPlaceEffect(k, m, c, owner, i, disk, writes);
    assert |after.sup.vaults| == |m.sup.vaults|;
    forall j | 0 <= j < |after.sup.vaults|
      ensures Alike(m.sup.vaults[j], after.sup.vaults[j])
    {
      assert after.sup.vaults[j] == m.sup.vaults[j] || after.sup.vaults[j] == taken[j]
             || after.sup.vaults[j] == ChildWithPair(taken[j], info.pair, k.moved(info.keys.value));
      WithPairAlike(m.sup.vaults[j], Some(owner), disk, info.pair, k.moved(info.keys.value));
    }
  }

  // ------------------------------------------------------------ steps and runs

  lemma OffTableMoves(k: Crypto, m: Manager, e: Event)
    requires OffTable(e)
    ensures var s := OffTableStep(k, m, e).sup; s == m.sup.(wire := s.wire)
  {
  }

  lemma TableStepMoves(m: Manager, e: Event)
    requires OnTable(e)
    ensures var after := TableStep(m, e);
            after == m.(sup := after.sup, stored := after.stored, halted := after.halted)
            && (!e.TearDown? ==> after.halted == m.halted)
  {
  }

  lemma OwnershipMoves(k: Crypto, m: Manager, c: Connection, l: string, dir: string, disk: nat, writes: bool)
    ensures var after := HandleTakeOwnershipRequest(k, m, c, l, dir, disk, writes);
            after == m.(sup := after.sup, stored := after.stored, halted := after.halted)
  {
    var i := Find(m.sup.vaults, ByLabel(l));
    if c in m.clients.validated && i < |m.sup.vaults| && m.sup.vaults[i].info.dir == dir {
      TakeInPlaceMoves(k, m, c, m.clients.validated[c], i, disk, writes);
    }
  }

  lemma TakeInPlaceMoves(k: Crypto, m: Manager, c: Connection, owner: string, i: nat, disk: nat, writes: bool)
    requires i < |m.sup.vaults|
    ensures var after := TakeInPlace(k, m, c, owner, i, disk, writes);
            after == m.(sup := after.sup, stored := after.stored, halted := after.halted)
  {
    var info := m.sup.vaults[i].info;
    var m1 := if NeedsDiskUpdate(info, disk) && info.connection.Some?
              then Say(m, info.connection.value, MaxDiskUsageUpdate(disk)) else m;
    var owned := AssignOwner(m1.sup, info.vaultLabel, owner, disk);
    if owned.Some? {
      AnswerMoves(k, m1.(sup := owned.value), c, info, writes);
    }
  }

  lemma AnswerMoves(k: Crypto, m: Manager, c: Connection, info: VaultInfo, writes: bool)
    ensures var after := Answer(k, m, c, info, writes);
            after == m.(sup := after.sup, stored := after.stored, halted := after.halted)
  {
  }

  /** The registries change when a connection closes and when a vault reports. */
  lemma VaultStepMoves(k: Crypto, m: Manager, e: Event)
    requires !OnTable(e) && !OffTable(e)
    ensures var after := VaultStep(k, m, e);
            && after.stable == m.stable && after.asked == m.asked && after.seen == m.seen
            && (!e.ConnectionClosed? ==>
                  && after.clients == m.clients && after.incoming <= m.incoming
                  && after.limits.overdue == m.limits.overdue
                  && forall c :: c in after.incoming ==> (c in after.limits.timed <==> c in m.limits.timed))
            && (!e.TakeOwnershipRequest? && !e.VaultStarted? ==> after.halted == m.halted)
  {
    match e
    case ConnectionClosed(c, w) =>
      assert VaultStep(k, m, e) == HandleConnectionClosed(m, c, w);
    case StartVaultRequest(c, l, dir, disk, keys, defaultDir, w) =>
      assert VaultStep(k, m, e) == HandleStartVaultRequest(m, c, l, dir, disk, keys, defaultDir, w);
      if c in m.clients.validated {
        var info := RequestedVault(m.clients.validated[c], l, dir, disk, keys, defaultDir, m.pairs);
        RequestedMoves(m.(pairs := m.pairs + 1), c, info, w);
      }
    case TakeOwnershipRequest(c, l, dir, disk, writes) =>
      assert VaultStep(k, m, e) == HandleTakeOwnershipRequest(k, m, c, l, dir, disk, writes);
      OwnershipMoves(k, m, c, l, dir, disk, writes);
    case VaultStarted(c, pid) =>
      assert VaultStep(k, m, e) == HandleVaultStarted(m, c, pid);
      StartedMoves(m, c, pid);
  }

  lemma RequestedMoves(m: Manager, c: Connection, info: VaultInfo, w: World)
    ensures var after := StartRequested(m, c, info, w); after == m.(sup := after.sup, stored := after.stored)
  {
  }

  lemma StartedMoves(m: Manager, c: Connection, pid: nat)
    ensures var after := HandleVaultStarted(m, c, pid);
            after == Leave(m, c).(sup := after.sup, halted := after.halted)
  {
  }

  lemma TableStepKeeps(m: Manager, e: Event)
    requires Inv(m) && OnTable(e)
    ensures Inv(TableStep(m, e)) && Onward(m, TableStep(m, e))
  {
    match e
    case TimerExpires(i) =>
      assert TableStep(m, e) == m.(sup := ExpireTimer(m.sup, i));
      TimerEventKeeps(m, i, World(LaunchFails, false));
    case TimeoutRuns(j, w) =>
      assert TableStep(m, e) == AfterExit(m, RunTimeout(m.sup, j, w.launch), w.writes);
      TimerEventKeeps(m, j, w);
    case ChildExited(pid, code, w) =>
      assert TableStep(m, e) == AfterExit(m, ChildSignalled(m.sup, pid, code, w.launch), w.writes);
      ChildExitedKeeps(m, pid, code, w);
    case RestartRuns(j, launch) =>
      assert TableStep(m, e) == m.(sup := RunRestart(m.sup, j, launch));
      RestartRunsKeeps(m, j, launch);
    case TearDown =>
      assert TableStep(m, e) == HandleTearDown(m);
      TearDownKeeps(m);
  }

  lemma VaultLogKeeps(m: Manager, c: Connection, text: string)
    requires Inv(m)
    ensures Inv(HandleVaultLog(m, c, text)) && Onward(m, HandleVaultLog(m, c, text))
  {
    var i := Find(m.sup.vaults, ByConnection(Some(c)));
    if i < |m.sup.vaults| {
      TellOwnerKeeps(m, m.sup.vaults[i].info, LogText(text));
    }
  }

  lemma OffTableStepKeeps(k: Crypto, m: Manager, e: Event)
    requires Inv(m) && OffTable(e)
    ensures Inv(OffTableStep(k, m, e)) && Onward(m, OffTableStep(k, m, e))
  {
    match e
    case NewConnection(c) =>
      assert OffTableStep(k, m, e) == HandleNewConnection(m, c);
      NewConnectionKeeps(m, c);
    case ValidateConnectionRequest(c, plain) =>
      assert OffTableStep(k, m, e) == HandleValidateConnectionRequest(m, c, plain);
      ValidateConnectionRequestKeeps(m, c, plain);
    case ChallengeResponse(c, publicKey, signature) =>
      assert OffTableStep(k, m, e) == HandleChallengeResponse(k, m, c, publicKey, signature);
      ChallengeResponseKeeps(k, m, c, publicKey, signature);
    case VaultLog(c, text) =>
      assert OffTableStep(k, m, e) == HandleVaultLog(m, c, text);
      VaultLogKeeps(m, c, text);
    case SetNetworkAsStable =>
      assert OffTableStep(k, m, e) == HandleSetNetworkAsStable(m);
      SetNetworkAsStableKeeps(m);
    case NetworkStableRequest(c) =>
      assert OffTableStep(k, m, e) == HandleNetworkStableRequest(m, c);
      NetworkStableRequestKeeps(m, c);
    case LimitExpires(registry, c) =>
      assert OffTableStep(k, m, e) == HandleLimitExpires(m, registry, c);
      LimitExpiresKeeps(m, registry, c);
    case LimitRuns(registry, c) =>
      assert OffTableStep(k, m, e) == HandleLimitRuns(m, registry, c);
      LimitRunsKeeps(m, registry, c);
  }

  lemma VaultStepKeeps(k: Crypto, m: Manager, e: Event)
    requires Inv(m) && !OnTable(e) && !OffTable(e)
    ensures Inv(VaultStep(k, m, e)) && Onward(m, VaultStep(k, m, e))
  {
    match e
    case ConnectionClosed(c, w) =>
      assert VaultStep(k, m, e) == HandleConnectionClosed(m, c, w);
      ConnectionClosedKeeps(m, c, w);
    case StartVaultRequest(c, l, dir, disk, keys, defaultDir, w) =>
      assert VaultStep(k, m, e) == HandleStartVaultRequest(m, c, l, dir, disk, keys, defaultDir, w);
      StartVaultRequestKeeps(m, c, l, dir, disk, keys, defaultDir, w);
    case TakeOwnershipRequest(c, l, dir, disk, writes) =>
      assert VaultStep(k, m, e) == HandleTakeOwnershipRequest(k, m, c, l, dir, disk, writes);
      TakeOwnershipRequestKeeps(k, m, c, l, dir, disk, writes);
    case VaultStarted(c, pid) =>
      assert VaultStep(k, m, e) == HandleVaultStarted(m, c, pid);
      VaultStartedKeeps(m, c, pid);
  }

  lemma StepKeeps(k: Crypto, m: Manager, e: Event)
    requires Inv(m)
    ensures Inv(Step(k, m, e)) && Onward(m, Step(k, m, e))
  {
    if m.halted {
      assert Step(k, m, e) == m;
    } else if OnTable(e) {
      TableStepKeeps(m, e);
    } else if OffTable(e) {
      OffTableStepKeeps(k, m, e);
    } else {
      VaultStepKeeps(k, m, e);
    }
  }

  /** The state the constructor starts from. */
  lemma StartInv(stored: seq<VaultInfo>, pairs: nat)
    ensures Inv(START.(stored := stored, pairs := pairs))
  {
    EmptyInv();
  }

  /** No pair of the vaults still to be reloaded is in use. */
  predicate PairsToCome(m: Manager, vaults: seq<Reload>) {
    && (forall i :: 0 <= i < |vaults| ==> vaults[i].info.connection.None? && vaults[i].info.pair < m.pairs)
    && (forall i, l :: 0 <= i < |vaults| && 0 <= l < |m.sup.history.ledger| ==>
          m.sup.history.ledger[l].terms.pair != vaults[i].info.pair)
    && (forall i, j :: 0 <= i < j < |vaults| ==> vaults[i].info.pair != vaults[j].info.pair)
  }

  lemma {:induction false} ReloadAllInv(m: Manager, vaults: seq<Reload>)
    requires Inv(m) && PairsToCome(m, vaults)
    ensures Inv(ReloadAll(m, vaults))
    decreases |vaults|
  {
    if vaults != [] {
      var r := AddProcess(m.sup, vaults[0].info, 0, NewVault, vaults[0].launch);
      if r.Added? {
        AddVaultKeeps(m, vaults[0].info, vaults[0].launch);
        assert PairsToCome(m.(sup := r.s), vaults[1..]);
        ReloadAllInv(m.(sup := r.s), vaults[1..]);
      } else {
        FileKeeps(m, m.stored, true);
      }
    }
  }

  lemma ConstructInv(boot: Boot)
    ensures Inv(Construct(boot))
  {
    match boot
    case Empty(_) => StartInv(FileAt(boot), 0);
    case FromFile(vaults) =>
      StartInv(FileAt(boot), |vaults|);
      ReloadAllInv(START.(stored := FileAt(boot), pairs := |vaults|), Unconnected(vaults));
    case Default(_, vault, writes) =>
      var start := START.(stored := FileAt(boot), pairs := 1);
      StartInv(FileAt(boot), 1);
      ReloadAllInv(start, Unconnected([vault]));
      var m := ReloadAll(start, Unconnected([vault]));
      FileKeeps(m, Persisted(Infos(m.sup.vaults)), m.halted);
      FileKeeps(m, m.stored, true);
  }

  lemma RunOn(k: Crypto, boot: Boot, events: seq<Event>, e: Event)
    ensures Run(k, boot, events + [e]) == Step(k, Run(k, boot, events), e)
  {
    assert (events + [e])[..|events|] == events;
  }

  /** The invariant holds in every reachable state. */
  lemma {:induction false} RunInv(k: Crypto, boot: Boot, events: seq<Event>)
    ensures Inv(Run(k, boot, events))
    decreases |events|
  {
    if events == [] {
      ConstructInv(boot);
    } else {
      RunInv(k, boot, events[..|events| - 1]);
      StepKeeps(k, Run(k, boot, events[..|events| - 1]), events[|events| - 1]);
    }
  }

  lemma {:induction false} ContinueKeeps(k: Crypto, m: Manager, events: seq<Event>)
    requires Inv(m)
    ensures Inv(Continue(k, m, events)) && Onward(m, Continue(k, m, events))
    decreases |events|
  {
    if events != [] {
      var m1 := Step(k, m, events[0]);
      StepKeeps(k, m, events[0]);
      ContinueKeeps(k, m1, events[1..]);
      OnwardTrans(m, m1, Continue(k, m1, events[1..]));
    }
  }
}
