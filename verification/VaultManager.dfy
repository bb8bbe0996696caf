/** VaultManager as the program has it: an object that owns the process manager, the
    two registries and the config file, and whose handlers update them.  Every handler
    does what the step function says and keeps the invariant. */
module VaultManagement {
  import opened VaultTypes
  import opened Networking
  import opened Registries
  import opened Supervision
  import opened ConfigFiles
  import opened Management
  import opened ProcessManagement
  import opened TableProofs
  import opened ManagerProofs
  import Spec = Management
  import Sup = Supervision

  class VaultManager {
    const network: Network
    const processManager: ProcessManager
    const newConnections: NewConnections
    const clientConnections: ClientConnections
    const config: ConfigFileHandler
    var networkStable: bool
    var halted: bool
    var pairs: nat
    // Bookkeeping, as in Manager.
    ghost var seen: set<Connection>
    ghost var asked: set<Connection>

    predicate Wired()
      reads this, config
    {
      && processManager.network == network
      && newConnections.network == network
      && clientConnections.network == network
      && config.Valid()
    }

    ghost function State(): Manager
      requires Wired()
      reads this, network, processManager, newConnections, clientConnections, config
    {
      Manager(processManager.State(), newConnections.connections, newConnections.limits, clientConnections.State(),
              networkStable, config.Recorded(), pairs, seen, asked, halted)
    }

    ghost predicate Valid()
      reads this, network, processManager, newConnections, clientConnections, config
    {
      Wired() && Inverse(config.cipher) && Inv(State())
    }

    /** What the handlers themselves rely on. */
    ghost predicate Ready()
      reads this, network, processManager, newConnections, clientConnections, config
    {
      && Wired() && Inverse(config.cipher) && !halted
      && TableInv(processManager.vaults)
      && newConnections.connections <= seen
      && (forall c :: c in newConnections.connections ==> !clientConnections.State().Tracks(c))
      && (forall c :: c in clientConnections.unvalidatedClients ==> c !in clientConnections.clients)
    }

    /** The constructor; `boot` is what it makes of the config file it finds. */
    constructor (config: ConfigFileHandler, boot: Boot)
      requires config.Valid() && Inverse(config.cipher) && config.Recorded() == FileAt(boot)
      modifies config
      ensures Valid() && State() == Construct(boot)
    {
      var net := new Network();
      network := net;
      processManager := new ProcessManager(net);
      newConnections := new NewConnections(net);
      clientConnections := new ClientConnections(net);
      this.config := config;
      networkStable, halted, pairs, seen, asked := false, false, 0, {}, {};
      new;
      Boot(boot);
      ConstructInv(boot);
    }

    /** The body of the constructor. */
    method Boot(boot: Boot)
      requires Wired() && Inverse(config.cipher) && State() == START.(stored := FileAt(boot))
      modifies this`halted, this`pairs, processManager, config
      ensures Wired() && State() == Construct(boot)
    {
      match boot {
        case Empty(_) =>
        case FromFile(vaults) =>
          pairs := |vaults|;
          ReloadVaults(Unconnected(vaults));
        case Default(_, vault, writes) =>
          pairs := 1;
          ReloadVaults(Unconnected([vault]));
          if !halted {
            var ok := WriteConfigFile(writes);
            halted := !ok;
          }
      }
    }

    /** The loop of the constructor: an exception leaves it. */
    method ReloadVaults(vaults: seq<Reload>)
      requires Wired() && !halted && TableInv(processManager.vaults)
      modifies this`halted, processManager
      ensures Wired() && TableInv(processManager.vaults)
      ensures State() == ReloadAll(old(State()), vaults)
    {
      var i := 0;
      ghost var start := State();
      assert vaults[0..] == vaults;
      while i < |vaults|
        invariant 0 <= i <= |vaults|
        invariant Wired() && TableInv(processManager.vaults)
        invariant !halted && ReloadAll(State(), vaults[i..]) == ReloadAll(start, vaults)
      {
        assert vaults[i..][1..] == vaults[i + 1..] && vaults[i..][0] == vaults[i];
        AddProcessExact(processManager.State(), vaults[i].info, 0, NewVault, vaults[i].launch);
        var ok := processManager.AddProcess(vaults[i].info, 0, NewVault, vaults[i].launch);
        if !ok {
          halted := true;
          return;
        }
        i := i + 1;
      }
    }

    /** The whole table goes into the config file; false is an exception. */
    method WriteConfigFile(writes: bool) returns (ok: bool)
      requires Wired() && Inverse(config.cipher) && AllWellFormed(processManager.vaults)
      modifies config
      ensures Wired() && ok == writes
      ensures State() == if writes then Stored(old(State())) else old(State())
    {
      var all := processManager.GetAll();
      assert forall i :: 0 <= i < |all| ==>
        WellFormed(processManager.vaults[i]) && all[i] == processManager.vaults[i].info;
      ok := config.WriteConfigFile(all, writes);
    }

    method HandleNewConnection(c: Connection)
      requires Ready() && c !in seen
      modifies this`seen, newConnections
      ensures Wired() && State() == Spec.HandleNewConnection(old(State()), c)
    {
      newConnections.Add(c);
      seen := seen + {c};
    }

    method HandleConnectionClosed(c: Connection, world: World)
      requires Ready()
      modifies network, processManager, newConnections, clientConnections, config
      ensures Wired() && State() == Spec.HandleConnectionClosed(old(State()), c, world)
    {
      ClosedKeepsTable(processManager.State(), c, world.launch);
      var found, due := processManager.HandleConnectionClosed(c, world.launch);
      if found {
        if due {
          var _ := WriteConfigFile(world.writes);
        }
        return;
      }
      var removed := clientConnections.Remove(c);
      if !removed {
        var _ := newConnections.Remove(c);
      }
    }

    /** False is the connection_not_found exception. */
    method RemoveFromNewConnections(c: Connection) returns (ok: bool)
      modifies newConnections
      ensures ok <==> c in old(newConnections.connections)
      ensures newConnections.connections == old(newConnections.connections) - {c}
      ensures newConnections.limits == if ok then old(newConnections.limits).Cancel(c) else old(newConnections.limits)
    {
      ok := newConnections.Remove(c);
    }

    method HandleValidateConnectionRequest(c: Connection, plain: string)
      requires Ready()
      modifies network, newConnections, clientConnections
      ensures Wired() && State() == Spec.HandleValidateConnectionRequest(old(State()), c, plain)
    {
      var ok := RemoveFromNewConnections(c);
      if ok {
        assert !clientConnections.State().Tracks(c);
        clientConnections.Add(c, plain);
        network.Send(c, Challenge(plain));
      } else {
        assert newConnections.connections == old(newConnections.connections);
      }
    }

    method HandleChallengeResponse(k: Crypto, c: Connection, publicKey: string, signature: string)
      requires Ready()
      modifies network, clientConnections
      ensures Wired() && State() == Spec.HandleChallengeResponse(k, old(State()), c, publicKey, signature)
    {
      var _ := clientConnections.Validate(k, c, publicKey, signature);
    }

    method HandleStartVaultRequest(c: Connection, vaultLabel: string, dir: string, disk: nat,
                                   keys: Option<PmidAndSigner>, defaultDir: string, world: World)
      requires Ready()
      modifies this`pairs, network, processManager, config
      ensures Wired()
      ensures State() == Spec.HandleStartVaultRequest(old(State()), c, vaultLabel, dir, disk, keys, defaultDir, world)
    {
      var owner := clientConnections.NameOf(c);
      if owner.Success? {
        var info := RequestedVault(owner.value, vaultLabel, dir, disk, keys, defaultDir, pairs);
        pairs := pairs + 1;
        AddProcessExact(processManager.State(), info, 0, NewVault, world.launch);
        var ok := processManager.AddProcess(info, 0, NewVault, world.launch);
        if ok {
          var written := WriteConfigFile(world.writes);
          if written {
            return;
          }
        }
      }
      network.Send(c, VaultRefused);
    }

    method HandleTakeOwnershipRequest(k: Crypto, c: Connection, vaultLabel: string, dir: string, disk: nat,
                                      writes: bool)
      requires Ready()
      modifies this`halted, network, processManager, config
      ensures Wired() && State() == Spec.HandleTakeOwnershipRequest(k, old(State()), c, vaultLabel, dir, disk, writes)
    {
      var owner := clientConnections.NameOf(c);
      if owner.Success? {
        var i := processManager.DoFind(ByLabel(vaultLabel));
        if i < |processManager.vaults| {
          var info := processManager.vaults[i].info;
          if info.dir != dir {
            ChangeChunkstorePath(Relocated(info, dir, owner.value, disk));
          } else {
            TakeInPlace(k, c, owner.value, i, disk, writes);
          }
          return;
        }
      }
      network.Send(c, VaultRefused);
    }

    /** Sending to an empty connection is where the model stops. */
    method ChangeChunkstorePath(info: VaultInfo)
      requires Wired()
      modifies this`halted, network, processManager
      ensures Wired() && State() == Spec.ChangeChunkstorePath(old(State()), info)
    {
      if info.connection.None? {
        halted := true;
        return;
      }
      network.Send(info.connection.value, VaultShutdownRequest);
      processManager.StopProcess(info.connection.value, Some(info));
    }

    method TakeInPlace(k: Crypto, c: Connection, owner: string, i: nat, disk: nat, writes: bool)
      requires Ready() && i < |processManager.vaults|
      modifies this`halted, network, processManager, config
      ensures Wired() && State() == Spec.TakeInPlace(k, old(State()), c, owner, i, disk, writes)
    {
      var info := processManager.vaults[i].info;
      assert WellFormed(processManager.vaults[i]);
      if NeedsDiskUpdate(info, disk) {
        if info.connection.None? {
          halted := true;
          return;
        }
        network.Send(info.connection.value, MaxDiskUsageUpdate(disk));
      }
      AssignOwnerKeepsAll(processManager.State(), info.vaultLabel, owner, disk);
      var ok := processManager.AssignOwner(info.vaultLabel, owner, disk);
      assert ok;
      Answer(k, c, info, writes);
    }

    /** The keys are moved into the answer, once the config file is written. */
    method Answer(k: Crypto, c: Connection, info: VaultInfo, writes: bool)
      requires Wired() && Inverse(config.cipher) && AllWellFormed(processManager.vaults) && info.keys.Some?
      modifies network, processManager, config
      ensures Wired() && State() == Spec.Answer(k, old(State()), c, info, writes)
    {
      var written := WriteConfigFile(writes);
      if !written {
        network.Send(c, VaultRefused);
        return;
      }
      network.Send(c, VaultRunning(info.vaultLabel, info.keys.value));
      processManager.SetPair(info.pair, k.moved(info.keys.value));
    }

    /** For the client that owns the vault, if it is connected. */
    method TellOwner(info: VaultInfo, message: Message)
      requires Wired()
      modifies network
      ensures Wired() && State() == Spec.TellOwner(old(State()), info, message)
    {
      if info.owner.Some? {
        var client := clientConnections.FindValidated(info.owner.value);
        if client.Some? {
          network.Send(client.value, message);
        }
      }
    }

    method HandleVaultStarted(c: Connection, pid: nat)
      requires Ready()
      modifies this`halted, network, processManager, newConnections
      ensures Wired() && State() == Spec.HandleVaultStarted(old(State()), c, pid)
    {
      var ok := RemoveFromNewConnections(c);
      if !ok {
        assert newConnections.connections == old(newConnections.connections);
        return;
      }
      var info := processManager.HandleVaultStarted(c, pid);
      if info.None? {
        return;
      }
      var keys := info.value.keys.value;
      network.Send(c, VaultCredentials(keys.pmid, info.value.dir, info.value.maxDiskUsage));
      TellOwner(info.value, VaultRunning(info.value.vaultLabel, keys));
    }

    /** HandleJoinedNetwork and HandleLogMessage. */
    method HandleVaultLog(c: Connection, text: string)
      requires Ready()
      modifies network
      ensures Wired() && State() == Spec.HandleVaultLog(old(State()), c, text)
    {
      var i := processManager.DoFind(ByConnection(Some(c)));
      if i < |processManager.vaults| {
        TellOwner(processManager.vaults[i].info, LogText(text));
      }
    }

    method HandleSetNetworkAsStable()
      requires Ready()
      modifies this`networkStable, network
      ensures Wired() && State() == Spec.HandleSetNetworkAsStable(old(State()))
    {
      var all := clientConnections.GetAll();
      network.SendAll(all, NetworkStable);
      networkStable := true;
    }

    method HandleNetworkStableRequest(c: Connection)
      requires Ready()
      modifies this`asked, network
      ensures Wired() && State() == Spec.HandleNetworkStableRequest(old(State()), c)
    {
      asked := if clientConnections.State().Tracks(c) then asked + {c} else asked;
      if networkStable {
        network.Send(c, NetworkStable);
      }
    }

    method HandleLimitExpires(registry: Registry, c: Connection)
      requires Ready()
      modifies newConnections, clientConnections
      ensures Wired() && State() == Spec.HandleLimitExpires(old(State()), registry, c)
    {
      match registry {
        case OfNew => newConnections.LimitExpires(c);
        case OfClients => clientConnections.LimitExpires(c);
      }
    }

    method HandleLimitRuns(registry: Registry, c: Connection)
      requires Ready()
      modifies network, newConnections, clientConnections
      ensures Wired() && State() == Spec.HandleLimitRuns(old(State()), registry, c)
    {
      match registry {
        case OfNew => newConnections.LimitRuns(c);
        case OfClients => clientConnections.LimitRuns(c);
      }
    }

    /** What the destructor posts. */
    method TearDown()
      requires Ready()
      modifies this`halted, network, processManager
      ensures Wired() && State() == HandleTearDown(old(State()))
    {
      newConnections.CloseAll();
      clientConnections.CloseAll();
      if processManager.stopAllFlag || AllConnected(processManager.vaults) {
        processManager.StopAll();
      } else {
        halted := true;
      }
    }

    // What the io_service runs for the process manager.

    method TimerExpires(i: nat)
      requires Ready()
      modifies processManager
      ensures Wired() && State() == old(State()).(sup := Sup.ExpireTimer(old(State()).sup, i))
    {
      processManager.ExpireTimer(i);
    }

    method TimeoutRuns(k: nat, world: World)
      requires Ready()
      modifies network, processManager, config
      ensures Wired() && State() == AfterExit(old(State()), RunTimeout(old(State()).sup, k, world.launch), world.writes)
    {
      TimeoutKeepsTable(processManager.State(), k, world.launch);
      var due := processManager.RunTimeout(k, world.launch);
      if due {
        var _ := WriteConfigFile(world.writes);
      }
    }

    method ChildExited(pid: nat, code: int, world: World)
      requires Ready()
      modifies network, processManager, config
      ensures Wired()
      ensures State()
              == AfterExit(old(State()), ChildSignalled(old(State()).sup, pid, code, world.launch), world.writes)
    {
      SignalKeepsTable(processManager.State(), pid, code, world.launch);
      var due := processManager.HandleChildSignal(pid, code, world.launch);
      if due {
        var _ := WriteConfigFile(world.writes);
      }
    }

    method RestartRuns(k: nat, launch: Launch)
      requires Ready()
      modifies processManager
      ensures Wired() && State() == old(State()).(sup := RunRestart(old(State()).sup, k, launch))
    {
      processManager.RunRestart(k, launch);
    }

    /** A signal, a timer, a posted restart or the tear-down. */
    method DispatchOnTable(e: Event)
      requires Ready() && OnTable(e)
      modifies this`halted, network, processManager, config
      ensures Wired() && State() == TableStep(old(State()), e)
    {
      match e {
        case TimerExpires(i) => TimerExpires(i);
        case TimeoutRuns(j, w) => TimeoutRuns(j, w);
        case ChildExited(pid, code, w) => ChildExited(pid, code, w);
        case RestartRuns(j, launch) => RestartRuns(j, launch);
        case TearDown => TearDown();
      }
    }

    /** A new connection, or a message that is none of the table's business. */
    method DispatchOffTable(k: Crypto, e: Event)
      requires Ready() && OffTable(e)
      requires e.NewConnection? ==> e.c !in seen
      modifies this`networkStable, this`seen, this`asked, network, newConnections, clientConnections
      ensures Wired() && State() == OffTableStep(k, old(State()), e)
    {
      match e {
        case NewConnection(c) => HandleNewConnection(c);
        case ValidateConnectionRequest(c, plain) => HandleValidateConnectionRequest(c, plain);
        case ChallengeResponse(c, publicKey, signature) => HandleChallengeResponse(k, c, publicKey, signature);
        case VaultLog(c, text) => HandleVaultLog(c, text);
        case SetNetworkAsStable => HandleSetNetworkAsStable();
        case NetworkStableRequest(c) => HandleNetworkStableRequest(c);
        case LimitExpires(registry, c) => HandleLimitExpires(registry, c);
        case LimitRuns(registry, c) => HandleLimitRuns(registry, c);
      }
    }

    /** A closed connection, or a message about vaults. */
    method DispatchVaults(k: Crypto, e: Event)
      requires Ready() && !OnTable(e) && !OffTable(e)
      modifies this`halted, this`pairs, network, processManager, newConnections, clientConnections, config
      ensures Wired() && State() == VaultStep(k, old(State()), e)
    {
      match e {
        case ConnectionClosed(c, w) => HandleConnectionClosed(c, w);
        case StartVaultRequest(c, l, dir, disk, keys, defaultDir, w) =>
          HandleStartVaultRequest(c, l, dir, disk, keys, defaultDir, w);
        case TakeOwnershipRequest(c, l, dir, disk, writes) => HandleTakeOwnershipRequest(k, c, l, dir, disk, writes);
        case VaultStarted(c, pid) => HandleVaultStarted(c, pid);
      }
    }

    /** One turn of the io_service.  It does what Step says, and what Step keeps is kept;
        a connection is new only if the listener says so. */
    method Dispatch(k: Crypto, e: Event)
      requires Valid() && !halted
      requires e.NewConnection? ==> e.c !in seen
      modifies this, network, processManager, newConnections, clientConnections, config
      ensures Valid() && State() == Step(k, old(State()), e)
    {
      StepKeeps(k, State(), e);
      assert Ready();
      if OnTable(e) {
        DispatchOnTable(e);
      } else if OffTable(e) {
        DispatchOffTable(k, e);
      } else {
        DispatchVaults(k, e);
      }
    }
  }

  lemma ClosedKeepsTable(s: Supervisor, c: Connection, launch: Launch)
    requires TableInv(s.vaults)
    ensures TableInv(ChildDisconnected(s, c, launch).0.vaults)
  {
    var i := Find(s.vaults, ByConnection(Some(c)));
    if i < |s.vaults| {
      ExitKeepsTable(s, Find(s.vaults, ByLabel(s.vaults[i].info.vaultLabel)), Terminated, launch);
    }
  }

  lemma SignalKeepsTable(s: Supervisor, pid: nat, code: int, launch: Launch)
    requires TableInv(s.vaults)
    ensures TableInv(ChildSignalled(s, pid, code, launch).0.vaults)
  {
    var i := Find(s.vaults, ByPid(pid));
    if i < |s.vaults| {
      ExitKeepsTable(s, Find(s.vaults, ByLabel(s.vaults[i].info.vaultLabel)), Report(code, false), launch);
    }
  }

  lemma TimeoutKeepsTable(s: Supervisor, k: nat, launch: Launch)
    requires TableInv(s.vaults)
    ensures TableInv(RunTimeout(s, k, launch).0.vaults)
  {
    if k < |s.expired| {
      var s0 := s.(expired := Without(s.expired, k));
      var i := Find(s.vaults, ByLabel(s.expired[k]));
      if i < |s.vaults| {
        ExitKeepsTable(s0, i, Terminated, launch);
      }
    }
  }

  lemma AssignOwnerKeepsAll(s: Supervisor, vaultLabel: string, owner: string, disk: nat)
    requires TableInv(s.vaults) && AssignOwner(s, vaultLabel, owner, disk).Some?
    ensures AllWellFormed(AssignOwner(s, vaultLabel, owner, disk).value.vaults)
  {
    AssignOwnerKeepsTable(s, vaultLabel, owner, disk);
  }
}
