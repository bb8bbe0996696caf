/** The event handlers of vault_manager.cc as a step function over the child table,
    the two registries, the stability flag and the config file.

    One io thread runs the handlers, so an event is one atomic step.  Everything the
    environment decides travels in the event: which connection, which message, what
    came of a launch, of a file write, of drawing random bytes or keys.  Events may
    come in any order and number. */
module Management {
  import opened VaultTypes
  import opened Supervision
  import opened Registries

  /** `limits` are the times within which a new connection is to say what it is.
      `stored` is the list of vaults in the config file.  `pairs` counts the key pairs
      allocated, each of which is known by its number.  `seen` and `asked` are
      bookkeeping: the connections the listener handed out, and those that asked to
      be told of a stable network while they were a tracked client.  `halted`: the
      constructor threw or an empty connection was dereferenced. */
  datatype Manager = Manager(
    sup: Supervisor,
    incoming: set<Connection>,
    limits: Limits,
    clients: Clients,
    stable: bool,
    stored: seq<VaultInfo>,
    pairs: nat,
    seen: set<Connection>,
    asked: set<Connection>,
    halted: bool)

  const START: Manager := Manager(EMPTY, {}, NO_LIMITS, NO_CLIENTS, false, [], 0, {}, {}, false)

  /** What a handler needs from outside besides its message: the outcome of a launch,
      should there be one, and whether the config file could be written. */
  datatype World = World(launch: Launch, writes: bool)

  /** Whose time limit. */
  datatype Registry = OfNew | OfClients

  datatype Event =
    | NewConnection(c: Connection)
    | ConnectionClosed(c: Connection, world: World)
    | ValidateConnectionRequest(c: Connection, plain: string)
    | ChallengeResponse(c: Connection, publicKey: string, signature: string)
    | StartVaultRequest(c: Connection, vaultLabel: string, dir: string, disk: nat,
                        keys: Option<PmidAndSigner>, defaultDir: string, world: World)
    | TakeOwnershipRequest(c: Connection, vaultLabel: string, dir: string, disk: nat, writes: bool)
    | VaultStarted(c: Connection, pid: nat)
    | VaultLog(c: Connection, text: string)
    | SetNetworkAsStable
    | NetworkStableRequest(c: Connection)
    | LimitExpires(registry: Registry, c: Connection)
    | LimitRuns(registry: Registry, c: Connection)
    | TimerExpires(i: nat)
    | TimeoutRuns(k: nat, world: World)
    | ChildExited(pid: nat, code: int, world: World)
    | RestartRuns(k: nat, launch: Launch)
    | TearDown

  function Say(m: Manager, to: Connection, message: Message): Manager {
    m.(sup := m.sup.(wire := m.sup.wire.Send(to, message)))
  }

  /** WriteConfigFile(GetAll()). */
  function Stored(m: Manager): Manager {
    m.(stored := Persisted(Infos(m.sup.vaults)))
  }

  /** After an exit: the functor, if it got so far, writes the config file. */
  function AfterExit(m: Manager, r: (Supervisor, bool), writes: bool): Manager {
    var m1 := m.(sup := r.0);
    if r.1 && writes then Stored(m1) else m1
  }

  // ----------------------------------------------------------------- handlers

  /** The listener hands out each connection once. */
  function HandleNewConnection(m: Manager, c: Connection): Manager {
    if c in m.seen then m
    else m.(incoming := m.incoming + {c}, limits := m.limits.Start(c), seen := m.seen + {c})
  }

  /** RemoveFromNewConnections: the timer goes with the entry. */
  function Leave(m: Manager, c: Connection): Manager {
    if c in m.incoming then m.(incoming := m.incoming - {c}, limits := m.limits.Cancel(c)) else m
  }

  function HandleConnectionClosed(m: Manager, c: Connection, world: World): Manager {
    var r := ChildDisconnected(m.sup, c, world.launch);
    if r.1 then AfterExit(m, (r.0, r.2), world.writes)
    else if m.clients.Tracks(c) then m.(clients := m.clients.Remove(c))
    else Leave(m, c)
  }

  function HandleValidateConnectionRequest(m: Manager, c: Connection, plain: string): Manager {
    if c !in m.incoming then m
    else Say(Leave(m, c).(clients := m.clients.Add(c, plain)), c, Challenge(plain))
  }

  function HandleChallengeResponse(k: Crypto, m: Manager, c: Connection, publicKey: string,
                                   signature: string): Manager {
    match m.clients.Validate(k, c, publicKey, signature)
    case Success(clients) => m.(clients := clients)
    case Failure(known) => if known then m.(sup := m.sup.(wire := m.sup.wire.Close(c))) else m
  }

  /** The vault a client asks for.  Its keys come from a list or are created; None
      is an index the list does not have. */
  function RequestedVault(owner: string, vaultLabel: string, dir: string, disk: nat,
                          keys: Option<PmidAndSigner>, defaultDir: string, pair: nat): VaultInfo {
    VaultInfo(keys, if dir == "" then defaultDir else dir, disk, Some(owner), vaultLabel, None, pair)
  }

  /** The rest of HandleStartVaultRequest, once the vault is put together. */
  function StartRequested(m: Manager, c: Connection, info: VaultInfo, world: World): Manager {
    match AddProcess(m.sup, info, 0, NewVault, world.launch)
    case NotAdded(_) => Say(m, c, VaultRefused)
    case Added(sup) =>
      var m1 := m.(sup := sup);
      if world.writes then Stored(m1) else Say(m1, c, VaultRefused)
  }

  function HandleStartVaultRequest(m: Manager, c: Connection, vaultLabel: string, dir: string, disk: nat,
                                   keys: Option<PmidAndSigner>, defaultDir: string, world: World): Manager {
    match m.clients.NameOf(c)
    case Failure(_) => Say(m, c, VaultRefused)
    case Success(owner) =>
      var info := RequestedVault(owner, vaultLabel, dir, disk, keys, defaultDir, m.pairs);
      StartRequested(m.(pairs := m.pairs + 1), c, info, world)
  }

  /** The vault as it is to be re-added by the functor of ChangeChunkstorePath. */
  function Relocated(info: VaultInfo, dir: string, owner: string, disk: nat): VaultInfo {
    WithOwner(info, owner, disk).(dir := dir)
  }

  function ChangeChunkstorePath(m: Manager, info: VaultInfo): Manager {
    match info.connection
    case None => m.(halted := true)
    case Some(c) =>
      var m1 := Say(m, c, VaultShutdownRequest);
      m1.(sup := StopProcess(m1.sup, c, Some(info)))
  }

  function NeedsDiskUpdate(info: VaultInfo, disk: nat): bool {
    info.maxDiskUsage != disk && disk != 0
  }

  /** The config file is written and the client sent the keys, for which they are moved
      out of where the table has them. */
  function Answer(k: Crypto, m: Manager, c: Connection, info: VaultInfo, writes: bool): Manager {
    if !writes then Say(m, c, VaultRefused)
    else if info.keys.None? then Stored(m).(halted := true)
    else
      var m1 := Say(Stored(m), c, VaultRunning(info.vaultLabel, info.keys.value));
      m1.(sup := SetPair(m1.sup, info.pair, k.moved(info.keys.value)))
  }

  /** The rest of HandleTakeOwnershipRequest for the i-th child, staying in its
      directory. */
  function TakeInPlace(k: Crypto, m: Manager, c: Connection, owner: string, i: nat, disk: nat, writes: bool): Manager
    requires i < |m.sup.vaults|
  {
    var info := m.sup.vaults[i].info;
    if NeedsDiskUpdate(info, disk) && info.connection.None? then m.(halted := true) else
      var m1 := if NeedsDiskUpdate(info, disk) then Say(m, info.connection.value, MaxDiskUsageUpdate(disk)) else m;
      match AssignOwner(m1.sup, info.vaultLabel, owner, disk)
      case None => Say(m1, c, VaultRefused)
      case Some(sup) => Answer(k, m1.(sup := sup), c, info, writes)
  }

  function HandleTakeOwnershipRequest(k: Crypto, m: Manager, c: Connection, vaultLabel: string, dir: string, disk: nat,
                                      writes: bool): Manager {
    match m.clients.NameOf(c)
    case Failure(_) => Say(m, c, VaultRefused)
    case Success(owner) =>
      var i := Find(m.sup.vaults, ByLabel(vaultLabel));
      if i == |m.sup.vaults| then Say(m, c, VaultRefused)
      else if m.sup.vaults[i].info.dir != dir
      then ChangeChunkstorePath(m, Relocated(m.sup.vaults[i].info, dir, owner, disk))
      else TakeInPlace(k, m, c, owner, i, disk, writes)
  }

  /** A message about a vault for its owner, if the owner is connected. */
  function TellOwner(m: Manager, info: VaultInfo, message: Message): Manager {
    if info.owner.None? then m else
      match m.clients.FindValidated(info.owner.value)
      case None => m
      case Some(client) => Say(m, client, message)
  }

  function HandleVaultStarted(m: Manager, c: Connection, pid: nat): Manager {
    if c !in m.incoming then m else
      var m1 := Leave(m, c);
      match ChildStarted(m.sup, c, pid)
      case None => m1
      case Some(sup) =>
        var info := sup.vaults[Find(m.sup.vaults, ByPid(pid))].info;
        var m2 := m1.(sup := sup);
        if info.keys.None? then m2.(halted := true) else
          TellOwner(Say(m2, c, VaultCredentials(info.keys.value.pmid, info.dir, info.maxDiskUsage)),
                    info, VaultRunning(info.vaultLabel, info.keys.value))
  }

  /** HandleJoinedNetwork and HandleLogMessage, which differ in the text alone. */
  function HandleVaultLog(m: Manager, c: Connection, text: string): Manager {
    var i := Find(m.sup.vaults, ByConnection(Some(c)));
    if i == |m.sup.vaults| then m else TellOwner(m, m.sup.vaults[i].info, LogText(text))
  }

  function HandleSetNetworkAsStable(m: Manager): Manager {
    m.(sup := m.sup.(wire := m.sup.wire.SendAll(m.clients.GetAll(), NetworkStable)), stable := true)
  }

  function HandleNetworkStableRequest(m: Manager, c: Connection): Manager {
    var m1 := if m.clients.Tracks(c) then m.(asked := m.asked + {c}) else m;
    if m.stable then Say(m1, c, NetworkStable) else m1
  }

  function LimitsOf(m: Manager, registry: Registry): Limits {
    if registry.OfNew? then m.limits else m.clients.limits
  }

  function WithLimits(m: Manager, registry: Registry, limits: Limits): Manager {
    if registry.OfNew? then m.(limits := limits) else m.(clients := m.clients.(limits := limits))
  }

  function HandleLimitExpires(m: Manager, registry: Registry, c: Connection): Manager {
    WithLimits(m, registry, LimitsOf(m, registry).Expire(c))
  }

  /** The handler of a time limit has only the connection: it closes it, whoever has it
      by now. */
  function HandleLimitRuns(m: Manager, registry: Registry, c: Connection): Manager {
    if c !in LimitsOf(m, registry).overdue then m
    else WithLimits(m, registry, LimitsOf(m, registry).Done(c)).(sup := m.sup.(wire := m.sup.wire.Close(c)))
  }

  /** The work the destructor posts. */
  function HandleTearDown(m: Manager): Manager {
    var wire := m.sup.wire.CloseAll(m.incoming)
                .CloseAll(m.clients.unvalidated.Keys).CloseAll(m.clients.validated.Keys);
    var m1 := m.(sup := m.sup.(wire := wire));
    if m.sup.stopAllCalled || AllConnected(m.sup.vaults) then m1.(sup := StopAll(m1.sup)) else m1.(halted := true)
  }

  // --------------------------------------------------------------------- runs

  /** What the io_service runs for the child table. */
  predicate OnTable(e: Event) {
    e.TimerExpires? || e.TimeoutRuns? || e.ChildExited? || e.RestartRuns? || e.TearDown?
  }

  /** Events that leave the child table alone. */
  predicate OffTable(e: Event) {
    e.NewConnection? || e.ValidateConnectionRequest? || e.ChallengeResponse? || e.VaultLog?
    || e.SetNetworkAsStable? || e.NetworkStableRequest? || e.LimitExpires? || e.LimitRuns?
  }

  function TableStep(m: Manager, e: Event): Manager
    requires OnTable(e)
  {
    match e
    case TimerExpires(i) => m.(sup := ExpireTimer(m.sup, i))
    case TimeoutRuns(j, w) => AfterExit(m, RunTimeout(m.sup, j, w.launch), w.writes)
    case ChildExited(pid, code, w) => AfterExit(m, ChildSignalled(m.sup, pid, code, w.launch), w.writes)
    case RestartRuns(j, launch) => m.(sup := RunRestart(m.sup, j, launch))
    case TearDown => HandleTearDown(m)
  }

  function OffTableStep(k: Crypto, m: Manager, e: Event): Manager
    requires OffTable(e)
  {
    match e
    case NewConnection(c) => HandleNewConnection(m, c)
    case ValidateConnectionRequest(c, plain) => HandleValidateConnectionRequest(m, c, plain)
    case ChallengeResponse(c, publicKey, signature) => HandleChallengeResponse(k, m, c, publicKey, signature)
    case VaultLog(c, text) => HandleVaultLog(m, c, text)
    case SetNetworkAsStable => HandleSetNetworkAsStable(m)
    case NetworkStableRequest(c) => HandleNetworkStableRequest(m, c)
    case LimitExpires(registry, c) => HandleLimitExpires(m, registry, c)
    case LimitRuns(registry, c) => HandleLimitRuns(m, registry, c)
  }

  function VaultStep(k: Crypto, m: Manager, e: Event): Manager
    requires !OnTable(e) && !OffTable(e)
  {
    match e
    case ConnectionClosed(c, w) => HandleConnectionClosed(m, c, w)
    case StartVaultRequest(c, l, dir, disk, keys, defaultDir, w) =>
      HandleStartVaultRequest(m, c, l, dir, disk, keys, defaultDir, w)
    case TakeOwnershipRequest(c, l, dir, disk, writes) => HandleTakeOwnershipRequest(k, m, c, l, dir, disk, writes)
    case VaultStarted(c, pid) => HandleVaultStarted(m, c, pid)
  }

  function Step(k: Crypto, m: Manager, e: Event): Manager {
    if m.halted then m
    else if OnTable(e) then TableStep(m, e)
    else if OffTable(e) then OffTableStep(k, m, e)
    else VaultStep(k, m, e)
  }

  /** A vault the constructor starts, and what came of the launch. */
  datatype Reload = Reload(info: VaultInfo, launch: Launch)

  /** The constructor's loop over the vaults of the config file: the first AddProcess
      that throws ends the construction. */
  function ReloadAll(m: Manager, vaults: seq<Reload>): Manager
    decreases |vaults|
  {
    if vaults == [] then m else
      match AddProcess(m.sup, vaults[0].info, 0, NewVault, vaults[0].launch)
      case NotAdded(_) => m.(halted := true)
      case Added(sup) => ReloadAll(m.(sup := sup), vaults[1..])
  }

  /** What the constructor makes of its config file: it has read the vaults and starts
      them, as was intended; or it has read none, whatever the file records, and then
      starts a vault of its own, or in a build for testing none. */
  datatype Boot =
    | FromFile(vaults: seq<Reload>)
    | Empty(recorded: seq<VaultInfo>)
    | Default(recorded: seq<VaultInfo>, vault: Reload, writes: bool)

  /** What the config file records before construction. */
  function FileAt(boot: Boot): seq<VaultInfo> {
    match boot
    case FromFile(vaults) => Persisted(seq(|vaults|, i requires 0 <= i < |vaults| => vaults[i].info))
    case Empty(recorded) => Persisted(recorded)
    case Default(recorded, _, _) => Persisted(recorded)
  }

  /** Each vault that is read comes without a connection and with a pair of its own. */
  function Unconnected(vaults: seq<Reload>): seq<Reload> {
    seq(|vaults|, i requires 0 <= i < |vaults| =>
      vaults[i].(info := vaults[i].info.(connection := None, pair := i)))
  }

  function Construct(boot: Boot): Manager {
    var start := START.(stored := FileAt(boot));
    match boot
    case Empty(_) => start
    case FromFile(vaults) => ReloadAll(start.(pairs := |vaults|), Unconnected(vaults))
    case Default(_, vault, writes) =>
      var m := ReloadAll(start.(pairs := 1), Unconnected([vault]));
      if m.halted then m else if writes then Stored(m) else m.(halted := true)
  }

  /** The state after a run of events. */
  function Run(k: Crypto, boot: Boot, events: seq<Event>): Manager
    decreases |events|
  {
    if events == [] then Construct(boot)
    else Step(k, Run(k, boot, events[..|events| - 1]), events[|events| - 1])
  }

  /** The state after more events. */
  function Continue(k: Crypto, m: Manager, events: seq<Event>): Manager
    decreases |events|
  {
    if events == [] then m else Continue(k, Step(k, m, events[0]), events[1..])
  }
}
