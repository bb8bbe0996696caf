/** The child table of process_manager.cc as a value, and what each operation of
    ProcessManager makes of it.  The class in ProcessManager.dfy carries these
    operations out in place.

    The operating system and the io_service appear as data: a launch is a choice of
    the environment, `posted` holds the restarts waiting to run, and `expired` the
    labels of timer handlers that have fired and are queued.  Cancelling a timer
    does not take such a handler back. */
module Supervision {
  import opened VaultTypes

  datatype Status = BeforeStarted | Starting | Running | Stopping

  /** The only on-exit functor the program installs: re-add the vault as captured,
      then write the config file. */
  datatype Functor = Functor(id: nat, info: VaultInfo)

  /** `armed`: the child's timer has a wait outstanding.  `lineage` is bookkeeping. */
  datatype Child = Child(
    info: VaultInfo,
    onExit: Option<Functor>,
    armed: bool,
    restarts: int,
    status: Status,
    pid: nat,
    lineage: nat)

  datatype Restart = Restart(info: VaultInfo, restarts: int, lineage: nat)

  /** What starting the executable comes to. */
  datatype Launch = LaunchFails | Launches(pid: nat)

  datatype Error = InvalidArgument | AlreadyInitialised | LaunchError

  /** The arguments an on-exit functor is called with. */
  datatype ExitReport = Terminated | Succeeded | ExitedWithError(code: int)

  /** One call of a functor, with the labels in the table when it was made. */
  datatype Invocation = Invocation(functor: Functor, vaultLabel: string, report: ExitReport, present: set<string>)

  datatype End = Stopped | Exhausted | Refused

  /** What identifies a vault through its restarts, and what its owner may set. */
  datatype Terms = Terms(keys: Option<PmidAndSigner>, vaultLabel: string, dir: string,
                         maxDiskUsage: nat, owner: Option<string>, pair: nat)

  datatype Entry = Entry(terms: Terms, launches: nat)

  /** Bookkeeping the program does not keep.  Every successful AddProcess that is not
      a restart opens a lineage, the next index of `ledger`. */
  datatype History = History(
    ledger: seq<Entry>,
    ended: map<nat, End>,
    launches: nat,
    exits: nat,
    installed: nat,
    dropped: set<nat>,
    ran: seq<Invocation>)

  datatype Supervisor = Supervisor(
    vaults: seq<Child>,
    posted: seq<Restart>,
    expired: seq<string>,
    stopAllCalled: bool,
    wire: Wire,
    history: History)

  const EMPTY: Supervisor :=
    Supervisor([], [], [], false, Wire([], {}), History([], map[], 0, 0, 0, {}, []))

  /** Whether an AddProcess opens a lineage or carries one on. */
  datatype Origin = NewVault | Restarted(lineage: nat)

  datatype Added = Added(s: Supervisor) | NotAdded(error: Error)

  // ---------------------------------------------------------------- lookups

  datatype Key = ByLabel(vaultLabel: string) | ByConnection(connection: Option<Connection>) | ByPid(pid: nat)

  predicate Matches(child: Child, key: Key) {
    match key
    case ByLabel(l) => child.info.vaultLabel == l
    case ByConnection(c) => child.info.connection == c
    case ByPid(p) => child.pid == p
  }

  /** std::find_if: the first child that matches, or the end. */
  function Find(vaults: seq<Child>, key: Key): (i: nat)
    ensures i <= |vaults|
    ensures i < |vaults| ==> Matches(vaults[i], key)
    ensures forall j :: 0 <= j < i ==> !Matches(vaults[j], key)
  {
    if vaults == [] || Matches(vaults[0], key) then 0 else 1 + Find(vaults[1..], key)
  }

  function Labels(vaults: seq<Child>): set<string> {
    set i | 0 <= i < |vaults| :: vaults[i].info.vaultLabel
  }

  function Infos(vaults: seq<Child>): seq<VaultInfo> {
    seq(|vaults|, i requires 0 <= i < |vaults| => vaults[i].info)
  }

  // ------------------------------------------------------------- bookkeeping

  function TermsOf(info: VaultInfo): Terms {
    Terms(info.keys, info.vaultLabel, info.dir, info.maxDiskUsage, info.owner, info.pair)
  }

  function LineageOf(h: History, origin: Origin): nat {
    match origin
    case NewVault => |h.ledger|
    case Restarted(l) => l
  }

  function RecordLaunch(h: History, origin: Origin, info: VaultInfo): History {
    var ledger :=
      match origin
      case NewVault => h.ledger + [Entry(TermsOf(info), 1)]
      case Restarted(l) =>
        if l < |h.ledger| then h.ledger[l := h.ledger[l].(launches := h.ledger[l].launches + 1)] else h.ledger;
    h.(ledger := ledger, launches := h.launches + 1)
  }

  function RecordTerms(h: History, lineage: nat, info: VaultInfo): History {
    if lineage < |h.ledger|
    then h.(ledger := h.ledger[lineage := h.ledger[lineage].(terms := TermsOf(info))])
    else h
  }

  /** Replacing the functor of a child drops the one that was there. */
  function RecordInstall(h: History, previous: Option<Functor>, next: Option<VaultInfo>): History {
    h.(installed := if next.Some? then h.installed + 1 else h.installed,
       dropped := if previous.Some? then h.dropped + {previous.value.id} else h.dropped)
  }

  // -------------------------------------------------------------- operations

  predicate Complete(info: VaultInfo) {
    info.dir != "" && info.vaultLabel != "" && info.keys.Some?
  }

  /** CheckNewVaultDoesntConflict throws. */
  predicate Conflicts(candidate: VaultInfo, existing: VaultInfo) {
    || (candidate.keys.Some? && existing.keys.Some? && candidate.keys.value.pmid.name == existing.keys.value.pmid.name)
    || candidate.dir == existing.dir
    || candidate.vaultLabel == existing.vaultLabel
    || candidate.connection == existing.connection
  }

  predicate ConflictsWithAny(info: VaultInfo, vaults: seq<Child>) {
    exists i :: 0 <= i < |vaults| && Conflicts(info, vaults[i].info)
  }

  function Started(info: VaultInfo, restarts: int, pid: nat, lineage: nat): Child {
    Child(info, None, true, restarts, Starting, pid, lineage)
  }

  function AddProcess(s: Supervisor, info: VaultInfo, restarts: int, origin: Origin, launch: Launch): Added {
    if !Complete(info) then NotAdded(InvalidArgument)
    else if restarts > MAX_VAULT_RESTARTS then NotAdded(InvalidArgument)
    else if ConflictsWithAny(info, s.vaults) then NotAdded(AlreadyInitialised)
    else if launch.LaunchFails? then NotAdded(LaunchError)
    else Added(s.(vaults := s.vaults + [Started(info, restarts, launch.pid, LineageOf(s.history, origin))],
                  history := RecordLaunch(s.history, origin, info)))
  }

  function WithConnection(child: Child, c: Connection): Child {
    child.(armed := false, info := child.info.(connection := Some(c)), status := Running)
  }

  /** None is the no_such_element exception. */
  function ChildStarted(s: Supervisor, c: Connection, pid: nat): Option<Supervisor> {
    var i := Find(s.vaults, ByPid(pid));
    if i == |s.vaults| then None else Some(s.(vaults := s.vaults[i := WithConnection(s.vaults[i], c)]))
  }

  function WithOwner(info: VaultInfo, owner: string, maxDiskUsage: nat): VaultInfo {
    info.(owner := Some(owner), maxDiskUsage := maxDiskUsage)
  }

  function AssignOwner(s: Supervisor, vaultLabel: string, owner: string, maxDiskUsage: nat): Option<Supervisor> {
    var i := Find(s.vaults, ByLabel(vaultLabel));
    if i == |s.vaults| then None else
      var info := WithOwner(s.vaults[i].info, owner, maxDiskUsage);
      Some(s.(vaults := s.vaults[i := s.vaults[i].(info := info)],
              history := RecordTerms(s.history, s.vaults[i].lineage, info)))
  }

  /** Assigning to a key pair through its pointer: all who share the pair see it. */
  function InfoWithPair(info: VaultInfo, pair: nat, keys: PmidAndSigner): VaultInfo {
    if info.pair == pair && info.keys.Some? then info.(keys := Some(keys)) else info
  }

  function ChildWithPair(child: Child, pair: nat, keys: PmidAndSigner): Child {
    child.(info := InfoWithPair(child.info, pair, keys),
           onExit := if child.onExit.None? then None
                     else Some(child.onExit.value.(info := InfoWithPair(child.onExit.value.info, pair, keys))))
  }

  function EntryWithPair(entry: Entry, pair: nat, keys: PmidAndSigner): Entry {
    if entry.terms.pair == pair && entry.terms.keys.Some?
    then entry.(terms := entry.terms.(keys := Some(keys)))
    else entry
  }

  function SetPair(s: Supervisor, pair: nat, keys: PmidAndSigner): Supervisor {
    s.(vaults := seq(|s.vaults|, i requires 0 <= i < |s.vaults| => ChildWithPair(s.vaults[i], pair, keys)),
       posted := seq(|s.posted|, i requires 0 <= i < |s.posted| =>
                   s.posted[i].(info := InfoWithPair(s.posted[i].info, pair, keys))),
       history := s.history.(ledger :=
         seq(|s.history.ledger|, i requires 0 <= i < |s.history.ledger| =>
           EntryWithPair(s.history.ledger[i], pair, keys))))
  }

  function BeingStopped(child: Child, functor: Option<Functor>): Child {
    child.(onExit := functor, status := Stopping, armed := true)
  }

  function NewFunctor(h: History, onExit: Option<VaultInfo>): Option<Functor> {
    if onExit.Some? then Some(Functor(h.installed, onExit.value)) else None
  }

  /** The child's connection is dereferenced, so it must not be empty. */
  function StopProcess(s: Supervisor, c: Connection, onExit: Option<VaultInfo>): Supervisor {
    var i := Find(s.vaults, ByConnection(Some(c)));
    if i == |s.vaults| then s else
      s.(vaults := s.vaults[i := BeingStopped(s.vaults[i], NewFunctor(s.history, onExit))],
         wire := s.wire.Send(c, VaultShutdownRequest),
         history := RecordInstall(s.history, s.vaults[i].onExit, onExit))
  }

  predicate AllConnected(vaults: seq<Child>) {
    forall i :: 0 <= i < |vaults| ==> vaults[i].info.connection.Some?
  }

  /** The range-for of StopAll, from position i on: it stops by lookup. */
  function StopFrom(s: Supervisor, i: nat): (r: Supervisor)
    requires i <= |s.vaults| && AllConnected(s.vaults)
    ensures |r.vaults| == |s.vaults|
    ensures forall j :: 0 <= j < |s.vaults| ==> r.vaults[j].info == s.vaults[j].info
    decreases |s.vaults| - i
  {
    if i == |s.vaults| then s
    else StopFrom(StopProcess(s, s.vaults[i].info.connection.value, None), i + 1)
  }

  function StopAll(s: Supervisor): Supervisor
    requires s.stopAllCalled || AllConnected(s.vaults)
  {
    if s.stopAllCalled then s else StopFrom(s.(stopAllCalled := true), 0)
  }

  // ------------------------------------------------------------ process exit

  function Report(code: int, terminate: bool): ExitReport {
    if terminate then Terminated else if code == 0 then Succeeded else ExitedWithError(code)
  }

  function Erase(s: Supervisor, i: nat): Supervisor
    requires i < |s.vaults|
  {
    var c := s.vaults[i].info.connection;
    s.(vaults := Without(s.vaults, i),
       wire := if c.Some? then s.wire.Close(c.value) else s.wire,
       history := s.history.(exits := s.history.exits + 1))
  }

  /** The functor's exceptions are caught; the flag says it got as far as its
      config-file write. */
  function InvokeOnExitFunctor(s: Supervisor, child: Child, report: ExitReport, launch: Launch): (Supervisor, bool) {
    match child.onExit
    case None => (s, false)
    case Some(f) =>
      var call := Invocation(f, child.info.vaultLabel, report, Labels(s.vaults));
      var s1 := s.(history := s.history.(ran := s.history.ran + [call]));
      match AddProcess(s1, f.info, 0, NewVault, launch)
      case Added(s2) => (s2, true)
      case NotAdded(_) => (s1, false)
  }

  /** A child that was being stopped is not restarted, nor one that has used up
      its restarts. */
  function RestartIfRequired(s: Supervisor, child: Child): Supervisor {
    if child.status == Stopping then
      s.(history := s.history.(ended := s.history.ended[child.lineage := Stopped]))
    else if child.restarts < 0 || child.restarts >= MAX_VAULT_RESTARTS then
      s.(history := s.history.(ended := s.history.ended[child.lineage := Exhausted]))
    else
      s.(posted := s.posted + [Restart(child.info.(connection := None), child.restarts, child.lineage)])
  }

  function ExitAt(s: Supervisor, i: nat, report: ExitReport, launch: Launch): (Supervisor, bool)
    requires i < |s.vaults|
  {
    var r := InvokeOnExitFunctor(Erase(s, i), s.vaults[i], report, launch);
    (RestartIfRequired(r.0, s.vaults[i]), r.1)
  }

  function OnProcessExit(s: Supervisor, vaultLabel: string, report: ExitReport, launch: Launch): (Supervisor, bool) {
    var i := Find(s.vaults, ByLabel(vaultLabel));
    if i == |s.vaults| then (s, false) else ExitAt(s, i, report, launch)
  }

  /** The bool of the source and whether the functor reached its write. */
  function ChildDisconnected(s: Supervisor, c: Connection, launch: Launch): (Supervisor, bool, bool) {
    var i := Find(s.vaults, ByConnection(Some(c)));
    if i == |s.vaults| then (s, false, false) else
      var r := OnProcessExit(s, s.vaults[i].info.vaultLabel, Terminated, launch);
      (r.0, true, r.1)
  }

  /** The SIGCHLD handler, after wait has named a process. */
  function ChildSignalled(s: Supervisor, pid: nat, code: int, launch: Launch): (Supervisor, bool) {
    var i := Find(s.vaults, ByPid(pid));
    if i == |s.vaults| then (s, false)
    else OnProcessExit(s, s.vaults[i].info.vaultLabel, Report(code, false), launch)
  }

  // ------------------------------------------------------- work that is queued

  /** The timer of the i-th child runs out: its handler is queued. */
  function ExpireTimer(s: Supervisor, i: nat): Supervisor {
    if i < |s.vaults| && s.vaults[i].armed
    then s.(vaults := s.vaults[i := s.vaults[i].(armed := false)],
            expired := s.expired + [s.vaults[i].info.vaultLabel])
    else s
  }

  /** The k-th queued timer handler runs. */
  function RunTimeout(s: Supervisor, k: nat, launch: Launch): (Supervisor, bool) {
    if k < |s.expired|
    then OnProcessExit(s.(expired := Without(s.expired, k)), s.expired[k], Terminated, launch)
    else (s, false)
  }

  function RestartNow(s: Supervisor, r: Restart, launch: Launch): Supervisor {
    match AddProcess(s, r.info, r.restarts + 1, Restarted(r.lineage), launch)
    case Added(s') => s'
    case NotAdded(_) => s.(history := s.history.(ended := s.history.ended[r.lineage := Refused]))
  }

  /** The k-th posted restart runs. */
  function RunRestart(s: Supervisor, k: nat, launch: Launch): Supervisor {
    if k < |s.posted| then RestartNow(s.(posted := Without(s.posted, k)), s.posted[k], launch) else s
  }
}
