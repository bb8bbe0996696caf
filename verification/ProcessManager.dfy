/** ProcessManager as the program has it: an object whose table is emplaced into,
    erased from and updated in place.  Each method is tied to the operation of
    Supervision that says what it does. */
module ProcessManagement {
  import opened VaultTypes
  import opened Networking
  import opened Supervision
  import Spec = Supervision

  class ProcessManager {
    var vaults: seq<Child>
    var posted: seq<Restart>
    var expired: seq<string>
    var stopAllFlag: bool
    var history: History
    const network: Network

    constructor (network: Network)
      ensures this.network == network
      ensures State() == EMPTY.(wire := network.wire)
    {
      this.network := network;
      vaults, posted, expired, stopAllFlag := [], [], [], false;
      history := EMPTY.history;
    }

    function State(): Supervisor
      reads this, network
    {
      Supervisor(vaults, posted, expired, stopAllFlag, network.wire, history)
    }

    /** std::find_if; the end of the table is |vaults|. */
    method DoFind(key: Key) returns (i: nat)
      ensures i == Find(vaults, key)
    {
      i := 0;
      while i < |vaults|
        invariant i <= |vaults|
        invariant forall j :: 0 <= j < i ==> !Matches(vaults[j], key)
      {
        if Matches(vaults[i], key) {
          return;
        }
        i := i + 1;
      }
    }

    method GetAll() returns (all: seq<VaultInfo>)
      ensures all == Infos(vaults)
    {
      all := [];
      var i := 0;
      while i < |vaults|
        invariant 0 <= i <= |vaults|
        invariant all == Infos(vaults[..i])
      {
        all := all + [vaults[i].info];
        i := i + 1;
      }
      assert vaults[..|vaults|] == vaults;
    }

    /** Launches the executable for a child that is in the table already, but not one that
        was started before. */
    method StartProcess(i: nat, launch: Launch) returns (ok: bool)
      requires i < |vaults|
      modifies this`vaults
      ensures ok <==> old(vaults[i]).status == BeforeStarted && launch.Launches?
      ensures ok ==> vaults == old(vaults)[i := old(vaults[i]).(status := Starting, armed := true, pid := launch.pid)]
      ensures !ok ==> vaults == old(vaults)
    {
      if vaults[i].status != BeforeStarted || launch.LaunchFails? {
        return false;
      }
      vaults := vaults[i := vaults[i].(pid := launch.pid)];
      vaults := vaults[i := vaults[i].(status := Starting)];
      vaults := vaults[i := vaults[i].(armed := true)];
      return true;
    }

    /** False is an exception.  The child goes into the table before it is launched,
        and out again if that fails. */
    method AddProcess(info: VaultInfo, restarts: int, origin: Origin, launch: Launch) returns (ok: bool)
      modifies this
      ensures ok <==> Spec.AddProcess(old(State()), info, restarts, origin, launch).Added?
      ensures ok ==> State() == Spec.AddProcess(old(State()), info, restarts, origin, launch).s
      ensures !ok ==> State() == old(State())
    {
      if info.dir == "" || info.vaultLabel == "" || info.keys.None? {
        return false;
      }
      if restarts > MAX_VAULT_RESTARTS {
        return false;
      }
      var i := 0;
      while i < |vaults|
        invariant 0 <= i <= |vaults|
        invariant forall j :: 0 <= j < i ==> !Conflicts(info, vaults[j].info)
      {
        if Conflicts(info, vaults[i].info) {
          return false;
        }
        i := i + 1;
      }
      var child := Child(info, None, false, restarts, BeforeStarted, 0, LineageOf(history, origin));
      vaults := vaults + [child];
      ok := StartProcess(|vaults| - 1, launch);
      if !ok {
        vaults := Without(vaults, |vaults| - 1);
        assert vaults == old(vaults);
        return;
      }
      history := RecordLaunch(history, origin, info);
    }

    method HandleVaultStarted(c: Connection, pid: nat) returns (r: Option<VaultInfo>)
      modifies this
      ensures r.Some? <==> ChildStarted(old(State()), c, pid).Some?
      ensures r.Some? ==>
        && State() == ChildStarted(old(State()), c, pid).value
        && r.value == vaults[Find(old(vaults), ByPid(pid))].info
      ensures r.None? ==> State() == old(State())
    {
      var i := DoFind(ByPid(pid));
      if i == |vaults| {
        return None;
      }
      vaults := vaults[i := vaults[i].(armed := false)];
      vaults := vaults[i := vaults[i].(info := vaults[i].info.(connection := Some(c)))];
      vaults := vaults[i := vaults[i].(status := Running)];
      return Some(vaults[i].info);
    }

    method AssignOwner(vaultLabel: string, owner: string, maxDiskUsage: nat) returns (ok: bool)
      modifies this
      ensures ok <==> Spec.AssignOwner(old(State()), vaultLabel, owner, maxDiskUsage).Some?
      ensures ok ==> State() == Spec.AssignOwner(old(State()), vaultLabel, owner, maxDiskUsage).value
      ensures !ok ==> State() == old(State())
    {
      var i := DoFind(ByLabel(vaultLabel));
      if i == |vaults| {
        return false;
      }
      vaults := vaults[i := vaults[i].(info := vaults[i].info.(owner := Some(owner)))];
      vaults := vaults[i := vaults[i].(info := vaults[i].info.(maxDiskUsage := maxDiskUsage))];
      history := RecordTerms(history, vaults[i].lineage, vaults[i].info);
      return true;
    }

    /** Assigning to a key pair that infos in here point to. */
    method SetPair(pair: nat, keys: PmidAndSigner)
      modifies this
      ensures State() == Spec.SetPair(old(State()), pair, keys)
    {
      vaults := seq(|vaults|, i requires 0 <= i < |vaults| reads this => ChildWithPair(vaults[i], pair, keys));
      posted := seq(|posted|, i requires 0 <= i < |posted| reads this =>
        posted[i].(info := InfoWithPair(posted[i].info, pair, keys)));
      var ledger := history.ledger;
      history := history.(ledger := seq(|ledger|, i requires 0 <= i < |ledger| =>
        EntryWithPair(ledger[i], pair, keys)));
    }

    /** An unknown connection is logged and otherwise ignored. */
    method StopProcess(c: Connection, onExit: Option<VaultInfo>)
      modifies this, network
      ensures State() == Spec.StopProcess(old(State()), c, onExit)
    {
      var i := DoFind(ByConnection(Some(c)));
      if i == |vaults| {
        return;
      }
      var functor := NewFunctor(history, onExit);
      history := RecordInstall(history, vaults[i].onExit, onExit);
      vaults := vaults[i := vaults[i].(onExit := functor)];
      vaults := vaults[i := vaults[i].(status := Stopping)];
      network.Send(c, VaultShutdownRequest);
      vaults := vaults[i := vaults[i].(armed := true)];
    }

    method StopAll()
      requires stopAllFlag || AllConnected(vaults)
      modifies this, network
      ensures State() == Spec.StopAll(old(State()))
    {
      if stopAllFlag {
        return;
      }
      stopAllFlag := true;
      ghost var start := State();
      var i := 0;
      while i < |vaults|
        invariant 0 <= i <= |vaults|
        invariant AllConnected(vaults)
        invariant StopFrom(State(), i) == StopFrom(start, 0)
      {
        StopProcess(vaults[i].info.connection.value, None);
        i := i + 1;
      }
    }

    /** Whether the functor was called and got as far as its config-file write, which
        is the caller's to do: the file is not this object's. */
    method InvokeOnExitFunctor(child: Child, report: ExitReport, launch: Launch) returns (writes: bool)
      modifies this
      ensures (State(), writes) == Spec.InvokeOnExitFunctor(old(State()), child, report, launch)
    {
      if child.onExit.None? {
        return false;
      }
      var call := Invocation(child.onExit.value, child.info.vaultLabel, report, Labels(vaults));
      history := history.(ran := history.ran + [call]);
      writes := AddProcess(child.onExit.value.info, 0, NewVault, launch);
    }

    method RestartIfRequired(child: Child)
      modifies this
      ensures State() == Spec.RestartIfRequired(old(State()), child)
    {
      if child.status == Stopping {
        history := history.(ended := history.ended[child.lineage := Stopped]);
      } else if child.restarts < 0 || child.restarts >= MAX_VAULT_RESTARTS {
        history := history.(ended := history.ended[child.lineage := Exhausted]);
      } else {
        posted := posted + [Restart(child.info.(connection := None), child.restarts, child.lineage)];
      }
    }

    method OnProcessExit(vaultLabel: string, report: ExitReport, launch: Launch) returns (writes: bool)
      modifies this, network
      ensures (State(), writes) == Spec.OnProcessExit(old(State()), vaultLabel, report, launch)
    {
      var i := DoFind(ByLabel(vaultLabel));
      if i == |vaults| {
        return false;
      }
      var child := vaults[i];
      if child.info.connection.Some? {
        network.Close(child.info.connection.value);
      }
      vaults := Without(vaults, i);
      history := history.(exits := history.exits + 1);
      writes := InvokeOnExitFunctor(child, report, launch);
      RestartIfRequired(child);
    }

    method HandleConnectionClosed(c: Connection, launch: Launch) returns (found: bool, writes: bool)
      modifies this, network
      ensures (State(), found, writes) == ChildDisconnected(old(State()), c, launch)
    {
      var i := DoFind(ByConnection(Some(c)));
      if i == |vaults| {
        return false, false;
      }
      writes := OnProcessExit(vaults[i].info.vaultLabel, Terminated, launch);
      return true, writes;
    }

    /** The SIGCHLD handler once wait has returned. */
    method HandleChildSignal(pid: nat, code: int, launch: Launch) returns (writes: bool)
      modifies this, network
      ensures (State(), writes) == ChildSignalled(old(State()), pid, code, launch)
    {
      var i := DoFind(ByPid(pid));
      if i == |vaults| {
        return false;
      }
      writes := OnProcessExit(vaults[i].info.vaultLabel, Report(code, false), launch);
    }

    // What the io_service does with the work queued on it.

    method ExpireTimer(i: nat)
      modifies this
      ensures State() == Spec.ExpireTimer(old(State()), i)
    {
      if i < |vaults| && vaults[i].armed {
        expired := expired + [vaults[i].info.vaultLabel];
        vaults := vaults[i := vaults[i].(armed := false)];
      }
    }

    method RunTimeout(k: nat, launch: Launch) returns (writes: bool)
      modifies this, network
      ensures (State(), writes) == Spec.RunTimeout(old(State()), k, launch)
    {
      if k >= |expired| {
        return false;
      }
      var vaultLabel := expired[k];
      expired := Without(expired, k);
      writes := OnProcessExit(vaultLabel, Terminated, launch);
    }

    method RunRestart(k: nat, launch: Launch)
      modifies this
      ensures State() == Spec.RunRestart(old(State()), k, launch)
    {
      if k >= |posted| {
        return;
      }
      var r := posted[k];
      posted := Without(posted, k);
      var ok := AddProcess(r.info, r.restarts + 1, Restarted(r.lineage), launch);
      if !ok {
        history := history.(ended := history.ended[r.lineage := Refused]);
      }
    }
  }
}
