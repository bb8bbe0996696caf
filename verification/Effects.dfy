/** What requests achieve: the other direction of the safety results. */
module Effects {
  import opened VaultTypes
  import opened Supervision
  import opened Registries
  import opened Management
  import opened TableProofs
  import opened LineageProofs
  import opened ConnectionProofs
  import opened ManagerProofs

  // ------------------------------------------------------------------ clients

  /** A fresh connection that asks to be validated and answers its challenge is listed
      as validated, under the name of its key, if and only if the signature verifies. */
  lemma ValidClientIsAccepted(k: Crypto, boot: Boot, events: seq<Event>, m: Manager, c: Connection,
                              plain: string, publicKey: string, signature: string)
    requires m == Run(k, boot, events) && !m.halted && c !in m.seen
    ensures var asked := HandleValidateConnectionRequest(HandleNewConnection(m, c), c, plain);
            var after := HandleChallengeResponse(k, asked, c, publicKey, signature);
            && asked.sup.wire.sent == m.sup.wire.sent + [Sent(c, Challenge(plain))]
            && c in asked.clients.unvalidated && asked.clients.unvalidated[c] == plain
            && (c in after.clients.validated <==> k.verifies(plain, signature, publicKey))
            && (c in after.clients.validated ==>
                  after.clients.validated[c] == k.maidName(publicKey) && c !in after.clients.unvalidated)
            && (c !in after.clients.validated ==> c in after.sup.wire.closed && after.clients == asked.clients)
            && (forall d :: d != c ==> (after.clients.Tracks(d) <==> m.clients.Tracks(d)))
  {
    RunInv(k, boot, events);
  }

  /** A connection that is not validated can neither start a vault nor take one over:
      all that comes of its request is one refusal. */
  lemma UnvalidatedGetNothing(k: Crypto, m: Manager, c: Connection, vaultLabel: string, dir: string, disk: nat,
                              keys: Option<PmidAndSigner>, defaultDir: string, world: World)
    requires c !in m.clients.validated
    ensures var refused := m.(sup := m.sup.(wire := m.sup.wire.Send(c, VaultRefused)));
            && HandleStartVaultRequest(m, c, vaultLabel, dir, disk, keys, defaultDir, world) == refused
            && HandleTakeOwnershipRequest(k, m, c, vaultLabel, dir, disk, world.writes) == refused
  {
  }

  /** A validated client's vault is added, as its own and with a key pair of its own, if
      and only if it has a label, keys and a directory, no child has its label, directory
      or Pmid name, every child is connected, and it launches.  It is in the config file
      if that could be written; if anything failed the client hears of it. */
  lemma StartVaultExact(m: Manager, c: Connection, vaultLabel: string, dir: string, disk: nat,
                        keys: Option<PmidAndSigner>, defaultDir: string, world: World)
    requires c in m.clients.validated
    ensures var after := HandleStartVaultRequest(m, c, vaultLabel, dir, disk, keys, defaultDir, world);
            var info := VaultInfo(keys, if dir == "" then defaultDir else dir, disk,
                                  Some(m.clients.validated[c]), vaultLabel, None, m.pairs);
            var possible := Startable(m.sup.vaults, info, world.launch);
            && (possible ==>
                  after.sup.vaults == m.sup.vaults
                    + [Child(info, None, true, 0, Starting, world.launch.pid, |m.sup.history.ledger|)])
            && (possible && world.writes ==>
                  after.stored == Persisted(Infos(after.sup.vaults)) && after.sup.wire == m.sup.wire)
            && after.sup.posted == m.sup.posted
            && (!possible ==> after.sup.vaults == m.sup.vaults && after.sup.history == m.sup.history)
            && (!possible || !world.writes ==>
                  after.stored == m.stored && after.sup.wire == m.sup.wire.Send(c, VaultRefused))
  {
    var info := RequestedVault(m.clients.validated[c], vaultLabel, dir, disk, keys, defaultDir, m.pairs);
    var m0 := m.(pairs := m.pairs + 1);
    AddProcessExact(m0.sup, info, 0, NewVault, world.launch);
    assert HandleStartVaultRequest(m, c, vaultLabel, dir, disk, keys, defaultDir, world)
        == StartRequested(m0, c, info, world);
  }

  // ------------------------------------------------------------------- vaults

  /** A vault that reports its process over a fresh connection gets that connection, is
      running, need not fear its start timer any more, and is sent its credentials; no
      other child changes.  A process nobody knows gets nothing. */
  lemma StartedVaultIsServed(k: Crypto, boot: Boot, events: seq<Event>, m: Manager, c: Connection, pid: nat)
    requires m == Run(k, boot, events) && !m.halted && c in m.incoming
    ensures var after := HandleVaultStarted(m, c, pid); var i := Find(m.sup.vaults, ByPid(pid));
            && c !in after.incoming
            && (i == |m.sup.vaults| ==> after.sup == m.sup)
            && (i < |m.sup.vaults| ==>
                  var child := m.sup.vaults[i];
                  && after.sup.vaults == m.sup.vaults[i :=
                       child.(info := child.info.(connection := Some(c)), status := Running, armed := false)]
                  && |after.sup.wire.sent| > |m.sup.wire.sent|
                  && after.sup.wire.sent[|m.sup.wire.sent|]
                     == Sent(c, VaultCredentials(child.info.keys.value.pmid, child.info.dir, child.info.maxDiskUsage)))
  {
    assert TableInv(m.sup.vaults) by {
      RunInv(k, boot, events);
    }
    var i := Find(m.sup.vaults, ByPid(pid));
    if i < |m.sup.vaults| {
      assert WellFormed(m.sup.vaults[i]);
    }
  }

  /** ... and the owner, if it is connected, is sent the keys. */
  lemma OwnerHearsOfStart(k: Crypto, boot: Boot, events: seq<Event>, m: Manager, c: Connection, pid: nat,
                          client: Connection)
    requires m == Run(k, boot, events) && !m.halted && c in m.incoming
    requires Find(m.sup.vaults, ByPid(pid)) < |m.sup.vaults|
    requires client in m.clients.validated
    requires m.sup.vaults[Find(m.sup.vaults, ByPid(pid))].info.owner == Some(m.clients.validated[client])
    ensures var child := m.sup.vaults[Find(m.sup.vaults, ByPid(pid))];
            var sent := HandleVaultStarted(m, c, pid).sup.wire.sent;
            && |sent| == |m.sup.wire.sent| + 2
            && sent[|sent| - 1].message == VaultRunning(child.info.vaultLabel, child.info.keys.value)
            && sent[|sent| - 1].to <= client && sent[|sent| - 1].to in m.clients.validated
            && m.clients.validated[sent[|sent| - 1].to] == m.clients.validated[client]
  {
    assert TableInv(m.sup.vaults) by {
      RunInv(k, boot, events);
    }
    assert WellFormed(m.sup.vaults[Find(m.sup.vaults, ByPid(pid))]);
  }

  /** What a vault logs reaches its owner, if the owner is connected. */
  lemma LogReachesOwner(k: Crypto, boot: Boot, events: seq<Event>, m: Manager, c: Connection, text: string, i: nat,
                        client: Connection)
    requires m == Run(k, boot, events) && i < |m.sup.vaults| && m.sup.vaults[i].info.connection == Some(c)
    requires client in m.clients.validated && m.sup.vaults[i].info.owner == Some(m.clients.validated[client])
    ensures var sent := HandleVaultLog(m, c, text).sup.wire.sent;
            && |sent| == |m.sup.wire.sent| + 1 && sent[|sent| - 1].message == LogText(text)
            && sent[|sent| - 1].to in m.clients.validated
            && m.clients.validated[sent[|sent| - 1].to] == m.clients.validated[client]
  {
    assert TableInv(m.sup.vaults) by {
      RunInv(k, boot, events);
    }
    FindIsExact(m.sup.vaults, i);
  }

  /** An exit closes the connection of the child that is found, and no other. */
  lemma ExitClosesConnection(s: Supervisor, vaultLabel: string, report: ExitReport, launch: Launch)
    ensures var i := Find(s.vaults, ByLabel(vaultLabel));
            OnProcessExit(s, vaultLabel, report, launch).0.wire.closed
            == s.wire.closed + if i < |s.vaults| && s.vaults[i].info.connection.Some?
                               then {s.vaults[i].info.connection.value} else {}
  {
  }

  lemma DisconnectForgets(s: Supervisor, i: nat, c: Connection, launch: Launch)
    requires TableInv(s.vaults) && Partition(s, {}) && i < |s.vaults| && s.vaults[i].info.connection == Some(c)
    ensures var r := ChildDisconnected(s, c, launch);
            r.1 && s.vaults[i].lineage !in ChildLineages(r.0.vaults) && c in r.0.wire.closed
  {
    FindIsExact(s.vaults, i);
    ExitFate(s, i, Terminated, launch);
    ExitClosesConnection(s, s.vaults[i].info.vaultLabel, Terminated, launch);
  }

  /** A connection has one place at most: a registry's is no child's, and no two
      registries have it. */
  lemma OnePlace(k: Crypto, boot: Boot, events: seq<Event>, m: Manager, c: Connection)
    requires m == Run(k, boot, events)
    ensures c in m.incoming || m.clients.Tracks(c) ==> Find(m.sup.vaults, ByConnection(Some(c))) == |m.sup.vaults|
    ensures !(c in m.incoming && m.clients.Tracks(c))
    ensures !(c in m.clients.validated && c in m.clients.unvalidated)
  {
    assert RegistryInv(m) && HoldersInv(m.sup.vaults, Free(m)) by {
      RunInv(k, boot, events);
    }
    var j := Find(m.sup.vaults, ByConnection(Some(c)));
    if j < |m.sup.vaults| {
      assert HeldBy(m.sup.vaults[j], c);
      assert c in Free(m);
    }
  }

  /** When a connection closes no registry has it any more. */
  lemma ClosedLeavesRegistries(k: Crypto, boot: Boot, events: seq<Event>, m: Manager, c: Connection, world: World)
    requires m == Run(k, boot, events)
    ensures var after := HandleConnectionClosed(m, c, world);
            && c !in after.incoming && !after.clients.Tracks(c)
            && after.incoming == m.incoming - {c}
            && forall d :: d != c ==> (after.clients.Tracks(d) <==> m.clients.Tracks(d))
  {
    OnePlace(k, boot, events, m, c);
  }

  /** ... and the vault that had it is out of the table, though its functor may put a
      successor in. */
  lemma ClosedLeavesTable(k: Crypto, boot: Boot, events: seq<Event>, m: Manager, i: nat, c: Connection, world: World)
    requires m == Run(k, boot, events) && i < |m.sup.vaults| && m.sup.vaults[i].info.connection == Some(c)
    ensures var after := HandleConnectionClosed(m, c, world);
            m.sup.vaults[i].lineage !in ChildLineages(after.sup.vaults) && c in after.sup.wire.closed
  {
    assert TableInv(m.sup.vaults) && Partition(m.sup, {}) by {
      RunInv(k, boot, events);
    }
    DisconnectForgets(m.sup, i, c, world.launch);
  }

  /** One more call, of that functor with that report. */
  predicate CallsOnceMore(before: seq<Invocation>, after: seq<Invocation>, f: Functor, report: ExitReport) {
    && |after| == |before| + 1 && after[..|before|] == before
    && after[|before|].functor == f && after[|before|].report == report
  }

  /** A signal for the i-th child, if its process id finds it, and its queued timer
      handler each call its functor, if it has one, with what they know of the end. */
  predicate HearsTheEnd(s: Supervisor, i: nat, code: int, n: nat, launch: Launch)
    requires i < |s.vaults|
  {
    var child := s.vaults[i];
    child.onExit.Some? ==>
      && (Find(s.vaults, ByPid(child.pid)) == i ==>
            CallsOnceMore(s.history.ran, ChildSignalled(s, child.pid, code, launch).0.history.ran, child.onExit.value,
                          if code == 0 then Succeeded else ExitedWithError(code)))
      && (n < |s.expired| && s.expired[n] == child.info.vaultLabel ==>
            CallsOnceMore(s.history.ran, RunTimeout(s, n, launch).0.history.ran, child.onExit.value, Terminated))
  }

  lemma EndIsReported(s: Supervisor, i: nat, code: int, n: nat, launch: Launch)
    requires TableInv(s.vaults) && FunctorInv(s) && i < |s.vaults|
    ensures HearsTheEnd(s, i, code, n, launch)
  {
    FindIsExact(s.vaults, i);
    ExitRunsFunctorOnce(s, i, Report(code, false), launch);
    if n < |s.expired| {
      var s0 := s.(expired := Without(s.expired, n));
      SameFunctorsKeep(s, s0);
      ExitRunsFunctorOnce(s0, i, Terminated, launch);
    }
  }

  /** A functor hears how its process ended: with its exit code from a signal, as
      terminated from a timer. */
  lemma FunctorHearsTheEnd(k: Crypto, boot: Boot, events: seq<Event>, m: Manager, i: nat, code: int, n: nat,
                           launch: Launch)
    requires m == Run(k, boot, events) && i < |m.sup.vaults|
    ensures HearsTheEnd(m.sup, i, code, n, launch)
  {
    RunInv(k, boot, events);
    EndIsReported(m.sup, i, code, n, launch);
  }

  /** A restart that may run does so if it launches and shares no key with a child. */
  lemma RestartNowExact(s: Supervisor, r: Restart, launch: Launch)
    requires Complete(r.info) && 0 <= r.restarts < MAX_VAULT_RESTARTS
    ensures var after := RestartNow(s, r, launch);
            if Startable(s.vaults, r.info, launch)
            then after.vaults == s.vaults + [Child(r.info, None, true, r.restarts + 1, Starting, launch.pid, r.lineage)]
            else && after.vaults == s.vaults
                 && r.lineage in after.history.ended && after.history.ended[r.lineage] == Refused
  {
    AddProcessExact(s, r.info, r.restarts + 1, Restarted(r.lineage), launch);
  }

  /** The posted restart succeeds, by putting its vault back with one restart more, if
      it launches and no child has a key of its; else its lineage ends as refused. */
  predicate RestartsOrEnds(s: Supervisor, j: nat, launch: Launch)
    requires j < |s.posted|
  {
    var r := s.posted[j];
    var after := RunRestart(s, j, launch);
    && after.posted == Without(s.posted, j)
    && if Startable(s.vaults, r.info, launch)
       then after.vaults == s.vaults + [Child(r.info, None, true, r.restarts + 1, Starting, launch.pid, r.lineage)]
       else && after.vaults == s.vaults
            && r.lineage in after.history.ended && after.history.ended[r.lineage] == Refused
  }

  lemma PostedRestartExact(s: Supervisor, j: nat, launch: Launch)
    requires PostedFaithful(s) && j < |s.posted|
    ensures s.posted[j].restarts + 1 <= MAX_VAULT_RESTARTS && RestartsOrEnds(s, j, launch)
  {
    RestartNowExact(s.(posted := Without(s.posted, j)), s.posted[j], launch);
  }

  /** So it is in every reachable state; too many restarts are never the reason. */
  lemma RestartExact(k: Crypto, boot: Boot, events: seq<Event>, m: Manager, j: nat, launch: Launch)
    requires m == Run(k, boot, events) && j < |m.sup.posted|
    ensures m.sup.posted[j].restarts + 1 <= MAX_VAULT_RESTARTS && RestartsOrEnds(m.sup, j, launch)
  {
    RunInv(k, boot, events);
    PostedRestartExact(m.sup, j, launch);
  }

  // ---------------------------------------------------------------- stability

  lemma StableStays(k: Crypto, m: Manager, e: Event)
    requires m.stable
    ensures Step(k, m, e).stable
  {
    if m.halted {
      assert Step(k, m, e) == m;
    } else if OnTable(e) {
      TableStepMoves(m, e);
    } else if !OffTable(e) {
      VaultStepMoves(k, m, e);
    }
  }

  /** A network once marked stable stays so: from then on every request is answered,
      and the marking itself told every client of the time. */
  lemma {:induction false} StableIsForGood(k: Crypto, m: Manager, more: seq<Event>)
    requires m.stable
    ensures Continue(k, m, more).stable
    ensures forall c :: HandleNetworkStableRequest(Continue(k, m, more), c).sup.wire
                        == Continue(k, m, more).sup.wire.Send(c, NetworkStable)
    decreases |more|
  {
    if more != [] {
      StableStays(k, m, more[0]);
      StableIsForGood(k, Step(k, m, more[0]), more[1..]);
    }
  }

  lemma MarkingTellsEveryClient(m: Manager)
    ensures var after := HandleSetNetworkAsStable(m);
            && after.stable
            && m.sup.wire.sent <= after.sup.wire.sent
            && (forall c :: m.clients.Tracks(c) <==> Sent(c, NetworkStable) in after.sup.wire.sent[|m.sup.wire.sent|..])
            && (forall n :: |m.sup.wire.sent| <= n < |after.sup.wire.sent| ==>
                  after.sup.wire.sent[n].message == NetworkStable)
  {
    var all := m.clients.GetAll();
    var told := HandleSetNetworkAsStable(m).sup.wire.sent[|m.sup.wire.sent|..];
    assert told == seq(|all|, i requires 0 <= i < |all| => Sent(all[i], NetworkStable));
    forall c | m.clients.Tracks(c)
      ensures Sent(c, NetworkStable) in told
    {
      var n :| 0 <= n < |all| && all[n] == c;
      assert told[n] == Sent(c, NetworkStable);
    }
  }
}
