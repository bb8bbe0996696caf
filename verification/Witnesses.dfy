/** Runs that show where a property ends: a stopped vault that comes back, an empty
    connection that is dereferenced, two vaults left with one Pmid name. */
module Witnesses {
  import opened VaultTypes
  import opened Supervision
  import opened Registries
  import opened Management
  import opened TableProofs
  import opened ManagerProofs
  import opened Safety
  import opened Shutdown
  import opened Ownership

  const VAULT: VaultInfo :=
    VaultInfo(Some(PmidAndSigner(Pmid("p", "x"), Signer("s"))), "d", 1, None, "A", None, 0)

  /** A manager that starts this one vault, having read none. */
  const ONE_VAULT: Boot := Default([], Reload(VAULT, Launches(1)), true)

  lemma OneVaultUp(k: Crypto)
    ensures var m := Run(k, ONE_VAULT, []);
            && !m.halted && !m.sup.stopAllCalled && m.sup.posted == [] && m.sup.expired == []
            && m.sup.vaults == [Child(VAULT, None, true, 0, Starting, 1, 0)]
            && m.incoming == {} && m.seen == {} && m.clients == NO_CLIENTS && |m.sup.history.ledger| == 1
            && m.sup.history.launches == 1
  {
    var start := START.(stored := FileAt(ONE_VAULT), pairs := 1);
    var reload := Reload(VAULT, Launches(1));
    assert Unconnected([reload]) == [reload];
    var r := AddProcess(start.sup, VAULT, 0, NewVault, Launches(1));
    AddProcessExact(start.sup, VAULT, 0, NewVault, Launches(1));
    assert r.Added? && [reload][1..] == [];
    assert ReloadAll(start, [reload]) == ReloadAll(start.(sup := r.s), []) == start.(sup := r.s);
    assert Construct(ONE_VAULT) == Stored(start.(sup := r.s));
  }

  /** A run goes on by one event. */
  lemma On(k: Crypto, boot: Boot, events: seq<Event>, e: Event) returns (longer: seq<Event>)
    ensures longer == events + [e] && Run(k, boot, longer) == Step(k, Run(k, boot, events), e)
  {
    longer := events + [e];
    RunOn(k, boot, events, e);
  }

  // ------------------------------------------------------------ empty pointers

  /** Tearing down before the vault has reported. */
  lemma TearDownHalts(k: Crypto)
    ensures !Run(k, ONE_VAULT, []).halted && Run(k, ONE_VAULT, [TearDown]).halted
  {
    OneVaultUp(k);
    RunOn(k, ONE_VAULT, [], TearDown);
    assert [] + [TearDown] == [TearDown];
    var m := Run(k, ONE_VAULT, []);
    assert m.sup.vaults[0].info.connection.None?;
    HaltsExactlyOnEmpty(k, ONE_VAULT, [], TearDown);
  }

  // ------------------------------------------------------------------ revival

  const TWO_CONNECTIONS: seq<Event> := [NewConnection(0), VaultStarted(0, 1), NewConnection(1)]

  /** The vault is up, launched once, and there is one new connection or none. */
  predicate VaultUp(m: Manager, child: Child, incoming: set<Connection>) {
    && !m.halted && !m.sup.stopAllCalled && m.sup.posted == [] && m.sup.history.launches == 1
    && m.sup.vaults == [child] && m.incoming == incoming
  }

  lemma ConnectionComes(k: Crypto, m: Manager, child: Child, c: Connection)
    requires VaultUp(m, child, {}) && c !in m.seen
    ensures var after := Step(k, m, NewConnection(c)); VaultUp(after, child, {c}) && after.seen == m.seen + {c}
  {
    assert Step(k, m, NewConnection(c)) == HandleNewConnection(m, c);
  }

  lemma FirstReport(k: Crypto, m: Manager)
    requires VaultUp(m, Child(VAULT, None, true, 0, Starting, 1, 0), {0})
    ensures var after := Step(k, m, VaultStarted(0, 1));
            && VaultUp(after, Child(VAULT.(connection := Some(0)), None, false, 0, Running, 1, 0), {})
            && after.seen == m.seen && after.limits.overdue == m.limits.overdue
  {
    assert Find(m.sup.vaults, ByPid(1)) == 0;
    assert Step(k, m, VaultStarted(0, 1)) == HandleVaultStarted(m, 0, 1);
  }

  /** The vault is up over the first connection, and there is another. */
  lemma VaultRuns(k: Crypto)
    ensures VaultUp(Run(k, ONE_VAULT, TWO_CONNECTIONS),
                    Child(VAULT.(connection := Some(0)), None, false, 0, Running, 1, 0), {1})
  {
    var starting := Child(VAULT, None, true, 0, Starting, 1, 0);
    var up := Child(VAULT.(connection := Some(0)), None, false, 0, Running, 1, 0);
    OneVaultUp(k);
    ConnectionComes(k, Run(k, ONE_VAULT, []), starting, 0);
    var one := On(k, ONE_VAULT, [], NewConnection(0));
    FirstReport(k, Run(k, ONE_VAULT, one));
    var two := On(k, ONE_VAULT, one, VaultStarted(0, 1));
    ConnectionComes(k, Run(k, ONE_VAULT, two), up, 1);
    var three := On(k, ONE_VAULT, two, NewConnection(1));
    assert three == TWO_CONNECTIONS;
  }

  /** The vault torn down, it reports once more, over the other connection, and that is
      closed: it is launched again. */
  lemma StoppedVaultComesBack(k: Crypto)
    ensures var down := Run(k, ONE_VAULT, TWO_CONNECTIONS + [TearDown]);
            var w := World(LaunchFails, false);
            var after := Continue(k, down, [VaultStarted(1, 1), ConnectionClosed(1, w), RestartRuns(0, Launches(2))]);
            && Draining(down.sup) && Breaks(down, VaultStarted(1, 1))
            && after.sup.history.launches == down.sup.history.launches + 1
            && after.sup.vaults == [Child(VAULT, None, true, 1, Starting, 2, 0)]
  {
    var m, down := Run(k, ONE_VAULT, TWO_CONNECTIONS), Run(k, ONE_VAULT, TWO_CONNECTIONS + [TearDown]);
    VaultRuns(k);
    RunOn(k, ONE_VAULT, TWO_CONNECTIONS, TearDown);
    assert TableInv(m.sup.vaults) by {
      RunInv(k, ONE_VAULT, TWO_CONNECTIONS);
    }
    TornDown(k, m);
    Revives(k, down);
  }

  lemma Revives(k: Crypto, down: Manager)
    requires !down.halted && down.incoming == {1} && down.sup.posted == []
    requires down.sup.vaults == [Child(VAULT.(connection := Some(0)), None, true, 0, Stopping, 1, 0)]
    ensures var w := World(LaunchFails, false);
            var after := Continue(k, down, [VaultStarted(1, 1), ConnectionClosed(1, w), RestartRuns(0, Launches(2))]);
            && Breaks(down, VaultStarted(1, 1))
            && after.sup.history.launches == down.sup.history.launches + 1
            && after.sup.vaults == [Child(VAULT, None, true, 1, Starting, 2, 0)]
  {
    var w := World(LaunchFails, false);
    var e0, e1, e2 := VaultStarted(1, 1), ConnectionClosed(1, w), RestartRuns(0, Launches(2));
    var m1 := Step(k, down, e0);
    var m2 := Step(k, m1, e1);
    Reported(k, down);
    Exited(k, m1);
    Relaunched(k, m2);
    ContinueThree(k, down, e0, e1, e2);
  }

  lemma ContinueThree(k: Crypto, m: Manager, e0: Event, e1: Event, e2: Event)
    ensures Continue(k, m, [e0, e1, e2]) == Step(k, Step(k, Step(k, m, e0), e1), e2)
  {
    ContinueOne(k, Step(k, Step(k, m, e0), e1), e2);
    assert [e0, e1, e2][1..] == [e1, e2] && [e1, e2][1..] == [e2];
  }

  lemma TornDown(k: Crypto, m: Manager)
    requires TableInv(m.sup.vaults)
    requires VaultUp(m, Child(VAULT.(connection := Some(0)), None, false, 0, Running, 1, 0), {1})
    ensures var down := Step(k, m, TearDown);
            && !down.halted && Draining(down.sup) && down.incoming == {1} && down.sup.posted == []
            && down.sup.vaults == [Child(VAULT.(connection := Some(0)), None, true, 0, Stopping, 1, 0)]
  {
    var wire := m.sup.wire.CloseAll(m.incoming)
                .CloseAll(m.clients.unvalidated.Keys).CloseAll(m.clients.validated.Keys);
    assert Step(k, m, TearDown) == HandleTearDown(m);
    TearDownStops(m);
    StopAllStopsAll(m.sup.(wire := wire));
  }

  lemma Reported(k: Crypto, m: Manager)
    requires !m.halted && m.incoming == {1} && m.sup.posted == []
    requires m.sup.vaults == [Child(VAULT.(connection := Some(0)), None, true, 0, Stopping, 1, 0)]
    ensures var after := Step(k, m, VaultStarted(1, 1));
            && !after.halted && after.sup.posted == [] && after.sup.history == m.sup.history
            && after.sup.vaults == [Child(VAULT.(connection := Some(1)), None, false, 0, Running, 1, 0)]
    ensures Breaks(m, VaultStarted(1, 1))
  {
    assert Find(m.sup.vaults, ByPid(1)) == 0;
    assert Step(k, m, VaultStarted(1, 1)) == HandleVaultStarted(m, 1, 1);
  }

  lemma Exited(k: Crypto, m: Manager)
    requires !m.halted && m.sup.posted == []
    requires m.sup.vaults == [Child(VAULT.(connection := Some(1)), None, false, 0, Running, 1, 0)]
    ensures var after := Step(k, m, ConnectionClosed(1, World(LaunchFails, false)));
            && !after.halted && after.sup.vaults == [] && after.sup.posted == [Restart(VAULT, 0, 0)]
            && after.sup.history.launches == m.sup.history.launches
  {
    var w := World(LaunchFails, false);
    assert Find(m.sup.vaults, ByConnection(Some(1))) == 0 && Find(m.sup.vaults, ByLabel("A")) == 0;
    assert Step(k, m, ConnectionClosed(1, w)) == HandleConnectionClosed(m, 1, w);
    assert OnProcessExit(m.sup, "A", Terminated, LaunchFails) == ExitAt(m.sup, 0, Terminated, LaunchFails);
  }

  lemma Relaunched(k: Crypto, m: Manager)
    requires !m.halted && m.sup.vaults == [] && m.sup.posted == [Restart(VAULT, 0, 0)]
    ensures var after := Step(k, m, RestartRuns(0, Launches(2)));
            && after.sup.history.launches == m.sup.history.launches + 1
            && after.sup.vaults == [Child(VAULT, None, true, 1, Starting, 2, 0)]
  {
    assert Step(k, m, RestartRuns(0, Launches(2))).sup == RunRestart(m.sup, 0, Launches(2));
    AddProcessExact(m.sup.(posted := []), VAULT, 1, Restarted(0), Launches(2));
  }

  // ---------------------------------------------------------------- time limits

  /** The connection is new, and its time limit is running, over, or has been enforced. */
  predicate Waits(m: Manager, limits: Limits) {
    !m.halted && m.incoming == {0} && m.limits == limits
  }

  lemma Silence(k: Crypto, m: Manager)
    requires Waits(m, Limits({0}, {}))
    ensures Waits(Step(k, m, LimitExpires(OfNew, 0)), Limits({}, {0}))
  {
    assert Step(k, m, LimitExpires(OfNew, 0)) == HandleLimitExpires(m, OfNew, 0);
    assert {0} - {0} == {} && {} + {0} == {0};
  }

  lemma Enforced(k: Crypto, m: Manager)
    requires Waits(m, Limits({}, {0}))
    ensures var after := Step(k, m, LimitRuns(OfNew, 0)); 0 in after.incoming && 0 in after.sup.wire.closed
  {
    assert Step(k, m, LimitRuns(OfNew, 0)) == HandleLimitRuns(m, OfNew, 0);
  }

  lemma Arrives(k: Crypto)
    ensures Waits(Step(k, Run(k, Empty([]), []), NewConnection(0)), Limits({0}, {}))
  {
    var start := Run(k, Empty([]), []);
    assert start == START.(stored := []);
    assert Step(k, start, NewConnection(0)) == HandleNewConnection(start, 0);
    assert {} + {0} == {0};
  }

  /** A connection that stays silent: it is closed and still a new one. */
  lemma SilentConnection(k: Crypto)
    ensures var m := Run(k, Empty([]), [NewConnection(0), LimitExpires(OfNew, 0), LimitRuns(OfNew, 0)]);
            0 in m.incoming && 0 in m.sup.wire.closed
  {
    Arrives(k);
    var one := On(k, Empty([]), [], NewConnection(0));
    Silence(k, Run(k, Empty([]), one));
    var two := On(k, Empty([]), one, LimitExpires(OfNew, 0));
    Enforced(k, Run(k, Empty([]), two));
    var three := On(k, Empty([]), two, LimitRuns(OfNew, 0));
    assert three == [NewConnection(0), LimitExpires(OfNew, 0), LimitRuns(OfNew, 0)];
  }

  lemma LateExpiry(k: Crypto, m: Manager)
    requires VaultUp(m, Child(VAULT, None, true, 0, Starting, 1, 0), {0}) && 0 in m.limits.timed
    ensures var after := Step(k, m, LimitExpires(OfNew, 0));
            VaultUp(after, Child(VAULT, None, true, 0, Starting, 1, 0), {0}) && 0 in after.limits.overdue
  {
    assert Step(k, m, LimitExpires(OfNew, 0)) == HandleLimitExpires(m, OfNew, 0);
  }

  /** The vault reports over the connection when the handler of its limit is queued already:
      it runs, over a connection that is closed under it. */
  lemma LateLimit(k: Crypto)
    ensures var events := [NewConnection(0), LimitExpires(OfNew, 0), VaultStarted(0, 1), LimitRuns(OfNew, 0)];
            var m := Run(k, ONE_VAULT, events);
            && m.sup.vaults == [Child(VAULT.(connection := Some(0)), None, false, 0, Running, 1, 0)]
            && 0 in m.sup.wire.closed
  {
    OneVaultUp(k);
    var m0 := Run(k, ONE_VAULT, []);
    ConnectionComes(k, m0, Child(VAULT, None, true, 0, Starting, 1, 0), 0);
    var one := On(k, ONE_VAULT, [], NewConnection(0));
    assert 0 in Run(k, ONE_VAULT, one).limits.timed by {
      assert Step(k, m0, NewConnection(0)) == HandleNewConnection(m0, 0);
    }
    LateExpiry(k, Run(k, ONE_VAULT, one));
    var two := On(k, ONE_VAULT, one, LimitExpires(OfNew, 0));
    FirstReport(k, Run(k, ONE_VAULT, two));
    var three := On(k, ONE_VAULT, two, VaultStarted(0, 1));
    LimitRunsLate(k, Run(k, ONE_VAULT, three));
    var four := On(k, ONE_VAULT, three, LimitRuns(OfNew, 0));
    assert four == [NewConnection(0), LimitExpires(OfNew, 0), VaultStarted(0, 1), LimitRuns(OfNew, 0)];
  }

  lemma LimitRunsLate(k: Crypto, m: Manager)
    requires VaultUp(m, Child(VAULT.(connection := Some(0)), None, false, 0, Running, 1, 0), {})
    requires 0 in m.limits.overdue
    ensures var after := Step(k, m, LimitRuns(OfNew, 0)); after.sup.vaults == m.sup.vaults && 0 in after.sup.wire.closed
  {
    assert Step(k, m, LimitRuns(OfNew, 0)) == HandleLimitRuns(m, OfNew, 0);
  }

  // ------------------------------------------------------- one name, two vaults

  /** A validated client has a vault up. */
  predicate HasVault(m: Manager, p: PmidAndSigner) {
    && !m.halted && 0 in m.clients.validated && |m.sup.vaults| == 1
    && var info := m.sup.vaults[0].info;
       && info.vaultLabel == "A" && info.dir == "d" && info.maxDiskUsage == 0 && info.keys == Some(p)
       && info.connection == Some(1)
  }

  lemma ClientValidated(k: Crypto, plain: string, publicKey: string, signature: string)
    requires k.verifies(plain, signature, publicKey)
    ensures var m := Run(k, Empty([]), [NewConnection(0), ValidateConnectionRequest(0, plain),
                                        ChallengeResponse(0, publicKey, signature)]);
            !m.halted && 0 in m.clients.validated && m.sup.vaults == [] && m.incoming == {} && m.seen == {0}
  {
    var e0, e1, e2 := NewConnection(0), ValidateConnectionRequest(0, plain), ChallengeResponse(0, publicKey, signature);
    RunOn(k, Empty([]), [], e0);
    RunOn(k, Empty([]), [e0], e1);
    RunOn(k, Empty([]), [e0, e1], e2);
    assert [] + [e0] == [e0] && [e0] + [e1] == [e0, e1] && [e0, e1] + [e2] == [e0, e1, e2];
    var m0 := HandleNewConnection(Construct(Empty([])), 0);
    assert Run(k, Empty([]), [e0]) == m0;
    var m1 := HandleValidateConnectionRequest(m0, 0, plain);
    assert Run(k, Empty([]), [e0, e1]) == m1;
    assert m1.clients.unvalidated == map[0 := plain];
    assert Run(k, Empty([]), [e0, e1, e2]) == HandleChallengeResponse(k, m1, 0, publicKey, signature);
  }

  /** Its vault was launched and has not reported. */
  predicate VaultLaunched(m: Manager, p: PmidAndSigner, incoming: set<Connection>) {
    && !m.halted && 0 in m.clients.validated && |m.sup.vaults| == 1 && m.incoming == incoming && 1 !in m.seen - incoming
    && m.sup.vaults[0].pid == 1
    && var info := m.sup.vaults[0].info;
       && info.vaultLabel == "A" && info.dir == "d" && info.maxDiskUsage == 0 && info.keys == Some(p)
  }

  lemma VaultRequested(k: Crypto, m: Manager, p: PmidAndSigner)
    requires !m.halted && 0 in m.clients.validated && m.sup.vaults == [] && m.incoming == {} && m.seen == {0}
    ensures VaultLaunched(Step(k, m, StartVaultRequest(0, "A", "d", 0, Some(p), "", World(Launches(1), true))), p, {})
  {
    var w := World(Launches(1), true);
    var info := RequestedVault(m.clients.validated[0], "A", "d", 0, Some(p), "", m.pairs);
    var m0 := m.(pairs := m.pairs + 1);
    AddProcessExact(m0.sup, info, 0, NewVault, w.launch);
    var m1 := StartRequested(m0, 0, info, w);
    assert Step(k, m, StartVaultRequest(0, "A", "d", 0, Some(p), "", w)) == m1;
    assert m1.sup.vaults == [Child(info, None, true, 0, Starting, 1, |m.sup.history.ledger|)];
  }

  lemma VaultConnects(k: Crypto, m: Manager, p: PmidAndSigner)
    requires VaultLaunched(m, p, {})
    ensures VaultLaunched(Step(k, m, NewConnection(1)), p, {1})
  {
    assert Step(k, m, NewConnection(1)) == HandleNewConnection(m, 1);
  }

  lemma VaultReports(k: Crypto, m: Manager, p: PmidAndSigner)
    requires VaultLaunched(m, p, {1})
    ensures HasVault(Step(k, m, VaultStarted(1, 1)), p)
  {
    assert Find(m.sup.vaults, ByPid(1)) == 0;
    assert Step(k, m, VaultStarted(1, 1)) == HandleVaultStarted(m, 1, 1);
  }

  /** It asks for a second vault, of whatever Pmid name it likes but that of the first, and
      takes the first over in its place. */
  lemma NameTaken(k: Crypto, m: Manager, p: PmidAndSigner)
    requires HasVault(m, p) && k.moved(p).pmid.name != p.pmid.name
    ensures var q := PmidAndSigner(Pmid(k.moved(p).pmid.name, ""), Signer(""));
            var m1 := Step(k, m, StartVaultRequest(0, "B", "e", 0, Some(q), "", World(Launches(2), true)));
            Clashes(k, m1, TakeOwnershipRequest(0, "A", "d", 0, true))
  {
    var q := PmidAndSigner(Pmid(k.moved(p).pmid.name, ""), Signer(""));
    var w := World(Launches(2), true);
    var info := RequestedVault(m.clients.validated[0], "B", "e", 0, Some(q), "", m.pairs);
    var m0 := m.(pairs := m.pairs + 1);
    var m1 := Step(k, m, StartVaultRequest(0, "B", "e", 0, Some(q), "", w));
    AddProcessExact(m0.sup, info, 0, NewVault, w.launch);
    assert m1 == StartRequested(m0, 0, info, w);
    assert m1.sup.vaults == m.sup.vaults + [Started(info, 0, 2, |m.sup.history.ledger|)];
    assert Find(m1.sup.vaults, ByLabel("A")) == 0;
    assert PmidName(m1.sup.vaults[1].info) == Some(k.moved(p).pmid.name);
  }

  /** If a move changes the name of a key pair, there is a run that ends with two vaults of
      one name, as soon as anyone can be validated. */
  lemma MovedNameClashes(k: Crypto, plain: string, publicKey: string, signature: string, p: PmidAndSigner)
    returns (events: seq<Event>)
    requires k.verifies(plain, signature, publicKey) && k.moved(p).pmid.name != p.pmid.name
    ensures !AllDistinct(k, Empty([]), events)
  {
    var q := PmidAndSigner(Pmid(k.moved(p).pmid.name, ""), Signer(""));
    var e0 := StartVaultRequest(0, "A", "d", 0, Some(p), "", World(Launches(1), true));
    var e1, e2 := NewConnection(1), VaultStarted(1, 1);
    var e3 := StartVaultRequest(0, "B", "e", 0, Some(q), "", World(Launches(2), true));
    var last := TakeOwnershipRequest(0, "A", "d", 0, true);
    events := [NewConnection(0), ValidateConnectionRequest(0, plain), ChallengeResponse(0, publicKey, signature)];
    ClientValidated(k, plain, publicKey, signature);
    VaultRequested(k, Run(k, Empty([]), events), p);
    events := On(k, Empty([]), events, e0);
    VaultConnects(k, Run(k, Empty([]), events), p);
    events := On(k, Empty([]), events, e1);
    VaultReports(k, Run(k, Empty([]), events), p);
    events := On(k, Empty([]), events, e2);
    NameTaken(k, Run(k, Empty([]), events), p);
    events := On(k, Empty([]), events, e3);
    OneMoreEvent(k, Empty([]), events, last);
    events := events + [last];
    NamesStayDistinct(k, Empty([]), events);
  }

  /** Where anyone can be validated, the children of every run have distinct Pmid names if
      and only if no move changes the name of a key pair. */
  lemma NamesAlwaysDistinct(k: Crypto, plain: string, publicKey: string, signature: string)
    requires k.verifies(plain, signature, publicKey)
    ensures (forall boot, events :: AllDistinct(k, boot, events))
            <==> (forall p: PmidAndSigner :: k.moved(p).pmid.name == p.pmid.name)
  {
    if p: PmidAndSigner :| k.moved(p).pmid.name != p.pmid.name {
      var events := MovedNameClashes(k, plain, publicKey, signature, p);
      assert !AllDistinct(k, Empty([]), events);
    } else {
      forall boot, events
        ensures AllDistinct(k, boot, events)
      {
        NamesSurvive(k, boot, events);
      }
    }
  }

  lemma NoClash(k: Crypto, m: Manager, e: Event)
    requires forall p: PmidAndSigner :: k.moved(p).pmid.name == p.pmid.name
    requires Distinct(m.sup.vaults)
    ensures !Clashes(k, m, e)
  {
    var i := TakenOver(m, e);
    if i < |m.sup.vaults| && m.sup.vaults[i].info.keys.Some? {
      var info := m.sup.vaults[i].info;
      assert Some(k.moved(info.keys.value).pmid.name) == PmidName(info);
      assert forall j :: 0 <= j < |m.sup.vaults| && j != i ==> PmidName(m.sup.vaults[j].info) != PmidName(info);
    }
  }

  lemma LastIsDistinct(k: Crypto, boot: Boot, events: seq<Event>)
    requires AllDistinct(k, boot, events)
    ensures Distinct(Run(k, boot, events).sup.vaults)
  {
  }

  lemma NoneClashesOn(k: Crypto, boot: Boot, events: seq<Event>, e: Event)
    requires forall p: PmidAndSigner :: k.moved(p).pmid.name == p.pmid.name
    requires AllDistinct(k, boot, events)
    ensures NoneClashes(k, boot, events + [e])
  {
    LastIsDistinct(k, boot, events);
    NoClash(k, Run(k, boot, events), e);
    NamesStayDistinct(k, boot, events);
    OneMoreEvent(k, boot, events, e);
  }

  lemma {:induction false} NamesSurvive(k: Crypto, boot: Boot, events: seq<Event>)
    requires forall p: PmidAndSigner :: k.moved(p).pmid.name == p.pmid.name
    ensures AllDistinct(k, boot, events)
    decreases |events|
  {
    if events != [] {
      var before, e := events[..|events| - 1], events[|events| - 1];
      NamesSurvive(k, boot, before);
      NoneClashesOn(k, boot, before, e);
      assert events == before + [e];
    }
    NamesStayDistinct(k, boot, events);
  }
}
