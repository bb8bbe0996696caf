/** client_interface.cc: the vault requests a client has under way, each a promise with
    a timer, and the map from label to request by which a response finds its own.

    AddVaultRequest waits on the timer first and takes the lock for the map after, so
    anything may happen between the two. */
module ClientRequests {
  import opened VaultTypes
  import opened Rpc

  /** `inserted`: the second half of AddVaultRequest is done. */
  datatype Request = Request(vaultLabel: string, promise: Promise<PmidAndSigner>, inserted: bool)

  datatype Requests = Requests(all: seq<Request>, ongoing: map<string, nat>)

  datatype RequestEvent =
    | Begin(vaultLabel: string)
    | Insert(id: nat)
    | VaultRunningResponse(vaultLabel: string, outcome: Outcome<PmidAndSigner>)
    | RequestTimerFires(id: nat, error: Option<int>)
    | RequestHandlerRuns(id: nat)

  const NO_REQUESTS: Requests := Requests([], map[])

  function Begun(r: Requests, vaultLabel: string): Requests {
    r.(all := r.all + [Request(vaultLabel, Promise([], false, Waiting), false)])
  }

  /** map::insert leaves an entry for the label that is there already. */
  function Inserted(r: Requests, id: nat): Requests {
    if id >= |r.all| || r.all[id].inserted then r else
      var request := r.all[id].(inserted := true);
      Requests(r.all[id := request],
               if request.vaultLabel in r.ongoing then r.ongoing else r.ongoing[request.vaultLabel := id])
  }

  /** A response carries keys or an error; one for no request under way is dropped. */
  function Answered(r: Requests, vaultLabel: string, o: Outcome<PmidAndSigner>): Requests {
    if vaultLabel !in r.ongoing || r.ongoing[vaultLabel] >= |r.all| then r else
      var id := r.ongoing[vaultLabel];
      var promise := r.all[id].promise.Set(o);
      Requests(r.all[id := r.all[id].(promise := promise.(timer := promise.timer.Cancel()))], r.ongoing - {vaultLabel})
  }

  function TimerFired(r: Requests, id: nat, error: Option<int>): Requests {
    if id < |r.all| && r.all[id].promise.timer.Waiting?
    then r.(all := r.all[id := r.all[id].(promise :=
              r.all[id].promise.(timer := if error.Some? then Errored(error.value) else Expired))])
    else r
  }

  /** The handler erases by label: whichever request the map has for it. */
  function TimerHandled(r: Requests, id: nat): Requests {
    if id >= |r.all| then r else
      var promise := r.all[id].promise.(timer := Drained);
      match r.all[id].promise.timer
      case Aborted => r.(all := r.all[id := r.all[id].(promise := promise)])
      case Expired =>
        Requests(r.all[id := r.all[id].(promise := promise.Set(Exception(TimedOut)))],
                 r.ongoing - {r.all[id].vaultLabel})
      case Errored(code) =>
        Requests(r.all[id := r.all[id].(promise := promise.Set(Exception(TimerError(code))))],
                 r.ongoing - {r.all[id].vaultLabel})
      case _ => r
  }

  function StepRequests(r: Requests, e: RequestEvent): Requests {
    match e
    case Begin(l) => Begun(r, l)
    case Insert(id) => Inserted(r, id)
    case VaultRunningResponse(l, o) => Answered(r, l, o)
    case RequestTimerFires(id, error) => TimerFired(r, id, error)
    case RequestHandlerRuns(id) => TimerHandled(r, id)
  }

  function RunRequests(events: seq<RequestEvent>): Requests
    decreases |events|
  {
    if events == [] then NO_REQUESTS
    else StepRequests(RunRequests(events[..|events| - 1]), events[|events| - 1])
  }

  // ----------------------------------------------------------------- invariant

  predicate Listed(r: Requests, id: nat)
    requires id < |r.all|
  {
    r.all[id].vaultLabel in r.ongoing && r.ongoing[r.all[id].vaultLabel] == id
  }

  /** Only its own timer's handler resolves a request that the map has not got yet, and a
      request the map has was not answered. */
  predicate RequestsInv(r: Requests) {
    && (forall id :: 0 <= id < |r.all| ==>
          && r.all[id].promise.Sound() && !r.all[id].promise.timer.Idle?
          && (!r.all[id].inserted ==> !r.all[id].promise.timer.Aborted?)
          && (!r.all[id].inserted && r.all[id].promise.Resolved() ==> r.all[id].promise.timer.Drained?))
    && (forall l :: l in r.ongoing ==>
          && r.ongoing[l] < |r.all| && r.all[r.ongoing[l]].vaultLabel == l && r.all[r.ongoing[l]].inserted
          && !r.all[r.ongoing[l]].promise.timer.Aborted?
          && (r.all[r.ongoing[l]].promise.Resolved() ==> r.all[r.ongoing[l]].promise.timer.Drained?))
  }

  lemma AnsweredKeeps(r: Requests, l: string, o: Outcome<PmidAndSigner>)
    requires RequestsInv(r)
    ensures RequestsInv(Answered(r, l, o))
  {
  }

  lemma TimerHandledKeeps(r: Requests, id: nat)
    requires RequestsInv(r)
    ensures RequestsInv(TimerHandled(r, id))
  {
  }

  lemma StepKeepsRequests(r: Requests, e: RequestEvent)
    requires RequestsInv(r)
    ensures RequestsInv(StepRequests(r, e))
  {
    match e
    case VaultRunningResponse(l, o) => AnsweredKeeps(r, l, o);
    case RequestHandlerRuns(id) => TimerHandledKeeps(r, id);
    case _ =>
  }

  lemma {:induction false} RunRequestsInv(events: seq<RequestEvent>)
    ensures RequestsInv(RunRequests(events))
    decreases |events|
  {
    if events != [] {
      RunRequestsInv(events[..|events| - 1]);
      StepKeepsRequests(RunRequests(events[..|events| - 1]), events[|events| - 1]);
    }
  }

  // --------------------------------------------------------------- main results

  /** Labels repeated or not, a request is resolved at most once, one that is not has a
      timer still to come, and one whose timer was cancelled or has drained is. */
  lemma RequestsResolveOnce(events: seq<RequestEvent>, id: nat)
    requires id < |RunRequests(events).all|
    ensures var promise := RunRequests(events).all[id].promise;
            && |promise.sets| <= 1
            && (promise.sets == [] ==> promise.timer.Waiting? || promise.timer.Expired? || promise.timer.Errored?)
            && (promise.timer.Drained? || promise.timer.Aborted? ==> |promise.sets| == 1)
  {
    RunRequestsInv(events);
    assert RunRequests(events).all[id].promise.Sound();
  }

  /** A response resolves the request the map has for its label, with what it carries, stops
      its timer and takes the one entry out; other requests and entries are left as they are. */
  lemma ResponseResolvesListed(events: seq<RequestEvent>, l: string, o: Outcome<PmidAndSigner>, id: nat)
    requires id < |RunRequests(events).all|
    ensures var r := RunRequests(events); var after := StepRequests(r, VaultRunningResponse(l, o));
            && after.ongoing == r.ongoing - {l}
            && |after.all| == |r.all|
            && (l in r.ongoing && r.ongoing[l] == id ==>
                  && after.all[id].promise.sets
                     == (if r.all[id].promise.sets == [] then [o] else r.all[id].promise.sets)
                  && after.all[id].promise.timer
                     == (if r.all[id].promise.timer == Waiting then Aborted else r.all[id].promise.timer)
                  && after.all[id].vaultLabel == l && after.all[id].inserted)
            && (l !in r.ongoing || r.ongoing[l] != id ==> after.all[id] == r.all[id])
  {
    RunRequestsInv(events);
    assert RunRequests(events).all[id].promise.Sound();
    assert l !in RunRequests(events).ongoing ==> RunRequests(events).ongoing - {l} == RunRequests(events).ongoing;
  }

  /** The two halves of AddVaultRequest: a request begins unresolved with its timer set; it
      is entered for its label unless another is, which then stays, and only once. */
  lemma RequestIsEntered(r: Requests, l: string, id: nat)
    ensures StepRequests(r, Begin(l)) == Requests(r.all + [Request(l, Promise([], false, Waiting), false)], r.ongoing)
    ensures var after := StepRequests(r, Insert(id));
            if id >= |r.all| || r.all[id].inserted then after == r else
              var l2 := r.all[id].vaultLabel;
              && after.all == r.all[id := r.all[id].(inserted := true)]
              && after.ongoing == if l2 in r.ongoing then r.ongoing else r.ongoing[l2 := id]
  {
  }

  /** A request's timer, if set, may run out with or without an error. */
  lemma RequestTimerExact(r: Requests, id: nat, error: Option<int>)
    requires id < |r.all|
    ensures var request, after := r.all[id], StepRequests(r, RequestTimerFires(id, error));
            after == r.(all := r.all[id := request.(promise := request.promise.(timer :=
              if request.promise.timer != Waiting then request.promise.timer
              else if error.Some? then Errored(error.value) else Expired))])
  {
  }

  /** Its handler resolves it, if it is not yet, as timed out or with the timer's error, and
      erases the entry of its label, whosever that is; aborted, it does nothing. */
  lemma RequestHandlerExact(events: seq<RequestEvent>, id: nat)
    requires id < |RunRequests(events).all|
    ensures var r := RunRequests(events); var request, after := r.all[id], StepRequests(r, RequestHandlerRuns(id));
            match request.promise.timer
            case Aborted => after == r.(all := r.all[id := request.(promise := request.promise.(timer := Drained))])
            case Expired => HandledAs(r, after, id, Exception(TimedOut))
            case Errored(code) => HandledAs(r, after, id, Exception(TimerError(code)))
            case _ => after == r
  {
    RunRequestsInv(events);
    assert RunRequests(events).all[id].promise.Sound();
  }

  predicate HandledAs(r: Requests, after: Requests, id: nat, exception: Outcome<PmidAndSigner>)
    requires id < |r.all|
  {
    && after.ongoing == r.ongoing - {r.all[id].vaultLabel}
    && |after.all| == |r.all|
    && after.all[id].promise.timer == Drained
    && after.all[id].promise.sets == (if r.all[id].promise.sets == [] then [exception] else r.all[id].promise.sets)
    && after.all[id].vaultLabel == r.all[id].vaultLabel && after.all[id].inserted == r.all[id].inserted
    && (forall n :: 0 <= n < |r.all| && n != id ==> after.all[n] == r.all[n])
  }

  /** The event may take the entry of the label out of the map: a response for the label, or
      the handler, not aborted, of the timer of a request for it. */
  predicate Delists(r: Requests, e: RequestEvent, l: string) {
    match e
    case VaultRunningResponse(l2, _) => l2 == l
    case RequestHandlerRuns(id) =>
      && id < |r.all| && r.all[id].vaultLabel == l
      && (r.all[id].promise.timer.Expired? || r.all[id].promise.timer.Errored?)
    case _ => false
  }

  /** The map has the request, and it is unresolved. */
  predicate Pending(r: Requests, id: nat) {
    id < |r.all| && Listed(r, id) && r.all[id].promise.sets == []
  }

  lemma StaysPending(r: Requests, e: RequestEvent, id: nat)
    requires RequestsInv(r) && Pending(r, id) && !Delists(r, e, r.all[id].vaultLabel)
    ensures var after := StepRequests(r, e); Pending(after, id) && after.all[id].vaultLabel == r.all[id].vaultLabel
  {
    assert r.all[id].promise.Sound();
  }

  /** None of the events takes the entry of the label out. */
  predicate NoneDelists(r: Requests, more: seq<RequestEvent>, l: string)
    decreases |more|
  {
    more == [] || (!Delists(r, more[0], l) && NoneDelists(StepRequests(r, more[0]), more[1..], l))
  }

  function ContinueRequests(r: Requests, more: seq<RequestEvent>): Requests
    decreases |more|
  {
    if more == [] then r else ContinueRequests(StepRequests(r, more[0]), more[1..])
  }

  lemma {:induction false} StaysPendingOver(r: Requests, more: seq<RequestEvent>, id: nat)
    requires RequestsInv(r) && Pending(r, id) && NoneDelists(r, more, r.all[id].vaultLabel)
    ensures var after := ContinueRequests(r, more);
            RequestsInv(after) && Pending(after, id) && after.all[id].vaultLabel == r.all[id].vaultLabel
    decreases |more|
  {
    if more != [] {
      StaysPending(r, more[0], id);
      StepKeepsRequests(r, more[0]);
      StaysPendingOver(StepRequests(r, more[0]), more[1..], id);
    }
  }

  /** Over any run a request in the map that is unresolved stays so, whatever happens to
      others, until a response for its label or the handler of a timer for its label; and
      that response resolves it. */
  lemma NextResponseResolves(events: seq<RequestEvent>, more: seq<RequestEvent>, id: nat, o: Outcome<PmidAndSigner>)
    requires Pending(RunRequests(events), id)
    requires NoneDelists(RunRequests(events), more, RunRequests(events).all[id].vaultLabel)
    ensures var r := RunRequests(events); var later := ContinueRequests(r, more);
            && Pending(later, id)
            && StepRequests(later, VaultRunningResponse(r.all[id].vaultLabel, o)).all[id].promise.sets == [o]
  {
    RunRequestsInv(events);
    var r := RunRequests(events);
    StaysPendingOver(r, more, id);
    assert ContinueRequests(r, more).all[id].promise.Sound();
  }

  /** An entry of the map stands for an unresolved request, unless that request's timer
      handler has run; then, and only then, it does not. */
  lemma EntriesAreUnresolved(events: seq<RequestEvent>, l: string)
    requires l in RunRequests(events).ongoing
    ensures var r := RunRequests(events); var id := r.ongoing[l];
            && id < |r.all| && r.all[id].vaultLabel == l && r.all[id].inserted
            && (r.all[id].promise.sets != [] <==> r.all[id].promise.timer.Drained?)
  {
    RunRequestsInv(events);
    assert RunRequests(events).all[RunRequests(events).ongoing[l]].promise.Sound();
  }

  /** It takes a timer that runs out between the two halves of AddVaultRequest. */
  lemma EntryMayBeResolved()
    ensures var r := RunRequests([Begin("A"), RequestTimerFires(0, None), RequestHandlerRuns(0), Insert(0)]);
            "A" in r.ongoing && r.ongoing["A"] == 0 && |r.all| == 1 && r.all[0].promise.sets == [Exception(TimedOut)]
  {
    var e1, e2, e3, e4 := Begin("A"), RequestTimerFires(0, None), RequestHandlerRuns(0), Insert(0);
    var r0 := RunRequests([]);
    assert [e1][..0] == [] && [e1, e2][..1] == [e1];
    assert [e1, e2, e3][..2] == [e1, e2] && [e1, e2, e3, e4][..3] == [e1, e2, e3];
    var r1 := RunRequests([e1]);
    assert r1 == StepRequests(r0, e1);
    var r2 := RunRequests([e1, e2]);
    assert r2 == StepRequests(r1, e2);
    var r3 := RunRequests([e1, e2, e3]);
    assert r3 == StepRequests(r2, e3);
    assert RunRequests([e1, e2, e3, e4]) == StepRequests(r3, e4);
  }

  /** The j-th event is the second half of the request's AddVaultRequest. */
  predicate InsertedAt(events: seq<RequestEvent>, id: nat, j: nat) {
    && j < |events| && events[j] == Insert(id)
    && id < |RunRequests(events[..j]).all| && !RunRequests(events[..j]).all[id].inserted
  }

  /** The n-th event is its timer's handler, queued because the timer ran out or failed. */
  predicate TimedOutAt(events: seq<RequestEvent>, id: nat, n: nat) {
    && n < |events| && events[n] == RequestHandlerRuns(id) && id < |RunRequests(events[..n]).all|
    && var timer := RunRequests(events[..n]).all[id].promise.timer;
       timer.Expired? || timer.Errored?
  }

  lemma RequestsOn(events: seq<RequestEvent>, e: RequestEvent)
    ensures RunRequests(events + [e]) == StepRequests(RunRequests(events), e)
  {
    assert (events + [e])[..|events|] == events;
  }

  lemma {:induction false} WasInserted(events: seq<RequestEvent>, id: nat) returns (j: nat)
    requires id < |RunRequests(events).all| && RunRequests(events).all[id].inserted
    ensures InsertedAt(events, id, j)
    decreases |events|
  {
    var before, e := events[..|events| - 1], events[|events| - 1];
    var r := RunRequests(before);
    assert RunRequests(events) == StepRequests(r, e);
    if id < |r.all| && r.all[id].inserted {
      j := WasInserted(before, id);
      assert events[..j] == before[..j];
    } else {
      j := |events| - 1;
    }
  }

  predicate DrainedIn(r: Requests, id: nat) {
    id < |r.all| && r.all[id].promise.timer.Drained?
  }

  /** The request's timer has a handler queued. */
  predicate QueuedIn(r: Requests, id: nat) {
    && id < |r.all|
    && var timer := r.all[id].promise.timer;
       timer.Expired? || timer.Errored? || timer.Aborted?
  }

  lemma DrainsByHandler(r: Requests, e: RequestEvent, id: nat)
    requires DrainedIn(StepRequests(r, e), id) && !DrainedIn(r, id)
    ensures e == RequestHandlerRuns(id) && QueuedIn(r, id)
  {
  }

  lemma {:induction false} HandlerRan(events: seq<RequestEvent>, id: nat) returns (n: nat)
    requires DrainedIn(RunRequests(events), id)
    ensures n < |events| && events[n] == RequestHandlerRuns(id) && QueuedIn(RunRequests(events[..n]), id)
    decreases |events|
  {
    var before, e := events[..|events| - 1], events[|events| - 1];
    assert RunRequests(events) == StepRequests(RunRequests(before), e);
    if DrainedIn(RunRequests(before), id) {
      n := HandlerRan(before, id);
      assert events[..n] == before[..n];
    } else {
      DrainsByHandler(RunRequests(before), e, id);
      n := |events| - 1;
    }
  }

  lemma {:induction false} DrainedForGood(events: seq<RequestEvent>, more: seq<RequestEvent>, id: nat)
    requires DrainedIn(RunRequests(events), id)
    ensures DrainedIn(RunRequests(events + more), id)
    decreases |more|
  {
    if more == [] {
      assert events + more == events;
    } else {
      var init, e := more[..|more| - 1], more[|more| - 1];
      DrainedForGood(events, init, id);
      RequestsOn(events + init, e);
      assert events + more == events + init + [e];
    }
  }

  /** A request that is unlisted at some time is so at the end. */
  lemma UnlistedAtTheEnd(events: seq<RequestEvent>, id: nat, n: nat)
    requires n <= |events| && Unlisted(RunRequests(events[..n]), id)
    ensures Unlisted(RunRequests(events), id)
  {
    UnlistedTimesOut(events[..n], events[n..], id);
    assert events[..n] + events[n..] == events;
  }

  /** A handler that ran after the request got into the map, or because the wait was
      aborted, leaves it out of the map. */
  lemma HandlerUnlists(events: seq<RequestEvent>, id: nat, n: nat)
    requires n < |events| && events[n] == RequestHandlerRuns(id) && id < |RunRequests(events[..n]).all|
    requires var request := RunRequests(events[..n]).all[id]; var timer := request.promise.timer;
             timer.Aborted? || (request.inserted && (timer.Expired? || timer.Errored?))
    ensures Unlisted(RunRequests(events), id)
  {
    RunRequestsInv(events[..n]);
    RequestsOn(events[..n], events[n]);
    assert events[..n] + [events[n]] == events[..n + 1];
    if RunRequests(events[..n]).all[id].promise.timer.Aborted? {
      UnlistedAtTheEnd(events, id, n);
    } else {
      UnlistedAtTheEnd(events, id, n + 1);
    }
  }

  lemma {:induction false} InsertedForGood(events: seq<RequestEvent>, n: nat, id: nat)
    requires n <= |events| && id < |RunRequests(events[..n]).all| && RunRequests(events[..n]).all[id].inserted
    ensures id < |RunRequests(events).all| && RunRequests(events).all[id].inserted
    decreases |events| - n
  {
    if n < |events| {
      RequestsOn(events[..n], events[n]);
      assert events[..n] + [events[n]] == events[..n + 1];
      InsertedForGood(events, n + 1, id);
    } else {
      assert events[..n] == events;
    }
  }

  lemma EntryTimedOut(events: seq<RequestEvent>, id: nat) returns (n: nat, j: nat)
    requires id < |RunRequests(events).all| && RunRequests(events).all[id].inserted
    requires RunRequests(events).all[id].promise.timer.Drained? && Listed(RunRequests(events), id)
    ensures n < j && TimedOutAt(events, id, n) && InsertedAt(events, id, j)
  {
    n := HandlerRan(events, id);
    j := WasInserted(events, id);
    if RunRequests(events[..n]).all[id].promise.timer.Aborted? {
      HandlerUnlists(events, id, n);
    } else if j < n {
      InsertedBy(events, id, j, n);
      HandlerUnlists(events, id, n);
    }
  }

  lemma TimedOutIsDrained(events: seq<RequestEvent>, id: nat, n: nat)
    requires TimedOutAt(events, id, n)
    ensures DrainedIn(RunRequests(events), id)
  {
    RequestsOn(events[..n], events[n]);
    assert events[..n] + [events[n]] == events[..n + 1] && events[..n + 1] + events[n + 1..] == events;
    DrainedForGood(events[..n + 1], events[n + 1..], id);
  }

  /** Over any run an entry of the map belongs to a request that is resolved if and only
      if its timer's handler ran between the two halves of its AddVaultRequest. */
  lemma EntryResolvedExactly(events: seq<RequestEvent>, l: string)
    requires l in RunRequests(events).ongoing
    ensures var r := RunRequests(events); var id := r.ongoing[l];
            && id < |r.all|
            && (r.all[id].promise.sets != [] <==>
                exists n: nat, j: nat :: n < j && TimedOutAt(events, id, n) && InsertedAt(events, id, j))
  {
    EntriesAreUnresolved(events, l);
    var id := RunRequests(events).ongoing[l];
    if RunRequests(events).all[id].promise.sets != [] {
      var n, j := EntryTimedOut(events, id);
    }
    if n: nat, j: nat :| n < j && TimedOutAt(events, id, n) && InsertedAt(events, id, j) {
      TimedOutIsDrained(events, id, n);
    }
  }

  lemma InsertedBy(events: seq<RequestEvent>, id: nat, j: nat, n: nat)
    requires InsertedAt(events, id, j) && j < n <= |events|
    ensures id < |RunRequests(events[..n]).all| && RunRequests(events[..n]).all[id].inserted
  {
    RequestsOn(events[..j], events[j]);
    assert events[..j] + [events[j]] == events[..j + 1] == events[..n][..j + 1];
    InsertedForGood(events[..n], j + 1, id);
  }

  /** The one event that can resolve a request with keys. */
  lemma ValueStep(r: Requests, e: RequestEvent, id: nat, keys: PmidAndSigner)
    requires RequestsInv(r) && id < |StepRequests(r, e).all|
    requires StepRequests(r, e).all[id].promise.sets == [Value(keys)]
    ensures id < |r.all| && StepRequests(r, e).all[id].vaultLabel == r.all[id].vaultLabel
    ensures r.all[id].promise.sets == [Value(keys)] || e == VaultRunningResponse(r.all[id].vaultLabel, Value(keys))
  {
    assert id < |r.all| ==> r.all[id].promise.Sound();
    assert StepRequests(r, e).all[id].promise.sets[0] == Value(keys);
  }

  /** A request comes back with keys only if a response for its own label brought them. */
  lemma {:induction false} ValueWasAnswered(events: seq<RequestEvent>, id: nat, keys: PmidAndSigner) returns (n: nat)
    requires id < |RunRequests(events).all| && RunRequests(events).all[id].promise.sets == [Value(keys)]
    ensures n < |events|
    ensures events[n] == VaultRunningResponse(RunRequests(events).all[id].vaultLabel, Value(keys))
    decreases |events|
  {
    var before := events[..|events| - 1];
    RunRequestsInv(before);
    ValueStep(RunRequests(before), events[|events| - 1], id, keys);
    if RunRequests(before).all[id].promise.sets == [Value(keys)] {
      n := ValueWasAnswered(before, id, keys);
    } else {
      n := |events| - 1;
    }
  }

  /** The request was inserted, but the map does not have it. */
  predicate Unlisted(r: Requests, id: nat) {
    id < |r.all| && r.all[id].inserted && !Listed(r, id)
  }

  predicate EndedByTimer(before: seq<Outcome<PmidAndSigner>>, after: seq<Outcome<PmidAndSigner>>) {
    before == [] && |after| == 1 && after[0].Exception?
  }

  lemma UnlistedStep(r: Requests, e: RequestEvent, id: nat)
    requires RequestsInv(r) && Unlisted(r, id)
    ensures var r' := StepRequests(r, e);
            && Unlisted(r', id)
            && var before, after := r.all[id].promise.sets, r'.all[id].promise.sets;
               after == before || EndedByTimer(before, after)
  {
    assert r.all[id].promise.Sound();
  }

  /** A request that is not in the map, because its label was taken or because another
      request's timer erased it, never gets there: it ends by its own timer. */
  lemma {:induction false} UnlistedTimesOut(events: seq<RequestEvent>, more: seq<RequestEvent>, id: nat)
    requires Unlisted(RunRequests(events), id)
    ensures Unlisted(RunRequests(events + more), id)
    ensures var before := RunRequests(events).all[id].promise.sets;
            var after := RunRequests(events + more).all[id].promise.sets;
            after == before || EndedByTimer(before, after)
    decreases |more|
  {
    if more == [] {
      assert events + more == events;
    } else {
      var init, e := more[..|more| - 1], more[|more| - 1];
      UnlistedTimesOut(events, init, id);
      assert (events + more)[..|events + more| - 1] == events + init;
      RunRequestsInv(events + init);
      UnlistedStep(RunRequests(events + init), e, id);
    }
  }

  // ------------------------------------------------------------------ the class

  class ClientInterface {
    var requests: seq<Request>
    var ongoingVaultRequests: map<string, nat>

    constructor ()
      ensures State() == NO_REQUESTS
    {
      requests, ongoingVaultRequests := [], map[];
    }

    function State(): Requests
      reads this
    {
      Requests(requests, ongoingVaultRequests)
    }

    /** The first half of AddVaultRequest: the promise, and the wait on its timer. */
    method BeginRequest(vaultLabel: string) returns (id: nat)
      modifies this
      ensures id == |old(requests)| && State() == Begun(old(State()), vaultLabel)
    {
      id := |requests|;
      requests := requests + [Request(vaultLabel, Promise([], false, Waiting), false)];
    }

    /** The second half, under the lock. */
    method InsertRequest(id: nat)
      requires id < |requests| && !requests[id].inserted
      modifies this
      ensures State() == Inserted(old(State()), id)
    {
      var vaultLabel := requests[id].vaultLabel;
      requests := requests[id := requests[id].(inserted := true)];
      if vaultLabel !in ongoingVaultRequests {
        ongoingVaultRequests := ongoingVaultRequests[vaultLabel := id];
      }
    }

    /** Both halves with nothing between them. */
    method AddVaultRequest(vaultLabel: string) returns (id: nat)
      modifies this
      ensures id == |old(requests)| && State() == Inserted(Begun(old(State()), vaultLabel), id)
    {
      id := BeginRequest(vaultLabel);
      InsertRequest(id);
    }

    method HandleVaultRunningResponse(vaultLabel: string, outcome: Outcome<PmidAndSigner>)
      requires RequestsInv(State())
      modifies this
      ensures State() == Answered(old(State()), vaultLabel, outcome)
    {
      if vaultLabel in ongoingVaultRequests {
        var id := ongoingVaultRequests[vaultLabel];
        requests := requests[id := requests[id].(promise := requests[id].promise.Set(outcome))];
        requests := requests[id := requests[id].(promise :=
          requests[id].promise.(timer := requests[id].promise.timer.Cancel()))];
        ongoingVaultRequests := ongoingVaultRequests - {vaultLabel};
      }
    }

    method TimerFires(id: nat, error: Option<int>)
      modifies this
      ensures State() == TimerFired(old(State()), id, error)
    {
      if id < |requests| && requests[id].promise.timer.Waiting? {
        requests := requests[id := requests[id].(promise :=
          requests[id].promise.(timer := if error.Some? then Errored(error.value) else Expired))];
      }
    }

    method RunHandler(id: nat)
      modifies this
      ensures State() == TimerHandled(old(State()), id)
    {
      if id >= |requests| {
        return;
      }
      var timer := requests[id].promise.timer;
      if timer.Idle? || timer.Waiting? || timer.Drained? {
        return;
      }
      var promise := requests[id].promise.(timer := Drained);
      if timer.Expired? {
        promise := promise.Set(Exception(TimedOut));
      } else if timer.Errored? {
        promise := promise.Set(Exception(TimerError(timer.code)));
      }
      requests := requests[id := requests[id].(promise := promise)];
      if !timer.Aborted? {
        ongoingVaultRequests := ongoingVaultRequests - {requests[id].vaultLabel};
      }
    }
  }
}
