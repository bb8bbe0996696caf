/** rpc_helper.h: promises that resolve once, their timers, and the chain of response
    callbacks that SetResponseCallback builds by capturing the previous callback.

    The chain of closures is the list of the promises it captured, newest first.  The
    io thread runs responses and timer handlers one at a time; a registration made on
    another thread falls between them, and may be half done: the callback set and the
    timer not yet waited on. */
module Rpc {
  import opened VaultTypes

  /** What a promise is resolved with. */
  datatype Outcome<+V> = Value(value: V) | Exception(error: RpcError)

  datatype RpcError = TimedOut | TimerError(code: int) | Thrown(what: string)

  /** An asio timer: set but not waited on; waited on; its handler queued, with success
      or an error or as aborted; its handler run.  Cancelling reaches a waiting timer
      only. */
  datatype Timer = Idle | Waiting | Expired | Errored(code: int) | Aborted | Drained {
    function Cancel(): Timer {
      if Waiting? then Aborted else this
    }

    /** Its handler will run, or has run, as other than aborted. */
    predicate Live() {
      !Aborted? && !Drained?
    }
  }

  /** PromiseAndTimer.  `sets` lists every set_value and set_exception that got through
      to the std::promise: a second one would throw. */
  datatype Promise<V> = Promise(sets: seq<Outcome<V>>, once: bool, timer: Timer) {
    /** std::call_once */
    function Set(o: Outcome<V>): Promise<V> {
      if once then this else this.(sets := sets + [o], once := true)
    }

    predicate Resolved() {
      sets != []
    }

    /** Resolved at most once, and not for good unresolved. */
    predicate Sound() {
      && |sets| <= 1
      && (once <==> Resolved())
      && (!Resolved() ==> timer.Live())
    }
  }

  /** `callback` is None for an empty std::function; `cleared` counts the promises that
      were registered before it was last emptied. */
  datatype Helper<V> = Helper(promises: seq<Promise<V>>, callback: Option<seq<nat>>, cleared: nat)

  /** The callback as the first promise is about to be registered. */
  function Initial<V>(): Helper<V> {
    Helper([], None, 0)
  }

  datatype Event<V> =
    | Register
    | Wait(p: nat)
    | Response(outcome: Outcome<V>)
    | TimerFires(p: nat, error: Option<int>)
    | HandlerRuns(p: nat)

  /** SetResponseCallback up to the end of its lock. */
  function Registered<V>(h: Helper<V>): Helper<V> {
    var chain := if h.callback.Some? then h.callback.value else [];
    h.(promises := h.promises + [Promise([], false, Idle)], callback := Some([|h.promises|] + chain))
  }

  /** ... and its async_wait. */
  function WaitedOn<V>(h: Helper<V>, p: nat): Helper<V> {
    if p < |h.promises| && h.promises[p].timer.Idle?
    then h.(promises := h.promises[p := h.promises[p].(timer := Waiting)])
    else h
  }

  /** The closure of the newest promise sets it, calls the one it captured, and then
      cancels its own timer. */
  function Invoke<V>(promises: seq<Promise<V>>, chain: seq<nat>, o: Outcome<V>): (r: seq<Promise<V>>)
    ensures |r| == |promises|
    decreases |chain|
  {
    if chain == [] then promises else
      var p := chain[0];
      var resolved := if p < |promises| then promises[p := promises[p].Set(o)] else promises;
      var rest := Invoke(resolved, chain[1..], o);
      if p < |rest| then rest[p := rest[p].(timer := rest[p].timer.Cancel())] else rest
  }

  function Responded<V>(h: Helper<V>, o: Outcome<V>): Helper<V> {
    if h.callback.None? then h else h.(promises := Invoke(h.promises, h.callback.value, o))
  }

  function Fired<V>(h: Helper<V>, p: nat, error: Option<int>): Helper<V> {
    if p < |h.promises| && h.promises[p].timer.Waiting?
    then h.(promises := h.promises[p := h.promises[p].(timer := if error.Some? then Errored(error.value) else Expired)])
    else h
  }

  /** The timer handler: it empties the callback, whoever registered it since. */
  function Handled<V>(h: Helper<V>, p: nat): Helper<V> {
    if p >= |h.promises| then h else
      match h.promises[p].timer
      case Aborted => h.(promises := h.promises[p := h.promises[p].(timer := Drained)])
      case Expired =>
        h.(promises := h.promises[p := h.promises[p].(timer := Drained).Set(Exception(TimedOut))],
           callback := None, cleared := |h.promises|)
      case Errored(code) =>
        h.(promises := h.promises[p := h.promises[p].(timer := Drained).Set(Exception(TimerError(code)))],
           callback := None, cleared := |h.promises|)
      case _ => h
  }

  function Step<V>(h: Helper<V>, e: Event<V>): Helper<V> {
    match e
    case Register => Registered(h)
    case Wait(p) => WaitedOn(h, p)
    case Response(o) => Responded(h, o)
    case TimerFires(p, error) => Fired(h, p, error)
    case HandlerRuns(p) => Handled(h, p)
  }

  function Run<V>(events: seq<Event<V>>): Helper<V>
    decreases |events|
  {
    if events == [] then Initial() else Step(Run(events[..|events| - 1]), events[|events| - 1])
  }

  // ------------------------------------------------------------------- chains

  /** The promises registered since the callback was last empty, newest first. */
  function Countdown(lo: nat, hi: nat): (r: seq<nat>)
    requires lo <= hi
    ensures |r| == hi - lo
    ensures forall i :: 0 <= i < |r| ==> r[i] == hi - 1 - i
    decreases hi
  {
    if lo == hi then [] else [hi - 1] + Countdown(lo, hi - 1)
  }

  /** One pass over the chain sets every promise in it, with the one outcome, cancels
      their timers, and leaves all others alone. */
  lemma {:induction false} InvokeSetsAll<V>(promises: seq<Promise<V>>, lo: nat, hi: nat, o: Outcome<V>)
    requires lo <= hi <= |promises|
    ensures var r := Invoke(promises, Countdown(lo, hi), o);
            forall p :: 0 <= p < |promises| ==>
              r[p] == if lo <= p < hi then promises[p].Set(o).(timer := promises[p].timer.Cancel()) else promises[p]
    decreases hi
  {
    if lo < hi {
      var p := hi - 1;
      assert Countdown(lo, hi)[1..] == Countdown(lo, hi - 1);
      InvokeSetsAll(promises[p := promises[p].Set(o)], lo, hi - 1, o);
    }
  }

  predicate HelperInv<V>(h: Helper<V>) {
    && (forall p :: 0 <= p < |h.promises| ==> h.promises[p].Sound())
    && h.cleared <= |h.promises|
    && h.callback == if h.cleared == |h.promises| then None else Some(Countdown(h.cleared, |h.promises|))
  }

  lemma RegisteredKeeps<V>(h: Helper<V>)
    requires HelperInv(h)
    ensures HelperInv(Registered(h))
  {
    assert Countdown(h.cleared, |h.promises| + 1)
        == [|h.promises|] + (if h.callback.Some? then h.callback.value else []);
  }

  lemma RespondedKeeps<V>(h: Helper<V>, o: Outcome<V>)
    requires HelperInv(h)
    ensures HelperInv(Responded(h, o))
  {
    if h.callback.Some? {
      InvokeSetsAll(h.promises, h.cleared, |h.promises|, o);
    }
  }

  lemma StepKeeps<V>(h: Helper<V>, e: Event<V>)
    requires HelperInv(h)
    ensures HelperInv(Step(h, e))
  {
    match e
    case Register => RegisteredKeeps(h);
    case Response(o) => RespondedKeeps(h, o);
    case _ =>
  }

  lemma {:induction false} RunInv<V>(events: seq<Event<V>>)
    ensures HelperInv(Run(events))
    decreases |events|
  {
    if events != [] {
      RunInv(events[..|events| - 1]);
      StepKeeps(Run(events[..|events| - 1]), events[|events| - 1]);
    }
  }

  // --------------------------------------------------------------- main results

  /** Under any interleaving a promise is resolved at most once, one that is not has a
      timer that was not cancelled, and one whose timer has drained is resolved. */
  lemma PromisesResolveOnce<V>(events: seq<Event<V>>, p: nat)
    requires p < |Run(events).promises|
    ensures var promise := Run(events).promises[p];
            && |promise.sets| <= 1
            && (promise.sets == [] ==>
                  || promise.timer.Idle? || promise.timer.Waiting?
                  || promise.timer.Expired? || promise.timer.Errored?)
            && (promise.timer.Drained? || promise.timer.Aborted? ==> |promise.sets| == 1)
  {
    RunInv(events);
    assert Run(events).promises[p].Sound();
  }

  /** A promise that is registered is unresolved, with a timer not waited on yet, and comes
      before the chain that was there; no other changes. */
  lemma RegisterExact<V>(h: Helper<V>)
    ensures var after := Step(h, Register);
            && after.promises == h.promises + [Promise([], false, Idle)]
            && after.callback == Some([|h.promises|] + if h.callback.Some? then h.callback.value else [])
            && after.cleared == h.cleared
  {
  }

  /** One promise changes, the callback does not. */
  ghost predicate OnePromise<V>(h: Helper<V>, after: Helper<V>, p: nat, promise: Promise<V>)
    requires p < |h.promises|
  {
    after == h.(promises := h.promises[p := promise])
  }

  /** Waiting on a timer sets it, once; a timer that is set may run out, with or without an
      error; nothing else changes it but a cancellation. */
  lemma TimerExact<V>(h: Helper<V>, p: nat, error: Option<int>)
    requires p < |h.promises|
    ensures var promise := h.promises[p];
            && OnePromise(h, Step(h, Wait(p)), p,
                          if promise.timer == Idle then promise.(timer := Waiting) else promise)
            && OnePromise(h, Step(h, TimerFires(p, error)), p,
                          if promise.timer != Waiting then promise
                          else if error.Some? then promise.(timer := Errored(error.value))
                          else promise.(timer := Expired))
  {
  }

  /** In every reachable state a timer's handler resolves its promise, if that is not yet,
      as timed out or with the timer's error, and empties the callback: every promise
      registered by then is stranded, and a response has no effect.  An aborted one does
      nothing, and one that is not queued is none. */
  lemma HandlerExact<V>(events: seq<Event<V>>, p: nat, o: Outcome<V>)
    requires p < |Run(events).promises|
    ensures var h := Run(events); var promise := h.promises[p]; var after := Step(h, HandlerRuns(p));
            match promise.timer
            case Aborted => OnePromise(h, after, p, promise.(timer := Drained))
            case Expired =>
              && Emptied(h, after, p, Exception(TimedOut))
              && Step(after, Response(o)) == after
            case Errored(code) =>
              && Emptied(h, after, p, Exception(TimerError(code)))
              && Step(after, Response(o)) == after
            case _ => after == h
  {
    RunInv(events);
    assert Run(events).promises[p].Sound();
  }

  /** The callback is empty, the promise has its timer drained and is resolved, if it was not
      before, with the exception; the others are as they were, and all are stranded. */
  ghost predicate Emptied<V>(h: Helper<V>, after: Helper<V>, p: nat, exception: Outcome<V>)
    requires p < |h.promises|
  {
    && after.callback == None
    && |after.promises| == |h.promises|
    && after.promises[p].timer == Drained
    && after.promises[p].sets == (if h.promises[p].sets == [] then [exception] else h.promises[p].sets)
    && (forall q :: 0 <= q < |h.promises| && q != p ==> after.promises[q] == h.promises[q])
    && (forall q: nat :: q < |h.promises| ==> Stranded(after, q))
  }

  /** The handler of an unresolved promise's timer, when it runs, resolves it. */
  lemma TimerResolves<V>(events: seq<Event<V>>, p: nat)
    requires p < |Run(events).promises| && Run(events).promises[p].sets == []
    requires Run(events).promises[p].timer.Expired? || Run(events).promises[p].timer.Errored?
    ensures var after := Step(Run(events), HandlerRuns(p)).promises[p];
            after.timer.Drained? && |after.sets| == 1 && after.sets[0].Exception?
  {
    HandlerExact(events, p, Exception(TimedOut));
  }

  /** A promise that is registered and waited on, and not answered, ends by its timer. */
  lemma WaitedTimesOut<V>(events: seq<Event<V>>, p: nat, error: Option<int>)
    requires p < |Run(events).promises| && Run(events).promises[p].sets == [] && Run(events).promises[p].timer == Idle
    ensures var after := Step(Step(Step(Run(events), Wait(p)), TimerFires(p, error)), HandlerRuns(p));
            after.promises[p].sets == [Exception(if error.Some? then TimerError(error.value) else TimedOut)]
  {
    RunInv(events);
    assert Run(events).promises[p].Sound();
  }

  /** One response resolves every promise registered since the callback was last
      emptied that is not resolved yet, all with the same outcome, cancels the timers
      of all of them, and touches no other promise. */
  lemma ResponseResolvesChain<V>(events: seq<Event<V>>, o: Outcome<V>, p: nat)
    requires p < |Run(events).promises|
    ensures var h := Run(events); var after := Step(h, Response(o)).promises[p];
            && |Step(h, Response(o)).promises| == |h.promises|
            && (p < h.cleared ==> after == h.promises[p])
            && (p >= h.cleared ==>
                  && after.sets == (if h.promises[p].sets == [] then [o] else h.promises[p].sets)
                  && after.timer == (if h.promises[p].timer == Waiting then Aborted else h.promises[p].timer))
            && Step(h, Response(o)).callback == h.callback && Step(h, Response(o)).cleared == h.cleared
  {
    var h := Run(events);
    RunInv(events);
    assert h.promises[p].Sound();
    InvokeSetsAll(h.promises, h.cleared, |h.promises|, o);
  }

  /** The promise was registered before the callback was last emptied. */
  predicate Stranded<V>(h: Helper<V>, p: nat) {
    p < h.cleared && p < |h.promises|
  }

  /** Nothing, or the exception of a timer. */
  ghost predicate EndsByTimer<V>(before: seq<Outcome<V>>, after: seq<Outcome<V>>) {
    after == before || (before == [] && |after| == 1 && after[0].Exception?)
  }

  lemma StrandedStep<V>(h: Helper<V>, e: Event<V>, p: nat)
    requires HelperInv(h) && Stranded(h, p)
    ensures Stranded(Step(h, e), p) && EndsByTimer(h.promises[p].sets, Step(h, e).promises[p].sets)
  {
    assert h.promises[p].Sound();
    if e.Response? && h.callback.Some? {
      InvokeSetsAll(h.promises, h.cleared, |h.promises|, e.outcome);
    }
  }

  lemma RunOn<V>(events: seq<Event<V>>, e: Event<V>)
    ensures Run(events + [e]) == Step(Run(events), e)
  {
    assert (events + [e])[..|events|] == events;
  }

  lemma StrandedOn<V>(events: seq<Event<V>>, e: Event<V>, p: nat)
    requires Stranded(Run(events), p)
    ensures Stranded(Run(events + [e]), p)
    ensures EndsByTimer(Run(events).promises[p].sets, Run(events + [e]).promises[p].sets)
  {
    RunInv(events);
    StrandedStep(Run(events), e, p);
    RunOn(events, e);
  }

  lemma EndsOnce<V>(a: seq<Outcome<V>>, b: seq<Outcome<V>>, c: seq<Outcome<V>>)
    requires EndsByTimer(a, b) && EndsByTimer(b, c)
    ensures EndsByTimer(a, c)
  {
  }

  /** A timer handler that is not aborted strands every promise registered by then: no
      later response reaches them, and those unresolved end by their own timers. */
  lemma {:induction false} ClearedIsForGood<V>(events: seq<Event<V>>, more: seq<Event<V>>, p: nat)
    requires Stranded(Run(events), p)
    ensures Stranded(Run(events + more), p)
    ensures EndsByTimer(Run(events).promises[p].sets, Run(events + more).promises[p].sets)
    decreases |more|
  {
    if more == [] {
      assert events + more == events;
    } else {
      StrandedOn(events, more[0], p);
      ClearedIsForGood(events + [more[0]], more[1..], p);
      assert events + [more[0]] + more[1..] == events + more;
      EndsOnce(Run(events).promises[p].sets, Run(events + [more[0]]).promises[p].sets,
               Run(events + more).promises[p].sets);
    }
  }

  /** ... so a handler that runs, its timer having run out or failed, strands all: over any
      further run none of the promises registered by then gets a value. */
  lemma HandlerStrands<V>(events: seq<Event<V>>, p: nat, more: seq<Event<V>>, q: nat)
    requires p < |Run(events).promises| && q < |Run(events).promises|
    requires Run(events).promises[p].timer.Expired? || Run(events).promises[p].timer.Errored?
    ensures var now := events + [HandlerRuns(p)];
            && q < |Run(now).promises| && q < |Run(now + more).promises|
            && EndsByTimer(Run(now).promises[q].sets, Run(now + more).promises[q].sets)
  {
    HandlerExact(events, p, Exception(TimedOut));
    RunOn(events, HandlerRuns(p));
    assert Stranded(Run(events + [HandlerRuns(p)]), q);
    ClearedIsForGood(events + [HandlerRuns(p)], more, q);
  }

  // ------------------------------------------------------------------ the class

  /** The callback variable of the caller, and the promises that refer to it. */
  class ResponseCallback<V(!new)> {
    var promises: seq<Promise<V>>
    var callback: Option<seq<nat>>
    ghost var cleared: nat

    constructor ()
      ensures State() == Initial()
    {
      promises, callback, cleared := [], None, 0;
    }

    ghost function State(): Helper<V>
      reads this
    {
      Helper(promises, callback, cleared)
    }

    method SetResponseCallback() returns (p: nat)
      modifies this
      ensures p == |old(promises)|
      ensures State() == Registered(old(State()))
    {
      p := |promises|;
      promises := promises + [Promise([], false, Idle)];
      var callbackCopy := callback;
      callback := Some([p] + if callbackCopy.Some? then callbackCopy.value else []);
    }

    method AsyncWait(p: nat)
      modifies this
      ensures State() == WaitedOn(old(State()), p)
    {
      if p < |promises| && promises[p].timer.Idle? {
        promises := promises[p := promises[p].(timer := Waiting)];
      }
    }

    /** The closure at the head of the chain; the captured one is the rest. */
    method InvokeClosure(chain: seq<nat>, o: Outcome<V>)
      modifies this`promises
      ensures promises == Invoke(old(promises), chain, o)
      decreases |chain|
    {
      if chain == [] {
        return;
      }
      var p := chain[0];
      if p < |promises| {
        promises := promises[p := promises[p].Set(o)];
      }
      InvokeClosure(chain[1..], o);
      if p < |promises| {
        promises := promises[p := promises[p].(timer := promises[p].timer.Cancel())];
      }
    }

    method InvokeCallBack(o: Outcome<V>)
      modifies this
      ensures State() == Responded(old(State()), o)
    {
      if callback.Some? {
        InvokeClosure(callback.value, o);
      }
    }

    method TimerFires(p: nat, error: Option<int>)
      modifies this
      ensures State() == Fired(old(State()), p, error)
    {
      if p < |promises| && promises[p].timer.Waiting? {
        promises := promises[p := promises[p].(timer := if error.Some? then Errored(error.value) else Expired)];
      }
    }

    method RunHandler(p: nat)
      modifies this
      ensures State() == Handled(old(State()), p)
    {
      if p >= |promises| {
        return;
      }
      var timer := promises[p].timer;
      if timer.Idle? || timer.Waiting? || timer.Drained? {
        return;
      }
      promises := promises[p := promises[p].(timer := Drained)];
      if timer.Aborted? {
        return;
      }
      callback := None;
      cleared := |promises|;
      if timer.Errored? {
        promises := promises[p := promises[p].Set(Exception(TimerError(timer.code)))];
      } else {
        promises := promises[p := promises[p].Set(Exception(TimedOut))];
      }
    }
  }
}
