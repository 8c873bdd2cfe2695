/** One queue-draining lane (`QueueProcessor`): it pops items from the tail of a
    shared work list, starts one request per item, classifies how the request
    settled, keeps a success/error tally and, once the list is empty, joins on
    every request it started.

    The asynchronous request is replaced by its settlement, supplied by the
    caller; the callbacks `onSuccess`, `onError` and `onComplete` become
    `Event` values. The self-recursive `process` becomes a spec function
    `Drain` (one `StepSpec` per call of `process`) and a class whose `Advance`
    method runs one call and whose `Process` method loops until the lane stops. */
module QueueProcessing {
  import opened JsValues

  /** A resolved response body after `JSON.parse`. Values nested in an object
      collapse to `Compound`. */
  datatype Body =
    | Malformed                               // JSON.parse throws a SyntaxError
    | JsonObject(fields: map<string, Value>)  // a JSON object
    | JsonScalar(v: Value)                    // any other JSON text: null, a boolean, number, string or array

  /** How the request started on one item settles. */
  datatype Settlement = Resolved(body: Body) | Rejected(reason: string)

  /** What reaches `onError` on the path that carries no item. */
  datatype Reason = Rejection(why: string) | HandlerThrew

  /** The branch the lane's `then`/`catch` handlers take for one settlement. */
  datatype Verdict = Succeeded(result: Body) | Failed(result: Body) | Threw(reason: Reason)

  datatype Counts = Counts(success: nat, error: nat)

  /** An entry of `requests`: the item the request was started on and how it settles. */
  datatype Request = Request(item: Value, settlement: Settlement)

  /** A callback invocation. */
  datatype Event =
    | OnSuccess(result: Body, item: Value)     // onSuccess(result, item)
    | OnError(result: Body, item: Value)       // onError(result, item)
    | OnErrorNoItem(reason: Reason)            // onError(error)
    | OnComplete(name: string, counts: Counts) // onComplete(this)

  /** Everything one call of `process` reads and writes. */
  datatype LaneState = LaneState(queue: seq<Value>, requests: seq<Request>, counts: Counts)

  /** How one call of `process` ends: it popped a falsy item and returned, it
      handled an item and recursed, or it found the queue empty and joined. */
  datatype StepResult = Stopped(item: Value) | Processed(item: Value, event: Event) | Finished(event: Event)

  datatype Transition = Transition(next: LaneState, result: StepResult)

  /** Everything a lane does from one call of `process` until it stops recursing. */
  datatype Run = Run(final: LaneState, events: seq<Event>, stopped: bool)

  /** Evaluating `result.hasOwnProperty('error') || result.ok === false` throws:
      the body is not JSON, is `null`, or has its own `hasOwnProperty` key,
      which shadows the method with a value that cannot be called. */
  predicate Throws(b: Body) {
    match b
    case Malformed => true
    case JsonObject(f) => "hasOwnProperty" in f
    case JsonScalar(v) => v == Null || v == Undefined
  }

  /** The structural failure marker: an own `error` key, or `ok` strictly equal to `false`. */
  predicate HasErrorMarker(b: Body) {
    b.JsonObject? && ("error" in b.fields || ("ok" in b.fields && b.fields["ok"] == Bool(false)))
  }

  /** The branch taken for a settlement: three mutually exclusive cases. */
  function Classify(s: Settlement): (v: Verdict)
    ensures v.Succeeded? <==> s.Resolved? && !Throws(s.body) && !HasErrorMarker(s.body)
    ensures v.Failed? <==> s.Resolved? && !Throws(s.body) && HasErrorMarker(s.body)
    ensures v.Threw? <==> s.Rejected? || Throws(s.body)
    ensures s.Rejected? ==> v == Threw(Rejection(s.reason))
    ensures !v.Threw? ==> v.result == s.body
  {
    match s
    case Rejected(why) => Threw(Rejection(why))
    case Resolved(b) =>
      if Throws(b) then Threw(HandlerThrew)
      else if HasErrorMarker(b) then Failed(b)
      else Succeeded(b)
  }

  /** The counter update of a verdict. */
  function Tally(c: Counts, v: Verdict): Counts {
    match v
    case Succeeded(_) => c.(success := c.success + 1)
    case Failed(_) => c
    case Threw(_) => c.(error := c.error + 1)
  }

  /** The callback of a verdict on `item`. */
  function Notify(v: Verdict, item: Value): Event {
    match v
    case Succeeded(b) => OnSuccess(b, item)
    case Failed(b) => OnError(b, item)
    case Threw(r) => OnErrorNoItem(r)
  }

  /** The counts a fresh lane holds after starting `reqs`, in order. */
  function Tallied(reqs: seq<Request>): Counts
    decreases |reqs|
  {
    if reqs == [] then Counts(0, 0)
    else Tally(Tallied(reqs[..|reqs| - 1]), Classify(reqs[|reqs| - 1].settlement))
  }

  /** The number of requests whose payload carried the failure marker. */
  function Reported(reqs: seq<Request>): nat
    decreases |reqs|
  {
    if reqs == [] then 0
    else Reported(reqs[..|reqs| - 1]) + (if Classify(reqs[|reqs| - 1].settlement).Failed? then 1 else 0)
  }

  /** The lane invariant: the counters are the tally of the requests started. */
  predicate TallyMatches(st: LaneState) {
    st.counts == Tallied(st.requests)
  }

  /** Every request lands in exactly one of success, error, or reported-without-counting. */
  lemma {:induction false} TalliedPartition(reqs: seq<Request>)
    ensures Tallied(reqs).success + Tallied(reqs).error + Reported(reqs) == |reqs|
    decreases |reqs|
  {
    if reqs != [] {
      TalliedPartition(reqs[..|reqs| - 1]);
    }
  }

  /** The reason of the first rejected request, in start order: what
      `Promise.all(requests)` rejects with once every request has settled. */
  function FirstRejection(reqs: seq<Request>): (r: Option<string>)
    ensures r.None? <==> forall i :: 0 <= i < |reqs| ==> !reqs[i].settlement.Rejected?
    ensures r.Some? ==> exists i :: 0 <= i < |reqs| && reqs[i].settlement == Rejected(r.value)
                                    && forall j :: 0 <= j < i ==> !reqs[j].settlement.Rejected?
    decreases |reqs|
  {
    if reqs == [] then None
    else if reqs[0].settlement.Rejected? then Some(reqs[0].settlement.reason)
    else
      var r := FirstRejection(reqs[1..]);
      assert forall i :: 1 <= i < |reqs| ==> reqs[i] == reqs[1..][i - 1];
      r
  }

  /** The final join: `onComplete(this)` when every request resolved, otherwise
      `onError` with the first rejection. */
  function Join(name: string, reqs: seq<Request>, counts: Counts): (e: Event)
    ensures e.OnComplete? <==> forall i :: 0 <= i < |reqs| ==> !reqs[i].settlement.Rejected?
    ensures e.OnComplete? ==> e == OnComplete(name, counts)
    ensures !e.OnComplete? ==> FirstRejection(reqs).Some?
                               && e == OnErrorNoItem(Rejection(FirstRejection(reqs).value))
  {
    match FirstRejection(reqs)
    case Some(why) => OnErrorNoItem(Rejection(why))
    case None => OnComplete(name, counts)
  }

  /** One call of `process`, given how the request it may start settles:
      it pops the last item whenever the queue is non-empty, and joins only
      on an empty queue. */
  function StepSpec(name: string, st: LaneState, s: Settlement): (t: Transition)
    ensures t.result.Finished? <==> |st.queue| == 0
    ensures !t.result.Finished? ==> t.next.queue == st.queue[..|st.queue| - 1]
  {
    if |st.queue| == 0 then
      Transition(st, Finished(Join(name, st.requests, st.counts)))
    else
      var item := st.queue[|st.queue| - 1];
      var rest := st.queue[..|st.queue| - 1];
      if !Truthy(item) then
        Transition(st.(queue := rest), Stopped(item))
      else
        var v := Classify(s);
        Transition(LaneState(rest, st.requests + [Request(item, s)], Tally(st.counts, v)), Processed(item, Notify(v, item)))
  }

  /** The three outcomes of one call of `process`: on an empty queue it
      joins and changes nothing; otherwise it removes exactly the last item,
      and on a falsy item it returns with requests and counts untouched, while
      on a truthy one it records one request and fires that request's callback. */
  lemma StepCases(name: string, st: LaneState, s: Settlement)
    ensures var t := StepSpec(name, st, s);
      && (|st.queue| == 0 ==> t == Transition(st, Finished(Join(name, st.requests, st.counts))))
      && (|st.queue| > 0 ==> t.result.item == st.queue[|st.queue| - 1])
      && (|st.queue| > 0 && !Truthy(st.queue[|st.queue| - 1]) ==>
            t.result.Stopped? && t.next.requests == st.requests && t.next.counts == st.counts)
      && (|st.queue| > 0 && Truthy(st.queue[|st.queue| - 1]) ==>
            t.result == Processed(t.result.item, Notify(Classify(s), t.result.item))
            && t.next.requests == st.requests + [Request(t.result.item, s)]
            && t.next.counts == Tally(st.counts, Classify(s)))
  {
  }

  /** One call of `process` keeps the counters equal to the tally of the
      requests, and never decreases either counter. */
  lemma StepKeepsTally(name: string, st: LaneState, s: Settlement)
    ensures var t := StepSpec(name, st, s);
      && (TallyMatches(st) ==> TallyMatches(t.next))
      && st.counts.success <= t.next.counts.success
      && st.counts.error <= t.next.counts.error
  {
    var t := StepSpec(name, st, s);
    if t.result.Processed? {
      assert t.next.requests[..|t.next.requests| - 1] == st.requests;
    }
  }

  /** `Prefixed(es, r)` is `r` with the events `es` emitted before it. */
  function Prefixed(es: seq<Event>, r: Run): Run {
    Run(r.final, es + r.events, r.stopped)
  }

  /** Everything one lane does from a call of `process` on: one step after
      another, the k-th request it starts settling as `oracle(k)`. */
  function Drain(name: string, st: LaneState, oracle: nat -> Settlement): (r: Run)
    decreases |st.queue|
  {
    var t := StepSpec(name, st, oracle(|st.requests|));
    match t.result
    case Stopped(_) => Run(t.next, [], true)
    case Finished(e) => Run(t.next, [e], false)
    case Processed(_, e) => Prefixed([e], Drain(name, t.next, oracle))
  }

  /** One unfolding of `Drain`. */
  lemma DrainUnfold(name: string, st: LaneState, oracle: nat -> Settlement)
    ensures var t := StepSpec(name, st, oracle(|st.requests|));
      Drain(name, st, oracle) == match t.result
        case Stopped(_) => Run(t.next, [], true)
        case Finished(e) => Run(t.next, [e], false)
        case Processed(_, e) => Prefixed([e], Drain(name, t.next, oracle))
  {
  }

  /** The queue only shrinks, and only from the tail; it ends empty unless the
      lane stopped on a falsy item; `requests` only grows at the end; and a
      lane that did not stop ends with the join. */
  lemma {:induction false} DrainShrinksQueue(name: string, st: LaneState, oracle: nat -> Settlement)
    ensures var r := Drain(name, st, oracle);
      && r.final.queue <= st.queue
      && (r.stopped || r.final.queue == [])
      && st.requests <= r.final.requests
      && (!r.stopped ==> |r.events| >= 1
                         && r.events[|r.events| - 1] == Join(name, r.final.requests, r.final.counts))
    decreases |st.queue|
  {
    var t := StepSpec(name, st, oracle(|st.requests|));
    DrainUnfold(name, st, oracle);
    StepCases(name, st, oracle(|st.requests|));
    if t.result.Processed? {
      DrainShrinksQueue(name, t.next, oracle);
    }
  }

  /** Counters never decrease while a lane drains, and they stay the tally of
      the requests started. */
  lemma {:induction false} DrainKeepsTally(name: string, st: LaneState, oracle: nat -> Settlement)
    ensures var r := Drain(name, st, oracle);
      && (TallyMatches(st) ==> TallyMatches(r.final))
      && st.counts.success <= r.final.counts.success
      && st.counts.error <= r.final.counts.error
    decreases |st.queue|
  {
    var t := StepSpec(name, st, oracle(|st.requests|));
    DrainUnfold(name, st, oracle);
    StepKeepsTally(name, st, oracle(|st.requests|));
    if t.result.Processed? {
      DrainKeepsTally(name, t.next, oracle);
    }
  }

  /** The requests a lane starts on `queue` when it handles every item: tail
      first, the first of them settling as `oracle(k)`. */
  function TailFirst(queue: seq<Value>, k: nat, oracle: nat -> Settlement): (reqs: seq<Request>)
    ensures |reqs| == |queue|
    decreases |queue|
  {
    if queue == [] then []
    else [Request(queue[|queue| - 1], oracle(k))] + TailFirst(queue[..|queue| - 1], k + 1, oracle)
  }

  /** The i-th request started is on the i-th item from the tail and settles as `oracle(k + i)`. */
  lemma {:induction false} TailFirstAt(queue: seq<Value>, k: nat, oracle: nat -> Settlement, i: nat)
    requires i < |queue|
    ensures TailFirst(queue, k, oracle)[i] == Request(queue[|queue| - 1 - i], oracle(k + i))
    decreases |queue|
  {
    if i > 0 {
      TailFirstAt(queue[..|queue| - 1], k + 1, oracle, i - 1);
    }
  }

  /** The callbacks fired for `reqs`, in order. */
  function Notices(reqs: seq<Request>): (es: seq<Event>)
    ensures |es| == |reqs|
    decreases |reqs|
  {
    if reqs == [] then []
    else [Notify(Classify(reqs[0].settlement), reqs[0].item)] + Notices(reqs[1..])
  }

  lemma {:induction false} NoticesAt(reqs: seq<Request>, i: nat)
    requires i < |reqs|
    ensures Notices(reqs)[i] == Notify(Classify(reqs[i].settlement), reqs[i].item)
    decreases |reqs|
  {
    if i > 0 {
      NoticesAt(reqs[1..], i - 1);
    }
  }

  /** Every item truthy: the lane handles the whole queue tail first, recording
      one request per item, and ends with an empty queue and no early stop. */
  lemma {:induction false} DrainAllTruthy(name: string, st: LaneState, oracle: nat -> Settlement)
    requires forall k :: 0 <= k < |st.queue| ==> Truthy(st.queue[k])
    ensures var r := Drain(name, st, oracle);
      && !r.stopped
      && r.final.queue == []
      && r.final.requests == st.requests + TailFirst(st.queue, |st.requests|, oracle)
    decreases |st.queue|
  {
    DrainUnfold(name, st, oracle);
    StepCases(name, st, oracle(|st.requests|));
    if |st.queue| > 0 {
      var t := StepSpec(name, st, oracle(|st.requests|));
      DrainAllTruthy(name, t.next, oracle);
      assert st.requests + TailFirst(st.queue, |st.requests|, oracle)
          == t.next.requests + TailFirst(t.next.queue, |t.next.requests|, oracle);
    }
  }

  /** Every item truthy: one callback per item, in the order handled, then the join. */
  lemma {:induction false} DrainAllTruthyEvents(name: string, st: LaneState, oracle: nat -> Settlement)
    requires forall k :: 0 <= k < |st.queue| ==> Truthy(st.queue[k])
    ensures var r := Drain(name, st, oracle);
      r.events == Notices(TailFirst(st.queue, |st.requests|, oracle)) + [Join(name, r.final.requests, r.final.counts)]
    decreases |st.queue|
  {
    DrainUnfold(name, st, oracle);
    StepCases(name, st, oracle(|st.requests|));
    if |st.queue| > 0 {
      var t := StepSpec(name, st, oracle(|st.requests|));
      DrainAllTruthyEvents(name, t.next, oracle);
      var rest := TailFirst(t.next.queue, |t.next.requests|, oracle);
      assert TailFirst(st.queue, |st.requests|, oracle)[1..] == rest;
    }
  }

  /** A falsy item at index k, every item above it truthy: the lane handles
      the items above k, drops the one at k and returns without joining,
      leaving everything below k in the queue. */
  lemma {:induction false} DrainStopsAtFalsy(name: string, st: LaneState, oracle: nat -> Settlement, k: nat)
    requires k < |st.queue| && !Truthy(st.queue[k])
    requires forall j :: k < j < |st.queue| ==> Truthy(st.queue[j])
    ensures var r := Drain(name, st, oracle);
      && r.stopped
      && r.final.queue == st.queue[..k]
      && r.final.requests == st.requests + TailFirst(st.queue[k + 1..], |st.requests|, oracle)
    decreases |st.queue|
  {
    DrainUnfold(name, st, oracle);
    StepCases(name, st, oracle(|st.requests|));
    if k < |st.queue| - 1 {
      var t := StepSpec(name, st, oracle(|st.requests|));
      assert t.next.queue[k] == st.queue[k];
      DrainStopsAtFalsy(name, t.next, oracle, k);
      assert t.next.queue[..k] == st.queue[..k];
      assert t.next.queue[k + 1..] == st.queue[k + 1..][..|st.queue| - k - 2];
      assert st.requests + TailFirst(st.queue[k + 1..], |st.requests|, oracle)
          == t.next.requests + TailFirst(t.next.queue[k + 1..], |t.next.requests|, oracle);
    } else {
      assert st.queue[k + 1..] == [];
    }
  }

  /** The callbacks of a lane that stops at the falsy item at index k: one per
      item above k, and no join. */
  lemma {:induction false} DrainStopsAtFalsyEvents(name: string, st: LaneState, oracle: nat -> Settlement, k: nat)
    requires k < |st.queue| && !Truthy(st.queue[k])
    requires forall j :: k < j < |st.queue| ==> Truthy(st.queue[j])
    ensures Drain(name, st, oracle).events == Notices(TailFirst(st.queue[k + 1..], |st.requests|, oracle))
    decreases |st.queue|
  {
    DrainUnfold(name, st, oracle);
    StepCases(name, st, oracle(|st.requests|));
    if k < |st.queue| - 1 {
      var t := StepSpec(name, st, oracle(|st.requests|));
      assert t.next.queue[k] == st.queue[k];
      DrainStopsAtFalsyEvents(name, t.next, oracle, k);
      assert t.next.queue[k + 1..] == st.queue[k + 1..][..|st.queue| - k - 2];
      var started := TailFirst(st.queue[k + 1..], |st.requests|, oracle);
      assert started[1..] == TailFirst(t.next.queue[k + 1..], |t.next.requests|, oracle);
    } else {
      assert st.queue[k + 1..] == [];
    }
  }

  /** Only the join fires `onComplete`: a lane that stops on a falsy item never does. */
  lemma NoticesNeverComplete(reqs: seq<Request>, i: nat)
    requires i < |reqs|
    ensures !Notices(reqs)[i].OnComplete?
  {
    NoticesAt(reqs, i);
  }

  /** The end of a lane that did not stop early: `onComplete` fires if and
      only if no request it started was rejected. A body that fails to decode
      still counts as resolved here. */
  lemma CompletesIffNoRejection(name: string, st: LaneState, oracle: nat -> Settlement)
    requires !Drain(name, st, oracle).stopped
    ensures var r := Drain(name, st, oracle);
      && |r.events| >= 1
      && (r.events[|r.events| - 1].OnComplete?
          <==> forall i :: 0 <= i < |r.final.requests| ==> !r.final.requests[i].settlement.Rejected?)
  {
    DrainShrinksQueue(name, st, oracle);
  }

  /** A fresh lane on an empty queue reports `onComplete` with counts 0/0 and nothing else. */
  lemma EmptyQueueCompletes(name: string, oracle: nat -> Settlement)
    ensures Drain(name, LaneState([], [], Counts(0, 0)), oracle)
         == Run(LaneState([], [], Counts(0, 0)), [OnComplete(name, Counts(0, 0))], false)
  {
  }

  lemma {:induction false} TalliedAllRejected(reqs: seq<Request>)
    requires forall i :: 0 <= i < |reqs| ==> reqs[i].settlement.Rejected?
    ensures Tallied(reqs) == Counts(0, |reqs|)
    decreases |reqs|
  {
    if reqs != [] {
      TalliedAllRejected(reqs[..|reqs| - 1]);
    }
  }

  /** A fresh lane whose requests all reject, on K > 0 truthy items: error
      count K, success count 0, K + 1 calls of `onError` without item (the
      last from the join), and no `onComplete`. */
  lemma AlwaysRejectingLane(name: string, items: seq<Value>, oracle: nat -> Settlement)
    requires forall k :: 0 <= k < |items| ==> Truthy(items[k])
    requires forall n: nat :: oracle(n).Rejected?
    requires |items| > 0
    ensures var r := Drain(name, LaneState(items, [], Counts(0, 0)), oracle);
      && r.final.counts == Counts(0, |items|)
      && |r.events| == |items| + 1
      && (forall i :: 0 <= i < |r.events| ==> r.events[i].OnErrorNoItem?)
  {
    var st := LaneState(items, [], Counts(0, 0));
    var r := Drain(name, st, oracle);
    var started := TailFirst(items, 0, oracle);
    DrainAllTruthy(name, st, oracle);
    DrainAllTruthyEvents(name, st, oracle);
    DrainKeepsTally(name, st, oracle);
    assert r.final.requests == started;
    forall i | 0 <= i < |started|
      ensures started[i].settlement.Rejected? && Notices(started)[i].OnErrorNoItem?
    {
      TailFirstAt(items, 0, oracle, i);
      NoticesAt(started, i);
    }
    TalliedAllRejected(started);
    assert !Join(name, r.final.requests, r.final.counts).OnComplete?;
  }

  /** The work list the lanes of one batch share by reference. */
  class WorkQueue {
    var items: seq<Value>

    constructor (items: seq<Value>)
      ensures this.items == items
    {
      this.items := items;
    }
  }

  class QueueProcessor {
    const queue: WorkQueue
    const name: string
    var requests: seq<Request>
    var counts: Counts

    /** The lane's state as the spec functions see it. */
    ghost function State(): LaneState
      reads this, queue
    {
      LaneState(queue.items, requests, counts)
    }

    ghost predicate Valid()
      reads this
    {
      counts == Tallied(requests)
    }

    constructor (queue: WorkQueue, name: string)
      ensures this.queue == queue && this.name == name
      ensures requests == [] && counts == Counts(0, 0)
      ensures Valid()
    {
      this.queue := queue;
      this.name := name;
      requests := [];
      counts := Counts(0, 0);
    }

    /** One call of `process`, the request it may start settling as `outcome`. */
    method Advance(outcome: Settlement) returns (r: StepResult)
      modifies this, queue
      ensures StepSpec(name, old(State()), outcome) == Transition(State(), r)
      ensures old(Valid()) ==> Valid()
    {
      StepKeepsTally(name, State(), outcome);
      if |queue.items| > 0 {
        var item := queue.items[|queue.items| - 1];
        queue.items := queue.items[..|queue.items| - 1];
        if !Truthy(item) {
          return Stopped(item);
        }
        requests := requests + [Request(item, outcome)];
        var v := Classify(outcome);
        match v {
          case Succeeded(b) =>
            counts := counts.(success := counts.success + 1);
            r := Processed(item, OnSuccess(b, item));
          case Failed(b) =>
            r := Processed(item, OnError(b, item));
          case Threw(why) =>
            counts := counts.(error := counts.error + 1);
            r := Processed(item, OnErrorNoItem(why));
        }
      } else {
        r := Finished(Join(name, requests, counts));
      }
    }

    /** `process` with its recursion unrolled into a loop: runs until the lane
        pops a falsy item (`stopped`) or joins; the k-th request it starts
        settles as `oracle(k)`. */
    method Process(oracle: nat -> Settlement) returns (events: seq<Event>, stopped: bool)
      modifies this, queue
      ensures Drain(name, old(State()), oracle) == Run(State(), events, stopped)
      ensures old(Valid()) ==> Valid()
    {
      events, stopped := [], false;
      var done := false;
      while !done
        invariant done ==> Drain(name, old(State()), oracle) == Run(State(), events, stopped)
        invariant !done ==> Drain(name, old(State()), oracle) == Prefixed(events, Drain(name, State(), oracle))
        invariant !done ==> !stopped
        invariant old(Valid()) ==> Valid()
        decreases |queue.items|, !done
      {
        ghost var before := State();
        var r := Advance(oracle(|requests|));
        DrainUnfold(name, before, oracle);
        StepCases(name, before, oracle(|before.requests|));
        match r {
          case Stopped(_) =>
            assert events + [] == events;
            stopped, done := true, true;
          case Finished(e) =>
            events, done := events + [e], true;
          case Processed(_, e) =>
            assert events + ([e] + Drain(name, State(), oracle).events)
                == (events + [e]) + Drain(name, State(), oracle).events;
            events := events + [e];
        }
      }
    }
  }
}
