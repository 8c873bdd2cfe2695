/** Several `QueueProcessor` lanes draining one shared work list, as the CLI
    starts them. JavaScript runs them on one thread and `splice` is atomic, so
    the lanes' pops interleave but never overlap; the model lets a schedule
    pick which lane runs its next call of `process`, and a call runs from its
    pop to its settlement in one step.

    `PoolTurn` and `RunSchedule` say on values what a turn and a whole
    schedule do; `Turn` and `RunLanes` do it on the lane objects and the
    shared `WorkQueue`, and are proved equal to them. */
module Pool {
  import opened JsValues
  import opened QueueProcessing

  /** Where a lane is: still calling `process`, returned on a falsy item, or joined. */
  datatype LaneStatus = Draining | Halted | Joined

  /** An item handed to a lane by its pop. */
  datatype Handout = Handout(lane: nat, item: Value)

  /** A callback fired by a lane. */
  datatype Notice = Notice(lane: nat, event: Event)

  /** What a lane owns: the requests it started and its counters. */
  datatype LaneRecord = LaneRecord(requests: seq<Request>, counts: Counts)

  /** The shared list, every lane's record and status, every pop so far and
      every callback fired so far. */
  datatype PoolState = PoolState(queue: seq<Value>, records: seq<LaneRecord>, status: seq<LaneStatus>,
                                 handed: seq<Handout>, log: seq<Notice>)

  /** Lane i's turn: a lane that has returned does nothing; a draining lane
      makes one call of `process` on the shared list, its next request
      settling as `oracles[i](k)` for its k-th request. */
  function PoolTurn(names: seq<string>, oracles: seq<nat -> Settlement>, ps: PoolState, i: nat): (r: PoolState)
    requires |names| == |oracles| == |ps.records| == |ps.status| && i < |names|
    ensures |r.records| == |ps.records| && |r.status| == |ps.status|
  {
    if ps.status[i] != Draining then ps
    else
      var rec := ps.records[i];
      var t := StepSpec(names[i], LaneState(ps.queue, rec.requests, rec.counts), oracles[i](|rec.requests|));
      var next := ps.(queue := t.next.queue, records := ps.records[i := LaneRecord(t.next.requests, t.next.counts)]);
      match t.result
      case Stopped(x) => next.(handed := ps.handed + [Handout(i, x)], status := ps.status[i := Halted])
      case Processed(x, e) => next.(handed := ps.handed + [Handout(i, x)], log := ps.log + [Notice(i, e)])
      case Finished(e) => next.(status := ps.status[i := Joined], log := ps.log + [Notice(i, e)])
  }

  /** The turns of `schedule`, one after another. */
  function RunSchedule(names: seq<string>, oracles: seq<nat -> Settlement>, ps: PoolState, schedule: seq<nat>): (r: PoolState)
    requires |names| == |oracles| == |ps.records| == |ps.status|
    requires forall t :: 0 <= t < |schedule| ==> schedule[t] < |names|
    ensures |r.records| == |ps.records| && |r.status| == |ps.status|
    decreases |schedule|
  {
    if schedule == [] then ps
    else PoolTurn(names, oracles, RunSchedule(names, oracles, ps, schedule[..|schedule| - 1]), schedule[|schedule| - 1])
  }

  /** The truthy items handed to `lane`, in the order it popped them: the items it started a request on. */
  function Received(handed: seq<Handout>, lane: nat): (items: seq<Value>)
    ensures |items| <= |handed|
    ensures forall k :: 0 <= k < |items| ==> Truthy(items[k])
    decreases |handed|
  {
    if handed == [] then []
    else
      var last := handed[|handed| - 1];
      Received(handed[..|handed| - 1], lane) + (if last.lane == lane && Truthy(last.item) then [last.item] else [])
  }

  /** `reqs` followed by the requests a lane starts on `items`, in order:
      its n-th request settles as `oracle(n)`. */
  function Extended(reqs: seq<Request>, items: seq<Value>, oracle: nat -> Settlement): (r: seq<Request>)
    ensures |r| == |reqs| + |items|
    decreases |items|
  {
    if items == [] then reqs
    else
      var done := Extended(reqs, items[..|items| - 1], oracle);
      done + [Request(items[|items| - 1], oracle(|done|))]
  }

  /** The pops of all lanes, in order, take the items from the tail of
      `initial`, each position once; `rest` is what is left. */
  ghost predicate HandsOutTail(initial: seq<Value>, rest: seq<Value>, handed: seq<Handout>, lanes: nat) {
    && |rest| + |handed| == |initial|
    && rest == initial[..|rest|]
    && forall k :: 0 <= k < |handed| ==>
         handed[k].lane < lanes && handed[k].item == initial[|initial| - 1 - k]
  }

  /** The list side of the pool invariant, for a schedule started on the
      list `queue0` with no pops and no callbacks: the pops hand out the list
      from the tail, each position once; once a lane has joined, the list is
      empty; and only a lane that has joined has fired `onComplete`. */
  ghost predicate ListInvariant(queue0: seq<Value>, lanes: nat, ps: PoolState) {
    && |ps.status| == lanes
    && HandsOutTail(queue0, ps.queue, ps.handed, lanes)
    && ((exists j :: 0 <= j < |ps.status| && ps.status[j] == Joined) ==> ps.queue == [])
    && (forall k :: 0 <= k < |ps.log| && ps.log[k].event.OnComplete? ==>
          ps.log[k].lane < |ps.status| && ps.status[ps.log[k].lane] == Joined)
  }

  /** The lane side of the pool invariant, for lanes that started with
      `records0`: each lane's requests are its old ones followed by one request
      per truthy item it received, in order, settling as its oracle says; and
      a lane whose counters were the tally of its requests keeps them so. */
  ghost predicate RecordsInvariant(records0: seq<LaneRecord>, oracles: seq<nat -> Settlement>, ps: PoolState) {
    && |ps.records| == |records0| == |oracles|
    && RequestsInvariant(records0, oracles, ps)
    && (forall j :: 0 <= j < |ps.records| && records0[j].counts == Tallied(records0[j].requests) ==>
          ps.records[j].counts == Tallied(ps.records[j].requests))
  }

  /** Each lane's requests are its old ones followed by one request per
      truthy item it received, in order, settling as its oracle says. */
  ghost predicate RequestsInvariant(records0: seq<LaneRecord>, oracles: seq<nat -> Settlement>, ps: PoolState) {
    && |ps.records| == |records0| == |oracles|
    && forall j :: 0 <= j < |ps.records| ==>
         ps.records[j].requests == Extended(records0[j].requests, Received(ps.handed, j), oracles[j])
  }

  /** What holds of the pool at any point of a schedule. */
  ghost predicate PoolInvariant(queue0: seq<Value>, records0: seq<LaneRecord>, oracles: seq<nat -> Settlement>, ps: PoolState) {
    && |ps.records| == |ps.status|
    && ListInvariant(queue0, |records0|, ps)
    && RecordsInvariant(records0, oracles, ps)
  }

  /** A pop keeps the hand-out order: the next item handed out is the last one left. */
  lemma HandsOutTailPop(initial: seq<Value>, rest: seq<Value>, handed: seq<Handout>, lanes: nat, lane: nat)
    requires HandsOutTail(initial, rest, handed, lanes)
    requires |rest| > 0 && lane < lanes
    ensures HandsOutTail(initial, rest[..|rest| - 1], handed + [Handout(lane, rest[|rest| - 1])], lanes)
  {
  }

  /** A pop adds its item to what the popping lane received exactly when the
      item is truthy, and changes nothing for the other lanes. */
  lemma ReceivedAppend(handed: seq<Handout>, h: Handout, lane: nat)
    ensures Received(handed + [h], lane)
         == Received(handed, lane) + (if h.lane == lane && Truthy(h.item) then [h.item] else [])
  {
    assert (handed + [h])[..|handed|] == handed;
  }

  /** A lane starting one more request appends it, settling as the oracle's next outcome. */
  lemma ExtendedStep(reqs: seq<Request>, items: seq<Value>, x: Value, oracle: nat -> Settlement)
    ensures Extended(reqs, items + [x], oracle)
         == Extended(reqs, items, oracle) + [Request(x, oracle(|Extended(reqs, items, oracle)|))]
  {
    assert (items + [x])[..|items|] == items;
  }

  /** One lane's requests after a pop: the request it started, if the item
      was truthy and the lane is the popping one, extends them as the
      invariant says. */
  lemma LaneRequestsAfterPop(req0: seq<Request>, before: seq<Request>, after: seq<Request>,
                             handed: seq<Handout>, h: Handout, j: nat, oracle: nat -> Settlement)
    requires before == Extended(req0, Received(handed, j), oracle)
    requires h.lane == j && Truthy(h.item) ==> after == before + [Request(h.item, oracle(|before|))]
    requires !(h.lane == j && Truthy(h.item)) ==> after == before
    ensures after == Extended(req0, Received(handed + [h], j), oracle)
  {
    ReceivedAppend(handed, h, j);
    if h.lane == j && Truthy(h.item) {
      ExtendedStep(req0, Received(handed, j), h.item, oracle);
    } else {
      assert Received(handed, j) + [] == Received(handed, j);
    }
  }

  /** One turn of any lane keeps the list side of the invariant. */
  lemma PoolTurnKeepsList(names: seq<string>, oracles: seq<nat -> Settlement>, queue0: seq<Value>,
                          ps: PoolState, i: nat)
    requires |names| == |oracles| == |ps.records| == |ps.status| && i < |names|
    requires ListInvariant(queue0, |names|, ps)
    ensures ListInvariant(queue0, |names|, PoolTurn(names, oracles, ps, i))
  {
    if ps.status[i] == Draining {
      var rec := ps.records[i];
      var st := LaneState(ps.queue, rec.requests, rec.counts);
      var s := oracles[i](|rec.requests|);
      StepCases(names[i], st, s);
      if |ps.queue| > 0 {
        HandsOutTailPop(queue0, ps.queue, ps.handed, |names|, i);
      }
    }
  }

  /** One turn of any lane keeps each lane's requests as the invariant describes them. */
  lemma PoolTurnKeepsRequests(names: seq<string>, oracles: seq<nat -> Settlement>, records0: seq<LaneRecord>,
                              ps: PoolState, i: nat)
    requires |names| == |oracles| == |ps.records| == |ps.status| && i < |names|
    requires RequestsInvariant(records0, oracles, ps)
    ensures RequestsInvariant(records0, oracles, PoolTurn(names, oracles, ps, i))
  {
    if ps.status[i] == Draining {
      var rec := ps.records[i];
      var st := LaneState(ps.queue, rec.requests, rec.counts);
      var s := oracles[i](|rec.requests|);
      var t := StepSpec(names[i], st, s);
      var r := PoolTurn(names, oracles, ps, i);
      StepCases(names[i], st, s);
      if !t.result.Finished? {
        var h := Handout(i, t.result.item);
        forall j | 0 <= j < |r.records|
          ensures r.records[j].requests == Extended(records0[j].requests, Received(ps.handed + [h], j), oracles[j])
        {
          LaneRequestsAfterPop(records0[j].requests, ps.records[j].requests, r.records[j].requests,
                               ps.handed, h, j, oracles[j]);
        }
      }
    }
  }

  /** One turn of any lane keeps the lane side of the invariant. */
  lemma PoolTurnKeepsRecords(names: seq<string>, oracles: seq<nat -> Settlement>, records0: seq<LaneRecord>,
                             ps: PoolState, i: nat)
    requires |names| == |oracles| == |ps.records| == |ps.status| && i < |names|
    requires RecordsInvariant(records0, oracles, ps)
    ensures RecordsInvariant(records0, oracles, PoolTurn(names, oracles, ps, i))
  {
    PoolTurnKeepsRequests(names, oracles, records0, ps, i);
    if ps.status[i] == Draining {
      var rec := ps.records[i];
      StepKeepsTally(names[i], LaneState(ps.queue, rec.requests, rec.counts), oracles[i](|rec.requests|));
    }
  }

  /** One turn of any lane keeps the pool invariant. */
  lemma PoolTurnKeeps(names: seq<string>, oracles: seq<nat -> Settlement>, queue0: seq<Value>, records0: seq<LaneRecord>,
                      ps: PoolState, i: nat)
    requires |names| == |oracles| && i < |names|
    requires PoolInvariant(queue0, records0, oracles, ps)
    ensures PoolInvariant(queue0, records0, oracles, PoolTurn(names, oracles, ps, i))
  {
    PoolTurnKeepsList(names, oracles, queue0, ps, i);
    PoolTurnKeepsRecords(names, oracles, records0, ps, i);
  }

  /** Whatever the schedule, the pool invariant holds at its end, for a pool
      started with no pops, no callbacks and every lane draining. */
  lemma {:induction false} ScheduleKeeps(names: seq<string>, oracles: seq<nat -> Settlement>, ps: PoolState, schedule: seq<nat>)
    requires |names| == |oracles| == |ps.records| == |ps.status|
    requires forall t :: 0 <= t < |schedule| ==> schedule[t] < |names|
    requires ps.handed == [] && ps.log == []
    requires forall j :: 0 <= j < |ps.status| ==> ps.status[j] == Draining
    ensures PoolInvariant(ps.queue, ps.records, oracles, RunSchedule(names, oracles, ps, schedule))
    decreases |schedule|
  {
    if schedule == [] {
    } else {
      var prefix := schedule[..|schedule| - 1];
      ScheduleKeeps(names, oracles, ps, prefix);
      PoolTurnKeeps(names, oracles, ps.queue, ps.records, RunSchedule(names, oracles, ps, prefix), schedule[|schedule| - 1]);
    }
  }

  /** With distinct items in the queue, no item is handed out twice, so no
      item reaches two lanes. */
  lemma HandedOnce(initial: seq<Value>, rest: seq<Value>, handed: seq<Handout>, lanes: nat)
    requires HandsOutTail(initial, rest, handed, lanes)
    requires forall a, b :: 0 <= a < b < |initial| ==> initial[a] != initial[b]
    ensures forall a, b :: 0 <= a < b < |handed| ==> handed[a].item != handed[b].item
  {
  }

  /** The lanes' names. */
  function Names(lanes: seq<QueueProcessor>): (names: seq<string>)
    ensures |names| == |lanes| && forall j :: 0 <= j < |lanes| ==> names[j] == lanes[j].name
  {
    seq(|lanes|, j requires 0 <= j < |lanes| => lanes[j].name)
  }

  /** The lanes' requests and counters. */
  ghost function Records(lanes: seq<QueueProcessor>): (rs: seq<LaneRecord>)
    reads set l | l in lanes
    ensures |rs| == |lanes|
    ensures forall j :: 0 <= j < |lanes| ==> rs[j] == LaneRecord(lanes[j].requests, lanes[j].counts)
  {
    seq(|lanes|, j requires 0 <= j < |lanes| reads set l | l in lanes => LaneRecord(lanes[j].requests, lanes[j].counts))
  }

  /** The pool as the spec functions see it. */
  ghost function Snapshot(q: WorkQueue, lanes: seq<QueueProcessor>, status: seq<LaneStatus>,
                          handed: seq<Handout>, log: seq<Notice>): PoolState
    reads q, set l | l in lanes
  {
    PoolState(q.items, Records(lanes), status, handed, log)
  }

  /** Lane i's turn on the objects: `PoolTurn` of the pool as it was. */
  method Turn(q: WorkQueue, lanes: seq<QueueProcessor>, oracles: seq<nat -> Settlement>, i: nat,
              handed: seq<Handout>, status: seq<LaneStatus>, log: seq<Notice>)
    returns (handed': seq<Handout>, status': seq<LaneStatus>, log': seq<Notice>)
    requires |oracles| == |lanes| == |status| && i < |lanes|
    requires forall j :: 0 <= j < |lanes| ==> lanes[j].queue == q
    requires forall j, k :: 0 <= j < k < |lanes| ==> lanes[j] != lanes[k]
    modifies q, lanes[i]
    ensures Snapshot(q, lanes, status', handed', log')
         == PoolTurn(Names(lanes), oracles, old(Snapshot(q, lanes, status, handed, log)), i)
  {
    handed', status', log' := handed, status, log;
    if status[i] == Draining {
      var lane := lanes[i];
      var r := lane.Advance(oracles[i](|lane.requests|));
      match r {
        case Stopped(x) =>
          handed' := handed + [Handout(i, x)];
          status' := status[i := Halted];
        case Processed(x, e) =>
          handed' := handed + [Handout(i, x)];
          log' := log + [Notice(i, e)];
        case Finished(e) =>
          status' := status[i := Joined];
          log' := log + [Notice(i, e)];
      }
      assert Records(lanes) == old(Records(lanes))[i := LaneRecord(lane.requests, lane.counts)];
    }
  }

  /** Runs the lanes over their shared queue `q`, the t-th turn going to lane
      `schedule[t]` (a lane that has returned is skipped), the k-th request of
      lane i settling as `oracles[i](k)`. The lanes, the list, the pops and
      the callbacks end as `RunSchedule` says, so the pool invariant holds. */
  method RunLanes(q: WorkQueue, lanes: seq<QueueProcessor>, oracles: seq<nat -> Settlement>, schedule: seq<nat>)
    returns (handed: seq<Handout>, status: seq<LaneStatus>, log: seq<Notice>)
    requires |oracles| == |lanes|
    requires forall i :: 0 <= i < |lanes| ==> lanes[i].queue == q
    requires forall i, j :: 0 <= i < j < |lanes| ==> lanes[i] != lanes[j]
    requires forall t :: 0 <= t < |schedule| ==> schedule[t] < |lanes|
    modifies q, set l | l in lanes
    ensures Snapshot(q, lanes, status, handed, log)
         == RunSchedule(Names(lanes), oracles,
                        PoolState(old(q.items), old(Records(lanes)), seq(|lanes|, _ => Draining), [], []), schedule)
    ensures PoolInvariant(old(q.items), old(Records(lanes)), oracles, Snapshot(q, lanes, status, handed, log))
  {
    ghost var start := PoolState(q.items, Records(lanes), seq(|lanes|, _ => Draining), [], []);
    handed, log := [], [];
    status := seq(|lanes|, _ => Draining);
    var t := 0;
    while t < |schedule|
      invariant 0 <= t <= |schedule|
      invariant Snapshot(q, lanes, status, handed, log) == RunSchedule(Names(lanes), oracles, start, schedule[..t])
    {
      assert schedule[..t + 1][..t] == schedule[..t];
      handed, status, log := Turn(q, lanes, oracles, schedule[t], handed, status, log);
      t := t + 1;
    }
    assert schedule[..t] == schedule;
    ScheduleKeeps(Names(lanes), oracles, start, schedule);
  }
}
