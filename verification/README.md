# TextRazor CLI: queue lanes, request form and command dispatch

A Dafny model of the core of the `textrazor-api-cli` command-line tool:

- **`QueueProcessor`** (module `QueueProcessing`, file `queue_processor.dfy`):
  a lane that drains a shared work list. Each call of `process` does one of three things:
  - it pops the last item; if the item is falsy, it returns silently;
  - otherwise it starts a request on the item, records the request in `requests`,
    classifies how the request settled, updates the `success`/`error` counters,
    fires `onSuccess` or `onError`, and calls itself again;
  - on an empty list, it joins on all the requests it started and fires
    `onComplete(this)`, or `onError` with the first rejection.

  The lane is a class with `Advance` (one call of `process`) and `Process`
  (the self-recursion unrolled into a loop). Both are proved against the spec
  functions `StepSpec` and `Drain`, and the lemmas about those functions state
  what a lane does overall.
- **Several lanes over one list** (module `Pool`, file `pool.dfy`). The CLI
  starts N lanes on the same url array. The lanes run on one thread and the pop
  is atomic, so a schedule picks which lane makes its next call. `PoolTurn`
  states a turn on values: one `StepSpec` of the chosen lane over the shared
  list. `RunSchedule` folds turns over the schedule. `Turn` and `RunLanes` are
  proved to leave the list and the lane objects exactly as those functions say.
  The lemmas about the fold prove the following:
  - the pops take the list's items from the tail, each position exactly once;
  - each lane's requests are its earlier ones followed by one request per
    truthy item handed to it, in order, each settling as that lane's oracle says;
  - the counters stay the tally of the requests;
  - only a lane that has joined has fired `onComplete`, and then the list is empty.
- **The request description** (module `TextRazorSdk`, file `textrazor_sdk.dfy`).
  This is the form built from `{text, url, extractors}`: text wins over url, a
  url adds the two cleanup fields, and extractors always pass through. It is
  posted to the endpoint with the `x-textrazor-key` header.
- **The `analyze` command** (module `TextRazorCli`, file `textrazor_cli.dfy`)
  covers the following:
  - splitting `--urls` on commas;
  - the choice between an error exit, one text analysis, one url analysis,
    lanes over the url list, or nothing;
  - creating the lanes `textrazor_0` … over one shared list;
  - the output file name.
- **JavaScript values** (module `JsValues`, file `js_values.dfy`): truthiness,
  and the string conversions used in lane names and file names.

Asynchrony is replaced by an outcome oracle. The k-th request a lane starts
settles as `oracle(k)`: either `Resolved(body)`, where `body` is what
`JSON.parse` yields, or `Rejected(reason)`. The callbacks become `Event` values
that the methods return.

Behaviour the model follows as the code has it:

- **A rejection stops `onComplete`.** If any request of a lane rejected, the final
  `Promise.all(this.requests)` rejects. The lane then fires `onError` with that
  reason, and `onComplete` never fires. So a lane whose requests all reject
  never reports completion (`AlwaysRejectingLane`).
- **Some failures are in neither counter.** A body carrying the failure marker
  (an `error` key, or `ok === false`) fires `onError(result, item)` but
  increments neither counter (`TalliedPartition`).
- **A body that cannot be decoded counts as an error, yet the join completes.**
  The body is not JSON, is `null`, or shadows `hasOwnProperty`. The `then`
  handler throws, and the `catch` after it counts one error. The raw request
  itself resolved, so the final join is unaffected.
- **A falsy item stops the lane for good.** Examples are an empty url from
  `"a,,b"`, or `""`. The lane returns without joining, so it never fires
  `onComplete`. The items below the falsy one stay in the list for the other
  lanes (`DrainStopsAtFalsy`).

## Model

| member | source | states |
|---|---|---|
| QueueProcessing.Classify | queue-processor.js:31-45 | A settlement takes exactly one of three branches. It is a success iff it resolved to a decodable body without the failure marker. It is a reported failure iff it resolved to a decodable body with an `error` key or `ok === false`. It throws into `catch` iff it rejected or the handler throws on the body. A rejection carries its own reason. |
| QueueProcessing.TalliedPartition | queue-processor.js:34-43 | Every started request lands in exactly one of: `success`, `error`, or reported-but-uncounted. |
| QueueProcessing.FirstRejection | queue-processor.js:48-60 | It is absent iff no recorded request rejected. Otherwise it is the reason of the earliest rejected request, which is what `Promise.all` rejects with. |
| QueueProcessing.Join | queue-processor.js:46-60 | The join fires `onComplete` with the lane's name and counts iff no request rejected. Otherwise it fires `onError` with the reason of the earliest rejected request, which is `FirstRejection`'s. |
| QueueProcessing.StepSpec | queue-processor.js:18-46 | A call joins iff the queue is empty. Otherwise it removes the last element and leaves the prefix unchanged. |
| QueueProcessing.StepCases | queue-processor.js:14-61 | The three outcomes of one call:<br>• Empty queue: it joins and changes nothing.<br>• Falsy last item: it removes the item and leaves requests and counts untouched.<br>• Truthy last item: it appends exactly one request and applies that request's counter update and callback. |
| QueueProcessing.StepKeepsTally | queue-processor.js:34-44 | One call keeps the counters equal to the tally of the recorded requests, and neither counter decreases. |
| QueueProcessing.DrainShrinksQueue | queue-processor.js:18-57 | Over a whole drain:<br>• the queue only loses tail items;<br>• it ends empty unless the lane stopped on a falsy item;<br>• `requests` only grows at the end;<br>• a lane that did not stop ends with the join. |
| QueueProcessing.DrainKeepsTally | queue-processor.js:37-44 | Over a whole drain, the counters never decrease and stay the tally of the requests. |
| QueueProcessing.TailFirstAt | queue-processor.js:21-29 | The i-th request of a full drain is on the i-th item from the tail and settles as the i-th outcome. |
| QueueProcessing.NoticesAt | queue-processor.js:31-45 | The i-th callback of a drain is the one the i-th request's settlement selects. |
| QueueProcessing.DrainAllTruthy | queue-processor.js:18-44 | With every item truthy, the lane handles the whole queue tail first, one request per item. The queue ends empty and the lane does not stop early. |
| QueueProcessing.DrainAllTruthyEvents | queue-processor.js:31-60 | With every item truthy, the lane fires one callback per item in tail-first order, then the join. |
| QueueProcessing.DrainStopsAtFalsy | queue-processor.js:21-25 | With a falsy item at index k and everything above it truthy:<br>• the lane handles the items above k;<br>• it drops the item at k;<br>• it stops, leaving exactly the items below k. |
| QueueProcessing.DrainStopsAtFalsyEvents | queue-processor.js:23-25 | A lane that stops on a falsy item fires only the callbacks of the items above it. It fires no join. |
| QueueProcessing.NoticesNeverComplete | queue-processor.js:31-45 | No per-item callback is `onComplete`, so a lane that stops early never completes. |
| QueueProcessing.CompletesIffNoRejection | queue-processor.js:46-60 | A lane that did not stop ends with `onComplete` iff none of its requests rejected. |
| QueueProcessing.EmptyQueueCompletes | queue-processor.js:46-57 | A fresh lane on an empty queue fires only `onComplete`, with counts 0/0, and changes nothing. |
| QueueProcessing.TalliedAllRejected | queue-processor.js:41-43 | Requests that all reject give success 0 and an error count equal to their number. |
| QueueProcessing.AlwaysRejectingLane | queue-processor.js:41-60 | For K > 0 truthy items and an always-rejecting operation:<br>• the counts are 0/K;<br>• `onError` fires without an item K + 1 times, the last time from the join;<br>• `onComplete` never fires. |
| QueueProcessing.QueueProcessor.constructor | queue-processor.js:4-12 | A new lane holds the given queue by reference and the given name, with no requests and counts 0/0. |
| QueueProcessing.QueueProcessor.Advance | queue-processor.js:14-61 | One call of `process` moves the lane and its shared queue exactly as `StepSpec` prescribes, and keeps the tally invariant. |
| QueueProcessing.QueueProcessor.Process | queue-processor.js:14-61 | The unrolled recursion ends in exactly the state, callbacks and stop flag of `Drain`, and keeps the tally invariant. |
| Pool.HandsOutTailPop | queue-processor.js:21 | One pop by any lane keeps the hand-out order: the item handed out is the last one left. |
| Pool.ReceivedAppend | queue-processor.js:23-29 | A pop adds its item to the items the popping lane started requests on iff the item is truthy. It changes nothing for the other lanes. |
| Pool.ExtendedStep | queue-processor.js:27-29 | Starting one more request appends it at the end of `requests`, settling as the lane's next outcome. |
| Pool.LaneRequestsAfterPop | queue-processor.js:21-29 | After any lane's pop, every lane's requests are still its earlier ones followed by one request per truthy item it received. |
| Pool.PoolTurnKeepsList | queue-processor.js:18-25 | A turn of any lane keeps the list side of the invariant:<br>• the pops hand out the list from the tail, each position once;<br>• a joined lane implies an empty list;<br>• only joined lanes have fired `onComplete`. |
| Pool.PoolTurnKeepsRequests | queue-processor.js:21-29 | A turn of any lane keeps every lane's requests equal to its earlier requests followed by its received truthy items, in order, with their oracle settlements. |
| Pool.PoolTurnKeepsRecords | queue-processor.js:27-44 | A turn of any lane keeps the request invariant and every lane's counters equal to the tally of its requests. |
| Pool.PoolTurnKeeps | textrazor.js:117-127 | A turn of any lane keeps the whole pool invariant. |
| Pool.ScheduleKeeps | textrazor.js:117-127 | For lanes that all start draining with no pops, the pool invariant holds after any schedule of turns. |
| Pool.HandedOnce | queue-processor.js:21 | If the list holds distinct items, no item is handed to two lanes or twice. |
| Pool.Turn | textrazor.js:117-127 | One turn on the objects leaves the shared list, every lane's requests and counters, the statuses, the pops and the callbacks exactly as `PoolTurn` prescribes. In that turn, the chosen lane makes one `StepSpec` call and the other lanes are unchanged. |
| Pool.RunLanes | textrazor.js:117-127 | Running the lanes under any schedule leaves the list, the lanes, the pops and the callbacks exactly as `RunSchedule` prescribes. The pool invariant then holds: see `Pool.ScheduleKeeps`. |
| TextRazorSdk.BuildForm | textrazor-sdk.js:24-32 | The form takes exactly one of three shapes:<br>• text truthy: `{extractors, text}`;<br>• text falsy, url truthy: `{extractors, url, cleanup.mode: 'cleanHTML', cleanup.returnCleaned: true}`;<br>• both falsy: `{extractors}`.<br>`extractors` is unchanged in every shape. |
| TextRazorSdk.FormDeterminedByText | textrazor-sdk.js:26-28 | With a truthy text, the url has no influence on the form. |
| TextRazorSdk.Describe | textrazor-sdk.js:34-38 | The POST description targets the endpoint and carries the form. Its only header is `x-textrazor-key` with the API key. |
| TextRazorSdk.Analyze | textrazor-sdk.js:17-39 | The client's request: the form for the parameters, posted to the configured endpoint with the key header. |
| TextRazorCli.Analyze | textrazor.js:41-63 | The CLI's request: the same form rules, posted to `https://api.textrazor.com/` with the key header. |
| TextRazorCli.SplitOnComma | textrazor.js:69 | `split(',')` yields at least one piece and no piece contains a comma. |
| TextRazorCli.JoinSplit | textrazor.js:69 | Joining the split pieces with commas gives back the original string. |
| TextRazorCli.SplitJoin | textrazor.js:69 | Splitting a comma-join of comma-free pieces gives back the pieces. |
| TextRazorCli.Decide | textrazor.js:105-129 | The action chooses as follows:<br>• error exit iff both text and urls are undefined;<br>• truthy text gives one `{extractors, text}` analysis, ignoring urls;<br>• otherwise exactly one url gives one url analysis;<br>• more than one url gives the lanes;<br>• in all other cases, nothing. |
| TextRazorCli.LaneName | textrazor.js:118 | Lane i's name is `textrazor_` followed by the decimal numeral of i. |
| TextRazorCli.LaneNamesDistinct | textrazor.js:118 | Different lane indices give different names. |
| JsValues.Decimal | textrazor.js:118 | A non-negative integer prints as a non-empty digit string with no leading zero. |
| JsValues.DecimalValue | textrazor.js:118 | The numeral printed for n denotes n. |
| JsValues.DecimalInjective | textrazor.js:118 | Different numbers print different numerals. |
| TextRazorCli.Action | textrazor.js:105-128 | The action makes the choice `Decide` describes. For more than one url it creates exactly the given number of fresh lanes, all over one shared list holding the urls. Each lane satisfies the following:<br>• lane i is named `textrazor_i`;<br>• it starts with no requests and counts 0/0;<br>• lanes and names are pairwise distinct.<br>No lane is created otherwise. |
| TextRazorCli.OutputFile | textrazor.js:85-91 | A file is written iff `--write` is truthy. It is `path/encode(text).json` when the text is truthy, and `path/encode(url).json` otherwise. |

## Left out

- The HTTP call (`rp.post`) is not modelled. `Analyze` returns the request description, and how the request settles is an input (the outcome oracle).
- Real asynchrony is not modelled. In the model, one call of `process` runs from its pop to its settlement in one step, and `RunLanes` interleaves whole calls. Interleavings that split a call are not captured: another lane popping while a request is pending is such a case.
- JSON decoding is abstracted to `Body`. Values nested inside an object collapse to `Compound`, and fractional or non-finite numbers are not modelled (`Num` holds integers).
- Callbacks that throw are not modelled. An `onSuccess` that throws inside the `then` handler would also reach `catch`.
- Console output and colours are not modelled: the counts printed by the join, and the messages of `_onQueueSuccess`, `_onQueueError` and `_onQueueComplete`.
- The directory check, `mkdirSync` and `writeFileSync` are not modelled. Only the chosen file name is (`OutputFile`).
- `encodeURIComponent` is a parameter of `OutputFile`.
- Reading `.env` and the environment, and the load-time API-key guard that exits with status 1, are not modelled. The key and the endpoint are parameters.
- `process.exit(1)` on missing parameters is the `MissingParameters` decision.
- `commander` parsing is not modelled beyond the comma split. `--urls` given without a value is `UrlsFlag`.
- `TEXTRAZOR_NUM_PROCESSORS` is a natural number, with an unset variable as 0. The string-to-number comparison in the loop condition is not modelled.
- TextRazorCli.Action: it stops after creating the lanes. The first call of `process` made in the same loop iteration is one turn of `Pool.RunLanes`.
- The undefined `colors` reference in the client module's missing-key guard is not modelled. It is a crash on an exit path with no logic behind it.
- ToText: arrays are not told apart from other objects. An array is printed as `[object Object]`, not as its elements joined.
