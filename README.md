# Research-job watchers of the AlphaAI dashboard, modelled in Dafny

The dashboard lets a user start "research" on a person and watch the
background job until it finishes. The watching logic exists in three
versions, each inside a React component, and each is modelled here on its
own because their rules differ:

- `PeopleList` — `PersonCard` in `src/components/PeopleList.tsx`, the live
  card. It starts research, shows an existing research at once, and
  otherwise watches the job in an effect keyed on the job id. The effect
  uses a server-push stream (`EventSource`). When the stream errors or cannot
  be constructed, it polls every 3000 ms instead. A `completed` state from
  either channel closes both channels and schedules a results fetch 1000 ms
  later. That fetch keeps the LAST element of the returned array.
- `PeopleListNew` — `PersonCard` in `src/components/PeopleList.new.tsx`, an
  older card. It monitors directly from the click handler, with no effect
  and no cleanup. It keeps the FIRST (truthy) result element. A poll error
  stops that interval, and a failed results fetch reports an error.
- `ResearchProgressView` — `ResearchProgress` in
  `src/components/ResearchProgress.tsx`, a push-only panel. It reads
  `status` rather than `state`. Both `completed` and `failed` are terminal,
  and only `completed` fetches results. `onComplete` is called only after a
  successful fetch. A stream error is reported as a lost connection, with
  no fallback.

`Wire` holds the payloads shared by all three. A request becomes its outcome,
`Ok(body)` or `Err`. A closure-local `EventSource` or interval handle becomes
a `Channel`: `Unset` (still `null`), `Open`, or `Closed`. `ProgressOf` is
`data.progress || 0`, and `Busy` is the button's `!!jobId && progress < 100`.

Each component module has the same parts:

- a value datatype for the component's state: its React state cells, the
  closure locals, a count of results fetches that are scheduled or in
  flight, and whether it is mounted;
- one specification function per handler, whose `ensures` give the new state
  and the preservation of the module's invariant `Consistent`;
- a trace semantics (`Event`, `Enabled`, `Step`, `Run`) with inductive
  lemmas over every event sequence;
- a class whose fields mirror the state and whose methods update them in
  place. Each method ends in the state its specification function gives.

Handlers run one at a time. A handler's precondition is what the runtime
guarantees: a message arrives only on an open stream, and a tick only from
a started interval. The research click happens only while the button is
enabled.

A job watcher is usually expected to complete exactly once, to treat
`failed` as terminal, to select results by one rule, and never to leave the
button stuck. Where the code departs from that, the model follows the code:

- The cards have no completion latch. A poll response still in flight can
  report `completed` again and schedule another fetch
  (`PeopleList.RepeatedCompletionRefetches`).
- The cards treat `failed` like any other non-completed state.
- The two cards select different result elements, the last and the first.
- After a finished job, a failed new request leaves the live card reading
  "Researching..." with no live channel (`PeopleList.FailedRestartStaysBusy`).
  If that job finished over the stream, no later event changes this
  (`PeopleList.FailedRestartStuck`). If it finished by polling, only a poll
  response still in flight could change it (`PeopleList.StaysBusyWithoutTicks`).
- `ResearchProgress` does not cancel its results fetch on unmount, so
  `onComplete` can be called after disposal
  (`ResearchProgressView.CompletionAfterUnmount`).

Nothing here is executed; the claims below are proved by the Dafny verifier.

## Model

| member | source | states |
|---|---|---|
| `Wire.Close` | src/components/PeopleList.tsx:166-167 | `eventSource?.close()` / `if (pollInterval) clearInterval(...)`: the handle is never live afterwards, and an unassigned handle stays unassigned |
| `Wire.Truthy` | src/components/PeopleList.tsx:157 | `if (!jobId) return`: a job id is truthy exactly when it is present and not the empty string |
| `Wire.Busy` | src/components/PeopleList.tsx:258 | `!!jobId && progress < 100`: busy exactly when the job id is truthy and progress is below 100, so never at progress 100 or more |
| `Wire.ProgressOf` | src/components/PeopleList.tsx:174 | `data.progress`, falling back to 0: an absent progress reads as 0, a present one as itself |
| `PeopleList.InitConsistent` | src/components/PeopleList.tsx:151-157 | a new card has no job, is not busy and satisfies the watcher invariant |
| `PeopleList.LatestResult` | src/components/PeopleList.tsx:209-223 | a non-empty array yields its last element; an empty array, a non-array body or a failed fetch yields null |
| `PeopleList.LatestResultIsMostRecent` | src/components/PeopleList.tsx:214-218 | whatever precedes it, the most recently appended snippet is the one selected |
| `PeopleList.Complete` | src/components/PeopleList.tsx:162-168 | `handleComplete` leaves the stream and the interval not live, schedules exactly one more fetch, and changes nothing else |
| `PeopleList.Watch` | src/components/PeopleList.tsx:156-186 | the effect sets up no channel for a falsy job id; otherwise the stream is live, or polling is live when the stream cannot be constructed |
| `PeopleList.Cleanup` | src/components/PeopleList.tsx:188-191 | the effect's cleanup leaves no channel live and changes nothing else |
| `PeopleList.Research` | src/components/PeopleList.tsx:226-247 | results, progress and error are reset. `isExisting` shows `data` with progress 100 and the job id unchanged. A new id re-runs the watcher for that id; the same id leaves the channels as they were. A failed request sets "Failed to start research". The invariant is kept |
| `PeopleList.PushMessage` | src/components/PeopleList.tsx:172-178 | progress becomes the payload's progress. A non-completed state changes nothing else. `completed` leads to exactly `Complete` applied to the card with the new progress: the stream is closed, polling is not live and one fetch is scheduled |
| `PeopleList.PushError` | src/components/PeopleList.tsx:179-186 | the stream is closed and polling is started, so push is no longer live and pull is live; the invariant is kept |
| `PeopleList.PollTick` | src/components/PeopleList.tsx:194-207 | a failed tick changes nothing, so polling continues. An ok tick sets progress. `completed` leads to exactly `Complete` applied to the card with the new progress: the interval is cleared, the stream is not live and one fetch is scheduled. This holds for a late tick too |
| `PeopleList.ResultsFetched` | src/components/PeopleList.tsx:209-223 | a delivered fetch sets results to the selected snippet (null on error) and nothing else |
| `PeopleList.Unmount` | src/components/PeopleList.tsx:188-191 | disposal closes the stream and clears polling |
| `PeopleList.RunKeepsConsistent` | src/components/PeopleList.tsx:156-206 | after any sequence of events: no channel exists without a job id, pull is never live together with push, and nothing is live after unmount |
| `PeopleList.PullNeverReturnsToPush` | src/components/PeopleList.tsx:179-186 | once polling has started, no later event short of a new research click makes the stream live again or forgets the interval |
| `PeopleList.PushProgressTracksLatest` | src/components/PeopleList.tsx:172-178 | over any non-empty run of non-completed push updates, the card shows the last update's progress, the stream stays live and no fetch is scheduled |
| `PeopleList.RepeatedCompletionRefetches` | src/components/PeopleList.tsx:200-202 | two completed ticks schedule two fetches, and the channels stay closed: there is no latch |
| `PeopleList.ExistingResearchNotBusy` | src/components/PeopleList.tsx:237-239 | an existing research shows its data and leaves the button enabled |
| `PeopleList.FailedRestartStaysBusy` | src/components/PeopleList.tsx:226-258 | after a finished job, a failed request leaves the card busy with no live channel |
| `PeopleList.StaysBusyWithoutTicks` | src/components/PeopleList.tsx:172-206 | a busy card whose stream is not live stays busy, with the stream not live, through any events other than poll responses |
| `PeopleList.FailedRestartStuck` | src/components/PeopleList.tsx:226-258 | after a job that finished over the stream (polling never started), a failed new request leaves the card busy after every later sequence of events |
| `PeopleList.PollUnsetStaysBusy` | src/components/PeopleList.tsx:156-206 | with the stream not live and no interval ever started, a busy card stays busy through any events, and neither channel becomes live |
| `PeopleList.FailoverScenario` | src/components/PeopleList.tsx:179-218 | for a new job whose stream errors at once, polling takes over: a running tick shows 20, a completed tick closes everything and schedules a fetch, and the last snippet is shown with the button enabled |
| `PeopleList.PersonCard.IsResearching` | src/components/PeopleList.tsx:258-269 | the button is disabled and reads "Researching..." exactly while the job id is truthy and progress is below 100 |
| `PeopleList.PersonCard.constructor` | src/components/PeopleList.tsx:151-154 | the state cells start as no job, 0, null, null, with no channel |
| `PeopleList.PersonCard.HandleComplete` | src/components/PeopleList.tsx:162-168 | updates the fields as `Complete` |
| `PeopleList.PersonCard.RunEffect` | src/components/PeopleList.tsx:156-186 | updates the channels as `Watch` |
| `PeopleList.PersonCard.StartResearch` | src/components/PeopleList.tsx:226-247 | updates the fields as `Research` and keeps the invariant |
| `PeopleList.PersonCard.OnPushMessage` | src/components/PeopleList.tsx:172-178 | updates the fields as `PushMessage` and keeps the invariant |
| `PeopleList.PersonCard.OnPushError` | src/components/PeopleList.tsx:179-183 | updates the fields as `PushError` and keeps the invariant |
| `PeopleList.PersonCard.OnPollTick` | src/components/PeopleList.tsx:195-206 | updates the fields as `PollTick` and keeps the invariant |
| `PeopleList.PersonCard.OnResultsFetched` | src/components/PeopleList.tsx:209-223 | updates the fields as `ResultsFetched` and keeps the invariant |
| `PeopleList.PersonCard.Dispose` | src/components/PeopleList.tsx:188-191 | updates the fields as `Unmount` and keeps the invariant |
| `PeopleListNew.InitConsistent` | src/components/PeopleList.new.tsx:56-59 | a new card monitors nothing and is not busy |
| `PeopleListNew.PathId` | src/components/PeopleList.new.tsx:121 | the id in the stream path: the job id itself, or "undefined" when it is absent |
| `PeopleListNew.FirstResult` | src/components/PeopleList.new.tsx:65 | the first element or null: a truthy first element is selected; an empty array, a falsy first element or a non-array body gives null; a `null` body throws |
| `PeopleListNew.FirstResultIsEarliest` | src/components/PeopleList.new.tsx:65 | the first snippet is selected whatever follows it; a falsy first element gives null even when later ones are truthy |
| `PeopleListNew.Monitor` | src/components/PeopleList.new.tsx:119-141 | `monitorJobProgress(id)` adds exactly one live channel for `id`: a stream, or an interval when the stream cannot be constructed |
| `PeopleListNew.Research` | src/components/PeopleList.new.tsx:93-117 | results, progress and error are reset. `isExisting` shows `data` with progress 100 and monitors nothing. A new job stores its id and monitors that same id. A failed request sets "Failed to start research" |
| `PeopleListNew.PushMessage` | src/components/PeopleList.new.tsx:123-130 | progress becomes the payload's progress. `completed` requests a results fetch and closes this stream, whose monitor is then finished, and nothing else changes |
| `PeopleListNew.PushError` | src/components/PeopleList.new.tsx:132-139 | the stream for `id` is closed and an interval polling the same `id` starts |
| `PeopleListNew.PollTick` | src/components/PeopleList.new.tsx:72-91 | an ok tick sets progress. `completed` clears this interval, then requests the results. A failed tick sets "Error checking research status" and clears the interval. Either way the cleared interval's monitor is finished |
| `PeopleListNew.ResultsFetched` | src/components/PeopleList.new.tsx:61-70 | a selected value becomes the results. A failed fetch, or a `null` body, sets "Failed to fetch results" and leaves the results untouched |
| `PeopleListNew.Unmount` | src/components/PeopleList.new.tsx:119-141 | unmounting cleans nothing up, so every stream and interval stays live |
| `PeopleListNew.RunKeepsConsistent` | src/components/PeopleList.new.tsx:72-141 | after any sequence of events, for each job id, the live streams plus the running intervals plus the finished monitors equal the `monitorJobProgress` calls: every monitor holds exactly one live channel until it completes or its poll fails |
| `PeopleListNew.LiveChannelsBounded` | src/components/PeopleList.new.tsx:119-141 | from a fresh card, the live streams, running intervals and finished monitors add up to the `monitorJobProgress` calls, so the live channels never outnumber them |
| `PeopleListNew.PollErrorStopsPolling` | src/components/PeopleList.new.tsx:83-87 | a failed tick ends polling of that id, so no further tick is handled, and the error is shown |
| `PeopleListNew.NewJobMonitorsSameId` | src/components/PeopleList.new.tsx:108-111 | a fresh job stores its id and opens a stream, or an interval, for that same id |
| `PeopleListNew.PersonCard.IsResearching` | src/components/PeopleList.new.tsx:152-155 | the button is disabled and reads "Researching..." exactly while the job id is truthy and progress is below 100 |
| `PeopleListNew.PersonCard.constructor` | src/components/PeopleList.new.tsx:56-59 | the state cells start as no job, 0, null, null, with nothing monitored |
| `PeopleListNew.PersonCard.MonitorJobProgress` | src/components/PeopleList.new.tsx:119-141 | updates the channels as `Monitor` |
| `PeopleListNew.PersonCard.StartResearch` | src/components/PeopleList.new.tsx:93-117 | updates the fields as `Research` and keeps the invariant |
| `PeopleListNew.PersonCard.OnPushMessage` | src/components/PeopleList.new.tsx:123-130 | updates the fields as `PushMessage` and keeps the invariant |
| `PeopleListNew.PersonCard.StopStream` | src/components/PeopleList.new.tsx:126-129 | closing the stream for `id` removes that stream and marks its monitor finished, and keeps the invariant |
| `PeopleListNew.PersonCard.OnPushError` | src/components/PeopleList.new.tsx:132-136 | updates the fields as `PushError` and keeps the invariant |
| `PeopleListNew.PersonCard.OnPollTick` | src/components/PeopleList.new.tsx:73-88 | updates the fields as `PollTick` and keeps the invariant |
| `PeopleListNew.PersonCard.StopPolling` | src/components/PeopleList.new.tsx:80-87 | clearing the interval for `id` removes that interval and marks its monitor finished, and keeps the invariant |
| `PeopleListNew.PersonCard.OnResultsFetched` | src/components/PeopleList.new.tsx:61-70 | updates the fields as `ResultsFetched` and keeps the invariant |
| `PeopleListNew.PersonCard.Dispose` | src/components/PeopleList.new.tsx:55-59 | updates the fields as `Unmount`, so the channels are untouched |
| `ResearchProgressView.InitConsistent` | src/components/ResearchProgress.tsx:15-36 | after mounting, the stream is live and nothing is fetched or completed |
| `ResearchProgressView.IsTerminal` | src/components/ResearchProgress.tsx:43 | a status is terminal exactly when it is "completed" or "failed"; an absent status is not |
| `ResearchProgressView.PushMessage` | src/components/ResearchProgress.tsx:38-49 | progress becomes `data.progress`, or 0 when absent, and the status becomes `data.status`. The stream closes exactly for `completed` or `failed`. Exactly one fetch is requested for `completed`, and none otherwise |
| `ResearchProgressView.PushError` | src/components/ResearchProgress.tsx:51-54 | sets "Lost connection to server" and closes the stream; nothing else changes, so there is no fallback |
| `ResearchProgressView.ResultsFetched` | src/components/ResearchProgress.tsx:21-33 | a successful fetch stores the body and then calls `onComplete` once; if `onComplete` throws, "Failed to load results" is set after the body was stored. A failure sets "Failed to load results", keeps the results and does not call `onComplete`. After unmount a success still calls `onComplete`, while results and error stay as they were |
| `ResearchProgressView.Unmount` | src/components/ResearchProgress.tsx:56-58 | disposal closes the stream |
| `ResearchProgressView.RunKeepsConsistent` | src/components/ResearchProgress.tsx:20-59 | after any sequence of events: a live stream means nothing is fetched and the status is not terminal. At most one fetch is ever requested, and only after `completed` |
| `ResearchProgressView.CompletesAtMostOnce` | src/components/ResearchProgress.tsx:43-47 | from mount, `onComplete` is called at most once, only after `completed`, and never when the job failed |
| `ResearchProgressView.ClosedStreamFreezesStatus` | src/components/ResearchProgress.tsx:43-54 | once the stream is closed, no event changes progress or status, reopens the stream or requests another fetch |
| `ResearchProgressView.CompletedScenario` | src/components/ResearchProgress.tsx:21-49 | progress 40, then completed: the stream closes, one fetch is requested, and its success stores the body and calls `onComplete` once |
| `ResearchProgressView.CompletionAfterUnmount` | src/components/ResearchProgress.tsx:21-58 | a results fetch in flight when the panel is disposed still calls `onComplete` once on success, and the panel's own results stay as they were |
| `ResearchProgressView.ResearchProgress.constructor` | src/components/ResearchProgress.tsx:15-36 | the state cells start at 0, "", null, null with the stream live |
| `ResearchProgressView.ResearchProgress.OnPushMessage` | src/components/ResearchProgress.tsx:38-49 | updates the fields as `PushMessage` and keeps the invariant |
| `ResearchProgressView.ResearchProgress.OnPushError` | src/components/ResearchProgress.tsx:51-54 | updates the fields as `PushError` and keeps the invariant |
| `ResearchProgressView.ResearchProgress.OnResultsFetched` | src/components/ResearchProgress.tsx:21-33 | updates the fields as `ResultsFetched` and keeps the invariant |
| `ResearchProgressView.ResearchProgress.Dispose` | src/components/ResearchProgress.tsx:56-58 | updates the fields as `Unmount` and keeps the invariant |

## Left out

- Rendering: the JSX of both cards and the panel, styling, the people list with its loading state and view toggle (`PeopleList`, src/components/PeopleList.tsx:26-143), `CreateCompanyForm` and `App`. These are user interface and hold no watcher logic.
- `apiFetch` (src/utils/api.ts): URL building, headers and throwing on a non-ok status are collapsed into the outcome `Ok(body) | Err`. The plain `fetch` of PeopleList.new.tsx does not check the status, so there a non-ok response with a JSON body is an `Ok`.
- Timing: the 3000 ms interval and the 1000 ms delay before fetching results appear only as "polling is live" and "a fetch is scheduled". Times are not modelled.
- Asynchrony: each request is merged with its response into one event. The reset in `handleResearch` and the handling of the enrich reply happen in one step. Callbacks that interleave with others are not modelled. In the two cards, callbacks that arrive after unmount are not modelled either: React discards their state updates. Examples are the uncancelled 1000 ms timeout and an in-flight poll response. In PeopleList.new.tsx this means the streams and intervals still live at unmount are never closed in the model, although a later `completed` or poll error would close them. `ResearchProgress`'s results fetch after unmount is modelled, because it still calls `onComplete`.
- PeopleList.tsx: a poll response in flight from the closure of an earlier effect run, after the job id has changed, is not modelled. Late ticks of the current run are.
- PeopleList.new.tsx: a poll response that arrives after its interval was cleared is not modelled. The cleanup functions returned from `onerror` and `catch` are never called by anything, so they do nothing.
- ResearchProgress.tsx: the effect is re-run when `jobId`, `personId` or the identity of `onComplete` changes. The model covers one mount with fixed properties.
- `EventSource` reconnection and other browser internals: a stream is live, errored or closed.
- `JSON.parse` failures inside `onmessage`: they throw inside the handler, and the code defines no behaviour for them.
- Progress values: only absent or integer progress is modelled; floating-point and NaN are not.
- `PeopleListNew.FirstResult`: it does not model a non-empty string body, whose `data[0]` is its first character. Non-array bodies are `null`, falsy primitives or records.
- Result records are opaque (`Snippet`): their fields are only displayed.
