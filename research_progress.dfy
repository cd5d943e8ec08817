/**
 * The push-only watcher of `ResearchProgress` in
 * src/components/ResearchProgress.tsx.
 *
 * On mount the panel opens a stream for its job. Each message sets progress
 * and the displayed status (read from `status`, not `state`); `completed`
 * and `failed` are terminal and close the stream, and only `completed`
 * fetches the person's results, after which `onComplete` is called. A
 * stream error is reported as a lost connection and closes the stream;
 * there is no polling fallback.
 *
 * `Panel` is the panel's state: its four state cells, the stream, the
 * number of results fetches in flight, and how many times `onComplete`
 * has been called.
 */
module ResearchProgressView {
  import opened Wire

  const LoadFailed: string := "Failed to load results"
  const ConnectionLost: string := "Lost connection to server"

  datatype Panel = Panel(
    progress: int,
    status: Option<string>,
    error: Option<string>,
    results: Body,
    eventSource: Channel,
    pendingFetches: nat,
    completions: nat,
    mounted: bool)

  /** After mounting: the effect has opened the stream. */
  function Init(): Panel {
    Panel(0, Some(""), None, Single(Null), Open, 0, 0, true)
  }

  /** `['completed', 'failed'].includes(data.status)`: an absent status is not terminal. */
  function IsTerminal(status: Option<string>): (b: bool)
    ensures b <==> status == Some("completed") || status == Some("failed")
    ensures status == None ==> !b
  {
    status == Some(Completed) || status == Some(Failed)
  }

  /**
   * While the stream is live nothing has been fetched or completed and the
   * status is not terminal; at most one results fetch is ever issued, and
   * only after `completed`; an unmounted panel has closed its stream.
   */
  ghost predicate Consistent(p: Panel) {
    && (p.eventSource == Open ==> p.pendingFetches == 0 && p.completions == 0 && !IsTerminal(p.status))
    && p.pendingFetches + p.completions <= 1
    && (p.pendingFetches + p.completions == 1 ==> p.status == Some(Completed))
    && p.eventSource != Unset
    && (!p.mounted ==> p.eventSource == Closed)
  }

  lemma InitConsistent()
    ensures Consistent(Init())
  {
  }

  /**
   * `onmessage`: progress is the payload's progress (0 when absent) and the
   * status its `status`; a terminal status closes the stream, and only
   * `completed` requests the results.
   */
  function PushMessage(p: Panel, u: Update): (p': Panel)
    requires p.mounted && p.eventSource == Open
    ensures p'.progress == ProgressOf(u) && p'.status == u.status
    ensures p'.eventSource == Closed <==> IsTerminal(u.status)
    ensures !IsTerminal(u.status) ==> p'.eventSource == Open
    ensures p'.pendingFetches == p.pendingFetches + (if u.status == Some(Completed) then 1 else 0)
    ensures p' == p.(progress := p'.progress, status := p'.status, eventSource := p'.eventSource,
                     pendingFetches := p'.pendingFetches)
    ensures Consistent(p) ==> Consistent(p')
  {
    var p1 := p.(progress := ProgressOf(u), status := u.status);
    if IsTerminal(u.status) then
      var p2 := p1.(eventSource := Closed);
      if u.status == Some(Completed) then p2.(pendingFetches := p.pendingFetches + 1) else p2
    else p1
  }

  /** `onerror`: report the lost connection and close; nothing else takes over. */
  function PushError(p: Panel): (p': Panel)
    requires p.mounted && p.eventSource == Open
    ensures p'.error == Some(ConnectionLost) && p'.eventSource == Closed
    ensures p' == p.(error := Some(ConnectionLost), eventSource := Closed)
    ensures Consistent(p) ==> Consistent(p')
  {
    p.(error := Some(ConnectionLost), eventSource := Closed)
  }

  /**
   * `fetchResultsData` finishes. On success the body is stored and then
   * `onComplete` is called; if `onComplete` throws, the catch reports
   * `LoadFailed` after the body was stored. A non-ok response or a thrown
   * request reports `LoadFailed`, keeps the results and does not call
   * `onComplete`. The cleanup does not cancel the fetch: after unmount React
   * drops the panel's own state updates, but `onComplete` is still called.
   */
  function ResultsFetched(p: Panel, r: Fetched<Body>, completeThrows: bool): (p': Panel)
    requires p.pendingFetches > 0
    ensures p'.pendingFetches == p.pendingFetches - 1
    ensures r.Ok? ==> p'.completions == p.completions + 1
    ensures r.Err? ==> p'.completions == p.completions
    ensures p.mounted && r.Ok? ==>
              p'.results == r.body && p'.error == (if completeThrows then Some(LoadFailed) else p.error)
    ensures p.mounted && r.Err? ==> p'.results == p.results && p'.error == Some(LoadFailed)
    ensures !p.mounted ==> p'.results == p.results && p'.error == p.error
    ensures p' == p.(results := p'.results, error := p'.error, pendingFetches := p'.pendingFetches,
                     completions := p'.completions)
    ensures Consistent(p) ==> Consistent(p')
  {
    var p1 := p.(pendingFetches := p.pendingFetches - 1);
    match r
    case Ok(body) =>
      var called := p1.(completions := p.completions + 1);
      if !p.mounted then called
      else if completeThrows then called.(results := body, error := Some(LoadFailed))
      else called.(results := body)
    case Err =>
      if p.mounted then p1.(error := Some(LoadFailed)) else p1
  }

  /** The effect's cleanup closes the stream. */
  function Unmount(p: Panel): (p': Panel)
    requires p.mounted
    ensures !p'.mounted && p'.eventSource == Close(p.eventSource)
    ensures p' == p.(eventSource := p'.eventSource, mounted := false)
    ensures Consistent(p) ==> Consistent(p')
  {
    p.(eventSource := Close(p.eventSource), mounted := false)
  }

  datatype Event =
    | Message(update: Update)
    | StreamError
    | ResultsArrive(snippets: Fetched<Body>, completeThrows: bool)
    | Unmounted

  /** Stream events need a mounted panel; a fetch in flight also arrives after unmount. */
  predicate Enabled(p: Panel, e: Event) {
    match e
    case Message(_) => p.mounted && p.eventSource == Open
    case StreamError => p.mounted && p.eventSource == Open
    case ResultsArrive(_, _) => p.pendingFetches > 0
    case Unmounted => p.mounted
  }

  function Step(p: Panel, e: Event): Panel
    requires Enabled(p, e)
  {
    match e
    case Message(u) => PushMessage(p, u)
    case StreamError => PushError(p)
    case ResultsArrive(r, throws) => ResultsFetched(p, r, throws)
    case Unmounted => Unmount(p)
  }

  function Run(p: Panel, es: seq<Event>): Panel
    decreases |es|
  {
    if es == [] then p
    else if Enabled(p, es[0]) then Run(Step(p, es[0]), es[1..])
    else Run(p, es[1..])
  }

  lemma {:induction false} RunKeepsConsistent(p: Panel, es: seq<Event>)
    requires Consistent(p)
    ensures Consistent(Run(p, es))
    decreases |es|
  {
    if es != [] {
      if Enabled(p, es[0]) {
        RunKeepsConsistent(Step(p, es[0]), es[1..]);
      } else {
        RunKeepsConsistent(p, es[1..]);
      }
    }
  }

  /**
   * Whatever the stream delivers, `onComplete` is called at most once, only
   * after a `completed` status, and never when the job failed.
   */
  lemma CompletesAtMostOnce(es: seq<Event>)
    ensures Run(Init(), es).completions <= 1
    ensures Run(Init(), es).completions == 1 ==> Run(Init(), es).status == Some(Completed)
    ensures Run(Init(), es).status == Some(Failed) ==>
              Run(Init(), es).completions == 0 && Run(Init(), es).pendingFetches == 0
  {
    InitConsistent();
    RunKeepsConsistent(Init(), es);
  }

  /**
   * A terminal status ends the watch: once the stream is closed no message,
   * error or further fetch request can change progress or status.
   */
  lemma {:induction false} ClosedStreamFreezesStatus(p: Panel, es: seq<Event>)
    requires p.eventSource == Closed
    ensures Run(p, es).progress == p.progress && Run(p, es).status == p.status
    ensures Run(p, es).eventSource == Closed
    ensures Run(p, es).pendingFetches <= p.pendingFetches
    decreases |es|
  {
    if es != [] {
      if Enabled(p, es[0]) {
        ClosedStreamFreezesStatus(Step(p, es[0]), es[1..]);
      } else {
        ClosedStreamFreezesStatus(p, es[1..]);
      }
    }
  }

  /**
   * Progress 40 then completed: the stream closes, one fetch is issued, and
   * its success stores the body and calls `onComplete` once.
   */
  lemma CompletedScenario(body: Body)
    ensures
      var p1 := PushMessage(Init(), Update(Some(40), None, Some("running")));
      var p2 := PushMessage(p1, Update(Some(100), None, Some(Completed)));
      var p3 := ResultsFetched(p2, Ok(body), false);
      && p1.progress == 40 && p1.eventSource == Open
      && p2.progress == 100 && p2.eventSource == Closed && p2.pendingFetches == 1
      && p3.results == body && p3.completions == 1
  {
  }

  /**
   * Unmounting does not cancel a results fetch already in flight: when it
   * succeeds, `onComplete` is still called, after disposal, while the
   * panel's own state stays as it was.
   */
  lemma CompletionAfterUnmount(body: Body)
    ensures
      var p1 := PushMessage(Init(), Update(Some(100), None, Some(Completed)));
      var p2 := Unmount(p1);
      var p3 := ResultsFetched(p2, Ok(body), false);
      && p2.eventSource == Closed && !p2.mounted && p2.pendingFetches == 1
      && p3.completions == 1 && p3.results == Init().results
  {
  }

  class ResearchProgress {
    var progress: int
    var status: Option<string>
    var error: Option<string>
    var results: Body
    var eventSource: Channel
    var pendingFetches: nat
    var completions: nat
    var mounted: bool

    function State(): Panel
      reads this
    {
      Panel(progress, status, error, results, eventSource, pendingFetches, completions, mounted)
    }

    ghost predicate Valid()
      reads this
    {
      Consistent(State())
    }

    /** Mounting runs the effect, which opens the stream. */
    constructor ()
      ensures State() == Init() && Valid()
    {
      progress, status, error, results := 0, Some(""), None, Single(Null);
      eventSource, pendingFetches, completions, mounted := Open, 0, 0, true;
    }

    method OnPushMessage(u: Update)
      requires mounted && eventSource == Open && Valid()
      modifies this
      ensures State() == PushMessage(old(State()), u) && Valid()
    {
      progress := ProgressOf(u);
      status := u.status;
      if IsTerminal(u.status) {
        eventSource := Closed;
        if u.status == Some(Completed) {
          pendingFetches := pendingFetches + 1;
        }
      }
    }

    method OnPushError()
      requires mounted && eventSource == Open && Valid()
      modifies this
      ensures State() == PushError(old(State())) && Valid()
    {
      error := Some(ConnectionLost);
      eventSource := Closed;
    }

    /** A fetch may finish after `Dispose`; then only `onComplete` has an effect. */
    method OnResultsFetched(r: Fetched<Body>, completeThrows: bool)
      requires pendingFetches > 0 && Valid()
      modifies this
      ensures State() == ResultsFetched(old(State()), r, completeThrows) && Valid()
    {
      pendingFetches := pendingFetches - 1;
      match r
      case Ok(body) =>
        if mounted {
          results := body;
        }
        completions := completions + 1;
        if mounted && completeThrows {
          error := Some(LoadFailed);
        }
      case Err =>
        if mounted {
          error := Some(LoadFailed);
        }
    }

    method Dispose()
      requires mounted && Valid()
      modifies this
      ensures State() == Unmount(old(State())) && Valid()
    {
      eventSource := Close(eventSource);
      mounted := false;
    }
  }
}
