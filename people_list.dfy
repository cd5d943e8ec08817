/**
 * The research watcher of `PersonCard` in src/components/PeopleList.tsx.
 *
 * A card starts research for a person; on a fresh job it stores the job id,
 * and the effect keyed on that id watches the job over a server-push stream,
 * falling back to polling every 3000 ms when the stream errors or cannot be
 * constructed. A `completed` state from either channel closes both channels
 * and schedules (after 1000 ms) a fetch of the results, of which the last
 * element is shown.
 *
 * `Card` is the card's state: the four React state cells, the effect's two
 * closure locals `eventSource` and `pollInterval`, the number of scheduled
 * results fetches not yet delivered, and whether the card is mounted.
 * Each handler is a function on `Card` (its specification) and a method of
 * the class `PersonCard` that updates the fields in place.
 */
module PeopleList {
  import opened Wire

  const StartFailed: string := "Failed to start research"

  datatype Card = Card(
    jobId: Option<string>,
    progress: int,
    results: Value,
    errorMessage: Option<string>,
    eventSource: Channel,
    pollInterval: Channel,
    pendingFetches: nat,
    mounted: bool)

  /** A freshly mounted card: no job, nothing watched. */
  function Init(): Card {
    Card(None, 0, Null, None, Unset, Unset, 0, true)
  }

  /**
   * The watcher's invariant: without a job id no channel exists; polling is
   * only ever started once push is no longer live (push fails over to pull,
   * never the reverse, never both at once); an unmounted card holds no live
   * channel.
   */
  ghost predicate Consistent(c: Card) {
    && (!Truthy(c.jobId) ==> c.eventSource == Unset && c.pollInterval == Unset)
    && (c.pollInterval != Unset ==> c.eventSource != Open)
    && (!c.mounted ==> c.eventSource != Open && c.pollInterval != Open)
  }

  lemma InitConsistent()
    ensures Consistent(Init()) && !Busy(Init().jobId, Init().progress)
  {
  }

  /** Result selection of `fetchResults`: the last element of a non-empty array, otherwise null. */
  function LatestResult(r: Fetched<Body>): (v: Value)
    ensures r.Ok? && r.body.List? && |r.body.items| > 0 ==> v == r.body.items[|r.body.items| - 1]
    ensures r.Err? || r.body.Single? || r.body.items == [] ==> v == Null
  {
    match r
    case Err => Null
    case Ok(List(items)) => if |items| > 0 then items[|items| - 1] else Null
    case Ok(Single(_)) => Null
  }

  /** The most recently produced snippet wins, whatever precedes it. */
  lemma LatestResultIsMostRecent(earlier: seq<Value>, latest: Value)
    ensures LatestResult(Ok(List(earlier + [latest]))) == latest
    ensures LatestResult(Ok(List([]))) == Null
  {
  }

  /** `handleComplete`: schedule one results fetch, close the stream, clear the interval. */
  function Complete(c: Card): (c': Card)
    ensures c'.eventSource != Open && c'.pollInterval != Open
    ensures c'.pendingFetches == c.pendingFetches + 1
    ensures c' == c.(eventSource := c'.eventSource, pollInterval := c'.pollInterval, pendingFetches := c'.pendingFetches)
    ensures (c'.eventSource == Unset <==> c.eventSource == Unset) && (c'.pollInterval == Unset <==> c.pollInterval == Unset)
  {
    c.(pendingFetches := c.pendingFetches + 1, eventSource := Close(c.eventSource), pollInterval := Close(c.pollInterval))
  }

  /**
   * The effect keyed on `jobId`, run for the card's current id: nothing for a
   * falsy id; otherwise open the stream, or start polling if the stream
   * cannot be constructed.
   */
  function Watch(c: Card, streamOpens: bool): (c': Card)
    ensures !Truthy(c.jobId) ==> c'.eventSource == Unset && c'.pollInterval == Unset
    ensures Truthy(c.jobId) && streamOpens ==> c'.eventSource == Open && c'.pollInterval == Unset
    ensures Truthy(c.jobId) && !streamOpens ==> c'.eventSource == Unset && c'.pollInterval == Open
    ensures c' == c.(eventSource := c'.eventSource, pollInterval := c'.pollInterval)
  {
    if !Truthy(c.jobId) then c.(eventSource := Unset, pollInterval := Unset)
    else if streamOpens then c.(eventSource := Open, pollInterval := Unset)
    else c.(eventSource := Unset, pollInterval := Open)
  }

  /** The effect's cleanup: close the stream and clear the interval. */
  function Cleanup(c: Card): (c': Card)
    ensures c'.eventSource != Open && c'.pollInterval != Open
    ensures c' == c.(eventSource := c'.eventSource, pollInterval := c'.pollInterval)
  {
    c.(eventSource := Close(c.eventSource), pollInterval := Close(c.pollInterval))
  }

  /**
   * `handleResearch`, clicked while the button is enabled. State is reset;
   * an existing research is shown at once with progress 100 and the job id
   * untouched; a new job id re-runs the watcher effect (cleanup first); a
   * failed request reports `StartFailed`.
   */
  function Research(c: Card, reply: Fetched<EnrichReply>, streamOpens: bool): (c': Card)
    requires c.mounted && !Busy(c.jobId, c.progress)
    ensures c'.mounted && c'.pendingFetches == c.pendingFetches
    ensures reply.Err? ==> c' == c.(results := Null, progress := 0, errorMessage := Some(StartFailed))
    ensures reply.Ok? && reply.body.isExisting ==>
              c' == c.(results := reply.body.data, progress := 100, errorMessage := None)
    ensures reply.Ok? && !reply.body.isExisting ==>
              && c'.jobId == reply.body.jobId && c'.results == Null && c'.progress == 0 && c'.errorMessage == None
    ensures reply.Ok? && !reply.body.isExisting && reply.body.jobId == c.jobId ==>
              c'.eventSource == c.eventSource && c'.pollInterval == c.pollInterval
    ensures reply.Ok? && !reply.body.isExisting && reply.body.jobId != c.jobId ==>
              && (!Truthy(c'.jobId) ==> c'.eventSource == Unset && c'.pollInterval == Unset)
              && (Truthy(c'.jobId) && streamOpens ==> c'.eventSource == Open && c'.pollInterval == Unset)
              && (Truthy(c'.jobId) && !streamOpens ==> c'.eventSource == Unset && c'.pollInterval == Open)
    ensures Consistent(c) ==> Consistent(c')
  {
    var reset := c.(results := Null, progress := 0, errorMessage := None);
    match reply
    case Err => reset.(errorMessage := Some(StartFailed))
    case Ok(r) =>
      if r.isExisting then reset.(results := r.data, progress := 100)
      else if r.jobId == c.jobId then reset
      else Watch(Cleanup(reset).(jobId := r.jobId), streamOpens)
  }

  /**
   * `eventSource.onmessage`: progress becomes the payload's progress (0 when
   * absent); only `state == "completed"` completes, closing both channels and
   * scheduling one results fetch.
   */
  function PushMessage(c: Card, u: Update): (c': Card)
    requires c.mounted && c.eventSource == Open
    ensures c'.progress == ProgressOf(u)
    ensures u.state != Some(Completed) ==> c' == c.(progress := ProgressOf(u))
    ensures u.state == Some(Completed) ==>
              && c' == Complete(c.(progress := ProgressOf(u)))
              && c'.eventSource == Closed && c'.pollInterval != Open
              && c'.pendingFetches == c.pendingFetches + 1
    ensures Consistent(c) ==> Consistent(c')
  {
    var c1 := c.(progress := ProgressOf(u));
    if u.state == Some(Completed) then Complete(c1) else c1
  }

  /** `eventSource.onerror`: close the stream, then poll every 3000 ms instead. */
  function PushError(c: Card): (c': Card)
    requires c.mounted && c.eventSource == Open
    ensures c'.eventSource == Closed && c'.pollInterval == Open
    ensures c' == c.(eventSource := Closed, pollInterval := Open)
    ensures Consistent(c) ==> Consistent(c')
  {
    c.(eventSource := Close(c.eventSource), pollInterval := Open)
  }

  /**
   * One poll tick's response. The interval has been started; it may already
   * be cleared, as a tick in flight still delivers its response. A failed
   * request changes nothing and polling goes on; otherwise as a push message.
   */
  function PollTick(c: Card, r: Fetched<Update>): (c': Card)
    requires c.mounted && c.pollInterval != Unset
    ensures r.Err? ==> c' == c
    ensures r.Ok? ==> c'.progress == ProgressOf(r.body)
    ensures r.Ok? && r.body.state != Some(Completed) ==> c' == c.(progress := ProgressOf(r.body))
    ensures r.Ok? && r.body.state == Some(Completed) ==>
              && c' == Complete(c.(progress := ProgressOf(r.body)))
              && c'.eventSource != Open && c'.pollInterval == Closed
              && c'.pendingFetches == c.pendingFetches + 1
    ensures Consistent(c) ==> Consistent(c')
  {
    match r
    case Err => c
    case Ok(u) =>
      var c1 := c.(progress := ProgressOf(u));
      if u.state == Some(Completed) then Complete(c1) else c1
  }

  /** A scheduled `fetchResults` delivers: results become the latest snippet, or null. */
  function ResultsFetched(c: Card, r: Fetched<Body>): (c': Card)
    requires c.mounted && c.pendingFetches > 0
    ensures c'.results == LatestResult(r)
    ensures c' == c.(results := c'.results, pendingFetches := c.pendingFetches - 1)
    ensures Consistent(c) ==> Consistent(c')
  {
    c.(results := LatestResult(r), pendingFetches := c.pendingFetches - 1)
  }

  /** Unmounting runs the effect's cleanup. */
  function Unmount(c: Card): (c': Card)
    requires c.mounted
    ensures !c'.mounted && c'.eventSource != Open && c'.pollInterval != Open
    ensures c' == Cleanup(c).(mounted := false)
    ensures Consistent(c) ==> Consistent(c')
  {
    Cleanup(c).(mounted := false)
  }

  /** The events a card reacts to, one handler run at a time. */
  datatype Event =
    | Click(reply: Fetched<EnrichReply>, streamOpens: bool)
    | Message(update: Update)
    | StreamError
    | Tick(status: Fetched<Update>)
    | ResultsArrive(snippets: Fetched<Body>)
    | Unmounted

  /** Whether the runtime can deliver `e` to a card in state `c`. */
  predicate Enabled(c: Card, e: Event) {
    c.mounted &&
    match e
    case Click(_, _) => !Busy(c.jobId, c.progress)
    case Message(_) => c.eventSource == Open
    case StreamError => c.eventSource == Open
    case Tick(_) => c.pollInterval != Unset
    case ResultsArrive(_) => c.pendingFetches > 0
    case Unmounted => true
  }

  function Step(c: Card, e: Event): Card
    requires Enabled(c, e)
  {
    match e
    case Click(reply, streamOpens) => Research(c, reply, streamOpens)
    case Message(u) => PushMessage(c, u)
    case StreamError => PushError(c)
    case Tick(r) => PollTick(c, r)
    case ResultsArrive(r) => ResultsFetched(c, r)
    case Unmounted => Unmount(c)
  }

  /** Deliver the events in order; one the runtime could not deliver in the current state is dropped. */
  function Run(c: Card, es: seq<Event>): Card
    decreases |es|
  {
    if es == [] then c
    else if Enabled(c, es[0]) then Run(Step(c, es[0]), es[1..])
    else Run(c, es[1..])
  }

  /** The watcher invariant holds after any sequence of events. */
  lemma {:induction false} RunKeepsConsistent(c: Card, es: seq<Event>)
    requires Consistent(c)
    ensures Consistent(Run(c, es))
    decreases |es|
  {
    if es != [] {
      if Enabled(c, es[0]) {
        RunKeepsConsistent(Step(c, es[0]), es[1..]);
      } else {
        RunKeepsConsistent(c, es[1..]);
      }
    }
  }

  predicate NoClick(es: seq<Event>) {
    forall i :: 0 <= i < |es| ==> !es[i].Click?
  }

  /**
   * Once polling has started for a job, the stream never becomes live again
   * and polling is never forgotten until a new research click.
   */
  lemma {:induction false} PullNeverReturnsToPush(c: Card, es: seq<Event>)
    requires Consistent(c) && c.pollInterval != Unset
    requires NoClick(es)
    ensures Run(c, es).pollInterval != Unset && Run(c, es).eventSource != Open
    decreases |es|
  {
    if es != [] {
      assert NoClick(es[1..]) by {
        forall i | 0 <= i < |es[1..]| ensures !es[1..][i].Click? {
          assert es[1..][i] == es[i + 1];
        }
      }
      if Enabled(c, es[0]) {
        assert !es[0].Click?;
        PullNeverReturnsToPush(Step(c, es[0]), es[1..]);
      } else {
        PullNeverReturnsToPush(c, es[1..]);
      }
    }
  }

  function Messages(us: seq<Update>): (es: seq<Event>)
    ensures |es| == |us|
    ensures forall i :: 0 <= i < |us| ==> es[i] == Message(us[i])
  {
    seq(|us|, i requires 0 <= i < |us| => Message(us[i]))
  }

  /**
   * Over a live stream delivering only non-completed updates, the card shows
   * the latest update's progress, the stream stays live and no results
   * fetch is scheduled.
   */
  lemma {:induction false} PushProgressTracksLatest(c: Card, us: seq<Update>)
    requires c.mounted && c.eventSource == Open
    requires us != []
    requires forall i :: 0 <= i < |us| ==> us[i].state != Some(Completed)
    ensures Run(c, Messages(us)).progress == ProgressOf(us[|us| - 1])
    ensures Run(c, Messages(us)).eventSource == Open
    ensures Run(c, Messages(us)).pendingFetches == c.pendingFetches
    ensures Run(c, Messages(us)) == c.(progress := ProgressOf(us[|us| - 1]))
    decreases |us|
  {
    var es := Messages(us);
    var c1 := PushMessage(c, us[0]);
    assert Enabled(c, es[0]) && Step(c, es[0]) == c1;
    assert es[1..] == Messages(us[1..]);
    if |us| == 1 {
      assert Run(c1, es[1..]) == c1;
    } else {
      PushProgressTracksLatest(c1, us[1..]);
    }
  }

  /**
   * No latch: every completed report, from either channel, schedules a
   * further results fetch while the channels stay closed.
   */
  lemma RepeatedCompletionRefetches(c: Card, u: Update)
    requires c.mounted && c.pollInterval != Unset
    requires u.state == Some(Completed)
    ensures PollTick(PollTick(c, Ok(u)), Ok(u)).pendingFetches == c.pendingFetches + 2
    ensures PollTick(PollTick(c, Ok(u)), Ok(u)).pollInterval == Closed
    ensures PollTick(PollTick(c, Ok(u)), Ok(u)).eventSource != Open
  {
  }

  /** An existing research shows its data at once and the button is enabled. */
  lemma ExistingResearchNotBusy(c: Card, reply: EnrichReply, streamOpens: bool)
    requires c.mounted && !Busy(c.jobId, c.progress) && reply.isExisting
    ensures Research(c, Ok(reply), streamOpens).results == reply.data
    ensures !Busy(Research(c, Ok(reply), streamOpens).jobId, Research(c, Ok(reply), streamOpens).progress)
  {
  }

  /**
   * After a finished job, a failed new request resets progress to 0 but
   * keeps the old job id: the button reads "Researching..." with no channel
   * live and nothing scheduled that could change it.
   */
  lemma FailedRestartStaysBusy(c: Card, streamOpens: bool)
    requires c.mounted && Truthy(c.jobId) && c.progress >= 100
    requires c.eventSource != Open && c.pollInterval != Open
    ensures Busy(Research(c, Err, streamOpens).jobId, Research(c, Err, streamOpens).progress)
    ensures Research(c, Err, streamOpens).eventSource != Open
    ensures Research(c, Err, streamOpens).pollInterval != Open
    ensures Research(c, Err, streamOpens).errorMessage == Some(StartFailed)
  {
  }

  predicate NoTick(es: seq<Event>) {
    forall i :: 0 <= i < |es| ==> !es[i].Tick?
  }

  /**
   * A busy card whose stream is not live stays busy through any events
   * other than poll responses: clicks are disabled while busy, no stream
   * message or error can arrive, and fetched results and unmounting leave
   * the job id and progress alone.
   */
  lemma {:induction false} StaysBusyWithoutTicks(c: Card, es: seq<Event>)
    requires Busy(c.jobId, c.progress) && c.eventSource != Open
    requires NoTick(es)
    ensures Busy(Run(c, es).jobId, Run(c, es).progress) && Run(c, es).eventSource != Open
    decreases |es|
  {
    if es != [] {
      assert NoTick(es[1..]) by {
        forall i | 0 <= i < |es[1..]| ensures !es[1..][i].Tick? {
          assert es[1..][i] == es[i + 1];
        }
      }
      if Enabled(c, es[0]) {
        assert !es[0].Tick?;
        StaysBusyWithoutTicks(Step(c, es[0]), es[1..]);
      } else {
        StaysBusyWithoutTicks(c, es[1..]);
      }
    }
  }

  /**
   * After a job that finished over the stream, so polling never started, a
   * failed new request leaves the card busy for good: no later event can
   * make the button usable again.
   */
  lemma FailedRestartStuck(c: Card, streamOpens: bool, es: seq<Event>)
    requires c.mounted && Truthy(c.jobId) && c.progress >= 100
    requires c.eventSource != Open && c.pollInterval == Unset
    ensures Busy(Run(Research(c, Err, streamOpens), es).jobId, Run(Research(c, Err, streamOpens), es).progress)
  {
    var c1 := Research(c, Err, streamOpens);
    PollUnsetStaysBusy(c1, es);
  }

  /** With no interval ever started and the stream not live, a busy card stays busy. */
  lemma {:induction false} PollUnsetStaysBusy(c: Card, es: seq<Event>)
    requires Busy(c.jobId, c.progress) && c.eventSource != Open && c.pollInterval == Unset
    ensures Busy(Run(c, es).jobId, Run(c, es).progress)
    ensures Run(c, es).eventSource != Open && Run(c, es).pollInterval == Unset
    decreases |es|
  {
    if es != [] {
      if Enabled(c, es[0]) {
        PollUnsetStaysBusy(Step(c, es[0]), es[1..]);
      } else {
        PollUnsetStaysBusy(c, es[1..]);
      }
    }
  }

  /**
   * A new job whose stream errors at once is watched by polling; a running
   * tick shows its progress and a completed tick stops polling and leads to
   * the last snippet being shown.
   */
  lemma FailoverScenario(jobId: string, s: Snippet)
    requires jobId != ""
    ensures
      var c0 := Research(Init(), Ok(EnrichReply(false, Some(jobId), Null)), true);
      var c1 := PushError(c0);
      var c2 := PollTick(c1, Ok(Update(Some(20), Some("running"), None)));
      var c3 := PollTick(c2, Ok(Update(Some(100), Some(Completed), None)));
      var c4 := ResultsFetched(c3, Ok(List([Null, Record(s)])));
      && c0.eventSource == Open && c1.pollInterval == Open && c2.progress == 20
      && c3.pollInterval == Closed && c3.eventSource == Closed && c3.pendingFetches == 1
      && c4.results == Record(s) && !Busy(c4.jobId, c4.progress)
  {
  }

  /** The card as an object: the component's state cells and the effect's closure locals. */
  class PersonCard {
    var jobId: Option<string>
    var progress: int
    var results: Value
    var errorMessage: Option<string>
    var eventSource: Channel
    var pollInterval: Channel
    var pendingFetches: nat
    var mounted: bool

    function State(): Card
      reads this
    {
      Card(jobId, progress, results, errorMessage, eventSource, pollInterval, pendingFetches, mounted)
    }

    ghost predicate Valid()
      reads this
    {
      Consistent(State())
    }

    /** The button state: disabled, showing "Researching..." and the progress bar. */
    function IsResearching(): (b: bool)
      reads this
      ensures b <==> Busy(jobId, progress)
    {
      Truthy(jobId) && progress < 100
    }

    constructor ()
      ensures State() == Init() && Valid()
    {
      jobId, progress, results, errorMessage := None, 0, Null, None;
      eventSource, pollInterval, pendingFetches, mounted := Unset, Unset, 0, true;
    }

    method HandleComplete()
      modifies this
      ensures State() == Complete(old(State()))
    {
      pendingFetches := pendingFetches + 1;
      eventSource := Close(eventSource);
      pollInterval := Close(pollInterval);
    }

    /** The effect: for a truthy id, try the stream, else fall back to polling. */
    method RunEffect(streamOpens: bool)
      modifies this
      ensures State() == Watch(old(State()), streamOpens)
    {
      eventSource, pollInterval := Unset, Unset;
      if !Truthy(jobId) {
        return;
      }
      if streamOpens {
        eventSource := Open;
      } else {
        pollInterval := Open;
      }
    }

    method StartResearch(reply: Fetched<EnrichReply>, streamOpens: bool)
      requires mounted && !IsResearching() && Valid()
      modifies this
      ensures State() == Research(old(State()), reply, streamOpens) && Valid()
    {
      var previous := jobId;
      results := Null;
      progress := 0;
      errorMessage := None;
      match reply
      case Err =>
        errorMessage := Some(StartFailed);
      case Ok(r) =>
        if r.isExisting {
          results := r.data;
          progress := 100;
        } else if r.jobId != previous {
          eventSource := Close(eventSource);
          pollInterval := Close(pollInterval);
          jobId := r.jobId;
          RunEffect(streamOpens);
        }
    }

    method OnPushMessage(u: Update)
      requires mounted && eventSource == Open && Valid()
      modifies this
      ensures State() == PushMessage(old(State()), u) && Valid()
    {
      progress := ProgressOf(u);
      if u.state == Some(Completed) {
        HandleComplete();
      }
    }

    method OnPushError()
      requires mounted && eventSource == Open && Valid()
      modifies this
      ensures State() == PushError(old(State())) && Valid()
    {
      eventSource := Close(eventSource);
      pollInterval := Open;
    }

    method OnPollTick(r: Fetched<Update>)
      requires mounted && pollInterval != Unset && Valid()
      modifies this
      ensures State() == PollTick(old(State()), r) && Valid()
    {
      match r
      case Err =>
      case Ok(u) =>
        progress := ProgressOf(u);
        if u.state == Some(Completed) {
          HandleComplete();
        }
    }

    method OnResultsFetched(r: Fetched<Body>)
      requires mounted && pendingFetches > 0 && Valid()
      modifies this
      ensures State() == ResultsFetched(old(State()), r) && Valid()
    {
      results := LatestResult(r);
      pendingFetches := pendingFetches - 1;
    }

    method Dispose()
      requires mounted && Valid()
      modifies this
      ensures State() == Unmount(old(State())) && Valid()
    {
      eventSource := Close(eventSource);
      pollInterval := Close(pollInterval);
      mounted := false;
    }
  }
}
