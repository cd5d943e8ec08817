/**
 * The research watcher of `PersonCard` in src/components/PeopleList.new.tsx,
 * the older variant of the card.
 *
 * Here a click that starts a new job calls `monitorJobProgress` directly:
 * it opens a stream for the job id, and on a stream error (or when the
 * stream cannot be constructed) starts an interval that polls the same id.
 * There is no effect and no cleanup, so streams and intervals belong to the
 * calls that made them and survive unmounting. A completed report fetches
 * results and shows the FIRST element; a failed poll stops that interval.
 *
 * Live channels are therefore kept as multisets of job ids: `streams` holds
 * one entry per open stream, `intervals` one per running interval.
 * `monitored` counts the `monitorJobProgress` calls per id and `finished`
 * the monitors that ended (completed, or stopped by a poll error); both are
 * bookkeeping for the invariant, not state of the component.
 */
module PeopleListNew {
  import opened Wire

  const StartFailed: string := "Failed to start research"
  const FetchFailed: string := "Failed to fetch results"
  const PollFailed: string := "Error checking research status"

  datatype Card = Card(
    jobId: Option<string>,
    progress: int,
    results: Value,
    error: Option<string>,
    streams: multiset<string>,
    intervals: multiset<string>,
    monitored: multiset<string>,
    finished: multiset<string>,
    pendingFetches: nat,
    mounted: bool)

  function Init(): Card {
    Card(None, 0, Null, None, multiset{}, multiset{}, multiset{}, multiset{}, 0, true)
  }

  /**
   * Every `monitorJobProgress` call for an id either still owns exactly one
   * live channel for that id or has finished: failover hands the channel
   * from push to pull for the same id, and only completion or a poll error
   * releases it.
   */
  ghost predicate Consistent(c: Card) {
    c.streams + c.intervals + c.finished == c.monitored
  }

  lemma InitConsistent()
    ensures Consistent(Init()) && !Busy(Init().jobId, Init().progress)
  {
  }

  /** The id as it appears in the request path: an absent id prints as "undefined". */
  function PathId(jobId: Option<string>): (id: string)
    ensures jobId.Some? ==> id == jobId.value
    ensures jobId.None? ==> id == "undefined"
  {
    match jobId
    case None => "undefined"
    case Some(id) => id
  }

  /**
   * Result selection of `fetchResults`: `data[0] || null`. `None` stands for
   * the TypeError raised when the body is `null`.
   */
  function FirstResult(b: Body): (v: Option<Value>)
    ensures b.List? && |b.items| > 0 && IsTruthy(b.items[0]) ==> v == Some(b.items[0])
    ensures b.List? && (b.items == [] || !IsTruthy(b.items[0])) ==> v == Some(Null)
    ensures v == None <==> b == Single(Null)
    ensures b.Single? && b.value != Null ==> v == Some(Null)
  {
    match b
    case List(items) => if |items| > 0 && IsTruthy(items[0]) then Some(items[0]) else Some(Null)
    case Single(Null) => None
    case Single(_) => Some(Null)
  }

  /** The earliest snippet is shown, whatever follows it. */
  lemma FirstResultIsEarliest(s: Snippet, later: seq<Value>)
    ensures FirstResult(List([Record(s)] + later)) == Some(Record(s))
    ensures FirstResult(List([Null] + later)) == Some(Null)
  {
  }

  /** `monitorJobProgress(id)`: open a stream, or poll at once if it cannot be constructed. */
  function Monitor(c: Card, id: string, streamOpens: bool): (c': Card)
    ensures c'.monitored == c.monitored + multiset{id}
    ensures streamOpens ==> c'.streams == c.streams + multiset{id} && c'.intervals == c.intervals
    ensures !streamOpens ==> c'.intervals == c.intervals + multiset{id} && c'.streams == c.streams
    ensures c' == c.(streams := c'.streams, intervals := c'.intervals, monitored := c'.monitored)
    ensures Consistent(c) ==> Consistent(c')
  {
    var c1 := c.(monitored := c.monitored + multiset{id});
    if streamOpens then c1.(streams := c.streams + multiset{id})
    else c1.(intervals := c.intervals + multiset{id})
  }

  /**
   * `handleResearch`, clicked while the button is enabled: reset; show an
   * existing research at once; otherwise store the job id and monitor that
   * same id; a failed request reports `StartFailed` and monitors nothing.
   */
  function Research(c: Card, reply: Fetched<EnrichReply>, streamOpens: bool): (c': Card)
    requires c.mounted && !Busy(c.jobId, c.progress)
    ensures c'.mounted && c'.pendingFetches == c.pendingFetches
    ensures reply.Err? ==> c' == c.(results := Null, progress := 0, error := Some(StartFailed))
    ensures reply.Ok? && reply.body.isExisting ==>
              c' == c.(results := reply.body.data, progress := 100, error := None)
    ensures reply.Ok? && !reply.body.isExisting ==>
              && c'.jobId == reply.body.jobId && c'.results == Null && c'.progress == 0 && c'.error == None
              && c'.monitored == c.monitored + multiset{PathId(c'.jobId)}
              && (streamOpens ==> c'.streams == c.streams + multiset{PathId(c'.jobId)} && c'.intervals == c.intervals)
              && (!streamOpens ==> c'.intervals == c.intervals + multiset{PathId(c'.jobId)} && c'.streams == c.streams)
    ensures Consistent(c) ==> Consistent(c')
  {
    var reset := c.(results := Null, progress := 0, error := None);
    match reply
    case Err => reset.(error := Some(StartFailed))
    case Ok(r) =>
      if r.isExisting then reset.(results := r.data, progress := 100)
      else Monitor(reset.(jobId := r.jobId), PathId(r.jobId), streamOpens)
  }

  /**
   * `onmessage` of the stream for `id`: progress is the payload's progress
   * (0 when absent); on `completed` results are fetched and this stream closed.
   */
  function PushMessage(c: Card, id: string, u: Update): (c': Card)
    requires c.mounted && id in c.streams
    ensures c'.progress == ProgressOf(u)
    ensures u.state != Some(Completed) ==> c' == c.(progress := ProgressOf(u))
    ensures u.state == Some(Completed) ==>
              c' == c.(progress := ProgressOf(u), streams := c.streams - multiset{id},
                       finished := c.finished + multiset{id}, pendingFetches := c.pendingFetches + 1)
    ensures u.state == Some(Completed) ==> c'.streams[id] == c.streams[id] - 1
    ensures Consistent(c) ==> Consistent(c')
  {
    var c1 := c.(progress := ProgressOf(u));
    if u.state == Some(Completed) then
      c1.(pendingFetches := c.pendingFetches + 1, streams := c.streams - multiset{id},
          finished := c.finished + multiset{id})
    else c1
  }

  /** `onerror` of the stream for `id`: close it and poll the same id. */
  function PushError(c: Card, id: string): (c': Card)
    requires c.mounted && id in c.streams
    ensures c'.streams[id] == c.streams[id] - 1 && c'.intervals[id] == c.intervals[id] + 1
    ensures c' == c.(streams := c.streams - multiset{id}, intervals := c.intervals + multiset{id})
    ensures Consistent(c) ==> Consistent(c')
  {
    c.(streams := c.streams - multiset{id}, intervals := c.intervals + multiset{id})
  }

  /**
   * One tick of an interval polling `id`. `completed` clears the interval
   * before fetching results; a failed request reports `PollFailed` and
   * clears the interval too; any other state only updates progress.
   */
  function PollTick(c: Card, id: string, r: Fetched<Update>): (c': Card)
    requires c.mounted && id in c.intervals
    ensures r.Err? ==>
              c' == c.(error := Some(PollFailed), intervals := c.intervals - multiset{id},
                       finished := c.finished + multiset{id})
    ensures r.Ok? ==> c'.progress == ProgressOf(r.body)
    ensures r.Ok? && r.body.state != Some(Completed) ==> c' == c.(progress := ProgressOf(r.body))
    ensures r.Ok? && r.body.state == Some(Completed) ==>
              c' == c.(progress := ProgressOf(r.body), intervals := c.intervals - multiset{id},
                       finished := c.finished + multiset{id}, pendingFetches := c.pendingFetches + 1)
    ensures (r.Err? || r.body.state == Some(Completed)) ==> c'.intervals[id] == c.intervals[id] - 1
    ensures Consistent(c) ==> Consistent(c')
  {
    match r
    case Err => c.(error := Some(PollFailed), intervals := c.intervals - multiset{id}, finished := c.finished + multiset{id})
    case Ok(u) =>
      var c1 := c.(progress := ProgressOf(u));
      if u.state == Some(Completed) then
        c1.(intervals := c.intervals - multiset{id}, finished := c.finished + multiset{id},
            pendingFetches := c.pendingFetches + 1)
      else c1
  }

  /**
   * `fetchResults` delivers: the first truthy snippet or null becomes the
   * result; a failed fetch reports `FetchFailed` and keeps the results.
   */
  function ResultsFetched(c: Card, r: Fetched<Body>): (c': Card)
    requires c.mounted && c.pendingFetches > 0
    ensures c'.pendingFetches == c.pendingFetches - 1
    ensures r.Ok? && FirstResult(r.body).Some? ==>
              c' == c.(results := FirstResult(r.body).value, pendingFetches := c.pendingFetches - 1)
    ensures r.Err? || FirstResult(r.body).None? ==>
              c' == c.(error := Some(FetchFailed), pendingFetches := c.pendingFetches - 1)
    ensures Consistent(c) ==> Consistent(c')
  {
    var c1 := c.(pendingFetches := c.pendingFetches - 1);
    match r
    case Err => c1.(error := Some(FetchFailed))
    case Ok(b) =>
      match FirstResult(b)
      case None => c1.(error := Some(FetchFailed))
      case Some(v) => c1.(results := v)
  }

  /** Unmounting: nothing is cleaned up, every stream and interval stays live. */
  function Unmount(c: Card): (c': Card)
    requires c.mounted
    ensures !c'.mounted && c'.streams == c.streams && c'.intervals == c.intervals
    ensures c' == c.(mounted := false)
    ensures Consistent(c) ==> Consistent(c')
  {
    c.(mounted := false)
  }

  datatype Event =
    | Click(reply: Fetched<EnrichReply>, streamOpens: bool)
    | Message(streamId: string, update: Update)
    | StreamError(streamId: string)
    | Tick(pollId: string, status: Fetched<Update>)
    | ResultsArrive(snippets: Fetched<Body>)
    | Unmounted

  predicate Enabled(c: Card, e: Event) {
    c.mounted &&
    match e
    case Click(_, _) => !Busy(c.jobId, c.progress)
    case Message(id, _) => id in c.streams
    case StreamError(id) => id in c.streams
    case Tick(id, _) => id in c.intervals
    case ResultsArrive(_) => c.pendingFetches > 0
    case Unmounted => true
  }

  function Step(c: Card, e: Event): Card
    requires Enabled(c, e)
  {
    match e
    case Click(reply, streamOpens) => Research(c, reply, streamOpens)
    case Message(id, u) => PushMessage(c, id, u)
    case StreamError(id) => PushError(c, id)
    case Tick(id, r) => PollTick(c, id, r)
    case ResultsArrive(r) => ResultsFetched(c, r)
    case Unmounted => Unmount(c)
  }

  function Run(c: Card, es: seq<Event>): Card
    decreases |es|
  {
    if es == [] then c
    else if Enabled(c, es[0]) then Run(Step(c, es[0]), es[1..])
    else Run(c, es[1..])
  }

  /** However events interleave, no monitor ever holds two live channels. */
  lemma {:induction false} RunKeepsConsistent(c: Card, es: seq<Event>)
    requires Consistent(c)
    ensures Consistent(Run(c, es))
    decreases |es|
  {
    if es != [] {
      if Enabled(c, es[0]) {
        RunKeepsConsistent(Step(c, es[0]), es[1..]);
      } else {
        RunKeepsConsistent(c, es[1..]);
      }
    }
  }

  /**
   * The live channels never outnumber the monitors started: every monitor
   * still live holds exactly one of them.
   */
  lemma LiveChannelsBounded(es: seq<Event>)
    ensures var c := Run(Init(), es);
      && |c.streams| + |c.intervals| + |c.finished| == |c.monitored|
      && |c.streams| + |c.intervals| <= |c.monitored|
  {
    InitConsistent();
    RunKeepsConsistent(Init(), es);
  }

  /**
   * One failed tick ends polling for that monitor: the poll error is shown
   * and the tick removes the only interval of a singly-monitored id.
   */
  lemma PollErrorStopsPolling(c: Card, id: string)
    requires c.mounted && c.intervals[id] == 1
    ensures id !in PollTick(c, id, Err).intervals
    ensures !Enabled(PollTick(c, id, Err), Tick(id, Err))
    ensures PollTick(c, id, Err).error == Some(PollFailed)
  {
  }

  /** A click that starts a new job monitors exactly the id it stores. */
  lemma NewJobMonitorsSameId(c: Card, id: string)
    requires c.mounted && !Busy(c.jobId, c.progress)
    ensures Research(c, Ok(EnrichReply(false, Some(id), Null)), true).jobId == Some(id)
    ensures Research(c, Ok(EnrichReply(false, Some(id), Null)), true).streams[id] == c.streams[id] + 1
    ensures Research(c, Ok(EnrichReply(false, Some(id), Null)), false).intervals[id] == c.intervals[id] + 1
  {
  }

  class PersonCard {
    var jobId: Option<string>
    var progress: int
    var results: Value
    var error: Option<string>
    var streams: multiset<string>
    var intervals: multiset<string>
    ghost var monitored: multiset<string>
    ghost var finished: multiset<string>
    var pendingFetches: nat
    var mounted: bool

    ghost function State(): Card
      reads this
    {
      Card(jobId, progress, results, error, streams, intervals, monitored, finished, pendingFetches, mounted)
    }

    ghost predicate Valid()
      reads this
    {
      Consistent(State())
    }

    function IsResearching(): (b: bool)
      reads this
      ensures b <==> Busy(jobId, progress)
    {
      Truthy(jobId) && progress < 100
    }

    constructor ()
      ensures State() == Init() && Valid()
    {
      jobId, progress, results, error := None, 0, Null, None;
      streams, intervals, monitored, finished := multiset{}, multiset{}, multiset{}, multiset{};
      pendingFetches, mounted := 0, true;
    }

    method MonitorJobProgress(id: string, streamOpens: bool)
      modifies this
      ensures State() == Monitor(old(State()), id, streamOpens)
    {
      monitored := monitored + multiset{id};
      if streamOpens {
        streams := streams + multiset{id};
      } else {
        intervals := intervals + multiset{id};
      }
    }

    method StartResearch(reply: Fetched<EnrichReply>, streamOpens: bool)
      requires mounted && !IsResearching() && Valid()
      modifies this
      ensures State() == Research(old(State()), reply, streamOpens) && Valid()
    {
      match reply
      case Err =>
        results, progress, error := Null, 0, Some(StartFailed);
      case Ok(r) =>
        if r.isExisting {
          results, progress, error := r.data, 100, None;
        } else {
          results, progress, error, jobId := Null, 0, None, r.jobId;
          MonitorJobProgress(PathId(r.jobId), streamOpens);
        }
    }

    method OnPushMessage(id: string, u: Update)
      requires mounted && id in streams && Valid()
      modifies this
      ensures State() == PushMessage(old(State()), id, u) && Valid()
    {
      progress := ProgressOf(u);
      if u.state == Some(Completed) {
        pendingFetches := pendingFetches + 1;
        StopStream(id);
      }
    }

    /** `eventSource.close()` on completion: this monitor is finished. */
    method StopStream(id: string)
      requires id in streams && Valid()
      modifies this
      ensures State() == old(State()).(streams := old(streams) - multiset{id}, finished := old(finished) + multiset{id})
      ensures Valid()
    {
      streams, finished := streams - multiset{id}, finished + multiset{id};
    }

    method OnPushError(id: string)
      requires mounted && id in streams && Valid()
      modifies this
      ensures State() == PushError(old(State()), id) && Valid()
    {
      streams := streams - multiset{id};
      intervals := intervals + multiset{id};
    }

    method OnPollTick(id: string, r: Fetched<Update>)
      requires mounted && id in intervals && Valid()
      modifies this
      ensures State() == PollTick(old(State()), id, r) && Valid()
    {
      match r
      case Err =>
        error := Some(PollFailed);
        StopPolling(id);
      case Ok(u) =>
        progress := ProgressOf(u);
        if u.state == Some(Completed) {
          StopPolling(id);
          pendingFetches := pendingFetches + 1;
        }
    }

    /** `clearInterval` on completion or a poll error: this monitor is finished. */
    method StopPolling(id: string)
      requires id in intervals && Valid()
      modifies this
      ensures State() == old(State()).(intervals := old(intervals) - multiset{id}, finished := old(finished) + multiset{id})
      ensures Valid()
    {
      intervals, finished := intervals - multiset{id}, finished + multiset{id};
    }

    method OnResultsFetched(r: Fetched<Body>)
      requires mounted && pendingFetches > 0 && Valid()
      modifies this
      ensures State() == ResultsFetched(old(State()), r) && Valid()
    {
      pendingFetches := pendingFetches - 1;
      match r
      case Err =>
        error := Some(FetchFailed);
      case Ok(b) =>
        match FirstResult(b)
        case None =>
          error := Some(FetchFailed);
        case Some(v) =>
          results := v;
    }

    method Dispose()
      requires mounted && Valid()
      modifies this
      ensures State() == Unmount(old(State())) && Valid()
    {
      mounted := false;
    }
  }
}
