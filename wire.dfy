/**
 * Values exchanged between the research-job watchers and the server, and the
 * two small facts all three watchers share: how a progress number is read
 * from a status payload and when the research button counts as busy.
 *
 * Requests are abstracted to their outcome: `Ok(payload)` when the response
 * body was obtained and parsed, `Err` when the request threw (network error,
 * non-ok status where the caller checks it, unparseable JSON).
 */
module Wire {

  datatype Option<+T> = None | Some(value: T)

  /** Outcome of one HTTP request. */
  datatype Fetched<+T> = Ok(body: T) | Err

  /** A research snippet record; its fields are only displayed, so it is opaque here. */
  datatype Snippet = Snippet(id: int, companyId: int)

  /**
   * A JSON value where a snippet is expected: `null`/`undefined`, some other
   * falsy primitive (`false`, `0`, `""`), or a record.
   */
  datatype Value = Null | Falsy | Record(snippet: Snippet)

  /** A parsed results body: a JSON array, or any other JSON value. */
  datatype Body = List(items: seq<Value>) | Single(value: Value)

  /**
   * A job-status payload as sent by `/research/jobs/{id}` and the
   * `/events/jobs/{id}` stream. `progress` is absent, or an integer;
   * `state` is read by the person cards, `status` by the progress panel.
   */
  datatype Update = Update(progress: Option<int>, state: Option<string>, status: Option<string>)

  /** The reply of `POST /enrich/{personId}`. */
  datatype EnrichReply = EnrichReply(isExisting: bool, jobId: Option<string>, data: Value)

  /**
   * A closure-local handle (an `EventSource` or an interval id): never
   * assigned (`null`), live, or closed/cleared. Closing keeps the variable
   * assigned, exactly as `close()` and `clearInterval` do.
   */
  datatype Channel = Unset | Open | Closed

  const Completed: string := "completed"
  const Failed: string := "failed"

  /** `x?.close()` and `if (x) clearInterval(x)`: a no-op on an unassigned handle. */
  function Close(ch: Channel): (r: Channel)
    ensures r != Open
    ensures r == Unset <==> ch == Unset
  {
    if ch == Unset then Unset else Closed
  }

  /** `data.progress || 0`: an absent or zero progress reads as 0. */
  function ProgressOf(u: Update): (p: int)
    ensures u.progress.None? ==> p == 0
    ensures u.progress.Some? ==> p == u.progress.value
  {
    match u.progress
    case None => 0
    case Some(n) => if n != 0 then n else 0
  }

  /** JavaScript truthiness of a `string | null` job id: absent and `""` are falsy. */
  function Truthy(jobId: Option<string>): (b: bool)
    ensures b <==> jobId != None && jobId != Some("")
  {
    jobId.Some? && jobId.value != ""
  }

  /** JavaScript truthiness of a snippet value. */
  predicate IsTruthy(v: Value) {
    v.Record?
  }

  /**
   * `!!jobId && progress < 100`: the research button is disabled and reads
   * "Researching..." (and the progress bar shows) exactly while this holds.
   */
  function Busy(jobId: Option<string>, progress: int): (b: bool)
    ensures b ==> jobId.Some? && jobId.value != ""
    ensures progress >= 100 ==> !b
    ensures b <==> Truthy(jobId) && progress < 100
  {
    Truthy(jobId) && progress < 100
  }
}
