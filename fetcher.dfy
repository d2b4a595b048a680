/**
 * `download_chunk`: fetch one byte range through a leased port, retrying a
 * failed request or a body of the wrong length up to `MaxRetries` times in
 * all, write an accepted body to the chunk's progress file, and give the
 * port back on either exit.
 */
module Fetcher {
  import opened Common
  import opened Ports
  import opened ChunkPlan

  /** `MAX_RETRIES`: the number of GET requests one chunk may use. */
  const MaxRetries: nat := 5

  /**
   * The outcome of one ranged GET: a `RequestException` (transport error,
   * timeout, or a 4xx/5xx status from `raise_for_status`) or a body.
   */
  datatype Attempt = Failed | Body(data: seq<byte>)

  /** The network's answers to one chunk's requests, by attempt number (the value of `retries`). */
  type Responses = nat -> Attempt

  /** The scratch directory: chunk index to the contents of its progress file. */
  type Files = map<nat, seq<byte>>

  /** What the retry loop ends with: the accepted body, if any, and how many requests it made. */
  datatype FetchResult = FetchResult(data: Option<seq<byte>>, attempts: nat)

  /** A body is kept only when its length is exactly the length of the requested range. */
  predicate Accepted(a: Attempt, len: int)
  {
    a.Body? && |a.data| == len
  }

  /**
   * The retry loop from the attempt numbered `retries` on. Started at or
   * below `MaxRetries`, it makes at most `MaxRetries` requests in all, and a
   * failure uses all of them; a success keeps the body of its last request,
   * which has the right length.
   */
  function FetchFrom(len: int, responses: Responses, retries: nat): (r: FetchResult)
    ensures retries <= MaxRetries ==> retries <= r.attempts <= MaxRetries
    ensures retries <= MaxRetries && r.data.None? ==> r.attempts == MaxRetries
    ensures r.data.Some? ==> r.attempts > retries && Accepted(responses(r.attempts - 1), len)
                             && r.data.value == responses(r.attempts - 1).data
    decreases MaxRetries - retries
  {
    if retries >= MaxRetries then FetchResult(None, retries)
    else if Accepted(responses(retries), len) then FetchResult(Some(responses(retries).data), retries + 1)
    else FetchFrom(len, responses, retries + 1)
  }

  /**
   * Every request before the one the loop stops at brought no acceptable
   * body, and a failure means every one of the `MaxRetries` requests from
   * `retries` on failed.
   */
  lemma {:induction false} FetchFromFailures(len: int, responses: Responses, retries: nat)
    requires retries <= MaxRetries
    ensures forall k :: retries <= k < FetchFrom(len, responses, retries).attempts - 1 ==> !Accepted(responses(k), len)
    ensures FetchFrom(len, responses, retries).data.None? ==>
      forall k :: retries <= k < MaxRetries ==> !Accepted(responses(k), len)
    decreases MaxRetries - retries
  {
    if retries < MaxRetries && !Accepted(responses(retries), len) {
      FetchFromFailures(len, responses, retries + 1);
    }
  }

  /**
   * The whole retry loop for `byterange`, from `retries = 0`: it succeeds
   * exactly when one of its first `MaxRetries` requests brings a body of the
   * range's length, the body it keeps has that length, and it never makes
   * more than `MaxRetries` requests.
   */
  function Fetch(byterange: ByteRange, responses: Responses): (r: FetchResult)
    ensures r.attempts <= MaxRetries
    ensures r.data.Some? <==> exists k :: 0 <= k < MaxRetries && Accepted(responses(k), RangeLength(byterange))
    ensures r.data.Some? ==> |r.data.value| == RangeLength(byterange)
  {
    FetchFromFailures(RangeLength(byterange), responses, 0);
    FetchFrom(RangeLength(byterange), responses, 0)
  }

  /**
   * The `while retries < MAX_RETRIES` loop of `download_chunk`: request the
   * range, keep a body of exactly the range's length, and otherwise count
   * the attempt and try again. `attempts` counts the requests made.
   */
  method RetryLoop(byterange: ByteRange, responses: Responses) returns (data: Option<seq<byte>>, ghost attempts: nat)
    ensures data == Fetch(byterange, responses).data
    ensures attempts == Fetch(byterange, responses).attempts
  {
    var retries := 0;
    while retries < MaxRetries
      invariant 0 <= retries <= MaxRetries
      invariant FetchFrom(RangeLength(byterange), responses, retries) == Fetch(byterange, responses)
    {
      match responses(retries)
      case Failed =>
        retries := retries + 1;
      case Body(body) =>
        if |body| == byterange.1 - byterange.0 + 1 {
          return Some(body), retries + 1;
        }
        retries := retries + 1;
    }
    return None, retries;
  }

  /**
   * `download_chunk(url, byterange, progress_file, port_manager)`: leases a
   * port, runs the retry loop, writes an accepted body to the progress file
   * `progress`, returns `(byterange[0], data)` or `None`, and returns the
   * port on both paths, so that the pool's flags end as they began.
   * `attempts` counts the requests made.
   */
  method DownloadChunk(byterange: ByteRange, progress: nat, files: Files, pm: PortManager, responses: Responses)
    returns (result: Option<(int, seq<byte>)>, files': Files, ghost attempts: nat)
    requires pm.Valid() && false in pm.Flags()
    modifies pm.ports
    ensures pm.Flags() == old(pm.Flags())
    ensures attempts == Fetch(byterange, responses).attempts
    ensures result.Some? <==> Fetch(byterange, responses).data.Some?
    ensures result.Some? ==> result.value == (byterange.0, Fetch(byterange, responses).data.value)
    ensures files' == if result.Some? then files[progress := result.value.1] else files
  {
    var port := pm.GetPort();
    var data;
    data, attempts := RetryLoop(byterange, responses);
    match data {
      case Some(body) =>
        files' := files[progress := body];
        result := Some((byterange.0, body));
      case None =>
        files', result := files, None;
    }
    pm.ReturnPort(port);
  }
}
