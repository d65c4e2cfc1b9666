/** The metrics poller (`LiveTelemetry` in src/App.jsx): a snapshot that
    starts at a fixed default and is replaced wholesale by every successful
    poll of the health endpoint, and by nothing else. */
module Metrics {
  import opened Common

  /** p95 latency in milliseconds, connected venues, control checks per route. */
  datatype Snapshot = Snapshot(latencyP95Ms: real, integrations: real, controlChecks: real)

  const Default: Snapshot := Snapshot(150.0, 18.0, 42.0)

  /** A response body: a decoded snapshot, or one whose JSON decoding throws. */
  datatype Body = Parsed(data: Snapshot) | Malformed

  /** How one poll ends: a response with an HTTP status, or a rejected fetch. */
  datatype PollOutcome = Response(status: int, body: Body) | NetworkError

  /** `Response.ok`: the status lies in the range 200 to 299. */
  predicate IsOk(status: int) {
    200 <= status <= 299
  }

  /** The snapshot an outcome delivers, if any. */
  function Delivered(o: PollOutcome): (r: Option<Snapshot>)
    ensures r.Some? <==> o.Response? && IsOk(o.status) && o.body.Parsed?
    ensures r.Some? ==> r.value == o.body.data
  {
    match o
    case Response(status, body) =>
      if IsOk(status) && body.Parsed? then Some(body.data) else None
    case NetworkError => None
  }

  /** One poll: a delivered snapshot replaces the current one; a non-ok
      status, a body that does not decode, or a failed fetch keeps it. */
  function Poll(cur: Snapshot, o: PollOutcome): (r: Snapshot)
    ensures r == cur || Delivered(o) == Some(r)
    ensures Delivered(o).Some? ==> r == Delivered(o).value
  {
    if !o.Response? || !IsOk(o.status) then cur
    else match o.body
      case Parsed(data) => data
      case Malformed => cur
  }

  function MetricsAfter(outcomes: seq<PollOutcome>): Snapshot {
    Fold(Poll, Default, outcomes)
  }

  /** The snapshot of the most recent successful poll, if any. */
  function LatestDelivered(outcomes: seq<PollOutcome>): Option<Snapshot>
    decreases |outcomes|
  {
    if |outcomes| == 0 then None
    else
      var last := outcomes[|outcomes| - 1];
      if Delivered(last).Some? then Delivered(last) else LatestDelivered(outcomes[..|outcomes| - 1])
  }

  /** The displayed snapshot is the most recent successful one, or the
      default while no poll has succeeded. */
  lemma {:induction false} MetricsAreLatestSuccess(outcomes: seq<PollOutcome>)
    ensures MetricsAfter(outcomes) == LatestDelivered(outcomes).GetOr(Default)
    decreases |outcomes|
  {
    if |outcomes| > 0 {
      var init, o := outcomes[..|outcomes| - 1], outcomes[|outcomes| - 1];
      assert outcomes == init + [o];
      FoldSnoc(Poll, Default, init, o);
      MetricsAreLatestSuccess(init);
    }
  }

  /** A failed poll anywhere in the history is invisible. */
  lemma FailedPollIsInvisible(pre: seq<PollOutcome>, o: PollOutcome, post: seq<PollOutcome>)
    requires Delivered(o).None?
    ensures MetricsAfter(pre + [o] + post) == MetricsAfter(pre + post)
  {
    FoldAppend(Poll, Default, pre + [o], post);
    FoldAppend(Poll, Default, pre, post);
    FoldSnoc(Poll, Default, pre, o);
  }
}
