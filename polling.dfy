/** The poll supervisor `startPolling(historyId, token, orderId)`: one task per
    submitted job, with a start time and a recurring timer that a tick cancels
    once it finalises the order. Time is the elapsed milliseconds a tick is
    given; the job-status query and the PDF post-processor are inputs. */
module Polling {
  import opened Js
  import opened Store

  const PollIntervalMs: int := 60_000
  /** The maximum wait: 600000 ms, that is ten minutes. */
  const MaxWaitMs: int := 600_000
  const TimeoutReason: string := "Failed to generate report, try again later!"
  const PdfFailureReason: string := "Failed to process report PDFs"
  const AiReportLabel: string := "ai_report"
  const SimilarityReportLabel: string := "similarity_report"

  /** The parsed body of a job-status query: a list of rows, one object, or
      any other JSON value (null, a string, ...), which has no status field. */
  datatype PollData = Rows(rows: seq<Fields>) | Record(fields: Fields) | Scalar(v: Value)

  /** The record the tick inspects: the first row of a list, or the object itself. */
  function First(d: PollData): (r: Option<Fields>)
    ensures d.Record? ==> r == Some(d.fields)
    ensures d.Rows? ==> (r.Some? <==> |d.rows| > 0) && (r.Some? ==> r.value == d.rows[0])
    ensures d.Scalar? ==> r == None
  {
    match d
    case Rows(rows) => if |rows| == 0 then None else Some(rows[0])
    case Record(fields) => Some(fields)
    case Scalar(_) => None
  }

  /** `first && first.turnitin_status === 'done'`. */
  predicate IsDone(d: PollData)
  {
    First(d).Some? && Get(First(d).value, "turnitin_status") == Str("done")
  }

  /** `processAndUploadPDF(url, label)`: download, strip the first page, upload,
      and resolve with the public URL, or throw. */
  type Processor = (Value, string) -> Result<string>

  /** What a tick does: nothing, or cancel the timer and finalise the order. */
  datatype TickAction = Wait | Finish(update: OrderUpdate)

  /** The decision of one tick at `elapsed` ms, given this tick's query result
      and post-processor. */
  function TickStep(elapsed: int, query: Result<PollData>, process: Processor): (a: TickAction)
    ensures elapsed > MaxWaitMs ==> a == Finish(MarkFailed(TimeoutReason))
    ensures elapsed <= MaxWaitMs ==> a != Finish(MarkFailed(TimeoutReason))
    ensures elapsed <= MaxWaitMs ==> (a.Finish? <==> query.Ok? && IsDone(query.value))
  {
    if elapsed > MaxWaitMs then Finish(MarkFailed(TimeoutReason))
    else if query.Ok? && IsDone(query.value) then
      var row := First(query.value).value;
      var ai := process(Get(row, "turnitin_report_url"), AiReportLabel);
      if ai.Err? then Finish(MarkFailed(PdfFailureReason))
      else
        var similarity := process(Get(row, "turnitin_similarity_report_url"), SimilarityReportLabel);
        if similarity.Err? then Finish(MarkFailed(PdfFailureReason))
        else Finish(MarkCompleted(ai.value, similarity.value))
    else Wait
  }

  /** Once the job is done (and time remains), the order becomes completed with
      the two post-processed URLs written together exactly when both
      post-processing calls succeed, each given its own report URL and label;
      otherwise it becomes failed with the post-processing reason. */
  lemma DoneRule(elapsed: int, query: Result<PollData>, process: Processor)
    requires elapsed <= MaxWaitMs && query.Ok? && IsDone(query.value)
    ensures var row := First(query.value).value;
      var ai := process(Get(row, "turnitin_report_url"), AiReportLabel);
      var similarity := process(Get(row, "turnitin_similarity_report_url"), SimilarityReportLabel);
      TickStep(elapsed, query, process)
        == if ai.Ok? && similarity.Ok? then Finish(MarkCompleted(ai.value, similarity.value))
           else Finish(MarkFailed(PdfFailureReason))
  {
  }

  /** A query error, or a status other than "done", changes nothing while time remains. */
  lemma NotDoneWaits(elapsed: int, query: Result<PollData>, process: Processor)
    requires elapsed <= MaxWaitMs && (query.Err? || !IsDone(query.value))
    ensures TickStep(elapsed, query, process) == Wait
  {
  }

  /** The inputs one tick sees. */
  datatype TickInput = TickInput(query: Result<PollData>, process: Processor)

  /** The index of the first tick, in a schedule of elapsed times, that finishes
      the order; `|ts|` when none does. Later ticks never run: that tick cancels
      the timer. */
  function FirstFinish(ts: seq<int>, ins: seq<TickInput>): (k: nat)
    requires |ts| == |ins|
    ensures k <= |ts|
    ensures forall j :: 0 <= j < k ==> TickStep(ts[j], ins[j].query, ins[j].process) == Wait
    ensures k < |ts| ==> TickStep(ts[k], ins[k].query, ins[k].process).Finish?
  {
    if ts == [] then 0
    else if TickStep(ts[0], ins[0].query, ins[0].process).Finish? then 0
    else 1 + FirstFinish(ts[1..], ins[1..])
  }

  /** The order is finalised no later than the first tick that sees more than
      the maximum wait, whatever the timers' punctuality and whatever the job
      does. */
  lemma FinishByFirstLateTick(ts: seq<int>, ins: seq<TickInput>, k: nat)
    requires |ts| == |ins| && k < |ts| && ts[k] > MaxWaitMs
    ensures FirstFinish(ts, ins) <= k
  {
    assert TickStep(ts[k], ins[k].query, ins[k].process).Finish?;
  }

  /** The first tick past the maximum wait, in a schedule whose ticks are at
      most one interval plus `late` apart: every earlier tick is within the
      maximum wait, and it is at most one interval plus `late` past it. */
  lemma FirstLateTick(ts: seq<int>, late: nat) returns (k: nat)
    requires |ts| > 0
    requires ts[0] <= PollIntervalMs + late
    requires forall i :: 0 <= i < |ts| - 1 ==> ts[i + 1] <= ts[i] + PollIntervalMs + late
    requires ts[|ts| - 1] > MaxWaitMs
    ensures k < |ts| && MaxWaitMs < ts[k] <= MaxWaitMs + PollIntervalMs + late
    ensures forall j :: 0 <= j < k ==> ts[j] <= MaxWaitMs
  {
    k := 0;
    while ts[k] <= MaxWaitMs
      invariant 0 <= k < |ts|
      invariant forall j :: 0 <= j < k ==> ts[j] <= MaxWaitMs
      invariant ts[k] <= MaxWaitMs + PollIntervalMs + late
      decreases |ts| - k
    {
      k := k + 1;
    }
  }

  /** Bounded polling. Timers never fire early but may fire late: when the
      first tick runs within one interval plus `late` of the start, consecutive
      ticks are at most one interval plus `late` apart, and the schedule runs
      past the maximum wait, the order is finalised, whatever the job does, at a
      tick no later than the maximum wait plus one interval plus `late`. */
  lemma TimeoutBound(ts: seq<int>, ins: seq<TickInput>, late: nat)
    requires |ts| == |ins| > 0
    requires ts[0] <= PollIntervalMs + late
    requires forall i :: 0 <= i < |ts| - 1 ==> ts[i + 1] <= ts[i] + PollIntervalMs + late
    requires ts[|ts| - 1] > MaxWaitMs
    ensures FirstFinish(ts, ins) < |ts|
    ensures ts[FirstFinish(ts, ins)] <= MaxWaitMs + PollIntervalMs + late
  {
    var k := FirstLateTick(ts, late);
    FinishByFirstLateTick(ts, ins, k);
    var f := FirstFinish(ts, ins);
    if f < k {
      assert ts[f] <= MaxWaitMs;
    }
  }

  /** Ticks at 0, 1, ..., n-1 intervals after the start, each seeing `delay`
      more milliseconds elapsed. `startedAt` is read before the timer is
      registered, and a timer never fires early. Tick 0 is the immediate
      `poll()`, which runs before the timer is registered and so sees at most
      `delay`; taking exactly `delay` changes nothing below, since tick 0 is
      within the maximum wait either way. */
  function Schedule(n: nat, delay: nat): (ts: seq<int>)
    ensures |ts| == n && forall i :: 0 <= i < n ==> ts[i] == i * PollIntervalMs + delay
  {
    seq(n, i => i * PollIntervalMs + delay)
  }

  /** A job that never reports "done", with the immediate tick and one tick a
      minute. With no delay at all, the order stays pending through the tick at
      ten minutes and times out at the twelfth tick. With any positive delay of
      at most one interval, the tick nominally at ten minutes already sees more
      than the maximum wait, and the timeout comes at the eleventh tick. */
  lemma NeverDoneTimesOut(ins: seq<TickInput>, delay: nat)
    requires |ins| == 12 && delay <= PollIntervalMs
    requires forall i :: 0 <= i < 12 ==> ins[i].query.Err? || !IsDone(ins[i].query.value)
    ensures var f := FirstFinish(Schedule(12, delay), ins);
      f == (if delay == 0 then 11 else 10)
      && TickStep(Schedule(12, delay)[f], ins[f].query, ins[f].process) == Finish(MarkFailed(TimeoutReason))
  {
    var ts := Schedule(12, delay);
    var last := if delay == 0 then 11 else 10;
    assert ts[last] > MaxWaitMs;
    assert TickStep(ts[last], ins[last].query, ins[last].process).Finish?;
    forall j | 0 <= j < last
      ensures TickStep(ts[j], ins[j].query, ins[j].process) == Wait
    {
      NotDoneWaits(ts[j], ins[j].query, ins[j].process);
    }
  }

  /** One in-flight job: `historyId`, `token`, `orderId`, `startedAt`, and
      whether `clearInterval(intervalId)` has run. */
  class PollTask {
    const jobId: Value
    const token: string
    const orderId: OrderId
    const startedAt: int
    var cancelled: bool

    constructor (jobId: Value, token: string, orderId: OrderId, startedAt: int)
      ensures this.jobId == jobId && this.token == token && this.orderId == orderId
      ensures this.startedAt == startedAt && !cancelled
    {
      this.jobId := jobId;
      this.token := token;
      this.orderId := orderId;
      this.startedAt := startedAt;
      cancelled := false;
    }

    /** `poll()` at time `now`: time out, or query the job with this task's id
        and token, and on "done" cancel the timer, post-process both reports and
        finalise. A cancelled timer never fires again. */
    method Poll(now: int, query: (Value, string) -> Result<PollData>, process: Processor,
                store: Datastore, writeOk: bool, refundOk: bool)
      requires !cancelled
      modifies this, store
      ensures var a := TickStep(now - startedAt, query(jobId, token), process);
        cancelled == a.Finish?
        && store.State() == if a.Finish? then Finalized(old(store.State()), orderId, a.update, writeOk, refundOk)
                            else old(store.State())
    {
      var elapsed := now - startedAt;
      if elapsed > MaxWaitMs {
        cancelled := true;
        store.Finalize(orderId, MarkFailed(TimeoutReason), writeOk, refundOk);
        return;
      }
      var response := query(jobId, token);
      if response.Err? {
        return;
      }
      var first := First(response.value);
      if first.Some? && Get(first.value, "turnitin_status") == Str("done") {
        cancelled := true;
        var ai := process(Get(first.value, "turnitin_report_url"), AiReportLabel);
        if ai.Err? {
          store.Finalize(orderId, MarkFailed(PdfFailureReason), writeOk, refundOk);
          return;
        }
        var similarity := process(Get(first.value, "turnitin_similarity_report_url"), SimilarityReportLabel);
        if similarity.Err? {
          store.Finalize(orderId, MarkFailed(PdfFailureReason), writeOk, refundOk);
          return;
        }
        store.Finalize(orderId, MarkCompleted(ai.value, similarity.value), writeOk, refundOk);
      }
    }
  }
}
