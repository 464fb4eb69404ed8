/** The change-listener supervisor: the process-wide `isAutomationRunning` flag
    and `changeStream` handle, `startChangeStream(retryCount)`,
    `stopChangeStream()`, the guards of the start/stop/status endpoints, and the
    reconnect-with-backoff policy run on a subscription error. */
module Listener {
  import opened Js

  const MaxRetries: nat := 10
  const BaseDelayMs: nat := 1000
  const MaxDelayMs: nat := 30000

  function Pow2(n: nat): (r: nat)
    ensures r >= 1
  {
    if n == 0 then 1 else 2 * Pow2(n - 1)
  }

  lemma {:induction false} Pow2Monotone(m: nat, n: nat)
    requires m <= n
    ensures Pow2(m) <= Pow2(n)
  {
    if m < n {
      Pow2Monotone(m, n - 1);
    }
  }

  /** The reconnect delay after an error on a stream started with `retryCount`:
      `Math.min(30000, 1000 * Math.pow(2, retryCount))`. */
  function Backoff(retryCount: nat): (d: nat)
    ensures BaseDelayMs <= d <= MaxDelayMs
    ensures d == MaxDelayMs || d == BaseDelayMs * Pow2(retryCount)
    ensures d <= BaseDelayMs * Pow2(retryCount)
  {
    var exponential := BaseDelayMs * Pow2(retryCount);
    if exponential < MaxDelayMs then exponential else MaxDelayMs
  }

  /** Delays never shrink as the retry count grows. */
  lemma BackoffMonotone(m: nat, n: nat)
    requires m <= n
    ensures Backoff(m) <= Backoff(n)
  {
    Pow2Monotone(m, n);
  }

  /** Each delay doubles the previous one until it reaches the cap. */
  lemma BackoffDoubles(n: nat)
    ensures Backoff(n + 1) == if 2 * Backoff(n) < MaxDelayMs then 2 * Backoff(n) else MaxDelayMs
  {
  }

  /** From the sixth attempt on (retry count 5 and above), the delay is the 30 s cap. */
  lemma {:induction false} BackoffCapped(n: nat)
    requires n >= 5
    ensures Backoff(n) == MaxDelayMs
  {
    assert Pow2(5) == 32;
    Pow2Monotone(5, n);
  }

  /** A reconnect scheduled with `setTimeout`: the retry count it will start
      the stream with, and its delay. */
  datatype Restart = Restart(retryCount: nat, delayMs: nat)

  class Listener {
    /** `isAutomationRunning`. */
    var running: bool
    /** `changeStream`: the handle of the open subscription, if any. */
    var stream: Option<nat>
    /** The `retryCount` the open stream was started with; its error handler uses it. */
    var retryCount: nat
    /** Reconnect timers scheduled and not yet fired. */
    var pending: seq<Restart>
    /** The handle `Order.watch` returns next. */
    var nextHandle: nat

    ghost predicate Valid()
      reads this
    {
      (running <==> stream.Some?)
      && (stream.Some? ==> stream.value < nextHandle)
      && retryCount <= MaxRetries
      && forall i :: 0 <= i < |pending| ==>
           1 <= pending[i].retryCount <= MaxRetries
           && pending[i].delayMs == Backoff(pending[i].retryCount - 1)
    }

    constructor ()
      ensures Valid() && !running && stream == None && pending == []
    {
      running := false;
      stream := None;
      retryCount := 0;
      pending := [];
      nextHandle := 0;
    }

    /** `startChangeStream(n)`: a no-op while running; otherwise open a new
        subscription and set the running flag. */
    method StartChangeStream(n: nat)
      requires Valid() && n <= MaxRetries
      modifies this
      ensures Valid() && pending == old(pending)
      ensures old(running) ==> unchanged(this)
      ensures !old(running) ==>
                running && stream == Some(old(nextHandle))
                && retryCount == n && nextHandle == old(nextHandle) + 1
    {
      if running {
        return;
      }
      stream := Some(nextHandle);
      nextHandle := nextHandle + 1;
      retryCount := n;
      running := true;
    }

    /** `stopChangeStream()`: close and forget the open subscription, if any.
        Scheduled reconnects are not cancelled. */
    method StopChangeStream()
      requires Valid()
      modifies this
      ensures Valid() && !running && stream == None
      ensures pending == old(pending) && retryCount == old(retryCount) && nextHandle == old(nextHandle)
    {
      if stream.Some? {
        stream := None;
        running := false;
      }
    }

    /** `POST /automation/start`: succeeds and starts with retry count 0 only when stopped. */
    method StartEndpoint() returns (success: bool)
      requires Valid()
      modifies this
      ensures Valid() && running && pending == old(pending)
      ensures success == !old(running)
      ensures success ==> stream == Some(old(nextHandle)) && retryCount == 0 && nextHandle == old(nextHandle) + 1
      ensures !success ==> unchanged(this)
    {
      if !running {
        StartChangeStream(0);
        success := true;
      } else {
        success := false;
      }
    }

    /** `POST /automation/stop`: succeeds and stops only when running. */
    method StopEndpoint() returns (success: bool)
      requires Valid()
      modifies this
      ensures Valid() && !running && stream == None
      ensures success == old(running)
      ensures pending == old(pending) && retryCount == old(retryCount) && nextHandle == old(nextHandle)
    {
      if running {
        StopChangeStream();
        success := true;
      } else {
        success := false;
      }
    }

    /** `GET /automation/status`. */
    method Status() returns (isRunning: bool)
      requires Valid()
      ensures isRunning == running
      ensures isRunning <==> stream.Some?
    {
      isRunning := running;
    }

    /** The open stream's `error` handler: clear the flag and the handle, and
        schedule `startChangeStream(retryCount + 1)` after the backoff delay
        when fewer than `MaxRetries` retries have been made. */
    method OnStreamError() returns (scheduled: bool)
      requires Valid() && running
      modifies this
      ensures Valid() && !running && stream == None
      ensures scheduled == (old(retryCount) < MaxRetries)
      ensures pending == if scheduled then old(pending) + [Restart(old(retryCount) + 1, Backoff(old(retryCount)))]
                         else old(pending)
      ensures retryCount == old(retryCount) && nextHandle == old(nextHandle)
    {
      running := false;
      stream := None;
      scheduled := retryCount < MaxRetries;
      if scheduled {
        pending := pending + [Restart(retryCount + 1, Backoff(retryCount))];
      }
    }

    /** A scheduled reconnect fires: it is removed and `startChangeStream` runs
        with its retry count (a no-op if the stream is running again). */
    method FireRestart(i: nat)
      requires Valid() && i < |pending|
      modifies this
      ensures Valid() && running
      ensures pending == old(pending[..i] + pending[i + 1..])
      ensures !old(running) ==>
                stream == Some(old(nextHandle)) && retryCount == old(pending[i].retryCount)
                && nextHandle == old(nextHandle) + 1
      ensures old(running) ==>
                stream == old(stream) && retryCount == old(retryCount) && nextHandle == old(nextHandle)
    {
      var r := pending[i];
      pending := pending[..i] + pending[i + 1..];
      StartChangeStream(r.retryCount);
    }
  }

  /** A stopped listener with nothing scheduled is started from the endpoint,
      and then every subscription fails at once, with each scheduled reconnect
      fired in turn. The automatic restarts carry the retry counts 1, 2, ..., 10,
      and after the tenth failure nothing more is scheduled. */
  method EveryStreamFails(l: Listener) returns (counts: seq<nat>)
    requires l.Valid() && !l.running && l.pending == []
    modifies l
    ensures counts == seq(MaxRetries, i => i + 1)
    ensures l.Valid() && !l.running && l.pending == []
  {
    var started := l.StartEndpoint();
    var scheduled := l.OnStreamError();
    counts := [];
    while scheduled
      invariant l.Valid() && !l.running
      invariant l.retryCount == |counts| <= MaxRetries
      invariant forall i :: 0 <= i < |counts| ==> counts[i] == i + 1
      invariant scheduled ==> |l.pending| == 1 && l.pending[0].retryCount == |counts| + 1
      invariant !scheduled ==> l.pending == [] && |counts| == MaxRetries
      decreases MaxRetries - |counts|
    {
      counts := counts + [l.pending[0].retryCount];
      l.FireRestart(0);
      scheduled := l.OnStreamError();
    }
  }
}
