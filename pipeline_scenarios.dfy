/**
 * Whole runs of the loop of internal/pipeline/pipeline.go in the situations
 * its tests set up: for each, the exact calls made in order (and so how many
 * fetches, writes, commits, sleeps and resets), how the run ends, and the
 * sleeper's count of sleeps since its last reset.
 */
module PipelineScenarios {
  import opened Wrappers
  import opened Errors
  import opened Api
  import opened Pipeline

  /** A collaborator that gives the same answer to every call. */
  function Always<T>(x: T): Script<T>
  {
    Script([], x)
  }

  /** A context that is not cancelled at its first `n` checks. */
  predicate Live(ctx: Context, n: nat)
  {
    n <= |ctx.polls| && forall i :: 0 <= i < n ==> !ctx.polls[i]
  }

  /** Collaborators that all succeed on a message `m` that decodes to `frame` and is processed into `blob`. */
  predicate HappyPath(env: Env, m: Message, frame: InputFrame, blob: ConvertedBlob, bytes: Bytes)
  {
    && env.reader.fetches == Always(Success(m))
    && env.codec.unmarshal(m.value) == Success(frame)
    && env.processor.results == Always(Success(blob))
    && env.codec.marshal(blob) == Success(bytes)
  }

  /** A context cancelled before the loop starts: nil at once, no call at all. */
  lemma CancelledBeforeStart(env: Env, k: nat)
    requires env.ctx.Done(0)
    ensures RunFrom(env, Start, 0, k) == Outcome(Stopped, [], k)
  {
  }

  /**
   * From a fresh fetch budget, three failing fetches in a row end the run
   * with the last fetch error, after two sleeps and no other call.
   */
  lemma FetchBudgetFrom(env: Env, e: Error, c: Cursor, k: nat)
    requires c.polls + 3 <= |env.ctx.polls|
    requires !env.ctx.polls[c.polls] && !env.ctx.polls[c.polls + 1] && !env.ctx.polls[c.polls + 2]
    requires forall i :: c.fetches <= i < c.fetches + 3 ==> env.reader.fetches.At(i) == Failure(e)
    ensures var f := Fetch(Failure(e));
      RunFrom(env, c, 0, k) == Outcome(Failed(e), [f, Sleep, f, Sleep, f], k + 2)
  {
    var f := Fetch(Failure(e));
    var c1 := c.(polls := c.polls + 1, fetches := c.fetches + 1);
    var c2 := c1.(polls := c1.polls + 1, fetches := c1.fetches + 1);
    assert env.reader.fetches.At(c.fetches) == Failure(e);
    assert env.reader.fetches.At(c1.fetches) == Failure(e);
    assert env.reader.fetches.At(c2.fetches) == Failure(e);
    assert RunFrom(env, c2, 2, k + 2) == Outcome(Failed(e), [f], k + 2);
    assert RunFrom(env, c1, 1, k + 1) == Prepend([f, Sleep], RunFrom(env, c2, 2, k + 2));
    assert RunFrom(env, c, 0, k) == Prepend([f, Sleep], RunFrom(env, c1, 1, k + 1));
    assert [f, Sleep] + ([f, Sleep] + [f]) == [f, Sleep, f, Sleep, f];
  }

  /**
   * A reader whose fetches always fail: the run gives up with the fetch
   * error after retryFetchCount (3) fetches and retryFetchCount - 1 sleeps,
   * and never processes, writes or commits.
   */
  lemma FetchBudgetExhausted(env: Env, e: Error, k: nat)
    requires Live(env.ctx, 3)
    requires env.reader.fetches == Always(Failure(e))
    ensures var f := Fetch(Failure(e));
      RunFrom(env, Start, 0, k) == Outcome(Failed(e), [f, Sleep, f, Sleep, f], k + 2)
  {
    FetchBudgetFrom(env, e, Start, k);
  }

  /**
   * The context is cancelled while a fetch fails: the run sleeps once, sees
   * the cancellation and returns nil, having fetched once and written and
   * committed nothing.
   */
  lemma CancelDuringFailingFetch(env: Env, e: Error, k: nat)
    requires env.ctx.polls == [false, true]
    requires env.reader.fetches == Always(Failure(e))
    ensures RunFrom(env, Start, 0, k) == Outcome(Stopped, [Fetch(Failure(e)), Sleep], k + 1)
  {
    var f := Fetch(Failure(e));
    assert RunFrom(env, Start, 0, k) == Prepend([f, Sleep], RunFrom(env, Cursor(1, 1, 0, 0, 0), 1, k + 1));
    assert [f, Sleep] + [] == [f, Sleep];
  }

  /**
   * One full cycle, then cancellation: one fetch, one process, one write of
   * the encoded blob, one commit of the fetched message, one reset of the
   * backoff (whatever its count was) and no sleep; the run returns nil.
   */
  lemma CycleThenCancel(env: Env, m: Message, frame: InputFrame, blob: ConvertedBlob, bytes: Bytes, k: nat)
    requires env.ctx.polls == [false, true]
    requires HappyPath(env, m, frame, blob, bytes)
    requires env.writer.writes == Always(None) && env.reader.commits == Always(None)
    ensures RunFrom(env, Start, 0, k)
      == Outcome(Stopped, [Fetch(Success(m)), Process(frame, Success(blob)), Write(WireMessage(blob, bytes), None), Commit(m, None), Reset], 0)
  {
    var msg := WireMessage(blob, bytes);
    var c1 := Cursor(1, 1, 0, 0, 0);
    var d := Deliver(env, c1.(processes := 1), m, msg, k);
    assert d == Cycle(Completed, [Write(msg, None)] + [Commit(m, None)] + [Reset], Cursor(1, 1, 1, 1, 1), 0);
    assert HandleMessage(env, c1, m, k) == Cycle(Completed, [Process(frame, Success(blob))] + d.trace, d.cursor, 0);
    assert RunAfterFetch(env, c1, m, k) == Prepend(HandleMessage(env, c1, m, k).trace, Outcome(Stopped, [], 0));
  }

  /**
   * A writer that always fails: the run writes the message retryWriteCount
   * (3) times with retryWriteCount - 1 sleeps between the attempts, never
   * commits, and gives up with the write error.
   */
  lemma WriteBudgetExhausted(env: Env, m: Message, frame: InputFrame, blob: ConvertedBlob, bytes: Bytes, e: Error, k: nat)
    requires Live(env.ctx, 1)
    requires HappyPath(env, m, frame, blob, bytes)
    requires env.writer.writes == Always(Some(e))
    ensures var w := Write(WireMessage(blob, bytes), Some(e));
      RunFrom(env, Start, 0, k) == Outcome(Failed(e), [Fetch(Success(m)), Process(frame, Success(blob)), w, Sleep, w, Sleep, w], k + 2)
  {
    var msg := WireMessage(blob, bytes);
    var w := Write(msg, Some(e));
    assert !env.ctx.polls[0];
    var a := Envelope(env, Writing, msg, 0, 0);
    assert Envelope(env, Writing, msg, 2, 2) == Attempts(Some(e), [w], 3);
    assert Envelope(env, Writing, msg, 1, 1) == Attempts(Some(e), [w, Sleep] + [w], 3);
    assert a == Attempts(Some(e), [w, Sleep] + ([w, Sleep] + [w]), 3);
    var c1 := Cursor(1, 1, 0, 0, 0);
    assert HandleMessage(env, c1, m, k).trace == [Process(frame, Success(blob))] + a.trace;
  }

  /**
   * A reader whose commits always fail: the run writes once, commits the
   * fetched message retryCommitCount (3) times with retryCommitCount - 1
   * sleeps between the attempts, and gives up with the commit error, never
   * resetting the backoff.
   */
  lemma CommitBudgetExhausted(env: Env, m: Message, frame: InputFrame, blob: ConvertedBlob, bytes: Bytes, e: Error, k: nat)
    requires Live(env.ctx, 1)
    requires HappyPath(env, m, frame, blob, bytes)
    requires env.writer.writes == Always(None) && env.reader.commits == Always(Some(e))
    ensures var c := Commit(m, Some(e));
      RunFrom(env, Start, 0, k)
        == Outcome(Failed(e), [Fetch(Success(m)), Process(frame, Success(blob)), Write(WireMessage(blob, bytes), None), c, Sleep, c, Sleep, c], k + 2)
  {
    var msg := WireMessage(blob, bytes);
    var c := Commit(m, Some(e));
    assert !env.ctx.polls[0];
    assert Envelope(env, Writing, msg, 0, 0) == Attempts(None, [Write(msg, None)], 1);
    var a := Envelope(env, Committing, m, 0, 0);
    assert Envelope(env, Committing, m, 2, 2) == Attempts(Some(e), [c], 3);
    assert Envelope(env, Committing, m, 1, 1) == Attempts(Some(e), [c, Sleep] + [c], 3);
    assert a == Attempts(Some(e), [c, Sleep] + ([c, Sleep] + [c]), 3);
    var c1 := Cursor(1, 1, 0, 0, 0);
    assert HandleMessage(env, c1, m, k).trace == [Process(frame, Success(blob))] + ([Write(msg, None)] + a.trace);
  }

  /**
   * A message that cannot be decoded, processed or encoded is dropped: the
   * run goes on to the next fetch with a fresh fetch budget, with no write,
   * commit, sleep or reset in between, and the writer's and the committer's
   * scripts untouched.
   */
  lemma DropSkipsDelivery(env: Env, c: Cursor, failedFetches: nat, k: nat, m: Message)
    requires failedFetches < RetryFetchCount
    requires c.polls < |env.ctx.polls| && !env.ctx.polls[c.polls]
    requires env.reader.fetches.At(c.fetches) == Success(m)
    ensures var c1 := c.(polls := c.polls + 1, fetches := c.fetches + 1);
      env.codec.unmarshal(m.value).Failure? ==>
        RunFrom(env, c, failedFetches, k) == Prepend([Fetch(Success(m))], RunFrom(env, c1, 0, k))
    ensures var c1 := c.(polls := c.polls + 1, fetches := c.fetches + 1, processes := c.processes + 1);
      var r := env.processor.results.At(c.processes);
      env.codec.unmarshal(m.value).Success? && (r.Failure? || env.codec.marshal(r.value).Failure?) ==>
        RunFrom(env, c, failedFetches, k)
          == Prepend([Fetch(Success(m)), Process(env.codec.unmarshal(m.value).value, r)], RunFrom(env, c1, 0, k))
  {
    var c1 := c.(polls := c.polls + 1, fetches := c.fetches + 1);
    var f := Fetch(Success(m));
    assert RunFrom(env, c, failedFetches, k) == Prepend([f], RunAfterFetch(env, c1, m, k));
    var decoded := env.codec.unmarshal(m.value);
    if decoded.Failure? {
      assert HandleMessage(env, c1, m, k) == Cycle(Dropped, [], c1, k);
      assert [] + RunFrom(env, c1, 0, k).trace == RunFrom(env, c1, 0, k).trace;
    } else {
      var r := env.processor.results.At(c.processes);
      if r.Failure? || env.codec.marshal(r.value).Failure? {
        var c2 := c1.(processes := c.processes + 1);
        assert HandleMessage(env, c1, m, k) == Cycle(Dropped, [Process(decoded.value, r)], c2, k);
        PrependTwice([f], [Process(decoded.value, r)], RunFrom(env, c2, 0, k));
        assert [f] + [Process(decoded.value, r)] == [f, Process(decoded.value, r)];
      }
    }
  }

  /**
   * A successful fetch restarts the fetch budget even when its message is
   * dropped: two failed fetches, an undecodable message, then failures
   * again give up only at the third failure after the drop, after six
   * fetches in all. Nothing resets the backoff meanwhile, so the sleeper
   * ends four sleeps further on.
   */
  lemma FetchSuccessRestartsBudget(env: Env, e: Error, m: Message, k: nat)
    requires Live(env.ctx, 6)
    requires env.codec.unmarshal(m.value).Failure?
    requires env.reader.fetches == Script([Failure(e), Failure(e), Success(m)], Failure(e))
    ensures var f := Fetch(Failure(e));
      RunFrom(env, Start, 0, k) == Outcome(Failed(e), [f, Sleep, f, Sleep, Fetch(Success(m)), f, Sleep, f, Sleep, f], k + 4)
  {
    var f := Fetch(Failure(e));
    var ok := Fetch(Success(m));
    forall i | 0 <= i < 6
      ensures !env.ctx.Done(i)
    {
    }
    var tail := RunFrom(env, Cursor(3, 3, 0, 0, 0), 0, k + 2);
    FetchBudgetFrom(env, e, Cursor(3, 3, 0, 0, 0), k + 2);
    DropSkipsDelivery(env, Cursor(2, 2, 0, 0, 0), 2, k + 2, m);
    assert RunFrom(env, Cursor(2, 2, 0, 0, 0), 2, k + 2) == Prepend([ok], tail);
    assert RunFrom(env, Cursor(1, 1, 0, 0, 0), 1, k + 1) == Prepend([f, Sleep], Prepend([ok], tail));
    assert RunFrom(env, Start, 0, k) == Prepend([f, Sleep], Prepend([f, Sleep], Prepend([ok], tail)));
    assert [f, Sleep] + ([f, Sleep] + ([ok] + [f, Sleep, f, Sleep, f])) == [f, Sleep, f, Sleep, ok, f, Sleep, f, Sleep, f];
  }
}
