/**
 * The pipeline engine of internal/pipeline/pipeline.go.
 *
 * `Run` is the single-threaded loop: check cancellation, fetch (a failed
 * fetch sleeps and goes back to the cancellation check; the third
 * consecutive one is fatal), decode, process, encode (a failure of any of
 * these three drops the message and goes on to the next fetch), write (up to
 * three attempts, sleeping between them), commit the fetched message (up to
 * three attempts likewise), reset the backoff, and loop.
 *
 * The queue reader, the queue writer and the frame processor are scripted
 * collaborators: each answers its i-th call with the i-th answer of a script.
 * The protobuf codec is a pair of partial functions. Cancellation is a
 * script of answers to the loop-top check; a context whose script is used up
 * counts as done, so every run of the model ends. The sleeper is the
 * exponential backoff sleeper itself. `Run` also returns the calls it made
 * to its collaborators, with their answers, in order.
 */
module Pipeline {
  import opened Wrappers
  import opened Errors
  import opened Api
  import opened Sleeper

  /** retryFetchCount: consecutive failed fetches before giving up. */
  const RetryFetchCount: nat := 3
  /** retryWriteCount: failed writes of one message before giving up. */
  const RetryWriteCount: nat := 3
  /** retryCommitCount: failed commits of one message before giving up. */
  const RetryCommitCount: nat := 3

  /** The answers a collaborator gives to its successive calls: `answers` first, then `otherwise` for ever. */
  datatype Script<T> = Script(answers: seq<T>, otherwise: T)
  {
    function At(i: nat): T
    {
      if i < |answers| then answers[i] else otherwise
    }
  }

  /** Reader: what FetchMessage and CommitMessages answer. */
  datatype Reader = Reader(fetches: Script<Result<Message, Error>>, commits: Script<Option<Error>>)

  /** Writer: what WriteMessages answers. */
  datatype Writer = Writer(writes: Script<Option<Error>>)

  /** Processor: what Process answers. */
  datatype Processor = Processor(results: Script<Result<ConvertedBlob, Error>>)

  /** Reporter: the metrics sink; Run never calls it. */
  datatype Reporter = Reporter

  /** The generated protobuf codec: InputFrame.Unmarshal and ConvertedBlob.Marshal. */
  datatype Codec = Codec(unmarshal: Bytes -> Result<InputFrame, Error>, marshal: ConvertedBlob -> Result<Bytes, Error>)

  /** The cancellation signal: the answer of each successive loop-top check, then done. */
  datatype Context = Context(polls: seq<bool>)
  {
    predicate Done(k: nat)
    {
      k >= |polls| || polls[k]
    }
  }

  /** A call Run made to a collaborator, with the answer it got. */
  datatype Event =
    | Fetch(fetched: Result<Message, Error>)
    | Process(frame: InputFrame, processed: Result<ConvertedBlob, Error>)
    | Write(msg: Message, err: Option<Error>)
    | Commit(m: Message, err: Option<Error>)
    | Sleep
    | Reset

  /** How Run ended: nil after cancellation, or the error of an exhausted retry budget. */
  datatype Stop = Stopped | Failed(error: Error)

  /**
   * What a run from some point on does: how it ends, the calls it makes, and
   * how many sleeps the backoff sleeper has behind it since its last reset
   * when the run returns.
   */
  datatype Outcome = Outcome(stop: Stop, trace: seq<Event>, backoff: nat)

  /** Everything Run consults besides the sleeper. */
  datatype Env = Env(ctx: Context, codec: Codec, reader: Reader, writer: Writer, processor: Processor)

  /** How many times each collaborator has been asked so far. */
  datatype Cursor = Cursor(polls: nat, fetches: nat, processes: nat, writes: nat, commits: nat)

  const Start: Cursor := Cursor(0, 0, 0, 0, 0)

  /** The calls `t`, then the run `o`. */
  function Prepend(t: seq<Event>, o: Outcome): Outcome
  {
    Outcome(o.stop, t + o.trace, o.backoff)
  }

  lemma PrependTwice(a: seq<Event>, b: seq<Event>, o: Outcome)
    ensures Prepend(a, Prepend(b, o)) == Prepend(a + b, o)
  {
    assert a + (b + o.trace) == (a + b) + o.trace;
  }

  /** The two retry envelopes that follow a processed message. */
  datatype Stage = Writing | Committing

  function Budget(stage: Stage): nat
  {
    match stage
    case Writing => RetryWriteCount
    case Committing => RetryCommitCount
  }

  function Answer(env: Env, stage: Stage, n: nat): Option<Error>
  {
    match stage
    case Writing => env.writer.writes.At(n)
    case Committing => env.reader.commits.At(n)
  }

  function Attempted(stage: Stage, msg: Message, err: Option<Error>): Event
  {
    match stage
    case Writing => Write(msg, err)
    case Committing => Commit(msg, err)
  }

  /** The result of a retry envelope: the error it gave up with, its calls, the next call index. */
  datatype Attempts = Attempts(gaveUp: Option<Error>, trace: seq<Event>, next: nat)

  /**
   * A retry envelope entered with `failures` failed attempts behind it, whose
   * next call is the collaborator's n-th: attempt; on success stop; on
   * failure give up at the budget, or sleep and attempt again. It makes at
   * least one call, and at most as many as the budget has left.
   */
  function Envelope(env: Env, stage: Stage, msg: Message, n: nat, failures: nat): (a: Attempts)
    requires failures < Budget(stage)
    ensures n < a.next <= n + Budget(stage) - failures
    decreases Budget(stage) - failures
  {
    var err := Answer(env, stage, n);
    if err.None? then Attempts(None, [Attempted(stage, msg, None)], n + 1)
    else if failures + 1 >= Budget(stage) then Attempts(err, [Attempted(stage, msg, err)], n + 1)
    else
      var rest := Envelope(env, stage, msg, n + 1, failures + 1);
      Attempts(rest.gaveUp, [Attempted(stage, msg, err), Sleep] + rest.trace, rest.next)
  }

  /** `t` followed by the attempts `a`. */
  function After(t: seq<Event>, a: Attempts): Attempts
  {
    Attempts(a.gaveUp, t + a.trace, a.next)
  }

  /**
   * One attempt of a retry envelope, seen from the envelope as a whole: if the
   * calls `t` made so far leave the rest of it to do, then the next call ends
   * it (success, or failure at the budget) or is followed by a sleep and
   * leaves the rest after that to do.
   */
  lemma EnvelopeAdvance(env: Env, stage: Stage, msg: Message, n: nat, t: seq<Event>, next: nat, failures: nat)
    requires failures < Budget(stage)
    requires Envelope(env, stage, msg, n, 0) == After(t, Envelope(env, stage, msg, next, failures))
    ensures var err := Answer(env, stage, next);
      var t1 := t + [Attempted(stage, msg, err)];
      && (err.None? ==> Envelope(env, stage, msg, n, 0) == Attempts(None, t1, next + 1))
      && (err.Some? && failures + 1 >= Budget(stage) ==> Envelope(env, stage, msg, n, 0) == Attempts(err, t1, next + 1))
      && (err.Some? && failures + 1 < Budget(stage) ==>
            Envelope(env, stage, msg, n, 0) == After(t1 + [Sleep], Envelope(env, stage, msg, next + 1, failures + 1)))
  {
    var err := Answer(env, stage, next);
    if err.Some? && failures + 1 < Budget(stage) {
      var rest := Envelope(env, stage, msg, next + 1, failures + 1);
      assert t + ([Attempted(stage, msg, err), Sleep] + rest.trace) == t + [Attempted(stage, msg, err)] + [Sleep] + rest.trace;
    }
  }

  /**
   * An envelope recovers from failures within its budget: when the `j`
   * answers from `n` on fail and the one after them succeeds, and the budget
   * is not spent by then, the envelope succeeds on that answer.
   */
  lemma {:induction false} EnvelopeRecovers(env: Env, stage: Stage, msg: Message, n: nat, failures: nat, j: nat)
    requires failures + j < Budget(stage)
    requires forall i :: n <= i < n + j ==> Answer(env, stage, i).Some?
    requires Answer(env, stage, n + j).None?
    decreases j
    ensures var a := Envelope(env, stage, msg, n, failures);
      a.gaveUp.None? && a.next == n + j + 1
  {
    if j > 0 {
      assert Answer(env, stage, n).Some?;
      EnvelopeRecovers(env, stage, msg, n + 1, failures + 1, j - 1);
    }
  }

  /**
   * An envelope gives up exactly when every answer its remaining budget
   * allows fails; it then reports the last of those failures.
   */
  lemma {:induction false} EnvelopeGivesUp(env: Env, stage: Stage, msg: Message, n: nat, failures: nat)
    requires failures < Budget(stage)
    decreases Budget(stage) - failures
    ensures var a := Envelope(env, stage, msg, n, failures);
      && (a.gaveUp.Some? <==> forall i :: n <= i < n + Budget(stage) - failures ==> Answer(env, stage, i).Some?)
      && (a.gaveUp.Some? ==> a.next == n + Budget(stage) - failures && a.gaveUp == Answer(env, stage, a.next - 1))
  {
    var a := Envelope(env, stage, msg, n, failures);
    var err := Answer(env, stage, n);
    if err.None? {
      assert !(forall i :: n <= i < n + Budget(stage) - failures ==> Answer(env, stage, i).Some?);
    } else if failures + 1 < Budget(stage) {
      EnvelopeGivesUp(env, stage, msg, n + 1, failures + 1);
      var rest := Envelope(env, stage, msg, n + 1, failures + 1);
      assert a.gaveUp == rest.gaveUp && a.next == rest.next;
      if forall i :: n + 1 <= i < n + Budget(stage) - failures ==> Answer(env, stage, i).Some? {
        assert forall i :: n <= i < n + Budget(stage) - failures ==> Answer(env, stage, i).Some?;
      }
    }
  }

  /** The message written for a converted blob: keyed by its frame id, carrying its encoding. */
  function WireMessage(blob: ConvertedBlob, bytes: Bytes): Message
  {
    Message(blob.frameId, bytes, 0)
  }

  /** How the handling of one fetched message ended. */
  datatype CycleEnd = Dropped | Completed | Fatal(error: Error)

  /** The handling of one fetched message: its end, its calls, where the collaborators stand, the sleeper's count. */
  datatype Cycle = Cycle(end: CycleEnd, trace: seq<Event>, cursor: Cursor, backoff: nat)

  /**
   * Write `msg` with retries, then commit the fetched message `m` with
   * retries, then reset the backoff; either envelope giving up is fatal.
   */
  function Deliver(env: Env, c: Cursor, m: Message, msg: Message, k: nat): (r: Cycle)
    ensures r.cursor.polls == c.polls
  {
    var w := Envelope(env, Writing, msg, c.writes, 0);
    var c2 := c.(writes := w.next);
    var k2 := k + (w.next - c.writes - 1);
    if w.gaveUp.Some? then Cycle(Fatal(w.gaveUp.value), w.trace, c2, k2)
    else
      var s := Settle(env, m, c2, k2);
      s.(trace := w.trace + s.trace)
  }

  /** Commit the fetched message `m` with retries, then reset the backoff; giving up is fatal. */
  function Settle(env: Env, m: Message, c: Cursor, k: nat): (r: Cycle)
    ensures r.cursor.polls == c.polls && r.cursor.writes == c.writes
  {
    var a := Envelope(env, Committing, m, c.commits, 0);
    var c2 := c.(commits := a.next);
    if a.gaveUp.Some? then Cycle(Fatal(a.gaveUp.value), a.trace, c2, k + (a.next - c.commits - 1))
    else Cycle(Completed, a.trace + [Reset], c2, 0)
  }

  /**
   * Decode, process, encode, write and commit one fetched message `m`, with
   * the collaborators at `c` and the sleeper `k` sleeps past its last reset.
   */
  function HandleMessage(env: Env, c: Cursor, m: Message, k: nat): (r: Cycle)
    ensures r.cursor.polls == c.polls
  {
    match env.codec.unmarshal(m.value)
    case Failure(_) => Cycle(Dropped, [], c, k)
    case Success(frame) =>
      var converted := env.processor.results.At(c.processes);
      var c1 := c.(processes := c.processes + 1);
      var processed := [Process(frame, converted)];
      match converted
      case Failure(_) => Cycle(Dropped, processed, c1, k)
      case Success(blob) =>
        match env.codec.marshal(blob)
        case Failure(_) => Cycle(Dropped, processed, c1, k)
        case Success(bytes) =>
          var d := Deliver(env, c1, m, WireMessage(blob, bytes), k);
          Cycle(d.end, processed + d.trace, d.cursor, d.backoff)
  }

  /**
   * The run of the loop from its top, with the collaborators at cursor `c`,
   * `failedFetches` consecutive failed fetches behind it, and the sleeper `k`
   * sleeps past its last reset.
   */
  function RunFrom(env: Env, c: Cursor, failedFetches: nat, k: nat): (o: Outcome)
    requires failedFetches < RetryFetchCount
    requires c.polls <= |env.ctx.polls|
    decreases |env.ctx.polls| - c.polls, 1
  {
    if env.ctx.Done(c.polls) then Outcome(Stopped, [], k)
    else
      var fetched := env.reader.fetches.At(c.fetches);
      var c1 := c.(polls := c.polls + 1, fetches := c.fetches + 1);
      match fetched
      case Failure(e) =>
        if failedFetches + 1 >= RetryFetchCount then Outcome(Failed(e), [Fetch(fetched)], k)
        else Prepend([Fetch(fetched), Sleep], RunFrom(env, c1, failedFetches + 1, k + 1))
      case Success(m) =>
        Prepend([Fetch(fetched)], RunAfterFetch(env, c1, m, k))
  }

  /**
   * The run from a successful fetch of `m` on: handle the message, then stop
   * with the error of an exhausted budget, or go back to the loop top with a
   * fresh fetch budget.
   */
  function RunAfterFetch(env: Env, c: Cursor, m: Message, k: nat): (o: Outcome)
    requires 0 < c.polls <= |env.ctx.polls|
    decreases |env.ctx.polls| - c.polls + 1, 0
  {
    var cycle := HandleMessage(env, c, m, k);
    if cycle.end.Fatal? then Outcome(Failed(cycle.end.error), cycle.trace, cycle.backoff)
    else Prepend(cycle.trace, RunFrom(env, cycle.cursor, 0, cycle.backoff))
  }

  /** The sleeper's count of sleeps since its last reset, after one more call `e`. */
  function Bump(k: nat, e: Event): nat
  {
    if e.Sleep? then k + 1 else if e.Reset? then 0 else k
  }

  /**
   * The reference for the sleeper's count: sleeps since the last reset in
   * the calls `t`, starting from `k`.
   */
  function SleepsSinceReset(k: nat, t: seq<Event>): nat
  {
    if t == [] then k else Bump(SleepsSinceReset(k, t[..|t| - 1]), t[|t| - 1])
  }

  lemma SleepsAppend(k: nat, t: seq<Event>, e: Event)
    ensures SleepsSinceReset(k, t + [e]) == Bump(SleepsSinceReset(k, t), e)
  {
    assert (t + [e])[..|t|] == t;
  }

  lemma {:induction false} SleepsConcat(k: nat, a: seq<Event>, b: seq<Event>)
    ensures SleepsSinceReset(k, a + b) == SleepsSinceReset(SleepsSinceReset(k, a), b)
    decreases |b|
  {
    if b == [] {
      assert a + b == a;
    } else {
      var init, e := b[..|b| - 1], b[|b| - 1];
      assert b == init + [e];
      assert a + b == (a + init) + [e];
      SleepsConcat(k, a, init);
      SleepsAppend(k, a + init, e);
      SleepsAppend(SleepsSinceReset(k, a), init, e);
    }
  }

  /**
   * Inside an envelope every failed attempt but a final one is followed by a
   * sleep, and nothing resets the sleeper: its calls add one sleep per call
   * after the first.
   */
  lemma {:induction false} EnvelopeSleeps(env: Env, stage: Stage, msg: Message, n: nat, failures: nat, k: nat)
    requires failures < Budget(stage)
    decreases Budget(stage) - failures
    ensures var a := Envelope(env, stage, msg, n, failures);
      SleepsSinceReset(k, a.trace) == k + (a.next - n - 1)
  {
    var a := Envelope(env, stage, msg, n, failures);
    var err := Answer(env, stage, n);
    var e := Attempted(stage, msg, err);
    SleepsAppend(k, [], e);
    assert [] + [e] == [e];
    if err.Some? && failures + 1 < Budget(stage) {
      var rest := Envelope(env, stage, msg, n + 1, failures + 1);
      assert a.trace == [e, Sleep] + rest.trace && a.next == rest.next;
      EnvelopeSleeps(env, stage, msg, n + 1, failures + 1, k + 1);
      SleepsAppend(k, [e], Sleep);
      assert [e] + [Sleep] == [e, Sleep];
      SleepsConcat(k, [e, Sleep], rest.trace);
    } else {
      assert a.trace == [e] && a.next == n + 1;
    }
  }

  /** The count Settle reports is the count its calls leave behind. */
  lemma SettleSleeps(env: Env, m: Message, c: Cursor, k: nat)
    ensures var r := Settle(env, m, c, k);
      r.backoff == SleepsSinceReset(k, r.trace)
  {
    var a := Envelope(env, Committing, m, c.commits, 0);
    EnvelopeSleeps(env, Committing, m, c.commits, 0, k);
    if a.gaveUp.None? {
      SleepsAppend(k, a.trace, Reset);
    }
  }

  /** The count Deliver reports is the count its calls leave behind. */
  lemma DeliverSleeps(env: Env, c: Cursor, m: Message, msg: Message, k: nat)
    ensures var r := Deliver(env, c, m, msg, k);
      r.backoff == SleepsSinceReset(k, r.trace)
  {
    var w := Envelope(env, Writing, msg, c.writes, 0);
    EnvelopeSleeps(env, Writing, msg, c.writes, 0, k);
    if w.gaveUp.None? {
      var c2 := c.(writes := w.next);
      var k2 := k + (w.next - c.writes - 1);
      var r := Settle(env, m, c2, k2);
      SettleSleeps(env, m, c2, k2);
      SleepsConcat(k, w.trace, r.trace);
    }
  }

  /** The count HandleMessage reports is the count its calls leave behind. */
  lemma HandleMessageSleeps(env: Env, c: Cursor, m: Message, k: nat)
    ensures var r := HandleMessage(env, c, m, k);
      r.backoff == SleepsSinceReset(k, r.trace)
  {
    match env.codec.unmarshal(m.value)
    case Failure(_) =>
    case Success(frame) =>
      var converted := env.processor.results.At(c.processes);
      var processed := [Process(frame, converted)];
      SleepsAppend(k, [], processed[0]);
      assert [] + processed == processed;
      if converted.Success? && env.codec.marshal(converted.value).Success? {
        var c1 := c.(processes := c.processes + 1);
        var msg := WireMessage(converted.value, env.codec.marshal(converted.value).value);
        var d := Deliver(env, c1, m, msg, k);
        DeliverSleeps(env, c1, m, msg, k);
        SleepsConcat(k, processed, d.trace);
      }
  }

  /** The sleeper after one more call `e`: a Sleep sleeps, a Reset resets, any other call leaves it alone. */
  function Perform(initial: Duration, s: SleeperState, e: Event): SleeperState
  {
    if e.Sleep? then AfterSleep(s) else if e.Reset? then AfterReset(initial, s) else s
  }

  /** The sleeper after it has performed, in order, the Sleep and Reset calls among `t`. */
  function Replay(initial: Duration, s: SleeperState, t: seq<Event>): SleeperState
  {
    if t == [] then s else Perform(initial, Replay(initial, s, t[..|t| - 1]), t[|t| - 1])
  }

  lemma ReplayAppend(initial: Duration, s: SleeperState, t: seq<Event>, e: Event)
    ensures Replay(initial, s, t + [e]) == Perform(initial, Replay(initial, s, t), e)
  {
    assert (t + [e])[..|t|] == t;
  }

  lemma {:induction false} ReplayConcat(initial: Duration, s: SleeperState, a: seq<Event>, b: seq<Event>)
    ensures Replay(initial, s, a + b) == Replay(initial, Replay(initial, s, a), b)
    decreases |b|
  {
    if b == [] {
      assert a + b == a;
    } else {
      var init, e := b[..|b| - 1], b[|b| - 1];
      assert b == init + [e];
      assert a + b == (a + init) + [e];
      ReplayConcat(initial, s, a, init);
      ReplayAppend(initial, s, a + init, e);
      ReplayAppend(initial, Replay(initial, s, a), init, e);
    }
  }

  /**
   * Replaying the calls moves the sleeper's own count of sleeps since its
   * last reset exactly as the reference count over the calls says, and it
   * only ever adds to the delays waited for.
   */
  lemma {:induction false} ReplayCountsSleeps(initial: Duration, s: SleeperState, t: seq<Event>)
    ensures Replay(initial, s, t).sinceReset == SleepsSinceReset(s.sinceReset, t)
    ensures s.waits <= Replay(initial, s, t).waits
    decreases |t|
  {
    if t != [] {
      ReplayCountsSleeps(initial, s, t[..|t| - 1]);
    }
  }

  /** Replaying the calls keeps the sleeper's invariant. */
  lemma {:induction false} ReplayKeepsConsistent(initial: Duration, s: SleeperState, t: seq<Event>)
    requires Consistent(initial, s)
    ensures Consistent(initial, Replay(initial, s, t))
    decreases |t|
  {
    if t != [] {
      var before := Replay(initial, s, t[..|t| - 1]);
      ReplayKeepsConsistent(initial, s, t[..|t| - 1]);
      if t[|t| - 1].Sleep? {
        SleepKeepsConsistent(initial, before);
      } else if t[|t| - 1].Reset? {
        ResetKeepsConsistent(initial, before);
      }
    }
  }

  /**
   * Inside an envelope the sleeper only sleeps: performing its calls is one
   * sleep for each call after the first, and never a reset.
   */
  lemma {:induction false} EnvelopeReplay(env: Env, stage: Stage, msg: Message, n: nat, failures: nat,
                                          initial: Duration, s: SleeperState)
    requires failures < Budget(stage)
    decreases Budget(stage) - failures
    ensures var a := Envelope(env, stage, msg, n, failures);
      Replay(initial, s, a.trace) == Slept(s, a.next - n - 1)
  {
    var a := Envelope(env, stage, msg, n, failures);
    var err := Answer(env, stage, n);
    var e := Attempted(stage, msg, err);
    if err.Some? && failures + 1 < Budget(stage) {
      var rest := Envelope(env, stage, msg, n + 1, failures + 1);
      assert a.trace == [e, Sleep] + rest.trace && a.next == rest.next;
      ReplayAttemptThenSleep(initial, s, e, rest.trace);
      EnvelopeReplay(env, stage, msg, n + 1, failures + 1, initial, AfterSleep(s));
      SleptShift(s, rest.next - (n + 1) - 1);
    } else {
      assert a.trace == [e] && a.next == n + 1;
      ReplayAttempt(initial, s, e);
    }
  }

  /** An attempt alone leaves the sleeper as it was. */
  lemma ReplayAttempt(initial: Duration, s: SleeperState, e: Event)
    requires e.Write? || e.Commit?
    ensures Replay(initial, s, [e]) == s
  {
    ReplayAppend(initial, s, [], e);
    assert [] + [e] == [e];
  }

  /** An attempt and a sleep, then `rest`: the sleeper sleeps once before `rest`. */
  lemma ReplayAttemptThenSleep(initial: Duration, s: SleeperState, e: Event, rest: seq<Event>)
    requires e.Write? || e.Commit?
    ensures Replay(initial, s, [e, Sleep] + rest) == Replay(initial, AfterSleep(s), rest)
  {
    ReplayAttempt(initial, s, e);
    ReplayAppend(initial, s, [e], Sleep);
    assert [e] + [Sleep] == [e, Sleep];
    ReplayConcat(initial, s, [e, Sleep], rest);
  }

  /** The same, for an envelope as the write and commit loops report it. */
  lemma EnvelopeEndReplay(env: Env, stage: Stage, msg: Message, n: nat,
                          gaveUp: Option<Error>, t: seq<Event>, next: nat, initial: Duration, s: SleeperState)
    requires Attempts(gaveUp, t, next) == Envelope(env, stage, msg, n, 0)
    ensures Replay(initial, s, t) == Slept(s, next - n - 1)
  {
    EnvelopeReplay(env, stage, msg, n, 0, initial, s);
  }

  /** A fetch leaves the count alone; the sleep after a failed one adds one. */
  lemma FetchSleeps(k: nat, fetched: Result<Message, Error>)
    ensures SleepsSinceReset(k, [Fetch(fetched)]) == k
    ensures SleepsSinceReset(k, [Fetch(fetched), Sleep]) == k + 1
  {
    SleepsAppend(k, [], Fetch(fetched));
    assert [] + [Fetch(fetched)] == [Fetch(fetched)];
    SleepsAppend(k, [Fetch(fetched)], Sleep);
    assert [Fetch(fetched)] + [Sleep] == [Fetch(fetched), Sleep];
  }

  /**
   * The sleeper's count RunFrom reports is the reference count of its calls:
   * every Sleep call adds one, every Reset call clears it.
   */
  lemma {:induction false} RunBackoffCountsSleeps(env: Env, c: Cursor, failedFetches: nat, k: nat)
    requires failedFetches < RetryFetchCount
    requires c.polls <= |env.ctx.polls|
    decreases |env.ctx.polls| - c.polls, 1
    ensures var o := RunFrom(env, c, failedFetches, k);
      o.backoff == SleepsSinceReset(k, o.trace)
  {
    if !env.ctx.Done(c.polls) {
      var fetched := env.reader.fetches.At(c.fetches);
      var c1 := c.(polls := c.polls + 1, fetches := c.fetches + 1);
      FetchSleeps(k, fetched);
      if fetched.Failure? && failedFetches + 1 < RetryFetchCount {
        var rest := RunFrom(env, c1, failedFetches + 1, k + 1);
        assert RunFrom(env, c, failedFetches, k) == Prepend([Fetch(fetched), Sleep], rest);
        RunBackoffCountsSleeps(env, c1, failedFetches + 1, k + 1);
        SleepsConcat(k, [Fetch(fetched), Sleep], rest.trace);
      } else if fetched.Success? {
        var rest := RunAfterFetch(env, c1, fetched.value, k);
        assert RunFrom(env, c, failedFetches, k) == Prepend([Fetch(fetched)], rest);
        AfterFetchCountsSleeps(env, c1, fetched.value, k);
        SleepsConcat(k, [Fetch(fetched)], rest.trace);
      }
    }
  }

  lemma {:induction false} AfterFetchCountsSleeps(env: Env, c: Cursor, m: Message, k: nat)
    requires 0 < c.polls <= |env.ctx.polls|
    decreases |env.ctx.polls| - c.polls + 1, 0
    ensures var o := RunAfterFetch(env, c, m, k);
      o.backoff == SleepsSinceReset(k, o.trace)
  {
    var cycle := HandleMessage(env, c, m, k);
    HandleMessageSleeps(env, c, m, k);
    if !cycle.end.Fatal? {
      var rest := RunFrom(env, cycle.cursor, 0, cycle.backoff);
      RunBackoffCountsSleeps(env, cycle.cursor, 0, cycle.backoff);
      SleepsConcat(k, cycle.trace, rest.trace);
    }
  }

  /**
   * NewPipeline's guard chain: the first absent dependency, in the order
   * reader, writer, processor, sleeper, reporter, names the error.
   */
  function MissingDependency(hasReader: bool, hasWriter: bool, hasProcessor: bool, hasSleeper: bool, hasReporter: bool): (r: Option<Error>)
    ensures r.None? <==> hasReader && hasWriter && hasProcessor && hasSleeper && hasReporter
    ensures r == Some(NoReaderProvided) <==> !hasReader
    ensures r == Some(NoWriterProvided) <==> hasReader && !hasWriter
    ensures r == Some(NoProcessorProvided) <==> hasReader && hasWriter && !hasProcessor
    ensures r == Some(NoSleeperProvided) <==> hasReader && hasWriter && hasProcessor && !hasSleeper
    ensures r == Some(NoReporterProvided) <==> hasReader && hasWriter && hasProcessor && hasSleeper && !hasReporter
  {
    if !hasReader then Some(NoReaderProvided)
    else if !hasWriter then Some(NoWriterProvided)
    else if !hasProcessor then Some(NoProcessorProvided)
    else if !hasSleeper then Some(NoSleeperProvided)
    else if !hasReporter then Some(NoReporterProvided)
    else None
  }

  /** NewPipeline: a pipeline exactly when every dependency is present; otherwise nil and the guard's error. */
  method NewPipeline(reader: Option<Reader>, writer: Option<Writer>, processor: Option<Processor>,
                     sleeper: ExponentialBackoffSleeper?, reporter: Option<Reporter>, id: string)
    returns (p: Pipeline?, err: Option<Error>)
    ensures err == MissingDependency(reader.Some?, writer.Some?, processor.Some?, sleeper != null, reporter.Some?)
    ensures p == null <==> err.Some?
    ensures p != null ==>
      && fresh(p)
      && p.reader == reader.value && p.writer == writer.value && p.processor == processor.value
      && p.sleeper == sleeper && p.reporter == reporter.value && p.id == id
  {
    if reader.None? {
      return null, Some(NoReaderProvided);
    }
    if writer.None? {
      return null, Some(NoWriterProvided);
    }
    if processor.None? {
      return null, Some(NoProcessorProvided);
    }
    if sleeper == null {
      return null, Some(NoSleeperProvided);
    }
    if reporter.None? {
      return null, Some(NoReporterProvided);
    }
    p := new Pipeline(reader.value, writer.value, processor.value, sleeper, reporter.value, id);
    err := None;
  }

  /** Pipeline */
  class Pipeline {
    const reader: Reader
    const writer: Writer
    const processor: Processor
    const sleeper: ExponentialBackoffSleeper
    const reporter: Reporter
    /** The pipeline id, used only to label log lines. */
    const id: string

    constructor (reader: Reader, writer: Writer, processor: Processor,
                 sleeper: ExponentialBackoffSleeper, reporter: Reporter, id: string)
      ensures this.reader == reader && this.writer == writer && this.processor == processor
      ensures this.sleeper == sleeper && this.reporter == reporter && this.id == id
    {
      this.reader := reader;
      this.writer := writer;
      this.processor := processor;
      this.sleeper := sleeper;
      this.reporter := reporter;
      this.id := id;
    }

    /**
     * A sleep between two attempts: the sleeper performs it, and it joins the
     * calls `t` the run has made so far.
     */
    method Pause(ghost s0: SleeperState, t: seq<Event>) returns (t': seq<Event>)
      requires sleeper.Model() == Replay(sleeper.initial, s0, t)
      modifies sleeper
      ensures t' == t + [Sleep]
      ensures sleeper.Model() == Replay(sleeper.initial, s0, t')
      ensures sleeper.sinceReset == old(sleeper.sinceReset) + 1
      ensures old(sleeper.Valid()) ==> sleeper.Valid()
    {
      sleeper.Sleep();
      ReplayAppend(sleeper.initial, s0, t, Sleep);
      t' := t + [Sleep];
    }

    /** The write envelope of Run: WriteMessages up to three times, sleeping between failures. */
    method WriteWithRetry(env: Env, msg: Message, n: nat) returns (gaveUp: Option<Error>, t: seq<Event>, next: nat)
      requires env.writer == writer
      modifies sleeper
      ensures Attempts(gaveUp, t, next) == Envelope(env, Writing, msg, n, 0)
      ensures sleeper.sinceReset == old(sleeper.sinceReset) + (next - n - 1)
      ensures sleeper.Model() == Slept(old(sleeper.Model()), next - n - 1)
      ensures old(sleeper.Valid()) ==> sleeper.Valid()
    {
      ghost var k0 := sleeper.sinceReset;
      ghost var s0 := sleeper.Model();
      t, next := [], n;
      var messageWritten := false;
      var writeAttempt := 0;
      while !messageWritten
        invariant writeAttempt < RetryWriteCount
        invariant next == n + writeAttempt + (if messageWritten then 1 else 0)
        invariant sleeper.sinceReset == k0 + writeAttempt
        invariant sleeper.Model() == Slept(s0, writeAttempt)
        invariant !messageWritten ==> Envelope(env, Writing, msg, n, 0) == After(t, Envelope(env, Writing, msg, next, writeAttempt))
        invariant messageWritten ==> Envelope(env, Writing, msg, n, 0) == Attempts(None, t, next)
        decreases RetryWriteCount - writeAttempt, if messageWritten then 0 else 1
      {
        EnvelopeAdvance(env, Writing, msg, n, t, next, writeAttempt);
        var err := writer.writes.At(next);
        next := next + 1;
        t := t + [Write(msg, err)];
        if err.Some? {
          writeAttempt := writeAttempt + 1;
          if writeAttempt >= RetryWriteCount {
            if Consistent(sleeper.initial, s0) { SleptKeepsConsistent(sleeper.initial, s0, next - n - 1); }
            return err, t, next;
          } else {
            sleeper.Sleep();
            t := t + [Sleep];
            continue;
          }
        }
        messageWritten := true;
      }
      if Consistent(sleeper.initial, s0) { SleptKeepsConsistent(sleeper.initial, s0, next - n - 1); }
      gaveUp := None;
    }

    /** The commit envelope of Run: CommitMessages up to three times, sleeping between failures. */
    method CommitWithRetry(env: Env, m: Message, n: nat) returns (gaveUp: Option<Error>, t: seq<Event>, next: nat)
      requires env.reader == reader
      modifies sleeper
      ensures Attempts(gaveUp, t, next) == Envelope(env, Committing, m, n, 0)
      ensures sleeper.sinceReset == old(sleeper.sinceReset) + (next - n - 1)
      ensures sleeper.Model() == Slept(old(sleeper.Model()), next - n - 1)
      ensures old(sleeper.Valid()) ==> sleeper.Valid()
    {
      ghost var k0 := sleeper.sinceReset;
      ghost var s0 := sleeper.Model();
      t, next := [], n;
      var readCommitted := false;
      var commitAttempt := 0;
      while !readCommitted
        invariant commitAttempt < RetryCommitCount
        invariant next == n + commitAttempt + (if readCommitted then 1 else 0)
        invariant sleeper.sinceReset == k0 + commitAttempt
        invariant sleeper.Model() == Slept(s0, commitAttempt)
        invariant !readCommitted ==> Envelope(env, Committing, m, n, 0) == After(t, Envelope(env, Committing, m, next, commitAttempt))
        invariant readCommitted ==> Envelope(env, Committing, m, n, 0) == Attempts(None, t, next)
        decreases RetryCommitCount - commitAttempt, if readCommitted then 0 else 1
      {
        EnvelopeAdvance(env, Committing, m, n, t, next, commitAttempt);
        var err := reader.commits.At(next);
        next := next + 1;
        t := t + [Commit(m, err)];
        if err.Some? {
          commitAttempt := commitAttempt + 1;
          if commitAttempt >= RetryCommitCount {
            if Consistent(sleeper.initial, s0) { SleptKeepsConsistent(sleeper.initial, s0, next - n - 1); }
            return err, t, next;
          } else {
            sleeper.Sleep();
            t := t + [Sleep];
            continue;
          }
        }
        readCommitted := true;
      }
      if Consistent(sleeper.initial, s0) { SleptKeepsConsistent(sleeper.initial, s0, next - n - 1); }
      gaveUp := None;
    }

    /**
     * The end of Run's loop body: write `msg` and commit `m`, each with
     * retries, then reset the backoff; either envelope giving up is fatal.
     */
    method DeliverMessage(env: Env, c: Cursor, m: Message, msg: Message) returns (end: CycleEnd, t: seq<Event>, next: Cursor)
      requires env.reader == reader && env.writer == writer
      modifies sleeper
      ensures Cycle(end, t, next, sleeper.sinceReset) == Deliver(env, c, m, msg, old(sleeper.sinceReset))
      ensures sleeper.Model() == Replay(sleeper.initial, old(sleeper.Model()), t)
      ensures old(sleeper.Valid()) ==> sleeper.Valid()
    {
      ghost var s0 := sleeper.Model();
      var writeErr, written, nextWrite := WriteWithRetry(env, msg, c.writes);
      EnvelopeEndReplay(env, Writing, msg, c.writes, writeErr, written, nextWrite, sleeper.initial, s0);
      next, t := c.(writes := nextWrite), written;
      if writeErr.Some? {
        end := Fatal(writeErr.value);
      } else {
        var settled;
        end, settled, next := CommitAndReset(env, m, next);
        ReplayConcat(sleeper.initial, s0, written, settled);
        t := written + settled;
      }
    }

    /** The commit envelope of Run followed, once the commit succeeded, by the sleeper's reset. */
    method CommitAndReset(env: Env, m: Message, c: Cursor) returns (end: CycleEnd, t: seq<Event>, next: Cursor)
      requires env.reader == reader
      modifies sleeper
      ensures Cycle(end, t, next, sleeper.sinceReset) == Settle(env, m, c, old(sleeper.sinceReset))
      ensures sleeper.Model() == Replay(sleeper.initial, old(sleeper.Model()), t)
      ensures old(sleeper.Valid()) ==> sleeper.Valid()
    {
      ghost var s0 := sleeper.Model();
      var gaveUp, committed, nextCommit := CommitWithRetry(env, m, c.commits);
      EnvelopeEndReplay(env, Committing, m, c.commits, gaveUp, committed, nextCommit, sleeper.initial, s0);
      next, t := c.(commits := nextCommit), committed;
      if gaveUp.Some? {
        end := Fatal(gaveUp.value);
      } else {
        sleeper.Reset();
        ReplayAppend(sleeper.initial, s0, t, Reset);
        end, t := Completed, t + [Reset];
      }
    }

    /**
     * The part of Run's loop body after a successful fetch of `m`: decode,
     * process, encode (a failure of any drops the message), write and commit
     * with retries, reset the backoff. `c` is where the collaborators stand.
     */
    method HandleFetched(env: Env, c: Cursor, m: Message) returns (end: CycleEnd, t: seq<Event>, next: Cursor)
      requires env.reader == reader && env.writer == writer && env.processor == processor
      requires 0 < c.polls <= |env.ctx.polls|
      modifies sleeper
      ensures Cycle(end, t, next, sleeper.sinceReset) == HandleMessage(env, c, m, old(sleeper.sinceReset))
      ensures next.polls == c.polls
      ensures end.Fatal? ==> RunAfterFetch(env, c, m, old(sleeper.sinceReset)) == Outcome(Failed(end.error), t, sleeper.sinceReset)
      ensures !end.Fatal? ==>
        RunAfterFetch(env, c, m, old(sleeper.sinceReset)) == Prepend(t, RunFrom(env, next, 0, sleeper.sinceReset))
      ensures sleeper.Model() == Replay(sleeper.initial, old(sleeper.Model()), t)
      ensures old(sleeper.Valid()) ==> sleeper.Valid()
    {
      ghost var s0 := sleeper.Model();
      t, next := [], c;
      var frame := env.codec.unmarshal(m.value);
      if frame.Failure? {
        return Dropped, t, next;
      }

      var converted := processor.results.At(next.processes);
      next := next.(processes := next.processes + 1);
      t := [Process(frame.value, converted)];
      ReplayAppend(sleeper.initial, s0, [], t[0]);
      assert [] + t == t;
      if converted.Failure? {
        return Dropped, t, next;
      }

      var bytes := env.codec.marshal(converted.value);
      if bytes.Failure? {
        return Dropped, t, next;
      }

      var msg := WireMessage(converted.value, bytes.value);
      var delivered;
      end, delivered, next := DeliverMessage(env, next, m, msg);
      ReplayConcat(sleeper.initial, s0, t, delivered);
      t := t + delivered;
    }

    /**
     * One pass of Run's loop after the cancellation check, at cursor `c` with
     * `failedFetches` consecutive failed fetches behind it: fetch; a failed
     * fetch is fatal at the budget and is otherwise followed by a sleep; a
     * fetched message is handled. `fatal` is the error that ends the run, if
     * any; otherwise the run goes on from `next` with `failedAfter` failures.
     */
    method FetchAndHandle(env: Env, c: Cursor, failedFetches: nat)
      returns (fatal: Option<Error>, t: seq<Event>, next: Cursor, failedAfter: nat)
      requires env.reader == reader && env.writer == writer && env.processor == processor
      requires failedFetches < RetryFetchCount
      requires c.polls <= |env.ctx.polls| && !env.ctx.Done(c.polls)
      modifies sleeper
      ensures fatal.Some? ==>
        RunFrom(env, c, failedFetches, old(sleeper.sinceReset)) == Outcome(Failed(fatal.value), t, sleeper.sinceReset)
      ensures fatal.None? ==>
        && failedAfter < RetryFetchCount
        && c.polls < next.polls <= |env.ctx.polls|
        && RunFrom(env, c, failedFetches, old(sleeper.sinceReset)) == Prepend(t, RunFrom(env, next, failedAfter, sleeper.sinceReset))
      ensures sleeper.Model() == Replay(sleeper.initial, old(sleeper.Model()), t)
      ensures old(sleeper.Valid()) ==> sleeper.Valid()
    {
      ghost var s0 := sleeper.Model();
      ghost var k := sleeper.sinceReset;
      var fetched := reader.fetches.At(c.fetches);
      next := c.(polls := c.polls + 1, fetches := c.fetches + 1);
      t := [Fetch(fetched)];
      ReplayAppend(sleeper.initial, s0, [], t[0]);
      assert [] + t == t;
      if fetched.Failure? {
        failedAfter := failedFetches + 1;
        if failedAfter >= RetryFetchCount {
          assert RunFrom(env, c, failedFetches, k) == Outcome(Failed(fetched.error), t, k);
          return Some(fetched.error), t, next, failedAfter;
        }
        t := Pause(s0, t);
        assert RunFrom(env, c, failedFetches, k) == Prepend(t, RunFrom(env, next, failedAfter, k + 1));
        return None, t, next, failedAfter;
      }

      failedAfter := 0;
      assert RunFrom(env, c, failedFetches, k) == Prepend(t, RunAfterFetch(env, next, fetched.value, k));
      var end, handled, after := HandleFetched(env, next, fetched.value);
      ReplayConcat(sleeper.initial, s0, t, handled);
      if !end.Fatal? {
        PrependTwice(t, handled, RunFrom(env, after, 0, sleeper.sinceReset));
      }
      t, next := t + handled, after;
      fatal := if end.Fatal? then Some(end.error) else None;
    }

    /**
     * Pipeline.Run: returns None (nil) when it observes cancellation at the
     * loop top, or the error of an exhausted fetch, write or commit budget.
     * `trace` is the calls it made; the sleeper has performed exactly the
     * sleeps and resets among them, in order.
     */
    method Run(ctx: Context, codec: Codec) returns (err: Option<Error>, trace: seq<Event>)
      modifies sleeper
      ensures Outcome(if err.None? then Stopped else Failed(err.value), trace, sleeper.sinceReset)
              == RunFrom(Env(ctx, codec, reader, writer, processor), Start, 0, old(sleeper.sinceReset))
      ensures sleeper.Model() == Replay(sleeper.initial, old(sleeper.Model()), trace)
      ensures old(sleeper.Valid()) ==> sleeper.Valid()
    {
      ghost var s0 := sleeper.Model();
      var env := Env(ctx, codec, reader, writer, processor);
      ghost var whole := RunFrom(env, Start, 0, sleeper.sinceReset);
      trace := [];
      var c := Start;
      var failedFetches: nat := 0;
      while true
        invariant failedFetches < RetryFetchCount
        invariant c.polls <= |ctx.polls|
        invariant Prepend(trace, RunFrom(env, c, failedFetches, sleeper.sinceReset)) == whole
        invariant sleeper.Model() == Replay(sleeper.initial, s0, trace)
        decreases |ctx.polls| - c.polls
      {
        if ctx.Done(c.polls) {
          assert trace + [] == trace;
          if Consistent(sleeper.initial, s0) {
            ReplayKeepsConsistent(sleeper.initial, s0, trace);
          }
          return None, trace;
        }
        ghost var top := trace;
        var fatal, t, next, failedAfter := FetchAndHandle(env, c, failedFetches);
        ReplayConcat(sleeper.initial, s0, trace, t);
        trace := trace + t;
        if fatal.Some? {
          if Consistent(sleeper.initial, s0) {
            ReplayKeepsConsistent(sleeper.initial, s0, trace);
          }
          return fatal, trace;
        }
        PrependTwice(top, t, RunFrom(env, next, failedAfter, sleeper.sinceReset));
        c, failedFetches := next, failedAfter;
      }
    }
  }
}
