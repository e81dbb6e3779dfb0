/**
 * The order of calls Run makes, as an automaton read one call at a time: an
 * independent statement of the protocol of internal/pipeline/pipeline.go,
 * and the lemma that every run of the model follows it.
 *
 * The automaton spells out the guarantees of the loop one call at a time:
 *   - a fetched message is processed only as the frame it decodes to;
 *   - the message written is keyed by the frame id of the processed blob and
 *     carries its encoding;
 *   - the message committed is the fetched one, and only after a successful
 *     write;
 *   - the backoff is reset only after a successful commit;
 *   - a sleep follows a failed call that is still within its budget, and
 *     nothing else;
 *   - after a budget is exhausted there are no more calls.
 */
module PipelineProtocol {
  import opened Wrappers
  import opened Errors
  import opened Api
  import opened Pipeline

  /** Where the loop stands, as far as the calls seen so far tell. */
  datatype Phase =
    | Top(failedFetches: nat)
    | FetchFailed(failedFetches: nat)
    | Fetched(m: Message)
    | Processed(m: Message, result: Result<ConvertedBlob, Error>)
    | WritePending(m: Message, msg: Message, failures: nat)
    | WriteFailed(m: Message, msg: Message, failures: nat)
    | CommitPending(m: Message, failures: nat)
    | CommitFailed(m: Message, failures: nat)
    | Committed(m: Message)
    | GaveUp(error: Error)

  /**
   * The phase a message that needs no further call is really in: a message
   * that does not decode, or whose processing or encoding failed, is dropped
   * (back to the loop top with a fresh fetch budget); an encoded blob is
   * about to be written.
   */
  function Settle(codec: Codec, p: Phase): Phase
  {
    match p
    case Fetched(m) => if codec.unmarshal(m.value).Failure? then Top(0) else p
    case Processed(m, r) =>
      if r.Failure? || codec.marshal(r.value).Failure? then Top(0)
      else WritePending(m, WireMessage(r.value, codec.marshal(r.value).value), 0)
    case _ => p
  }

  /** The calls a settled phase allows next, and where each leads. */
  function StepSettled(codec: Codec, p: Phase, e: Event): Option<Phase>
  {
    match p
    case Top(f) =>
      if !e.Fetch? then None
      else if e.fetched.Success? then Some(Fetched(e.fetched.value))
      else if f + 1 >= RetryFetchCount then Some(GaveUp(e.fetched.error))
      else Some(FetchFailed(f + 1))
    case FetchFailed(f) => if e.Sleep? then Some(Top(f)) else None
    case Fetched(m) =>
      if e.Process? && codec.unmarshal(m.value) == Success(e.frame) then Some(Processed(m, e.processed)) else None
    case Processed(_, _) => None
    case WritePending(m, msg, f) =>
      if !e.Write? || e.msg != msg then None
      else if e.err.None? then Some(CommitPending(m, 0))
      else if f + 1 >= RetryWriteCount then Some(GaveUp(e.err.value))
      else Some(WriteFailed(m, msg, f + 1))
    case WriteFailed(m, msg, f) => if e.Sleep? then Some(WritePending(m, msg, f)) else None
    case CommitPending(m, f) =>
      if !e.Commit? || e.m != m then None
      else if e.err.None? then Some(Committed(m))
      else if f + 1 >= RetryCommitCount then Some(GaveUp(e.err.value))
      else Some(CommitFailed(m, f + 1))
    case CommitFailed(m, f) => if e.Sleep? then Some(CommitPending(m, f)) else None
    case Committed(_) => if e.Reset? then Some(Top(0)) else None
    case GaveUp(_) => None
  }

  function Step(codec: Codec, s: Option<Phase>, e: Event): Option<Phase>
  {
    if s.None? then None else StepSettled(codec, Settle(codec, s.value), e)
  }

  /** Read the calls `t` from `s`; None once a call is not allowed. */
  function Scan(codec: Codec, s: Option<Phase>, t: seq<Event>): Option<Phase>
    decreases |t|
  {
    if t == [] then s else Scan(codec, Step(codec, s, t[0]), t[1..])
  }

  lemma {:induction false} ScanAppend(codec: Codec, s: Option<Phase>, a: seq<Event>, b: seq<Event>)
    ensures Scan(codec, s, a + b) == Scan(codec, Scan(codec, s, a), b)
    decreases |a|
  {
    if a != [] {
      assert (a + b)[0] == a[0];
      assert (a + b)[1..] == a[1..] + b;
      ScanAppend(codec, Step(codec, s, a[0]), a[1..], b);
    } else {
      assert a + b == b;
    }
  }

  lemma ScanOne(codec: Codec, s: Option<Phase>, e: Event)
    ensures Scan(codec, s, [e]) == Step(codec, s, e)
  {
    assert [e][1..] == [];
  }

  /** The phase of a stage of a retry envelope, before its attempt number `f`. */
  function Attempting(stage: Stage, m: Message, msg: Message, f: nat): Phase
  {
    match stage
    case Writing => WritePending(m, msg, f)
    case Committing => CommitPending(m, f)
  }

  /** Where a successful envelope leads: the commit after the write, the reset after the commit. */
  function Succeeded(stage: Stage, m: Message): Phase
  {
    match stage
    case Writing => CommitPending(m, 0)
    case Committing => Committed(m)
  }

  /**
   * A retry envelope follows the protocol: read from its attempting phase,
   * its calls end in the phase after success, or in having given up with
   * the error it reports.
   */
  lemma {:induction false} EnvelopeConforms(env: Env, stage: Stage, m: Message, msg: Message, n: nat, f: nat)
    requires f < Budget(stage)
    requires stage.Committing? ==> msg == m
    decreases Budget(stage) - f
    ensures var a := Envelope(env, stage, msg, n, f);
      Scan(env.codec, Some(Attempting(stage, m, msg, f)), a.trace)
        == Some(if a.gaveUp.Some? then GaveUp(a.gaveUp.value) else Succeeded(stage, m))
  {
    var err := Answer(env, stage, n);
    var e := Attempted(stage, msg, err);
    var s := Some(Attempting(stage, m, msg, f));
    ScanOne(env.codec, s, e);
    if err.Some? && f + 1 < Budget(stage) {
      var rest := Envelope(env, stage, msg, n + 1, f + 1);
      var failed := Some(if stage.Writing? then WriteFailed(m, msg, f + 1) else CommitFailed(m, f + 1));
      assert Step(env.codec, s, e) == failed;
      ScanOne(env.codec, failed, Sleep);
      ScanAppend(env.codec, s, [e], [Sleep]);
      assert [e] + [Sleep] == [e, Sleep];
      EnvelopeConforms(env, stage, m, msg, n + 1, f + 1);
      ScanAppend(env.codec, s, [e, Sleep], rest.trace);
    }
  }

  /** Delivering an encoded message follows the protocol, ending at the top, or given up. */
  lemma DeliverConforms(env: Env, c: Cursor, m: Message, msg: Message, k: nat)
    ensures var r := Deliver(env, c, m, msg, k);
      Scan(env.codec, Some(WritePending(m, msg, 0)), r.trace)
        == Some(if r.end.Fatal? then GaveUp(r.end.error) else Top(0))
  {
    var codec := env.codec;
    var r := Deliver(env, c, m, msg, k);
    var w := Envelope(env, Writing, msg, c.writes, 0);
    EnvelopeConforms(env, Writing, m, msg, c.writes, 0);
    if w.gaveUp.Some? {
      assert r.trace == w.trace && r.end == Fatal(w.gaveUp.value);
    } else {
      var a := Envelope(env, Committing, m, c.commits, 0);
      EnvelopeConforms(env, Committing, m, m, c.commits, 0);
      ScanAppend(codec, Some(WritePending(m, msg, 0)), w.trace, a.trace);
      if a.gaveUp.Some? {
        assert r.trace == w.trace + a.trace && r.end == Fatal(a.gaveUp.value);
      } else {
        assert r.trace == w.trace + a.trace + [Reset] && r.end == Completed;
        ScanOne(codec, Some(Committed(m)), Reset);
        ScanAppend(codec, Some(WritePending(m, msg, 0)), w.trace + a.trace, [Reset]);
      }
    }
  }

  /**
   * Handling a fetched message follows the protocol: it is dropped (back at
   * the top), completed (back at the top), or has given up with its error.
   */
  lemma HandleConforms(env: Env, c: Cursor, m: Message, k: nat)
    ensures var r := HandleMessage(env, c, m, k);
      var s := Scan(env.codec, Some(Fetched(m)), r.trace);
      && s.Some?
      && (r.end.Fatal? ==> s.value == GaveUp(r.end.error))
      && (!r.end.Fatal? ==> Settle(env.codec, s.value) == Top(0))
  {
    var codec := env.codec;
    if codec.unmarshal(m.value).Success? {
      var frame := codec.unmarshal(m.value).value;
      var converted := env.processor.results.At(c.processes);
      var p := Process(frame, converted);
      ScanOne(codec, Some(Fetched(m)), p);
      assert Step(codec, Some(Fetched(m)), p) == Some(Processed(m, converted));
      if converted.Success? && codec.marshal(converted.value).Success? {
        var c1 := c.(processes := c.processes + 1);
        var msg := WireMessage(converted.value, codec.marshal(converted.value).value);
        var d := Deliver(env, c1, m, msg, k);
        DeliverConforms(env, c1, m, msg, k);
        ScanAppend(codec, Some(Fetched(m)), [p], d.trace);
        assert Settle(codec, Processed(m, converted)) == WritePending(m, msg, 0);
        SettledScan(codec, Processed(m, converted), d.trace);
      }
    }
  }

  /** Reading calls from a phase is reading them from the phase it settles to. */
  lemma SettledScan(codec: Codec, p: Phase, t: seq<Event>)
    requires t != []
    ensures Scan(codec, Some(p), t) == Scan(codec, Some(Settle(codec, p)), t)
  {
    assert Settle(codec, Settle(codec, p)) == Settle(codec, p);
  }

  /**
   * Every run of the loop follows the protocol: read from any phase that
   * settles at the loop top with `failedFetches` failed fetches, its calls
   * are all allowed; a run that stops on cancellation stops at the loop
   * top, and a run that fails has given up with the error it returns.
   */
  lemma {:induction false} RunConforms(env: Env, c: Cursor, failedFetches: nat, k: nat, p: Phase)
    requires failedFetches < RetryFetchCount
    requires c.polls <= |env.ctx.polls|
    requires Settle(env.codec, p) == Top(failedFetches)
    decreases |env.ctx.polls| - c.polls, 1
    ensures var o := RunFrom(env, c, failedFetches, k);
      var s := Scan(env.codec, Some(p), o.trace);
      && s.Some?
      && (o.stop.Stopped? ==> Settle(env.codec, s.value).Top?)
      && (o.stop.Failed? ==> s.value == GaveUp(o.stop.error))
  {
    var codec := env.codec;
    if !env.ctx.Done(c.polls) {
      var fetched := env.reader.fetches.At(c.fetches);
      var c1 := c.(polls := c.polls + 1, fetches := c.fetches + 1);
      var f := Fetch(fetched);
      FetchConforms(codec, p, failedFetches, fetched);
      if fetched.Failure? && failedFetches + 1 < RetryFetchCount {
        var rest := RunFrom(env, c1, failedFetches + 1, k + 1);
        assert RunFrom(env, c, failedFetches, k) == Prepend([f, Sleep], rest);
        RunConforms(env, c1, failedFetches + 1, k + 1, Top(failedFetches + 1));
        ScanAppend(codec, Some(p), [f, Sleep], rest.trace);
      } else if fetched.Success? {
        var rest := RunAfterFetch(env, c1, fetched.value, k);
        assert RunFrom(env, c, failedFetches, k) == Prepend([f], rest);
        AfterFetchConforms(env, c1, fetched.value, k);
        ScanAppend(codec, Some(p), [f], rest.trace);
      }
    }
  }

  /**
   * A fetch at the loop top: a message moves on to its handling; a failure
   * within the budget must be followed by a sleep, which leads back to the
   * top with one more failure counted; the failure at the budget gives up.
   */
  lemma FetchConforms(codec: Codec, p: Phase, failedFetches: nat, fetched: Result<Message, Error>)
    requires Settle(codec, p) == Top(failedFetches)
    ensures var f := Fetch(fetched);
      && (fetched.Success? ==> Scan(codec, Some(p), [f]) == Some(Fetched(fetched.value)))
      && (fetched.Failure? && failedFetches + 1 >= RetryFetchCount ==> Scan(codec, Some(p), [f]) == Some(GaveUp(fetched.error)))
      && (fetched.Failure? && failedFetches + 1 < RetryFetchCount ==> Scan(codec, Some(p), [f, Sleep]) == Some(Top(failedFetches + 1)))
  {
    var f := Fetch(fetched);
    ScanOne(codec, Some(p), f);
    if fetched.Failure? && failedFetches + 1 < RetryFetchCount {
      ScanOne(codec, Some(FetchFailed(failedFetches + 1)), Sleep);
      ScanAppend(codec, Some(p), [f], [Sleep]);
      assert [f] + [Sleep] == [f, Sleep];
    }
  }

  lemma {:induction false} AfterFetchConforms(env: Env, c: Cursor, m: Message, k: nat)
    requires 0 < c.polls <= |env.ctx.polls|
    decreases |env.ctx.polls| - c.polls + 1, 0
    ensures var o := RunAfterFetch(env, c, m, k);
      var s := Scan(env.codec, Some(Fetched(m)), o.trace);
      && s.Some?
      && (o.stop.Stopped? ==> Settle(env.codec, s.value).Top?)
      && (o.stop.Failed? ==> s.value == GaveUp(o.stop.error))
  {
    var cycle := HandleMessage(env, c, m, k);
    HandleConforms(env, c, m, k);
    if !cycle.end.Fatal? {
      var s := Scan(env.codec, Some(Fetched(m)), cycle.trace);
      var rest := RunFrom(env, cycle.cursor, 0, cycle.backoff);
      RunConforms(env, cycle.cursor, 0, cycle.backoff, s.value);
      ScanAppend(env.codec, Some(Fetched(m)), cycle.trace, rest.trace);
    }
  }

  /** Run, from its start, follows the protocol. */
  lemma RunFollowsProtocol(env: Env, k: nat)
    ensures var o := RunFrom(env, Start, 0, k);
      var s := Scan(env.codec, Some(Top(0)), o.trace);
      && s.Some?
      && (o.stop.Stopped? ==> Settle(env.codec, s.value).Top?)
      && (o.stop.Failed? ==> s.value == GaveUp(o.stop.error))
  {
    RunConforms(env, Start, 0, k, Top(0));
  }
}
