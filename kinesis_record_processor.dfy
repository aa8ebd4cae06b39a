/**
 * The lifecycle of a Kinesis record processor: `initialize` records the
 * shard and schedules the first checkpoint, and `shutdown` waits for
 * in-flight records on TERMINATE and then checkpoints, retrying a bounded
 * number of times when the checkpoint is throttled.
 *
 * The wall clock is a parameter, the checkpointer is the function from
 * each `checkpoint()` call (numbered from 0) to its outcome, and the log
 * keeps only the level of each message.
 */
module Kinesis {
  import opened Wrappers
  import opened JavaLong

  /** Why the Kinesis client library shuts a record processor down. */
  datatype ShutdownReason = Requested | Zombie | Terminate

  /** What one `checkpointer.checkpoint()` call does: return, or throw one of three exceptions. */
  datatype CheckpointOutcome = Checkpointed | Throttled | ShutdownFailure | InvalidStateFailure

  /** A logged message, by level. */
  datatype LogLevel = Debug | Info | Warn | Error

  /** The checkpoint calls made and what was logged meanwhile. */
  datatype CheckpointRun = CheckpointRun(attempts: nat, log: seq<LogLevel>)

  function Repeat(level: LogLevel, n: nat): (r: seq<LogLevel>)
    ensures |r| == n
    ensures forall k :: 0 <= k < n ==> r[k] == level
  {
    seq(n, k => level)
  }

  /**
   * The checkpoint retry loop from attempt `i` on: attempt `i` is the call
   * the `i`-th outcome answers. Success ends the loop quietly, a shutdown
   * failure ends it with an info message and an invalid-state failure with
   * an error. A throttled attempt logs an info message and is retried,
   * unless it was attempt `numRetries - 1`, which logs an error instead.
   */
  function CheckpointFrom(numRetries: int, outcome: nat -> CheckpointOutcome, i: nat): (r: CheckpointRun)
    ensures |r.log| <= r.attempts
    ensures forall k :: 0 <= k < |r.log| - 1 ==> r.log[k] == Info
    decreases numRetries - i
  {
    if i >= numRetries then CheckpointRun(0, [])
    else match outcome(i)
      case Checkpointed => CheckpointRun(1, [])
      case ShutdownFailure => CheckpointRun(1, [Info])
      case InvalidStateFailure => CheckpointRun(1, [Error])
      case Throttled =>
        if i >= numRetries - 1 then CheckpointRun(1, [Error])
        else
          var rest := CheckpointFrom(numRetries, outcome, i + 1);
          CheckpointRun(1 + rest.attempts, [Info] + rest.log)
  }

  /** `n` throttled attempts, each logged at info level, followed by `r`. */
  function AfterThrottled(n: nat, r: CheckpointRun): CheckpointRun {
    CheckpointRun(n + r.attempts, Repeat(Info, n) + r.log)
  }

  /** The whole retry loop of a shutdown. */
  function Checkpoint(numRetries: int, outcome: nat -> CheckpointOutcome): (r: CheckpointRun)
    ensures numRetries > 0 ==> 1 <= r.attempts <= numRetries
    ensures numRetries <= 0 ==> r == CheckpointRun(0, [])
  {
    CheckpointAttemptsBound(numRetries, outcome, 0);
    CheckpointFrom(numRetries, outcome, 0)
  }

  /**
   * What waiting out a TERMINATE logs: one debug message per wait while
   * records are being processed, at most `numRetries` of them, then a
   * warning if records are still being processed.
   */
  function TerminateWaitLog(processingRecords: bool, numRetries: int): (r: seq<LogLevel>)
    ensures Warn in r <==> processingRecords
  {
    if processingRecords then Repeat(Debug, if numRetries > 0 then numRetries else 0) + [Warn] else []
  }

  /** Everything a shutdown logs: a debug message, the TERMINATE wait, the checkpoint loop. */
  function ShutdownLog(reason: ShutdownReason, processingRecords: bool, numRetries: int,
                       outcome: nat -> CheckpointOutcome): (r: seq<LogLevel>)
    ensures |r| >= 1 && r[0] == Debug
  {
    [Debug] + (if reason == Terminate then TerminateWaitLog(processingRecords, numRetries) else [])
    + Checkpoint(numRetries, outcome).log
  }

  // Properties of the retry loop

  /** The loop makes at most one call per remaining retry, and at least one if any retry remains. */
  lemma {:induction false} CheckpointAttemptsBound(numRetries: int, outcome: nat -> CheckpointOutcome, i: nat)
    ensures i < numRetries ==> 1 <= CheckpointFrom(numRetries, outcome, i).attempts <= numRetries - i
    ensures i >= numRetries ==> CheckpointFrom(numRetries, outcome, i).attempts == 0
    decreases numRetries - i
  {
    if i < numRetries && outcome(i) == Throttled && i < numRetries - 1 {
      CheckpointAttemptsBound(numRetries, outcome, i + 1);
    }
  }

  /**
   * The loop retries exactly while the checkpoint is throttled: every call
   * before the last was throttled, and the last call either was not
   * throttled or used up the retries.
   */
  lemma {:induction false} CheckpointStopsAtFirstUnthrottled(numRetries: int, outcome: nat -> CheckpointOutcome, i: nat)
    requires i < numRetries
    ensures var r := CheckpointFrom(numRetries, outcome, i);
      r.attempts >= 1
      && (forall k :: i <= k < i + r.attempts - 1 ==> outcome(k) == Throttled)
      && (outcome(i + r.attempts - 1) != Throttled || i + r.attempts == numRetries)
    decreases numRetries - i
  {
    if outcome(i) == Throttled && i < numRetries - 1 {
      CheckpointStopsAtFirstUnthrottled(numRetries, outcome, i + 1);
    }
  }

  /**
   * An error is logged exactly when the last call failed with an invalid
   * state, or was throttled (and so was the last one allowed).
   */
  lemma {:induction false} CheckpointErrorLogged(numRetries: int, outcome: nat -> CheckpointOutcome, i: nat)
    requires i < numRetries
    ensures var r := CheckpointFrom(numRetries, outcome, i);
      r.attempts >= 1
      && (Error in r.log <==> outcome(i + r.attempts - 1) in {InvalidStateFailure, Throttled})
    decreases numRetries - i
  {
    var r := CheckpointFrom(numRetries, outcome, i);
    if outcome(i) == Throttled && i < numRetries - 1 {
      CheckpointErrorLogged(numRetries, outcome, i + 1);
      var rest := CheckpointFrom(numRetries, outcome, i + 1);
      assert r.log == [Info] + rest.log;
      assert Error in r.log <==> Error in rest.log;
    }
  }

  /**
   * The loop looks at no more outcomes than the calls it makes: two
   * checkpointers that answer those calls alike give the same run.
   */
  lemma {:induction false} CheckpointUsesOnlyItsCalls(numRetries: int, o1: nat -> CheckpointOutcome,
                                                      o2: nat -> CheckpointOutcome, i: nat)
    requires forall k :: i <= k < i + CheckpointFrom(numRetries, o1, i).attempts ==> o1(k) == o2(k)
    ensures CheckpointFrom(numRetries, o1, i) == CheckpointFrom(numRetries, o2, i)
    decreases numRetries - i
  {
    if i < numRetries {
      CheckpointAttemptsBound(numRetries, o1, i);
      assert o1(i) == o2(i);
      if o1(i) == Throttled && i < numRetries - 1 {
        CheckpointUsesOnlyItsCalls(numRetries, o1, o2, i + 1);
      }
    }
  }

  /** When every call is throttled the loop makes every allowed call and ends with one error. */
  lemma {:induction false} AlwaysThrottled(numRetries: int, outcome: nat -> CheckpointOutcome, i: nat)
    requires forall k :: outcome(k) == Throttled
    requires i < numRetries
    ensures CheckpointFrom(numRetries, outcome, i) == AfterThrottled(numRetries - i - 1, CheckpointRun(1, [Error]))
    decreases numRetries - i
  {
    if i < numRetries - 1 {
      AlwaysThrottled(numRetries, outcome, i + 1);
      var n := numRetries - i - 1;
      assert Repeat(Info, n) == [Info] + Repeat(Info, n - 1);
    }
  }

  /** A throttled call that is not the last allowed one moves the loop on to the next call. */
  lemma ThrottledStep(numRetries: int, outcome: nat -> CheckpointOutcome, i: nat)
    requires i < numRetries - 1 && outcome(i) == Throttled
    ensures AfterThrottled(i, CheckpointFrom(numRetries, outcome, i))
         == AfterThrottled(i + 1, CheckpointFrom(numRetries, outcome, i + 1))
  {
    assert Repeat(Info, i + 1) == Repeat(Info, i) + [Info];
  }

  // The checkpointers of the shutdown tests: every call has the same outcome.

  function Always(o: CheckpointOutcome): nat -> CheckpointOutcome {
    k => o
  }

  /** The number of retries the tests configure. */
  const TEST_RETRIES: int := 2

  /** A successful checkpoint is called once; a throttled one twice, then shutdown returns. */
  lemma ShutdownAttemptExamples()
    ensures Checkpoint(TEST_RETRIES, Always(Checkpointed)).attempts == 1
    ensures Checkpoint(TEST_RETRIES, Always(Throttled)) == CheckpointRun(2, [Info, Error])
    ensures Checkpoint(TEST_RETRIES, Always(ShutdownFailure)) == CheckpointRun(1, [Info])
    ensures Checkpoint(TEST_RETRIES, Always(InvalidStateFailure)) == CheckpointRun(1, [Error])
  {
    AlwaysThrottled(TEST_RETRIES, Always(Throttled), 0);
    assert Repeat(Info, 1) == [Info];
  }

  /**
   * A TERMINATE shutdown with a successful checkpoint calls it once, and
   * logs a warning exactly when records are still being processed.
   */
  lemma TerminateExamples(processingRecords: bool)
    ensures Checkpoint(TEST_RETRIES, Always(Checkpointed)).attempts == 1
    ensures Warn in ShutdownLog(Terminate, processingRecords, TEST_RETRIES, Always(Checkpointed)) <==> processingRecords
  {
    var log := ShutdownLog(Terminate, processingRecords, TEST_RETRIES, Always(Checkpointed));
    assert log == [Debug] + TerminateWaitLog(processingRecords, TEST_RETRIES);
  }

  /** A shutdown warns exactly when it is a TERMINATE that finds records still being processed. */
  lemma ShutdownWarnings(reason: ShutdownReason, processingRecords: bool, numRetries: int,
                         outcome: nat -> CheckpointOutcome)
    ensures Warn in ShutdownLog(reason, processingRecords, numRetries, outcome) <==> reason == Terminate && processingRecords
  {
    NoWarningInCheckpoint(numRetries, outcome, 0);
    var wait := if reason == Terminate then TerminateWaitLog(processingRecords, numRetries) else [];
    assert ShutdownLog(reason, processingRecords, numRetries, outcome) == [Debug] + wait + Checkpoint(numRetries, outcome).log;
  }

  /** The retry loop logs no warning. */
  lemma {:induction false} NoWarningInCheckpoint(numRetries: int, outcome: nat -> CheckpointOutcome, i: nat)
    ensures Warn !in CheckpointFrom(numRetries, outcome, i).log
    decreases numRetries - i
  {
    if i < numRetries && outcome(i) == Throttled && i < numRetries - 1 {
      NoWarningInCheckpoint(numRetries, outcome, i + 1);
    }
  }

  /**
   * A record processor: the shard it reads, whether a batch of records is
   * being processed, when the next periodic checkpoint is due, and the log.
   */
  class RecordProcessor {
    const checkpointIntervalMillis: int64
    const retryWaitMillis: int64
    const numRetries: int
    var kinesisShardId: Option<string>
    var nextCheckpointTimeInMillis: int64
    var processingRecords: bool
    var log: seq<LogLevel>

    constructor (checkpointIntervalMillis: int64, retryWaitMillis: int64, numRetries: int)
      ensures this.checkpointIntervalMillis == checkpointIntervalMillis
      ensures this.retryWaitMillis == retryWaitMillis && this.numRetries == numRetries
      ensures kinesisShardId == None && nextCheckpointTimeInMillis == 0
      ensures !processingRecords && log == []
    {
      this.checkpointIntervalMillis := checkpointIntervalMillis;
      this.retryWaitMillis := retryWaitMillis;
      this.numRetries := numRetries;
      kinesisShardId := None;
      nextCheckpointTimeInMillis := 0;
      processingRecords := false;
      log := [];
    }

    method SetKinesisShardId(shardId: string)
      modifies this
      ensures kinesisShardId == Some(shardId)
      ensures nextCheckpointTimeInMillis == old(nextCheckpointTimeInMillis)
      ensures processingRecords == old(processingRecords) && log == old(log)
    {
      kinesisShardId := Some(shardId);
    }

    method SetProcessingRecords(processing: bool)
      modifies this
      ensures processingRecords == processing
      ensures kinesisShardId == old(kinesisShardId)
      ensures nextCheckpointTimeInMillis == old(nextCheckpointTimeInMillis) && log == old(log)
    {
      processingRecords := processing;
    }

    /**
     * Starts reading `shardId` at time `now`. A checkpoint left pending by a
     * previous owner of the shard is reported as a warning, otherwise the
     * start is logged at debug level. The first periodic checkpoint is due
     * one interval from now, so it does not happen at once.
     */
    method Initialize(shardId: string, pendingCheckpoint: bool, now: int64)
      modifies this
      ensures kinesisShardId == Some(shardId)
      ensures nextCheckpointTimeInMillis == Add(now, checkpointIntervalMillis)
      ensures 0 < checkpointIntervalMillis as int && now as int + checkpointIntervalMillis as int <= LONG_MAX
        ==> nextCheckpointTimeInMillis > now
      ensures processingRecords == old(processingRecords)
      ensures log == old(log) + [if pendingCheckpoint then Warn else Debug]
    {
      if pendingCheckpoint {
        log := log + [Warn];
      } else {
        log := log + [Debug];
      }
      kinesisShardId := Some(shardId);
      nextCheckpointTimeInMillis := Add(now, checkpointIntervalMillis);
    }

    /**
     * Shuts the processor down. On TERMINATE it first waits, up to
     * `numRetries` times, for records being processed; then it checkpoints.
     * The result is the number of `checkpoint()` calls made.
     */
    method Shutdown(reason: ShutdownReason, outcome: nat -> CheckpointOutcome) returns (attempts: nat)
      modifies this
      ensures kinesisShardId == old(kinesisShardId) && processingRecords == old(processingRecords)
      ensures nextCheckpointTimeInMillis == old(nextCheckpointTimeInMillis)
      ensures attempts == Checkpoint(numRetries, outcome).attempts
      ensures log == old(log) + ShutdownLog(reason, processingRecords, numRetries, outcome)
    {
      log := log + [Debug];
      if reason == Terminate {
        var i := 0;
        while processingRecords && i < numRetries
          invariant 0 <= i && (processingRecords ==> i <= if numRetries > 0 then numRetries else 0)
          invariant !processingRecords ==> i == 0
          invariant log == old(log) + [Debug] + Repeat(Debug, i)
          invariant kinesisShardId == old(kinesisShardId) && processingRecords == old(processingRecords)
          invariant nextCheckpointTimeInMillis == old(nextCheckpointTimeInMillis)
          decreases numRetries - i
        {
          // the sleep of retryWaitMillis between checks is left out
          log := log + [Debug];
          i := i + 1;
          assert Repeat(Debug, i) == Repeat(Debug, i - 1) + [Debug];
        }
        if processingRecords {
          log := log + [Warn];
        }
      }
      ghost var wait := if reason == Terminate then TerminateWaitLog(processingRecords, numRetries) else [];
      assert log == old(log) + [Debug] + wait;
      attempts := CheckpointWithRetries(outcome);
      assert ShutdownLog(reason, processingRecords, numRetries, outcome) == [Debug] + wait + Checkpoint(numRetries, outcome).log;
    }

    /** The checkpoint retry loop: at most `numRetries` calls, stopping at the first that is not throttled. */
    method CheckpointWithRetries(outcome: nat -> CheckpointOutcome) returns (attempts: nat)
      modifies this
      ensures kinesisShardId == old(kinesisShardId) && processingRecords == old(processingRecords)
      ensures nextCheckpointTimeInMillis == old(nextCheckpointTimeInMillis)
      ensures attempts == Checkpoint(numRetries, outcome).attempts
      ensures log == old(log) + Checkpoint(numRetries, outcome).log
    {
      attempts := 0;
      var i := 0;
      while i < numRetries
        invariant 0 <= i && attempts == i
        invariant log == old(log) + Repeat(Info, i)
        invariant kinesisShardId == old(kinesisShardId) && processingRecords == old(processingRecords)
        invariant nextCheckpointTimeInMillis == old(nextCheckpointTimeInMillis)
        invariant Checkpoint(numRetries, outcome) == AfterThrottled(i, CheckpointFrom(numRetries, outcome, i))
        decreases numRetries - i
      {
        attempts := attempts + 1;
        var o := outcome(i);
        if o == Checkpointed {
          break;
        } else if o == ShutdownFailure {
          log := log + [Info];
          break;
        } else if o == InvalidStateFailure {
          log := log + [Error];
          break;
        } else if i >= numRetries - 1 {
          log := log + [Error];
          break;
        }
        log := log + [Info];
        // the sleep of retryWaitMillis before the next call is left out
        ThrottledStep(numRetries, outcome, i);
        assert Repeat(Info, i + 1) == Repeat(Info, i) + [Info];
        i := i + 1;
      }
    }
  }

  // The test fixture: a 10 second checkpoint interval, 1 ms between retries, 2 retries.

  method NewTestProcessor() returns (p: RecordProcessor)
    ensures fresh(p) && p.numRetries == TEST_RETRIES && p.checkpointIntervalMillis == 10_000
    ensures p.kinesisShardId == None && !p.processingRecords && p.log == []
  {
    p := new RecordProcessor(10_000, 1, TEST_RETRIES);
  }

  /** Initialising, with or without a pending checkpoint, records the shard and schedules a later checkpoint. */
  method Initialisation(pendingCheckpoint: bool, now: int64) returns (shardId: Option<string>, next: int64)
    requires now as int + 10_000 <= LONG_MAX
    ensures shardId == Some("shard-id")
    ensures next > now
  {
    var p := NewTestProcessor();
    p.Initialize("shard-id", pendingCheckpoint, now);
    shardId, next := p.kinesisShardId, p.nextCheckpointTimeInMillis;
  }

  /** A REQUESTED or ZOMBIE shutdown of the test processor, for each outcome repeated on every call. */
  lemma ShutdownRun(reason: ShutdownReason, o: CheckpointOutcome)
    requires reason != Terminate
    ensures Checkpoint(TEST_RETRIES, Always(o)).attempts == if o == Throttled then 2 else 1
    ensures Error in ShutdownLog(reason, false, TEST_RETRIES, Always(o)) <==> o in {Throttled, InvalidStateFailure}
  {
    var run := Checkpoint(TEST_RETRIES, Always(o));
    assert ShutdownLog(reason, false, TEST_RETRIES, Always(o)) == [Debug] + run.log;
    ShutdownAttemptExamples();
  }

  /** Each outcome of `checkpoint()`, repeated on every call, against a REQUESTED or ZOMBIE shutdown. */
  method ShutdownWith(reason: ShutdownReason, o: CheckpointOutcome) returns (attempts: nat, errorLogged: bool)
    requires reason != Terminate
    ensures o == Throttled ==> attempts == 2 && errorLogged
    ensures o != Throttled ==> attempts == 1
    ensures errorLogged <==> o in {Throttled, InvalidStateFailure}
  {
    var p := NewTestProcessor();
    p.SetKinesisShardId("test-shard");
    attempts := p.Shutdown(reason, Always(o));
    ShutdownRun(reason, o);
    errorLogged := Error in p.log;
  }

  /** A TERMINATE shutdown warns exactly when records are still being processed. */
  method ShutdownTerminate(processing: bool) returns (attempts: nat, warned: bool)
    ensures attempts == 1
    ensures warned <==> processing
  {
    var p := NewTestProcessor();
    p.SetKinesisShardId("test-shard");
    p.SetProcessingRecords(processing);
    attempts := p.Shutdown(Terminate, Always(Checkpointed));
    TerminateExamples(processing);
    warned := Warn in p.log;
  }
}
