/**
 * The step-chain orchestrator (`fnCreateEmrStepPartition`). One invocation
 * either continues a country's chain after a job reports back, or, on the
 * `initial` step, drains the FIFO queue of waiting tasks until it can start
 * one. A one-shot sentinel lock drops repeated deliveries of the same event.
 *
 * The outside world is explicit. The lock table is the `Locks.Store` map.
 * The queue is a sequence of messages, and `inFlight` holds the messages
 * received but neither made visible again nor deleted. Every other side
 * effect (a job submission, a dead-letter send, a re-invocation, an error
 * notification) is appended to an effect log. The inputs the handler takes
 * from the clock, from `uuid4`, from the lock table's failures and from the
 * HTTP post come in an `Oracle`.
 */
module StepPartition {
  import opened Python
  import Locks
  import DlUtils

  /** A queue message: its group id is the country; its body is the task. */
  datatype Message = Message(id: nat, groupId: string, body: DlUtils.TaskData)

  /** The invocation event. A key the caller left out is None. */
  datatype Event = Event(
    sentinel: Option<string>,
    step: Option<string>,
    task: Option<DlUtils.TaskData>,
    status: Option<string>)

  /** The side effects an invocation has beyond the lock table and the queue. */
  datatype Effect =
    | Dispatch(step: string, task: DlUtils.TaskData)   // send_job succeeded
    | ReleaseLock(name: string)                        // release_lock was called
    | Reinvoke(sentinel: string)                       // asynchronous self-invocation with step `initial`
    | DeadLetter(queueName: string, task: DlUtils.TaskData)
    | Requeue(message: Message)                        // change_visibility(0)
    | Delete(message: Message)
    | NotifyError(topicArn: string)                    // SNS error publish before re-raising

  /**
   * What one invocation learns from outside: the clock (seconds), the guid
   * and the fault of its n-th lock-table call, whether the job submission's
   * HTTP post succeeds, and the uuid of a re-invocation.
   */
  datatype Oracle = Oracle(
    now: int,
    guid: nat -> string,
    fault: nat -> Locks.StoreFault,
    submitted: bool,
    freshSentinel: string)

  /** Lock-table calls are numbered: the sentinel lock, then either the release or the drain's lock attempts. */
  const SentinelCall: nat := 0
  const ReleaseCall: nat := 1
  function DrainCall(attempts: nat): nat { 1 + attempts }

  /** Everything an invocation can change. */
  datatype World = World(store: Locks.Store, queue: seq<Message>, inFlight: seq<Message>, log: seq<Effect>)

  /** How an invocation ends: it returns, or it raises `error` (after publishing it). */
  datatype Outcome = Returned | Raised(error: Error)

  const Completed: string := "COMPLETED"
  const Failed: string := "FAILED"
  /** A job is retried while its next attempt number is at most this. */
  const MaxAttempt: int := 5
  /** The drain gives up after this many refused country locks. */
  const MaxLockAttempts: nat := 12
  /** The first job of every chain, `map_steps['initial']`. */
  const FirstJob: string := "load_parquet_partition"

  /** The first job is the successor of `initial` in the step chain. */
  lemma FirstJobFollowsInitial()
    ensures DlUtils.Initial in DlUtils.MapSteps && FirstJob == DlUtils.MapSteps[DlUtils.Initial]
  {
  }

  const MainPrefix: string := "emrsteps:main:"
  const SentinelPrefix: string := "emrsteps:sentinel:"

  predicate IsMainLockName(name: string) {
    |MainPrefix| <= |name| && name[..|MainPrefix|] == MainPrefix
  }

  /** The per-country lock that makes a country's chains run one at a time. */
  function MainLockName(country: string): (r: string)
    ensures IsMainLockName(r) && r[|MainPrefix|..] == country
  {
    MainPrefix + country
  }

  /** The one-shot lock that identifies a delivery; it is never a country lock. */
  function SentinelLockName(sentinel: string): (r: string)
    ensures !IsMainLockName(r) && |SentinelPrefix| <= |r| && r[|SentinelPrefix|..] == sentinel
  {
    var r := SentinelPrefix + sentinel;
    assert r[9] == 's' && MainPrefix[9] == 'm';
    r
  }

  /** The standard (non-FIFO) dead-letter queue. */
  function DeadLetterQueue(env: DlUtils.Env): string {
    DlUtils.GetQueueName(env.sqsDeadPrefix, env.stage, env.project, false)
  }

  /** Two tables agree on every name that is not a country lock. */
  ghost predicate SameOffMain(s1: Locks.Store, s2: Locks.Store) {
    forall k | !IsMainLockName(k) :: (k in s1 <==> k in s2) && (k in s1 ==> s1[k] == s2[k])
  }

  // ---------------------------------------------------------------------
  // continue_step_chain
  // ---------------------------------------------------------------------

  /** The four outcomes of a callback. */
  datatype Decision = Finish | Advance(next: string) | Retry(attempt: int) | DeadLetterTask

  /**
   * The decision a callback for `step` with `status` takes, for a task at
   * `attempt`. An unknown step raises KeyError. Otherwise exactly one of the
   * four outcomes applies, as characterised below.
   */
  function Decide(step: string, status: string, attempt: int): (r: Result<Decision>)
    ensures r.Err? <==> step !in DlUtils.MapSteps
    ensures r.Ok? ==> (r.value == Finish <==> DlUtils.MapSteps[step] == DlUtils.Final && status == Completed)
    ensures r.Ok? ==> (r.value.Advance? <==> DlUtils.MapSteps[step] != DlUtils.Final && status == Completed)
    ensures r.Ok? && r.value.Advance? ==> r.value.next == DlUtils.MapSteps[step]
    ensures r.Ok? ==> (r.value.Retry? <==> status == Failed && attempt + 1 <= MaxAttempt)
    ensures r.Ok? && r.value.Retry? ==> r.value.attempt == attempt + 1
    ensures r.Ok? ==> (r.value == DeadLetterTask <==> status != Completed && (status != Failed || attempt + 1 > MaxAttempt))
  {
    if step !in DlUtils.MapSteps then Err(KeyError(step))
    else
      var next := DlUtils.MapSteps[step];
      if next == DlUtils.Final && status == Completed then Ok(Finish)
      else if status == Completed then Ok(Advance(next))
      else if status == Failed && attempt + 1 <= MaxAttempt then Ok(Retry(attempt + 1))
      else Ok(DeadLetterTask)
  }

  /** Release the country lock and re-invoke the function on `initial` with a fresh sentinel. */
  function Restart(w: World, country: string, o: Oracle): World {
    w.(store := Locks.Release(w.store, MainLockName(country), o.fault(ReleaseCall)),
       log := w.log + [ReleaseLock(MainLockName(country)), Reinvoke(o.freshSentinel)])
  }

  /** `send_job(step, task)`: the submission is logged if it succeeds, and raises otherwise. */
  function Submit(env: DlUtils.Env, topic: Option<string>, w: World, step: string, task: DlUtils.TaskData, submitted: bool): (Outcome, World) {
    match DlUtils.SendJob(env, topic, step, task, submitted)
    case Err(e) => (Raised(e), w)
    case Ok(_) => (Returned, w.(log := w.log + [Dispatch(step, task)]))
  }

  /**
   * `continue_step_chain(event)`. It reads `Step`, `Task` and `Status`, then
   * acts on the decision. A callback touches the queue never, the lock table
   * only at the task's country lock, and the log only by appending.
   */
  function ContinueSpec(env: DlUtils.Env, topic: Option<string>, w: World, event: Event, o: Oracle): (r: (Outcome, World))
    ensures r.1.queue == w.queue && r.1.inFlight == w.inFlight
    ensures w.log <= r.1.log
    ensures event.task.Some? ==> forall k | k != MainLockName(event.task.value.country) ::
              (k in r.1.store <==> k in w.store) && (k in w.store ==> r.1.store[k] == w.store[k])
  {
    if event.step.None? then (Raised(KeyError("Step")), w)
    else if event.task.None? then (Raised(KeyError("Task")), w)
    else if event.status.None? then (Raised(KeyError("Status")), w)
    else
      var step, task, status := event.step.value, event.task.value, event.status.value;
      match Decide(step, status, task.attempt)
      case Err(e) => (Raised(e), w)
      case Ok(Finish) => (Returned, Restart(w, task.country, o))
      case Ok(Advance(next)) => Submit(env, topic, w, next, task, o.submitted)
      case Ok(Retry(attempt)) => Submit(env, topic, w, step, task.(attempt := attempt), o.submitted)
      case Ok(DeadLetterTask) =>
        (Returned, Restart(w.(log := w.log + [DeadLetter(DeadLetterQueue(env), task)]), task.country, o))
  }

  // ---------------------------------------------------------------------
  // The drain loop of lambda_handler
  // ---------------------------------------------------------------------

  /**
   * The drain loop from its `attempts`-th refused lock on. A received message
   * leaves the head of the queue. If its country lock is refused, it goes back
   * to the tail and counts as an attempt. Otherwise its body is submitted as
   * `load_parquet_partition`; after a successful submission the message is
   * deleted and the loop returns.
   */
  function Drain(env: DlUtils.Env, topic: Option<string>, w: World, attempts: nat, o: Oracle): (r: (Outcome, World))
    ensures w.log <= r.1.log
    ensures SameOffMain(w.store, r.1.store)
    decreases MaxLockAttempts - attempts
  {
    if attempts >= MaxLockAttempts || |w.queue| == 0 then (Returned, w)
    else
      var m := w.queue[0];
      var a := Locks.Acquire(w.store, MainLockName(m.groupId), None, o.now, o.guid(DrainCall(attempts)), o.fault(DrainCall(attempts)));
      if !a.acquired then
        Drain(env, topic, w.(queue := w.queue[1..] + [m], log := w.log + [Requeue(m)]), attempts + 1, o)
      else
        var held := w.(store := a.store, queue := w.queue[1..], inFlight := w.inFlight + [m]);
        match DlUtils.SendJob(env, topic, FirstJob, m.body, o.submitted)
        case Err(e) => (Raised(e), held)
        case Ok(_) => (Returned, held.(inFlight := w.inFlight, log := w.log + [Dispatch(FirstJob, m.body), Delete(m)]))
  }

  // ---------------------------------------------------------------------
  // lambda_handler
  // ---------------------------------------------------------------------

  /**
   * The body of the handler's `try`. It takes the sentinel lock; when that is
   * refused the event is a repeat and the handler returns. Otherwise it either
   * continues the chain or drains the queue.
   */
  function Process(env: DlUtils.Env, topic: Option<string>, w: World, event: Event, o: Oracle): (r: (Outcome, World))
    ensures w.log <= r.1.log
    ensures event.sentinel.Some? &&
            Locks.Acquire(w.store, SentinelLockName(event.sentinel.value), None, o.now, o.guid(SentinelCall), o.fault(SentinelCall)).acquired ==>
              SentinelLockName(event.sentinel.value) in r.1.store
              && r.1.store[SentinelLockName(event.sentinel.value)] == Locks.NewRecord(o.now, None, o.guid(SentinelCall))
  {
    if event.sentinel.None? then (Raised(KeyError("Sentinel")), w)
    else
      var name := SentinelLockName(event.sentinel.value);
      var a := Locks.Acquire(w.store, name, None, o.now, o.guid(SentinelCall), o.fault(SentinelCall));
      if !a.acquired then (Returned, w)
      else
        var w1 := w.(store := a.store);
        if event.step.None? then (Raised(KeyError("Step")), w1)
        else if event.step.value != DlUtils.Initial then
          var r := ContinueSpec(env, topic, w1, event, o);
          assert event.task.Some? ==> name != MainLockName(event.task.value.country) by {
            assert !IsMainLockName(name);
          }
          r
        else Drain(env, topic, w1, 0, o)
  }

  /** `lambda_handler`: any exception is published to the error topic and then raised again. */
  function Handle(env: DlUtils.Env, topic: Option<string>, w: World, event: Event, o: Oracle): (Outcome, World) {
    var r := Process(env, topic, w, event, o);
    if r.0.Raised? then (r.0, r.1.(log := r.1.log + [NotifyError(env.snsTopic)])) else r
  }

  // ---------------------------------------------------------------------
  // One chain, callback by callback
  // ---------------------------------------------------------------------

  /** Where a country's chain stands between callbacks. */
  datatype ChainState = Running(step: string, attempt: int) | Finished | DeadLettered | Broken(error: Error)

  /** The chain state after one callback reporting `status`, as `continue_step_chain` decides it. */
  function Callback(s: ChainState, status: string): ChainState {
    match s
    case Running(step, attempt) =>
      (match Decide(step, status, attempt)
       case Err(e) => Broken(e)
       case Ok(Finish) => Finished
       case Ok(Advance(next)) => Running(next, attempt)
       case Ok(Retry(a)) => Running(step, a)
       case Ok(DeadLetterTask) => DeadLettered)
    case _ => s
  }

  /** The chain state after a sequence of callbacks. */
  function Run(s: ChainState, statuses: seq<string>): ChainState
    decreases |statuses|
  {
    if statuses == [] then s else Run(Callback(s, statuses[0]), statuses[1..])
  }

  function CountOf(statuses: seq<string>, status: string): nat
    decreases |statuses|
  {
    if statuses == [] then 0 else (if statuses[0] == status then 1 else 0) + CountOf(statuses[1..], status)
  }

  /** A job step's successor is one rank later, and is either `final` or another job step. */
  lemma {:induction false} NextStep(step: string)
    requires step in DlUtils.MapSteps
    ensures DlUtils.Rank(step) < 5
    ensures DlUtils.Rank(DlUtils.MapSteps[step]) == DlUtils.Rank(step) + 1
    ensures DlUtils.MapSteps[step] == DlUtils.Final || DlUtils.MapSteps[step] in DlUtils.MapSteps
  {
    DlUtils.MapStepsIsForwardChain();
    DlUtils.StepOrderDistinct();
    var i :| 0 <= i < 5 && step == DlUtils.StepOrder[i];
    assert DlUtils.Rank(step) == i;
    var next := DlUtils.MapSteps[step];
    if next != DlUtils.Final {
      assert DlUtils.Rank(next) < 5;
      assert next == DlUtils.StepOrder[DlUtils.Rank(next)];
    }
  }

  /** Once a chain has stopped, later callbacks change nothing. */
  lemma {:induction false} StoppedStaysStopped(s: ChainState, statuses: seq<string>)
    requires !s.Running?
    ensures Run(s, statuses) == s
    decreases |statuses|
  {
    if statuses != [] {
      StoppedStaysStopped(Callback(s, statuses[0]), statuses[1..]);
    }
  }

  /**
   * Every callback of a running chain either advances it by one step (on
   * COMPLETED) or raises its attempt by one (on FAILED); any other status stops
   * it. So the attempt counts all failures since the start, and is not reset
   * when the chain advances. It never exceeds 5. A chain stays running for at
   * most (4 - rank of its step) + (5 - its attempt) callbacks.
   */
  lemma {:induction false} RunAccounting(step0: string, attempt0: int, statuses: seq<string>)
    requires step0 in DlUtils.MapSteps && attempt0 <= MaxAttempt
    ensures var s := Run(Running(step0, attempt0), statuses);
            s.Running? ==>
              && s.step in DlUtils.MapSteps
              && attempt0 <= s.attempt <= MaxAttempt
              && s.attempt == attempt0 + CountOf(statuses, Failed)
              && DlUtils.Rank(s.step) == DlUtils.Rank(step0) + CountOf(statuses, Completed)
              && |statuses| == CountOf(statuses, Failed) + CountOf(statuses, Completed)
              && |statuses| <= (4 - DlUtils.Rank(step0)) + (MaxAttempt - attempt0)
    decreases |statuses|
  {
    var s := Run(Running(step0, attempt0), statuses);
    NextStep(step0);
    if statuses != [] && s.Running? {
      var c := Callback(Running(step0, attempt0), statuses[0]);
      if !c.Running? {
        StoppedStaysStopped(c, statuses[1..]);
      } else {
        RunAccounting(c.step, c.attempt, statuses[1..]);
        NextStep(c.step);
      }
    }
  }

  /** Four successful jobs from the first step finish the chain; three leave it at the last job. */
  lemma {:induction false} FourCompletionsFinish(attempt: int)
    ensures Run(Running(FirstJob, attempt), [Completed, Completed, Completed]) == Running("load_functional_redshift", attempt)
    ensures Run(Running(FirstJob, attempt), [Completed, Completed, Completed, Completed]) == Finished
  {
    var s1, s2, s3 := Running("load_redshift_partition", attempt), Running("load_functional", attempt), Running("load_functional_redshift", attempt);
    assert Callback(Running(FirstJob, attempt), Completed) == s1;
    assert Callback(s1, Completed) == s2;
    assert Callback(s2, Completed) == s3;
    assert Callback(s3, Completed) == Finished;
    var c1: seq<string> := [Completed];
    assert Run(s3, c1) == Finished by { assert c1[1..] == []; }
    assert Run(s2, [Completed] + c1) == Finished by { assert ([Completed] + c1)[1..] == c1; }
    assert Run(s1, [Completed, Completed] + c1) == Finished by { assert ([Completed, Completed] + c1)[1..] == [Completed] + c1; }
    assert [Completed, Completed, Completed, Completed][1..] == [Completed, Completed] + c1;
    assert Run(s2, [Completed]) == s3 by { assert Run(s3, []) == s3; assert [Completed][1..] == []; }
    assert Run(s1, [Completed, Completed]) == s3 by { assert [Completed, Completed][1..] == [Completed]; }
    assert [Completed, Completed, Completed][1..] == [Completed, Completed];
  }

  /**
   * A failure at attempt 3 re-runs the same step at attempt 4. A failure at
   * attempt 5 dead-letters the task. Completing the last job finishes the chain.
   */
  lemma CallbackExamples()
    ensures Callback(Running("load_redshift_partition", 3), Failed) == Running("load_redshift_partition", 4)
    ensures Callback(Running("load_redshift_partition", 5), Failed) == DeadLettered
    ensures Callback(Running("load_functional_redshift", 0), Completed) == Finished
    ensures Callback(Running("load_functional_redshift", 0), "RUNNING") == DeadLettered
  {
  }

  /**
   * What one callback does, by the chain state it leads to. A running chain
   * gets exactly one job submission, for its new step and attempt, and its lock
   * is left alone. A finished chain releases its country lock and re-invokes
   * `initial`. A dead-lettered one first sends the unchanged task to the
   * dead-letter queue. A raised error changes nothing.
   */
  lemma {:induction false} CallbackEffects(env: DlUtils.Env, topic: Option<string>, w: World, event: Event, o: Oracle)
    requires event.step.Some? && event.task.Some? && event.status.Some?
    ensures var r := ContinueSpec(env, topic, w, event, o);
            var added := r.1.log[|w.log|..];
            var task := event.task.value;
            var restarted := Locks.Release(w.store, MainLockName(task.country), o.fault(ReleaseCall));
            var next := Callback(Running(event.step.value, task.attempt), event.status.value);
            && (r.0.Raised? ==> r.1 == w)
            && (next.Broken? ==> r.0 == Raised(next.error))
            && (next.Running? ==>
                  (r.0.Returned? <==> DlUtils.SendJob(env, topic, next.step, task.(attempt := next.attempt), o.submitted).Ok?)
                  && r.1.store == w.store
                  && (r.0.Returned? ==> added == [Dispatch(next.step, task.(attempt := next.attempt))]))
            && (next == Finished ==>
                  r.0.Returned? && r.1.store == restarted
                  && added == [ReleaseLock(MainLockName(task.country)), Reinvoke(o.freshSentinel)])
            && (next == DeadLettered ==>
                  r.0.Returned? && r.1.store == restarted
                  && added == [DeadLetter(DeadLetterQueue(env), task), ReleaseLock(MainLockName(task.country)), Reinvoke(o.freshSentinel)])
  {
    var r := ContinueSpec(env, topic, w, event, o);
    var task := event.task.value;
    match Decide(event.step.value, event.status.value, task.attempt)
    case Err(_) =>
    case Ok(Finish) =>
    case Ok(Advance(_)) => assert task.(attempt := task.attempt) == task;
    case Ok(Retry(_)) =>
    case Ok(DeadLetterTask) =>
  }

  // ---------------------------------------------------------------------
  // The drain loop
  // ---------------------------------------------------------------------

  predicate OnlyRequeues(effects: seq<Effect>) {
    forall i | 0 <= i < |effects| :: effects[i].Requeue?
  }

  /** The messages a log deletes. */
  function Deleted(effects: seq<Effect>): multiset<Message>
    decreases |effects|
  {
    if effects == [] then multiset{}
    else (if effects[0].Delete? then multiset{effects[0].message} else multiset{}) + Deleted(effects[1..])
  }

  /**
   * What a drain appends: at most `bound` requeues, then possibly the
   * submission of one message's body as the first job, then that message's deletion.
   */
  predicate DrainLog(added: seq<Effect>, bound: nat) {
    || (OnlyRequeues(added) && |added| <= bound)
    || (&& 2 <= |added| <= bound + 2
        && OnlyRequeues(added[..|added| - 2])
        && added[|added| - 1].Delete?
        && added[|added| - 2] == Dispatch(FirstJob, added[|added| - 1].message.body))
  }

  lemma {:induction false} OnlyRequeuesDeleteNothing(effects: seq<Effect>)
    requires OnlyRequeues(effects)
    ensures Deleted(effects) == multiset{}
    decreases |effects|
  {
    if effects != [] {
      OnlyRequeuesDeleteNothing(effects[1..]);
    }
  }

  lemma PrependRequeue(m: Message, rest: seq<Effect>, bound: nat)
    requires DrainLog(rest, bound)
    ensures DrainLog([Requeue(m)] + rest, bound + 1)
    ensures OnlyRequeues(rest) ==> OnlyRequeues([Requeue(m)] + rest)
  {
    var added := [Requeue(m)] + rest;
    if !OnlyRequeues(rest) {
      assert added[..|added| - 2] == [Requeue(m)] + rest[..|rest| - 2];
    }
  }

  /** The first message's lock is refused: the drain goes on with that message at the tail. */
  predicate Refused(w: World, attempts: nat, o: Oracle)
    requires |w.queue| > 0
  {
    var m := w.queue[0];
    !Locks.Acquire(w.store, MainLockName(m.groupId), None, o.now, o.guid(DrainCall(attempts)), o.fault(DrainCall(attempts))).acquired
  }

  function Requeued(w: World): World
    requires |w.queue| > 0
  {
    w.(queue := w.queue[1..] + [w.queue[0]], log := w.log + [Requeue(w.queue[0])])
  }

  /** A refused lock requeues the message and continues with the next attempt. */
  lemma {:induction false} DrainRefused(env: DlUtils.Env, topic: Option<string>, w: World, attempts: nat, o: Oracle)
    requires attempts < MaxLockAttempts && |w.queue| > 0 && Refused(w, attempts, o)
    ensures var r := Drain(env, topic, w, attempts, o);
            r == Drain(env, topic, Requeued(w), attempts + 1, o)
            && r.1.log[|w.log|..] == [Requeue(w.queue[0])] + r.1.log[|Requeued(w).log|..]
  {
    var r := Drain(env, topic, w, attempts, o);
    assert Requeued(w).log <= r.1.log;
  }

  /** A taken lock starts the first message: it leaves the queue, and on success is deleted. */
  lemma {:induction false} DrainStarted(env: DlUtils.Env, topic: Option<string>, w: World, attempts: nat, o: Oracle)
    requires attempts < MaxLockAttempts && |w.queue| > 0 && !Refused(w, attempts, o)
    ensures var r := Drain(env, topic, w, attempts, o);
            var m := w.queue[0];
            && r.1.queue == w.queue[1..]
            && r.1.store == Locks.Acquire(w.store, MainLockName(m.groupId), None, o.now, o.guid(DrainCall(attempts)), o.fault(DrainCall(attempts))).store
            && (r.0.Raised? <==> DlUtils.SendJob(env, topic, FirstJob, m.body, o.submitted).Err?)
            && (r.0.Raised? ==> r.0.error == DlUtils.SendJob(env, topic, FirstJob, m.body, o.submitted).error)
            && (r.0.Raised? ==> r.1.log == w.log && r.1.inFlight == w.inFlight + [m])
            && (r.0.Returned? ==> r.1.log == w.log + [Dispatch(FirstJob, m.body), Delete(m)] && r.1.inFlight == w.inFlight)
  {
  }

  /**
   * What a drain from its `attempts`-th refused lock on appends: at most
   * 12 - attempts requeues, then possibly one started message. When the
   * submission raises, only the requeues before it.
   */
  predicate DrainShaped(env: DlUtils.Env, topic: Option<string>, w: World, attempts: nat, o: Oracle)
    requires attempts <= MaxLockAttempts
  {
    var r := Drain(env, topic, w, attempts, o);
    var added := r.1.log[|w.log|..];
    DrainLog(added, MaxLockAttempts - attempts) && (r.0.Raised? ==> OnlyRequeues(added))
  }

  /**
   * The drain from its `attempts`-th refused lock on. An empty queue returns at
   * once. At most 12 - attempts messages are requeued, and at most one is
   * started; a started message is deleted only after its submission succeeded,
   * and a failed submission appends only the requeues before it.
   */
  lemma {:induction false} DrainShape(env: DlUtils.Env, topic: Option<string>, w: World, attempts: nat, o: Oracle)
    requires attempts <= MaxLockAttempts
    ensures |w.queue| == 0 ==> Drain(env, topic, w, attempts, o) == (Returned, w)
    ensures DrainShaped(env, topic, w, attempts, o)
    decreases MaxLockAttempts - attempts, 1
  {
    if attempts >= MaxLockAttempts || |w.queue| == 0 {
      var r := Drain(env, topic, w, attempts, o);
      assert r.1.log[|w.log|..] == [];
    } else if Refused(w, attempts, o) {
      DrainShapeRefused(env, topic, w, attempts, o);
    } else {
      DrainShapeStarted(env, topic, w, attempts, o);
    }
  }

  lemma {:induction false} DrainShapeRefused(env: DlUtils.Env, topic: Option<string>, w: World, attempts: nat, o: Oracle)
    requires attempts < MaxLockAttempts && |w.queue| > 0 && Refused(w, attempts, o)
    ensures DrainShaped(env, topic, w, attempts, o)
    decreases MaxLockAttempts - attempts, 0
  {
    var r := Drain(env, topic, w, attempts, o);
    var added := r.1.log[|w.log|..];
    DrainRefused(env, topic, w, attempts, o);
    DrainShape(env, topic, Requeued(w), attempts + 1, o);
    var rest := r.1.log[|Requeued(w).log|..];
    PrependRequeue(w.queue[0], rest, MaxLockAttempts - (attempts + 1));
    assert added == [Requeue(w.queue[0])] + rest;
  }

  lemma {:induction false} DrainShapeStarted(env: DlUtils.Env, topic: Option<string>, w: World, attempts: nat, o: Oracle)
    requires attempts < MaxLockAttempts && |w.queue| > 0 && !Refused(w, attempts, o)
    ensures DrainShaped(env, topic, w, attempts, o)
  {
    var r := Drain(env, topic, w, attempts, o);
    var added := r.1.log[|w.log|..];
    DrainStarted(env, topic, w, attempts, o);
    var m := w.queue[0];
    if r.0.Raised? {
      assert added == [];
    } else {
      assert added == [Dispatch(FirstJob, m.body), Delete(m)];
      assert added[..|added| - 2] == [];
    }
  }

  /** The queue, the in-flight messages and the deleted ones are together the messages there were. */
  predicate Conserved(w: World, w2: World, added: seq<Effect>) {
    multiset(w2.queue) + multiset(w2.inFlight) + Deleted(added) == multiset(w.queue) + multiset(w.inFlight)
  }

  /**
   * The drain loses and duplicates no message: the queue, the in-flight
   * messages and the deleted ones are together the messages there were. A
   * drain that returns leaves nothing new in flight.
   */
  lemma {:induction false} DrainConservesMessages(env: DlUtils.Env, topic: Option<string>, w: World, attempts: nat, o: Oracle)
    ensures var r := Drain(env, topic, w, attempts, o);
            Conserved(w, r.1, r.1.log[|w.log|..]) && (r.0.Returned? ==> r.1.inFlight == w.inFlight)
    decreases MaxLockAttempts - attempts, 1
  {
    if attempts >= MaxLockAttempts || |w.queue| == 0 {
      var r := Drain(env, topic, w, attempts, o);
      assert r.1.log[|w.log|..] == [];
    } else if Refused(w, attempts, o) {
      ConservesRefused(env, topic, w, attempts, o);
    } else {
      ConservesStarted(env, topic, w, attempts, o);
    }
  }

  lemma {:induction false} ConservesRefused(env: DlUtils.Env, topic: Option<string>, w: World, attempts: nat, o: Oracle)
    requires attempts < MaxLockAttempts && |w.queue| > 0 && Refused(w, attempts, o)
    ensures var r := Drain(env, topic, w, attempts, o);
            Conserved(w, r.1, r.1.log[|w.log|..]) && (r.0.Returned? ==> r.1.inFlight == w.inFlight)
    decreases MaxLockAttempts - attempts, 0
  {
    var r := Drain(env, topic, w, attempts, o);
    DrainRefused(env, topic, w, attempts, o);
    DrainConservesMessages(env, topic, Requeued(w), attempts + 1, o);
    DeletedSkipsRequeue(w.queue[0], r.1.log[|Requeued(w).log|..]);
    RotateKeepsMessages(w.queue);
  }

  lemma {:induction false} ConservesStarted(env: DlUtils.Env, topic: Option<string>, w: World, attempts: nat, o: Oracle)
    requires attempts < MaxLockAttempts && |w.queue| > 0 && !Refused(w, attempts, o)
    ensures var r := Drain(env, topic, w, attempts, o);
            Conserved(w, r.1, r.1.log[|w.log|..]) && (r.0.Returned? ==> r.1.inFlight == w.inFlight)
  {
    var r := Drain(env, topic, w, attempts, o);
    var added := r.1.log[|w.log|..];
    DrainStarted(env, topic, w, attempts, o);
    var m := w.queue[0];
    RotateKeepsMessages(w.queue);
    if r.0.Raised? {
      assert added == [];
    } else {
      assert added == [Dispatch(FirstJob, m.body), Delete(m)];
      DeletedStartedMessage(m, FirstJob);
    }
  }

  lemma DeletedSkipsRequeue(m: Message, rest: seq<Effect>)
    ensures Deleted([Requeue(m)] + rest) == Deleted(rest)
  {
    assert ([Requeue(m)] + rest)[1..] == rest;
  }

  lemma DeletedStartedMessage(m: Message, step: string)
    ensures Deleted([Dispatch(step, m.body), Delete(m)]) == multiset{m}
  {
    var e := [Dispatch(step, m.body), Delete(m)];
    var tail := [Delete(m)];
    assert tail[1..] == [];
    assert Deleted(tail) == multiset{m} + Deleted([]);
    assert e[1..] == tail;
    assert Deleted(e) == multiset{} + Deleted(tail);
  }

  lemma RotateKeepsMessages(q: seq<Message>)
    requires |q| > 0
    ensures multiset(q[1..] + [q[0]]) == multiset(q)
    ensures multiset(q[1..]) + multiset{q[0]} == multiset(q)
  {
    assert q == [q[0]] + q[1..];
  }

  /**
   * When the submission of a drained message raises, that message stays in
   * flight (it is not deleted) and its country lock stays taken for six hours.
   */
  lemma {:induction false} FailedSubmissionKeepsLock(env: DlUtils.Env, topic: Option<string>, w: World, attempts: nat, o: Oracle)
    ensures var r := Drain(env, topic, w, attempts, o);
            r.0.Raised? ==>
              && |r.1.inFlight| == |w.inFlight| + 1 && r.1.inFlight[..|w.inFlight|] == w.inFlight
              && MainLockName(r.1.inFlight[|w.inFlight|].groupId) in r.1.store
              && r.1.store[MainLockName(r.1.inFlight[|w.inFlight|].groupId)].expiresOn == o.now + Locks.LockTtl
    decreases MaxLockAttempts - attempts
  {
    if attempts < MaxLockAttempts && |w.queue| > 0 {
      var m := w.queue[0];
      var a := Locks.Acquire(w.store, MainLockName(m.groupId), None, o.now, o.guid(DrainCall(attempts)), o.fault(DrainCall(attempts)));
      if !a.acquired {
        FailedSubmissionKeepsLock(env, topic, w.(queue := w.queue[1..] + [m], log := w.log + [Requeue(m)]), attempts + 1, o);
      }
    }
  }

  /**
   * A queue holding a message of a busy country and then one of a free
   * country: the first is requeued, the second's country is locked, its task
   * submitted as the first job and the message deleted. The busy country's
   * message stays queued for a later drain. This holds under the queue
   * discipline of this model, where a message made visible again goes to the
   * tail and a receive takes the head; a FIFO queue that hands the busy
   * country's message out again on every receive would instead use up the
   * 12 attempts on it.
   */
  lemma {:induction false} DrainSkipsBusyCountry(env: DlUtils.Env, topic: Option<string>, w: World, busy: Message, free: Message, o: Oracle)
    requires w.queue == [busy, free]
    requires MainLockName(busy.groupId) in w.store && Locks.Held(w.store[MainLockName(busy.groupId)], o.now)
    requires MainLockName(free.groupId) !in w.store
    requires o.fault(DrainCall(1)) == Locks.Healthy
    requires DlUtils.SendJob(env, topic, FirstJob, free.body, o.submitted).Ok?
    ensures Drain(env, topic, w, 0, o) ==
      (Returned, w.(store := w.store[MainLockName(free.groupId) := Locks.NewRecord(o.now, None, o.guid(DrainCall(1)))],
                    queue := [busy],
                    log := w.log + [Requeue(busy), Dispatch(FirstJob, free.body), Delete(free)]))
  {
    var w' := w.(queue := [free, busy], log := w.log + [Requeue(busy)]);
    assert w.queue[1..] + [busy] == [free, busy];
    assert !Locks.Acquire(w.store, MainLockName(busy.groupId), None, o.now, o.guid(DrainCall(0)), o.fault(DrainCall(0))).acquired;
    assert Drain(env, topic, w, 0, o) == Drain(env, topic, w', 1, o);
    assert w'.queue[1..] == [busy];
    assert w'.log + [Dispatch(FirstJob, free.body), Delete(free)] == w.log + [Requeue(busy), Dispatch(FirstJob, free.body), Delete(free)];
  }

  // ---------------------------------------------------------------------
  // Whole invocations
  // ---------------------------------------------------------------------

  /**
   * A delivery whose sentinel lock cannot be taken returns without any effect.
   * That covers a repeat whose sentinel is still held, and also a lock-table
   * failure on the sentinel, which drops the event silently.
   */
  lemma RefusedSentinelIsNoOp(env: DlUtils.Env, topic: Option<string>, w: World, event: Event, o: Oracle)
    requires event.sentinel.Some?
    requires var name := SentinelLockName(event.sentinel.value);
             o.fault(SentinelCall) != Locks.Healthy || (name in w.store && Locks.Held(w.store[name], o.now))
    ensures Handle(env, topic, w, event, o) == (Returned, w)
  {
  }

  /**
   * Two deliveries of one event within six hours: if the first took the
   * sentinel lock, the second does nothing at all, whatever it would have done.
   */
  lemma {:induction false} SecondDeliveryIsNoOp(env: DlUtils.Env, topic: Option<string>, w: World, event: Event, o1: Oracle, o2: Oracle)
    requires event.sentinel.Some?
    requires Locks.Acquire(w.store, SentinelLockName(event.sentinel.value), None, o1.now, o1.guid(SentinelCall), o1.fault(SentinelCall)).acquired
    requires o2.now < o1.now + Locks.LockTtl
    ensures var w1 := Handle(env, topic, w, event, o1).1;
            Handle(env, topic, w1, event, o2) == (Returned, w1)
  {
    var w1 := Handle(env, topic, w, event, o1).1;
    var name := SentinelLockName(event.sentinel.value);
    assert name in w1.store && w1.store[name].expiresOn == o1.now + Locks.LockTtl;
    RefusedSentinelIsNoOp(env, topic, w1, event, o2);
  }

  predicate AtMostOneDispatch(effects: seq<Effect>) {
    forall i, j | 0 <= i < j < |effects| :: !(effects[i].Dispatch? && effects[j].Dispatch?)
  }

  predicate AtMostOneRelease(effects: seq<Effect>) {
    forall i, j | 0 <= i < j < |effects| :: !(effects[i].ReleaseLock? && effects[j].ReleaseLock?)
  }

  lemma {:induction false} DrainLogCounts(added: seq<Effect>, bound: nat)
    requires DrainLog(added, bound)
    ensures AtMostOneDispatch(added) && AtMostOneRelease(added)
    ensures forall i | 0 <= i < |added| :: !added[i].NotifyError?
  {
    if !OnlyRequeues(added) {
      assert forall i | 0 <= i < |added| - 2 :: added[..|added| - 2][i] == added[i];
    }
  }

  /** What the `try` body appends: at most one job, at most one release, and no error. */
  predicate QuietLog(added: seq<Effect>) {
    AtMostOneDispatch(added) && AtMostOneRelease(added) && forall i | 0 <= i < |added| :: !added[i].NotifyError?
  }

  lemma {:induction false} CallbackLogIsQuiet(env: DlUtils.Env, topic: Option<string>, w: World, event: Event, o: Oracle)
    ensures var r := ContinueSpec(env, topic, w, event, o);
            QuietLog(r.1.log[|w.log|..])
  {
    var r := ContinueSpec(env, topic, w, event, o);
    if event.step.Some? && event.task.Some? && event.status.Some? {
      CallbackEffects(env, topic, w, event, o);
    } else {
      assert r.1.log[|w.log|..] == [];
    }
  }

  lemma {:induction false} DrainLogIsQuiet(env: DlUtils.Env, topic: Option<string>, w: World, o: Oracle)
    ensures var r := Drain(env, topic, w, 0, o);
            QuietLog(r.1.log[|w.log|..])
  {
    var r := Drain(env, topic, w, 0, o);
    DrainShape(env, topic, w, 0, o);
    DrainLogCounts(r.1.log[|w.log|..], MaxLockAttempts);
  }

  /** The `try` body submits at most one job, releases at most one lock and publishes no error. */
  lemma {:induction false} ProcessEffects(env: DlUtils.Env, topic: Option<string>, w: World, event: Event, o: Oracle)
    ensures var r := Process(env, topic, w, event, o);
            QuietLog(r.1.log[|w.log|..])
  {
    var r := Process(env, topic, w, event, o);
    if event.sentinel.Some? {
      var name := SentinelLockName(event.sentinel.value);
      var a := Locks.Acquire(w.store, name, None, o.now, o.guid(SentinelCall), o.fault(SentinelCall));
      var w1 := w.(store := a.store);
      if a.acquired && event.step.Some? && event.step.value != DlUtils.Initial {
        CallbackLogIsQuiet(env, topic, w1, event, o);
      } else if a.acquired && event.step.Some? {
        DrainLogIsQuiet(env, topic, w1, o);
      } else {
        assert r.1.log[|w.log|..] == [];
      }
    } else {
      assert r.1.log[|w.log|..] == [];
    }
  }

  /**
   * One invocation submits at most one job and releases at most one lock. It
   * publishes an error, as its last effect, exactly when it raises. The log only grows.
   */
  lemma {:induction false} InvocationEffects(env: DlUtils.Env, topic: Option<string>, w: World, event: Event, o: Oracle)
    ensures var r := Handle(env, topic, w, event, o);
            var added := r.1.log[|w.log|..];
            && w.log <= r.1.log
            && AtMostOneDispatch(added) && AtMostOneRelease(added)
            && (r.0.Raised? <==> |added| > 0 && added[|added| - 1] == NotifyError(env.snsTopic))
  {
    var p := Process(env, topic, w, event, o);
    var pAdded := p.1.log[|w.log|..];
    ProcessEffects(env, topic, w, event, o);
    assert QuietLog(pAdded);
    if p.0.Raised? {
      var added := Handle(env, topic, w, event, o).1.log[|w.log|..];
      assert added == pAdded + [NotifyError(env.snsTopic)];
    } else if |pAdded| > 0 {
      assert !pAdded[|pAdded| - 1].NotifyError?;
    }
  }

  // ---------------------------------------------------------------------
  // The handler object
  // ---------------------------------------------------------------------

  /** One deployment of the function: its configuration, its lock table, its queue and what it has done. */
  class StepPartitionHandler {
    const env: DlUtils.Env
    const topic: Option<string>
    const locker: Locks.LockerClient
    var queue: seq<Message>
    var inFlight: seq<Message>
    var log: seq<Effect>

    constructor (env: DlUtils.Env, topic: Option<string>, locker: Locks.LockerClient, queue: seq<Message>)
      ensures this.env == env && this.topic == topic && this.locker == locker
      ensures this.queue == queue && inFlight == [] && log == []
    {
      this.env := env;
      this.topic := topic;
      this.locker := locker;
      this.queue := queue;
      inFlight := [];
      log := [];
    }

    function State(): World
      reads this, locker
    {
      World(locker.store, queue, inFlight, log)
    }

    /** Release the country lock (a failing delete is swallowed) and re-invoke on `initial`. */
    method RestartCycle(country: string, o: Oracle)
      modifies this, locker
      ensures State() == Restart(old(State()), country, o)
    {
      locker.ReleaseLock(MainLockName(country), o.fault(ReleaseCall));
      log := log + [ReleaseLock(MainLockName(country)), Reinvoke(o.freshSentinel)];
    }

    /** `send_job`: build the request and post it; a failed post raises. */
    method SendJob(step: string, task: DlUtils.TaskData, submitted: bool) returns (out: Outcome)
      modifies this
      ensures (out, State()) == Submit(env, topic, old(State()), step, task, submitted)
    {
      var response := DlUtils.SendJob(env, topic, step, task, submitted);
      if response.Err? {
        return Raised(response.error);
      }
      log := log + [Dispatch(step, task)];
      return Returned;
    }

    /** `continue_step_chain(event)`. */
    method ContinueStepChain(event: Event, o: Oracle) returns (out: Outcome)
      modifies this, locker
      ensures (out, State()) == ContinueSpec(env, topic, old(State()), event, o)
    {
      if event.step.None? { return Raised(KeyError("Step")); }
      if event.task.None? { return Raised(KeyError("Task")); }
      if event.status.None? { return Raised(KeyError("Status")); }
      var step, task, status := event.step.value, event.task.value, event.status.value;
      var nextAttempt := task.attempt + 1;
      if step !in DlUtils.MapSteps {
        return Raised(KeyError(step));
      }
      var nextStep := DlUtils.MapSteps[step];
      if nextStep == DlUtils.Final && status == Completed {
        RestartCycle(task.country, o);
        out := Returned;
      } else if status == Completed {
        out := SendJob(nextStep, task, o.submitted);
      } else if status == Failed && nextAttempt <= MaxAttempt {
        task := task.(attempt := nextAttempt);
        out := SendJob(step, task, o.submitted);
      } else {
        log := log + [DeadLetter(DeadLetterQueue(env), task)];
        RestartCycle(task.country, o);
        out := Returned;
      }
    }

    /**
     * One pass of the drain loop: receive the head message and try its
     * country lock. A refused lock requeues the message and the loop goes on
     * (`done` is false); an empty queue or a taken lock ends the loop.
     */
    method DrainAttempt(attempts: nat, o: Oracle) returns (done: bool, out: Outcome)
      requires attempts < MaxLockAttempts
      modifies this, locker
      ensures Drain(env, topic, old(State()), attempts, o)
              == if done then (out, State()) else Drain(env, topic, State(), attempts + 1, o)
      ensures !done ==> out == Returned
    {
      ghost var w := State();
      if |queue| == 0 {
        return true, Returned;
      }
      var message := queue[0];
      queue := queue[1..];
      inFlight := inFlight + [message];
      var acquired := locker.GetLock(MainLockName(message.groupId), None, o.now,
                                     o.guid(DrainCall(attempts)), o.fault(DrainCall(attempts)));
      ghost var a := Locks.Acquire(w.store, MainLockName(message.groupId), None, o.now,
                                   o.guid(DrainCall(attempts)), o.fault(DrainCall(attempts)));
      assert acquired == a.acquired && locker.store == a.store;
      if !acquired {
        DrainRefused(env, topic, w, attempts, o);
        // change_visibility(0): the message is back in the queue
        inFlight := inFlight[..|inFlight| - 1];
        queue := queue + [message];
        log := log + [Requeue(message)];
        assert State() == Requeued(w);
        return false, Returned;
      }
      DrainStarted(env, topic, w, attempts, o);
      var response := DlUtils.SendJob(env, topic, FirstJob, message.body, o.submitted);
      ghost var r := Drain(env, topic, w, attempts, o);
      if response.Err? {
        assert State() == r.1;
        return true, Raised(response.error);
      }
      // the job is submitted, then the message is deleted
      inFlight := inFlight[..|inFlight| - 1];
      log := log + [Dispatch(FirstJob, message.body), Delete(message)];
      assert inFlight == r.1.inFlight;
      assert State() == r.1;
      return true, Returned;
    }

    /** The `while attempts < 12` loop over the FIFO queue. */
    method DrainQueue(o: Oracle) returns (out: Outcome)
      modifies this, locker
      ensures (out, State()) == Drain(env, topic, old(State()), 0, o)
    {
      var attempts: nat := 0;
      var done := false;
      out := Returned;
      while attempts < MaxLockAttempts && !done
        invariant attempts <= MaxLockAttempts
        invariant Drain(env, topic, old(State()), 0, o)
                  == if done then (out, State()) else Drain(env, topic, State(), attempts, o)
        invariant !done ==> out == Returned
        decreases MaxLockAttempts - attempts
      {
        done, out := DrainAttempt(attempts, o);
        attempts := attempts + 1;
      }
    }

    /** The `try` body of `lambda_handler`. */
    method ProcessEvent(event: Event, o: Oracle) returns (out: Outcome)
      modifies this, locker
      ensures (out, State()) == Process(env, topic, old(State()), event, o)
    {
      if event.sentinel.None? {
        return Raised(KeyError("Sentinel"));
      }
      var firstDelivery := locker.GetLock(SentinelLockName(event.sentinel.value), None, o.now,
                                  o.guid(SentinelCall), o.fault(SentinelCall));
      if !firstDelivery {
        return Returned;
      }
      if event.step.None? {
        return Raised(KeyError("Step"));
      }
      if event.step.value != DlUtils.Initial {
        out := ContinueStepChain(event, o);
      } else {
        out := DrainQueue(o);
      }
    }

    /** `lambda_handler(event, context)`. */
    method LambdaHandler(event: Event, o: Oracle) returns (out: Outcome)
      modifies this, locker
      ensures (out, State()) == Handle(env, topic, old(State()), event, o)
    {
      out := ProcessEvent(event, o);
      if out.Raised? {
        log := log + [NotifyError(env.snsTopic)];
      }
    }
  }
}
