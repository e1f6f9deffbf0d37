# DataLake step-partition orchestrator, modelled in Dafny

This project models the orchestration core of the DataLake pipeline. The core
moves each country's partition through a fixed chain of Spark jobs:
`load_parquet_partition`, `load_redshift_partition`, `load_functional`,
`load_functional_redshift`. The modelled parts are:

- **Lock table** (`lockutils.dfy`, module `Locks`). Named locks with a
  six-hour lifetime, kept in a key-value table. `get_lock` reads a lock, then
  does one of three things: inserts it with a condition, refuses, or
  overwrites an expired record. `release_lock` deletes it. The table is a
  `map` field of the `LockerClient` class. The pure functions `Acquire` and
  `Release` specify the two methods. A two-caller interleaving model (`Race`)
  shows what happens when two read-then-put sequences overlap.
- **Pipeline utilities** (`dlutils.dfy`, module `DlUtils`):
  - the step chain `map_steps`;
  - the Livy request builders for each job step;
  - the Spark argument list;
  - `send_job`;
  - queue names;
  - the table of interfaces accepted per source system.
- **Glue utilities** (`glueutils.dfy`, module `GlueUtils`):
  - the two table formats and `table_spec`;
  - the FMT parser `parse_fmt`, as a method over a preallocated array;
  - table and object naming;
  - `create_table`, with the catalogue lookup and the FMT text passed in.
- **Monitoring** (`monitoring.dfy`, module `Monitoring`):
  - task identity: execution id, flow id and task id;
  - `as_dict`;
  - the events a task publishes;
  - the memoised global settings;
  - the `Task.track` / `Task.current` slot.
- **Step-partition handler** (`steppartition.dfy`, module `StepPartition`).
  This is the event handler that drives the chain:
  - the sentinel lock that drops repeated deliveries;
  - the callback decision: advance, retry, dead-letter, or finish;
  - the drain loop, which takes a country's main lock and starts the first job.

  The class `StepPartitionHandler` holds the handler's queue, its in-flight
  messages and the log of its external effects, and works on a shared
  `LockerClient`. Each of its methods is proved equal to a pure function of
  the old state (`Restart`, `Submit`, `ContinueSpec`, `Drain`, `Process`,
  `Handle`). The properties are lemmas about those functions.
- **Python semantics** (`python.dfy`, `pyutils.dfy`). The parts of Python the
  code relies on:
  - `int()` and `str()` on integers;
  - `str.split`, `str.join` and `str.splitlines`;
  - list indexing and slicing;
  - the `pick` and `augment` helpers.

Inputs from outside are parameters:
- the clock, as whole seconds;
- fresh uuids;
- whether each lock-table call raises (`StoreFault`);
- whether the HTTP post of a job succeeds;
- the monitoring topic;
- the answer of the catalogue lookup, and the FMT file text;
- the outcome of the Glue `create_table` call (`CatalogReply`).

In the handler, all of these come in one `Oracle` value. Effects on other
services (job submission, lock release, re-invocation, dead-lettering,
requeue, delete, error notification) are appended to a log of `Effect`s.

Three behaviours of the code are easy to misread. The model keeps each as
written:

- The attempt counter is not reset when the chain advances to the next step.
  It counts every failure since the first job. Failures one to five are
  retried, and the sixth failure in total dead-letters the task
  (`StepPartition.RunAccounting`).
- The sentinel lock is taken without an expiry, so it gets the default
  six-hour lifetime (lockutils.py:14-19, fnCreateEmrStepPartition.py:75).
- The takeover of an expired lock is an unconditional overwrite, although
  the comment at lockutils.py:68-69 calls it an atomic conditional update
  (see Findings). `LockerClient.GetLock` keeps the code's
  overwrite. On its own it behaves the same as the guarded takeover
  (`Locks.SequentialPlansAgree`). The two differ only when two calls
  interleave, which `Race` models.

## Model

| member | source | states |
|---|---|---|
| Python.ParseIntRoundTrip | datalake/dlutils.py:104 | reading back the decimal text `str()` gives for any integer yields that integer |
| Python.SplitJoin | datalake/monitoring.py:58 | splitting a join on a separator that no part contains gives back the parts |
| Python.JoinSplit | datalake/monitoring.py:58 | joining the pieces of a split gives back the string |
| Python.SplitLines | datalake/glueutils.py:78 | no line that `splitlines` returns contains a line boundary |
| Python.SplitLinesOfText | datalake/glueutils.py:78 | `splitlines` gives back exactly the lines of a text: each `\n`-terminated line, plus the unterminated last line if there is one; a final newline adds no empty line |
| Python.ListIndex | datalake/glueutils.py:92 | a list index is valid exactly in `-n <= i < n`, and then names a slot below `n` (the index itself when non-negative) |
| Python.Slice | datalake/glueutils.py:90 | an in-range slice is the subsequence, and any slice is no longer than the list |
| PyUtils.Pick | datalake/pyutils.py:4-8 | the keys are exactly the requested ones; present keys keep their value, missing ones get the default |
| PyUtils.PickPresentIsRestriction | datalake/pyutils.py:4-8 | when every requested key is present, `pick` is the restriction of the dict to those keys |
| PyUtils.PickIdempotent | datalake/pyutils.py:4-8 | picking the same keys twice is picking them once |
| PyUtils.AugmentAsWritten | datalake/pyutils.py:10-14 | as written, `augment` returns None for every input, because `dict.update` returns None |
| PyUtils.AugmentAsWrittenLosesValues | datalake/pyutils.py:10-14 | on a concrete dict, the written `augment` yields None where the copy with the new values was meant |
| PyUtils.Augment | datalake/pyutils.py:10-14 | corrected: the keys are the union; new values win, other original values are kept |
| PyUtils.AugmentKeepsOriginal | datalake/pyutils.py:10-14 | when the new keys are disjoint from the original ones, corrected `augment` keeps every original entry and its size is the sum of the two |
| Locks.NewRecord | datalake/lockutils.py:12-19 | the stored record carries the guid and the request time; the table expiry is six hours on, and the lock expiry is as requested or else that same time |
| Locks.ApplyPlan | datalake/lockutils.py:56-81 | a put succeeds exactly when there is a put, the write does not fail and its condition holds on the table as it is then; on success only that name changes, otherwise nothing does |
| Locks.Acquire | datalake/lockutils.py:11-81 | run alone, `get_lock` succeeds exactly when no call raises and the lock is absent or expired; it then stores a fresh record, and otherwise leaves the table unchanged |
| Locks.Release | datalake/lockutils.py:83-96 | after `release_lock` the name is gone unless the delete failed, and every other entry is unchanged |
| Locks.AbsentIsConditionalInsert | datalake/lockutils.py:59-62 | for an absent lock the put is conditioned on absence, and it succeeds |
| Locks.SecondAcquireRefused | datalake/lockutils.py:64-66 | right after a success, any second request before the expiry is refused and changes nothing |
| Locks.ReleaseThenAcquire | datalake/lockutils.py:83-96 | after a release the name can be acquired again |
| Locks.ReleaseIdempotent | datalake/lockutils.py:83-96 | releasing twice equals releasing once; releasing an absent name changes nothing |
| Locks.SequentialPlansAgree | datalake/lockutils.py:64-70 | without interleaving, the unconditional takeover and the guid-guarded takeover have the same outcome |
| Locks.ExpiredTakeoverRaceAsWritten | datalake/lockutils.py:67-79 | as written, two callers that both read the same expired lock both report that they acquired it |
| Locks.RaceBothWinAsWritten | datalake/lockutils.py:56-81 | as written, two interleaved callers both win only when both read the same present, already expired record |
| Locks.AbsentRaceHasOneWinner | datalake/lockutils.py:59-62 | when the lock was absent, at most one of two interleaved callers wins |
| Locks.GuardedRaceHasOneWinner | datalake/lockutils.py:67-79 | corrected: with the takeover conditioned on the guid that was read, at most one of two interleaved callers wins, whatever the record's state |
| Locks.LockerClient.GetLock | datalake/lockutils.py:11-81 | the method's answer and new table are those of `Acquire` |
| Locks.LockerClient.ReleaseLock | datalake/lockutils.py:83-96 | the method's new table is that of `Release` |
| DlUtils.Rank | datalake/dlutils.py:59-65 | a step's rank is its position in the chain order, or past the end for a name outside the chain |
| DlUtils.StepOrderDistinct | datalake/dlutils.py:59-65 | the six chain positions hold six different names |
| DlUtils.RankIsPosition | datalake/dlutils.py:59-65 | each chain name's rank is its position |
| DlUtils.MapStepsFollowsOrder | datalake/dlutils.py:59-65 | `map_steps` has exactly the first five chain names as keys, and maps each to the next name in the chain |
| DlUtils.MapStepsIsForwardChain | datalake/dlutils.py:59-65 | every transition moves exactly one rank forward, and `final` has no successor |
| DlUtils.InitialReachesFinalInFive | datalake/dlutils.py:59-65 | from `initial`, `final` is reached in exactly five transitions and not sooner |
| DlUtils.StepProcessingCoversJobSteps | datalake/dlutils.py:164-169 | the steps with a request builder are exactly the successors in `map_steps` other than `final` |
| DlUtils.BaseLivyPayload | datalake/dlutils.py:76-89 | the payload exists exactly when `exec_cores` is an integer; it carries the jar, `<package>.<class>`, the parsed cores, the executor and driver memory settings, the fixed Spark configuration and no arguments |
| DlUtils.GetJdbc | datalake/dlutils.py:68-73 | the JDBC URL starts with `jdbc:redshift://` and ends with the password parameter |
| DlUtils.JdbcRoundTrip | datalake/dlutils.py:68-73 | the URL carries every setting in its place: when host, port, database and user hold no separator of their own, reading the URL back gives exactly host, port, database, user and password |
| DlUtils.GetSparkCommandPartition | datalake/dlutils.py:93-117 | the argument list has 34 common entries, then `--monitoring-topic` only when a topic is set, then the extra arguments at the end; the attempt and the step id are at fixed positions |
| DlUtils.SparkCommandCarriesAttempt | datalake/dlutils.py:104-105 | the `--attempt` value reads back as the task's attempt, and `--step-id` is the step |
| DlUtils.LoadParquetPartitionRequest | datalake/dlutils.py:134-138 | built exactly when `exec_cores` is an integer; it is the base payload of class `LoadToParquet` with the step's arguments in place of none |
| DlUtils.LoadRedshiftPartitionRequest | datalake/dlutils.py:141-145 | built exactly when `exec_cores` is an integer; it is the base payload of class `LoadOnRedshift` with the step's arguments in place of none |
| DlUtils.LoadFunctionalRequest | datalake/dlutils.py:148-153 | built exactly when `exec_cores` is an integer; it is the base payload of class `LoadModel` with the step's arguments in place of none |
| DlUtils.LoadFunctionalRedshiftRequest | datalake/dlutils.py:156-161 | built exactly when `exec_cores` is an integer; it is the base payload of class `LoadModelToParquet` with the step's arguments in place of none |
| DlUtils.StepRequest | datalake/dlutils.py:164-173 | a step without a builder raises KeyError; a job step gets a request exactly when `exec_cores` is an integer, with the common arguments for that step followed by that step's extra arguments |
| DlUtils.StepRequestShape | datalake/dlutils.py:134-173 | every job step's request names the step, carries the task's attempt, and carries `--model` exactly for the two functional steps |
| DlUtils.SendJob | datalake/dlutils.py:172-183 | `send_job` succeeds exactly when the request is built and the post succeeds, and then submits that request |
| DlUtils.GetQueueName | datalake/dlutils.py:128-130 | the name is `prefix-env-project`, followed by `.fifo` exactly for a FIFO queue |
| DlUtils.QueueKindsDiffer | datalake/dlutils.py:128-130 | the FIFO and the standard queue never share a name |
| DlUtils.ContainsSubstring | datalake/dlutils.py:34-36 | the search in a string answers true exactly when the name occurs at some index of the string |
| DlUtils.InterfaceListed | datalake/dlutils.py:7-56 | looking up a system that is not in the table raises; otherwise the answer is membership in the tuple, or occurrence as a substring when the entry is a string |
| DlUtils.SapAcceptsFragments | datalake/dlutils.py:34-36 | as written, the `sap` entry is a string, so any substring of `dproducto` (even the empty name) counts as an interface; with a one-element tuple it would not |
| DlUtils.IntendedTableIsExactMembership | datalake/dlutils.py:7-56 | corrected: every system lists a tuple of names, and an interface is listed exactly when it is one of them |
| GlueUtils.GlueTableFormat | datalake/glueutils.py:7-34 | a format exists exactly for `csv` and `parquet` |
| GlueUtils.TableSpecFor | datalake/glueutils.py:44-71 | a spec exists exactly for a known kind; it carries the name, location, columns, that kind's formats and serde, the default partition keys and the classification |
| GlueUtils.TableSpecKinds | datalake/glueutils.py:7-42 | csv and parquet tables differ in every storage field; the partition keys are `pt_country` through `pt_secs`, all strings |
| GlueUtils.LineTarget | datalake/glueutils.py:91-92 | a column line that places successfully names a slot inside the list, with type `string` |
| GlueUtils.PlaceAll | datalake/glueutils.py:90-92 | filling slots never changes the number of slots |
| GlueUtils.PlaceAllResult | datalake/glueutils.py:90-92 | filling succeeds exactly when every line places; each slot then holds the last line that targets it, and untargeted slots keep their value |
| GlueUtils.ParseFmtLines | datalake/glueutils.py:78-94 | a parse succeeds only with a readable column count, and returns that many slots (none for a negative count) |
| GlueUtils.ParseFmt | datalake/glueutils.py:73-94 | the array-and-loop parser returns what the parse specification gives, errors included |
| GlueUtils.ParseFmtIgnoresLaterLines | datalake/glueutils.py:82-90 | lines after the declared column lines never change the result |
| GlueUtils.LineTargetOfPosition | datalake/glueutils.py:91-92 | a line whose first field is position `p` in range places its last field into slot `p - 1` |
| GlueUtils.ParseFmtWellFormed | datalake/glueutils.py:73-94 | an FMT whose column lines give positions 1..n in order parses to exactly the names on those lines, in order |
| GlueUtils.ParseFmtReadsLines | datalake/glueutils.py:73-94 | parsing an FMT text is parsing its lines, whether or not the text ends in a newline |
| GlueUtils.ParseFmtTextWellFormed | datalake/glueutils.py:73-94 | the text of a well-formed FMT file parses to the names on its column lines, in order |
| GlueUtils.TableNames | datalake/glueutils.py:122-126 | the table name is the kind's prefix plus `system_interface`, in the output bucket under `<glue_s3_key>/<kind>/`; an unknown kind or a missing setting raises |
| GlueUtils.CsvAndParquetTablesDiffer | datalake/glueutils.py:122-126 | the csv and parquet tables of one interface never share a name or a key |
| GlueUtils.FmtKey | datalake/glueutils.py:96-105 | the FMT key exists exactly when the key prefix is configured |
| GlueUtils.CreateTable | datalake/glueutils.py:116-141 | succeeds exactly when the names can be computed, `glue_db` is configured, and either the table exists or the FMT key, the parse and the create call succeed (an already existing table counts as success); returns the computed names; submits nothing for an existing table, otherwise the spec built from the parsed FMT; a missing `glue_db` raises KeyError and a failed create call raises |
| Monitoring.GetExecutionId | datalake/monitoring.py:60-66 | an id exists exactly when a date or a non-empty id is given; a date yields its millisecond count as decimal text, otherwise the given id |
| Monitoring.FlowParts | datalake/monitoring.py:56-58 | the flow parts exist exactly when every partition field is present, one part per field |
| Monitoring.FlowIdRoundTrip | datalake/monitoring.py:56-58 | when no value contains `/`, the flow id splits back into the five `field=value` pieces in order |
| Monitoring.NewTask | datalake/monitoring.py:37-54 | with no topic the task is untracked; otherwise it is built exactly when both ids can be computed, the attempt defaults to 0, and the id is `system:flow:execution` |
| Monitoring.TaskIdRoundTrip | datalake/monitoring.py:54 | when no part contains `:`, the task id splits back into system, flow id and execution id |
| Monitoring.AsDict | datalake/monitoring.py:68-73 | an untracked task raises; a tracked one gives exactly the five partition fields plus execution id, attempt and system |
| Monitoring.AsDictCarriesTaskData | datalake/monitoring.py:68-73 | the dictionary of a tracked task reads back as exactly that task's data |
| Monitoring.EventFor | datalake/monitoring.py:75-96 | an event is published exactly for a tracked task, with its id, the status, the ok flag and the system |
| Monitoring.NoTopicNoEvents | datalake/monitoring.py:42-45 | without a monitoring topic, a task is untracked and publishes nothing |
| Monitoring.SettingsRegistry.GetGlobal | datalake/monitoring.py:15-20 | the first call builds new settings from the factory; every later call returns that same object |
| Monitoring.GetGlobalTwice | datalake/monitoring.py:15-20 | two calls return one object, carrying the first call's topic |
| Monitoring.TaskTracker.Track | datalake/monitoring.py:29-40 | the task is built with the given settings or else the global ones; without given settings the global settings exist afterwards (built from the factory if they did not), and existing global settings are kept; the current task is replaced only when building succeeds |
| StepPartition.FirstJobFollowsInitial | datalake/fnCreateEmrStepPartition.py:114 | the first job of a drained task is the successor of `initial` in `map_steps` |
| StepPartition.MainLockName | datalake/fnCreateEmrStepPartition.py:28 | a country's lock is the main prefix followed by the country |
| StepPartition.SentinelLockName | datalake/fnCreateEmrStepPartition.py:75 | a sentinel lock is the sentinel prefix followed by the sentinel, and is never a main lock |
| StepPartition.Decide | datalake/fnCreateEmrStepPartition.py:22-61 | an unknown step raises; otherwise finish, advance to the mapped step, retry with attempt + 1 while that is at most 5, or dead-letter, each exactly under its condition |
| StepPartition.ContinueSpec | datalake/fnCreateEmrStepPartition.py:17-61 | a callback never touches the queue, only appends to the log, and changes the lock table only at the task's country lock |
| StepPartition.Drain | datalake/fnCreateEmrStepPartition.py:87-119 | the drain only appends to the log and changes the lock table only at main locks |
| StepPartition.Process | datalake/fnCreateEmrStepPartition.py:68-119 | the log only grows; when the sentinel lock is taken, the sentinel record is in the final table |
| StepPartition.NextStep | datalake/dlutils.py:59-65 | a job step's successor is one rank later, and is either `final` or another job step |
| StepPartition.StoppedStaysStopped | datalake/fnCreateEmrStepPartition.py:22-61 | once a chain has finished, been dead-lettered or broken, later callbacks change nothing |
| StepPartition.RunAccounting | datalake/fnCreateEmrStepPartition.py:22-46 | along any run of callbacks, the attempt equals the start attempt plus the failures and never exceeds 5, the rank rises by the completions, and a chain stays running for at most (4 - rank) + (5 - attempt) callbacks |
| StepPartition.FourCompletionsFinish | datalake/fnCreateEmrStepPartition.py:27-41 | three completions from the first job lead to the last job, and four finish the chain |
| StepPartition.CallbackExamples | datalake/fnCreateEmrStepPartition.py:40-52 | a failure at attempt 3 retries at 4; a failure at 5 dead-letters; completing the last job finishes; an unknown status dead-letters |
| StepPartition.CallbackEffects | datalake/fnCreateEmrStepPartition.py:17-61 | a continuing chain submits one job for its new step and attempt and keeps its lock; a finished chain releases and re-invokes; a dead-lettered one first sends the unchanged task to the dead-letter queue; an error changes nothing |
| StepPartition.DrainRefused | datalake/fnCreateEmrStepPartition.py:104-110 | a refused country lock requeues the message at the tail and counts one attempt |
| StepPartition.DrainStarted | datalake/fnCreateEmrStepPartition.py:112-119 | a taken lock removes the message from the queue; a successful submission deletes it, a failed one raises with the message left in flight |
| StepPartition.DrainShape | datalake/fnCreateEmrStepPartition.py:92-119 | an empty queue ends the drain at once; a drain appends at most 12 requeues, then possibly one first-job dispatch followed by the deletion of that message; a failed submission appends only the requeues before it |
| StepPartition.DrainConservesMessages | datalake/fnCreateEmrStepPartition.py:92-119 | no message is lost or duplicated: the queue, the messages in flight and the deleted ones together are the messages there were |
| StepPartition.FailedSubmissionKeepsLock | datalake/fnCreateEmrStepPartition.py:112-116 | when the first-job submission raises, the message stays in flight and its country lock stays taken for six hours |
| StepPartition.DrainSkipsBusyCountry | datalake/fnCreateEmrStepPartition.py:92-119 | with a busy country queued before a free one, the busy message is requeued, and the free one is locked, dispatched and deleted; this relies on the queue discipline of the model (a message made visible again goes to the tail), not on SQS FIFO group ordering |
| StepPartition.RefusedSentinelIsNoOp | datalake/fnCreateEmrStepPartition.py:75-80 | a delivery whose sentinel lock is held or whose lock table fails returns with no effect at all |
| StepPartition.SecondDeliveryIsNoOp | datalake/fnCreateEmrStepPartition.py:72-80 | a second delivery of the same event within six hours does nothing |
| StepPartition.DrainLogCounts | datalake/fnCreateEmrStepPartition.py:92-119 | a drain log holds at most one dispatch, no release and no error notice |
| StepPartition.CallbackLogIsQuiet | datalake/fnCreateEmrStepPartition.py:17-61 | a callback dispatches at most one job, releases at most one lock and publishes no error |
| StepPartition.DrainLogIsQuiet | datalake/fnCreateEmrStepPartition.py:87-119 | a whole drain dispatches at most one job, releases at most one lock and publishes no error |
| StepPartition.ProcessEffects | datalake/fnCreateEmrStepPartition.py:68-119 | the body of the handler dispatches at most one job, releases at most one lock and publishes no error |
| StepPartition.InvocationEffects | datalake/fnCreateEmrStepPartition.py:63-123 | one invocation dispatches at most one job and releases at most one lock; it publishes an error, as its last effect, exactly when it raises |
| StepPartition.StepPartitionHandler.RestartCycle | datalake/fnCreateEmrStepPartition.py:28-34 | releases the country lock, then re-invokes `initial` with a fresh sentinel |
| StepPartition.StepPartitionHandler.SendJob | datalake/dlutils.py:172-183 | the new state and outcome are those of `Submit`: a dispatch is logged only when the submission succeeds |
| StepPartition.StepPartitionHandler.ContinueStepChain | datalake/fnCreateEmrStepPartition.py:17-61 | the outcome and new state are those of `ContinueSpec` |
| StepPartition.StepPartitionHandler.DrainAttempt | datalake/fnCreateEmrStepPartition.py:93-119 | one pass of the loop: an empty queue or a taken lock ends the drain with the outcome and state of `Drain`; a refused lock leaves a state from which `Drain` at the next attempt gives the same result |
| StepPartition.StepPartitionHandler.DrainQueue | datalake/fnCreateEmrStepPartition.py:87-119 | the loop's outcome and new state are those of `Drain` from zero attempts |
| StepPartition.StepPartitionHandler.ProcessEvent | datalake/fnCreateEmrStepPartition.py:68-119 | the outcome and new state are those of `Process` |
| StepPartition.StepPartitionHandler.LambdaHandler | datalake/fnCreateEmrStepPartition.py:63-123 | the outcome and new state are those of `Handle` |

## Left out

- I/O with AWS and HTTP services (DynamoDB, SQS, SNS, Lambda, S3, Glue, the
  Livy endpoint) is not performed. Its results are parameters: `StoreFault`,
  the submission flag, the catalogue answer and the FMT text. Its effects are
  entries in the `Effect` log.
- `print` output and tracebacks are not modelled.
- Time is a whole number of seconds, constant during one invocation.
  Fractional timestamps and ISO formatting are not modelled.
- Fresh uuids are supplied by the caller, and are not proved unique.
- The execution date is given directly as its millisecond count. The
  conversion from a `datetime` is not modelled.
- The `EnvObject` lookup of environment variables is replaced by explicit
  `Env` records and `map`s of settings.
- `int()` accepts ASCII digits, a sign, and the whitespace below U+0080
  that Python strips: space, tab, line feed, vertical tab, form feed,
  carriage return, and U+001C to U+001F. Underscores, non-ASCII digits and
  non-ASCII whitespace are not modelled.
- The event arrives already decoded. The JSON decoding of a string event and
  of the message body is not modelled, and neither are malformed bodies. A
  task record always has all eight fields.
- `TaskParams` holds partition values as strings, and the attempt and
  execution values as optional integers or strings. A present key with a
  value of `None` or of another type is not modelled.
- The monitoring event's payload and timestamp are not modelled, and a failed
  publish (which the code swallows) is not modelled.
- `creationDate` in the table spec parameters is not modelled, because it is
  a clock reading.
- GlueUtils.CreateTable: the Glue `AlreadyExistsException` is folded into
  success, as the code does. Any other failure of the create call is one
  `ClientError`; which exception it was is not modelled. Failures of the
  catalogue lookup and of the S3 read of the FMT file are not modelled.
- `get_glue_table` is not modelled. It is a single catalogue call with no
  logic of its own.
- SQS FIFO message-group ordering is not modelled. A message made visible
  again goes to the tail of the queue, and receive takes the head.
- DynamoDB's own reaping of expired lock records is not modelled. A record
  stays in the table until it is overwritten or deleted. `Acquire` treats an
  expired record like an absent one, except that the put carries no
  condition.
- A failure of `sns.publish` in the handler's `except` branch is not
  modelled. The error notice is always logged before the exception is
  raised again.
- Failures of the queue lookup, `receive_messages`, `change_visibility`,
  the dead-letter send, the lambda invoke and the message delete are not
  modelled; those calls always succeed. A failed
  job submission and a missing step or field are modelled, and raise.
- The concurrency of several handler invocations is modelled only for the
  lock table: `Race` interleaves two `get_lock` calls. Concurrent queue
  consumers are not modelled.
- `fnUnzipInterfaces.py`, `fnDispatchEvents.py` and `build.py` are not part
  of this model.

## Findings

| source | as written | input that shows it | evidently intended | confidence | as-written member | corrected member |
|---|---|---|---|---|---|---|
| datalake/pyutils.py:10-14 | `augment` returns the result of `dict.update`, which is None | `augment({"country": "PE"}, year="2020")` returns None | return the updated copy | high, not executed | PyUtils.AugmentAsWrittenLosesValues | PyUtils.AugmentKeepsOriginal |
| datalake/dlutils.py:34-36 | `("dproducto")` is a parenthesised string, not a one-element tuple, so membership tests substrings | `"producto" in interfaces["sap"]` and `"" in interfaces["sap"]` are both true | a one-element tuple `("dproducto",)` | high, not executed | DlUtils.SapAcceptsFragments | DlUtils.IntendedTableIsExactMembership |
| datalake/lockutils.py:64-79 | an expired lock is taken over by an unconditional put | two callers both read a record expired at time 100 at time 200, then both put; both return True | condition the takeover on the guid that was read | medium, not executed | Locks.ExpiredTakeoverRaceAsWritten | Locks.GuardedRaceHasOneWinner |
