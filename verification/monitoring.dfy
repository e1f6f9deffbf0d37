/**
 * Task identity for status reporting. This covers the flow id built from the
 * partition fields, the execution id, the task id, the dictionary form a queue
 * message carries, and whether an event would be published. The settings
 * object is memoised once per process. A tracker holds the current task.
 */
module Monitoring {
  import opened Python
  import PyUtils
  import DlUtils

  /** `__partition_fields`, in the order the flow id lists them. */
  const PartitionFields: seq<string> := ["country", "year", "month", "day", "secs"]

  /**
   * The keyword arguments a task is built from. `executionDt` is the execution
   * time already converted to epoch milliseconds. An absent argument is None.
   */
  datatype TaskParams = TaskParams(
    partition: map<string, string>,
    executionDt: Option<int>,
    executionId: Option<string>,
    attempt: Option<int>)

  /** A task built with no monitoring topic carries no identity at all. */
  datatype Task =
    | Untracked
    | Tracked(system: string, params: TaskParams, executionId: string, attempt: int, flowId: string, id: string)

  /** `get_execution_id`: the execution time in milliseconds if given, else a non-empty execution id, else ValueError. */
  function GetExecutionId(p: TaskParams): (r: Result<string>)
    ensures r.Ok? <==> p.executionDt.Some? || (p.executionId.Some? && p.executionId.value != "")
    ensures p.executionDt.Some? ==> r.Ok? && ParseInt(r.value) == Some(p.executionDt.value)
    ensures p.executionDt.None? && r.Ok? ==> r.value == p.executionId.value
  {
    if p.executionDt.Some? then
      ParseIntRoundTrip(p.executionDt.value);
      Ok(IntToString(p.executionDt.value))
    else if p.executionId.Some? && p.executionId.value != "" then Ok(p.executionId.value)
    else Err(ValueError("no execution date or execution id supplied"))
  }

  /** The `col=value` pieces of the flow id; the first missing field raises KeyError. */
  function FlowParts(fields: seq<string>, partition: map<string, string>): (r: Result<seq<string>>)
    ensures r.Ok? <==> forall k | 0 <= k < |fields| :: fields[k] in partition
    ensures r.Ok? ==> |r.value| == |fields|
                      && forall k | 0 <= k < |fields| :: r.value[k] == fields[k] + "=" + partition[fields[k]]
    decreases |fields|
  {
    if fields == [] then Ok([])
    else if fields[0] !in partition then Err(KeyError(fields[0]))
    else match FlowParts(fields[1..], partition)
      case Err(e) => Err(e)
      case Ok(rest) => Ok([fields[0] + "=" + partition[fields[0]]] + rest)
  }

  /** `get_flow_id`: `country=…/year=…/month=…/day=…/secs=…`. */
  function GetFlowId(p: TaskParams): Result<string> {
    match FlowParts(PartitionFields, p.partition)
    case Err(e) => Err(e)
    case Ok(parts) => Ok(Join(parts, '/'))
  }

  /**
   * The flow id names the five fields in order. When no value contains `/`,
   * splitting it on `/` gives back exactly the five `col=value` pieces.
   */
  lemma {:induction false} FlowIdRoundTrip(p: TaskParams)
    requires forall f | f in PartitionFields :: f in p.partition && '/' !in p.partition[f]
    ensures GetFlowId(p).Ok?
    ensures Split(GetFlowId(p).value, '/') ==
      seq(5, k requires 0 <= k < 5 => PartitionFields[k] + "=" + p.partition[PartitionFields[k]])
  {
    var parts := FlowParts(PartitionFields, p.partition).value;
    forall k | 0 <= k < |parts| ensures '/' !in parts[k] {
      assert parts[k] == PartitionFields[k] + "=" + p.partition[PartitionFields[k]];
      assert '/' !in PartitionFields[k] + "=";
    }
    SplitJoin(parts, '/');
  }

  /**
   * `Task(system, params)` given the topic of the settings in force. With no
   * topic it returns early and stays untracked. Otherwise it computes the
   * execution id, the attempt (0 by default), the flow id and
   * `id = system:flow_id:execution_id`, raising on the first missing input.
   */
  function NewTask(system: string, p: TaskParams, topic: Option<string>): (r: Result<Task>)
    ensures topic.None? ==> r == Ok(Untracked)
    ensures topic.Some? ==> (r.Ok? <==> GetExecutionId(p).Ok? && GetFlowId(p).Ok?)
    ensures topic.Some? && r.Ok? ==>
      && r.value.Tracked?
      && r.value.system == system && r.value.params == p
      && r.value.executionId == GetExecutionId(p).value
      && r.value.flowId == GetFlowId(p).value
      && r.value.attempt == (if p.attempt.Some? then p.attempt.value else 0)
      && r.value.id == Join([system, r.value.flowId, r.value.executionId], ':')
  {
    if topic.None? then Ok(Untracked)
    else match GetExecutionId(p)
      case Err(e) => Err(e)
      case Ok(executionId) =>
        var attempt := if p.attempt.Some? then p.attempt.value else 0;
        match GetFlowId(p)
        case Err(e) => Err(e)
        case Ok(flowId) =>
          var id := system + ":" + flowId + ":" + executionId;
          assert Join([system, flowId, executionId], ':') == id by {
            assert Join([flowId, executionId], ':') == flowId + ":" + executionId;
          }
          Ok(Tracked(system, p, executionId, attempt, flowId, id))
  }

  /** When none of its parts contains `:`, the task id splits back into system, flow id and execution id. */
  lemma {:induction false} TaskIdRoundTrip(system: string, p: TaskParams, topic: Option<string>)
    requires topic.Some? && NewTask(system, p, topic).Ok?
    requires ':' !in system && ':' !in GetExecutionId(p).value
    requires forall f | f in PartitionFields :: ':' !in p.partition[f]
    ensures var t := NewTask(system, p, topic).value;
            Split(t.id, ':') == [t.system, t.flowId, t.executionId]
  {
    var t := NewTask(system, p, topic).value;
    var parts := FlowParts(PartitionFields, p.partition).value;
    forall k | 0 <= k < |parts| ensures ':' !in parts[k] {
      assert ':' !in PartitionFields[k] + "=";
    }
    JoinAvoids(parts, '/', ':');
    SplitJoin([t.system, t.flowId, t.executionId], ':');
  }

  /** A value of the dictionary `as_dict` returns. */
  datatype PyValue = Str(s: string) | Int(i: int) | NoneValue

  function StrValues(m: map<string, string>): map<string, PyValue> {
    map k | k in m :: Str(m[k])
  }

  /** `as_dict`: the partition fields, `execution_id`, `attempt` and `system`; an untracked task has no such attributes. */
  function AsDict(t: Task): (r: Result<map<string, PyValue>>)
    ensures r.Ok? <==> t.Tracked?
    ensures r.Ok? ==> r.value.Keys == {"country", "year", "month", "day", "secs", "execution_id", "attempt", "system"}
    ensures r.Ok? ==> r.value["execution_id"] == Str(t.executionId) && r.value["attempt"] == Int(t.attempt)
                      && r.value["system"] == Str(t.system)
    ensures r.Ok? ==> forall k | 0 <= k < |PartitionFields| ::
                        r.value[PartitionFields[k]] == PartitionValue(t.params.partition, PartitionFields[k])
  {
    if t.Untracked? then Err(AttributeError("params"))
    else
      var base := PyUtils.Pick(StrValues(t.params.partition), PartitionFields, NoneValue);
      Ok(base["execution_id" := Str(t.executionId)]["attempt" := Int(t.attempt)]["system" := Str(t.system)])
  }

  /** What `pick` finds for one partition field: its value, or None when the field is missing. */
  function PartitionValue(partition: map<string, string>, field: string): PyValue {
    if field in partition then Str(partition[field]) else NoneValue
  }

  /** Reading a task dictionary back as the task a queue message carries. */
  predicate StrAt(d: map<string, PyValue>, key: string) {
    key in d && d[key].Str?
  }

  function TaskDataOf(d: map<string, PyValue>): Option<DlUtils.TaskData> {
    if StrAt(d, "system") && StrAt(d, "country") && StrAt(d, "year") && StrAt(d, "month") && StrAt(d, "day")
       && StrAt(d, "secs") && StrAt(d, "execution_id") && "attempt" in d && d["attempt"].Int?
    then Some(DlUtils.TaskData(d["system"].s, d["country"].s, d["year"].s, d["month"].s, d["day"].s, d["secs"].s,
                               d["execution_id"].s, d["attempt"].i))
    else None
  }

  /** The dictionary of a tracked task reads back as exactly that task's data. */
  lemma {:induction false} AsDictCarriesTaskData(system: string, p: TaskParams, topic: Option<string>)
    requires topic.Some? && NewTask(system, p, topic).Ok?
    ensures var t := NewTask(system, p, topic).value;
            TaskDataOf(AsDict(t).value) == Some(DlUtils.TaskData(
              system, p.partition["country"], p.partition["year"], p.partition["month"],
              p.partition["day"], p.partition["secs"], t.executionId, t.attempt))
  {
    var t := NewTask(system, p, topic).value;
    assert FlowParts(PartitionFields, p.partition).Ok?;
    var d := AsDict(t).value;
    forall k | 0 <= k < |PartitionFields|
      ensures PartitionFields[k] in p.partition && d[PartitionFields[k]] == Str(p.partition[PartitionFields[k]])
    {
    }
    assert d["country"] == Str(p.partition["country"]) by { assert PartitionFields[0] == "country"; }
    assert d["year"] == Str(p.partition["year"]) by { assert PartitionFields[1] == "year"; }
    assert d["month"] == Str(p.partition["month"]) by { assert PartitionFields[2] == "month"; }
    assert d["day"] == Str(p.partition["day"]) by { assert PartitionFields[3] == "day"; }
    assert d["secs"] == Str(p.partition["secs"]) by { assert PartitionFields[4] == "secs"; }
  }

  /** The message an event would publish (without its timestamp and payload). */
  datatype MonitoringEvent = MonitoringEvent(id: string, status: string, ok: bool, system: string, partitions: map<string, PyValue>)

  /** `success`/`failure`: an event is published only by a task built with a topic. */
  function EventFor(t: Task, status: string, ok: bool): (r: Option<MonitoringEvent>)
    ensures r.Some? <==> t.Tracked?
    ensures r.Some? ==> r.value.id == t.id && r.value.status == status && r.value.ok == ok && r.value.system == t.system
  {
    if t.Untracked? then None
    else Some(MonitoringEvent(t.id, status, ok, t.system, PyUtils.Pick(StrValues(t.params.partition), PartitionFields, NoneValue)))
  }

  /** With no monitoring topic, no task ever publishes anything. */
  lemma NoTopicNoEvents(system: string, p: TaskParams, status: string, ok: bool)
    ensures NewTask(system, p, None) == Ok(Untracked) && EventFor(Untracked, status, ok) == None
  {
  }

  // ---------------------------------------------------------------------
  // Process-wide state
  // ---------------------------------------------------------------------

  /** `MonitoringSettings`: the monitoring topic, if any. */
  class MonitoringSettings {
    const monitoringTopic: Option<string>

    constructor (monitoringTopic: Option<string>)
      ensures this.monitoringTopic == monitoringTopic
    {
      this.monitoringTopic := monitoringTopic;
    }
  }

  /** The class-level slot `MonitoringSettings.global_settings`. */
  class SettingsRegistry {
    var globalSettings: MonitoringSettings?

    constructor ()
      ensures globalSettings == null
    {
      globalSettings := null;
    }

    /**
     * `get_global`: the first call builds the settings from `topicFactory`.
     * Every later call returns that same object and ignores `topicFactory`.
     */
    method GetGlobal(topicFactory: Option<string>) returns (s: MonitoringSettings)
      modifies this
      ensures old(globalSettings) != null ==> s == old(globalSettings)
      ensures old(globalSettings) == null ==> fresh(s) && s.monitoringTopic == topicFactory
      ensures globalSettings == s
    {
      if globalSettings == null {
        globalSettings := new MonitoringSettings(topicFactory);
      }
      s := globalSettings;
    }
  }

  /** Two calls to `get_global` return one object, carrying the first call's topic. */
  method GetGlobalTwice(registry: SettingsRegistry, first: Option<string>, second: Option<string>)
    returns (a: MonitoringSettings, b: MonitoringSettings)
    modifies registry
    ensures a == b
    ensures old(registry.globalSettings) == null ==> a.monitoringTopic == first
  {
    a := registry.GetGlobal(first);
    b := registry.GetGlobal(second);
  }

  /** The class-level slot `Task.__current`, set by `track` and read by `current`. */
  class TaskTracker {
    var current: Option<Task>

    constructor ()
      ensures current == None
    {
      current := None;
    }

    /**
     * `track(system, **params)`. The settings are the ones passed in, or else the
     * global ones. If building the task raises, the current task stays as it was.
     */
    method Track(system: string, p: TaskParams, settings: MonitoringSettings?, registry: SettingsRegistry, topicFactory: Option<string>)
      returns (r: Result<Task>)
      modifies this, registry
      ensures settings != null ==> r == NewTask(system, p, settings.monitoringTopic)
                                   && registry.globalSettings == old(registry.globalSettings)
      ensures settings == null && old(registry.globalSettings) != null ==>
                r == NewTask(system, p, old(registry.globalSettings).monitoringTopic)
      ensures settings == null && old(registry.globalSettings) == null ==> r == NewTask(system, p, topicFactory)
      ensures settings == null ==> registry.globalSettings != null
      ensures old(registry.globalSettings) != null ==> registry.globalSettings == old(registry.globalSettings)
      ensures settings == null && old(registry.globalSettings) == null ==>
                fresh(registry.globalSettings) && registry.globalSettings.monitoringTopic == topicFactory
      ensures current == (if r.Ok? then Some(r.value) else old(current))
    {
      var s := settings;
      if s == null {
        s := registry.GetGlobal(topicFactory);
      }
      r := NewTask(system, p, s.monitoringTopic);
      if r.Ok? {
        current := Some(r.value);
      }
    }
  }
}
