/**
 * The static step chain, the step-to-request table and the builders of the
 * Spark job submissions, plus queue and JDBC naming. Configuration values
 * (which the Python code reads from the process environment) are fields of `Env`.
 */
module DlUtils {
  import opened Python

  /** The configuration the builders read, one field per environment variable. */
  datatype Env = Env(
    lockTable: string, functionName: string, snsTopic: string,
    sqsPrefix: string, sqsDeadPrefix: string, stage: string, project: string,
    glueStagingDb: string, glueLandingDb: string, glueFunctionalDb: string,
    s3TempDir: string, emrLockTable: string,
    endpointAddress: string, endpointPort: string, redshiftDb: string,
    redshiftUser: string, redshiftPassword: string,
    jarProject: string, packageName: string, execCores: string,
    executorMemory: string, driverMemory: string, model: string)

  /** The task a queue message carries and each job receives (the fields of `Task.as_dict`). */
  datatype TaskData = TaskData(
    system: string, country: string, year: string, month: string, day: string, secs: string,
    executionId: string, attempt: int)

  // ---------------------------------------------------------------------
  // The step chain
  // ---------------------------------------------------------------------

  const Initial: string := "initial"
  const Final: string := "final"

  /** `map_steps`: each step's successor. */
  const MapSteps: map<string, string> := map[
    "initial" := "load_parquet_partition",
    "load_parquet_partition" := "load_redshift_partition",
    "load_redshift_partition" := "load_functional",
    "load_functional" := "load_functional_redshift",
    "load_functional_redshift" := "final"
  ]

  /** The steps in chain order. */
  const StepOrder: seq<string> := [
    "initial", "load_parquet_partition", "load_redshift_partition",
    "load_functional", "load_functional_redshift", "final"
  ]

  /** Position of a step in the chain (`|StepOrder|` for a name that is not a step). */
  function Rank(step: string): (r: nat)
    ensures r <= |StepOrder|
    ensures r < |StepOrder| ==> StepOrder[r] == step
    ensures r == |StepOrder| ==> step !in StepOrder
  {
    if step == StepOrder[0] then 0
    else if step == StepOrder[1] then 1
    else if step == StepOrder[2] then 2
    else if step == StepOrder[3] then 3
    else if step == StepOrder[4] then 4
    else if step == StepOrder[5] then 5
    else 6
  }

  /** The steps are pairwise distinct, so Rank is the position. */
  lemma StepOrderDistinct()
    ensures forall i, j | 0 <= i < j < |StepOrder| :: StepOrder[i] != StepOrder[j]
  {
    assert forall i | 0 <= i < |StepOrder| :: |StepOrder[i]| == [7, 22, 23, 15, 24, 5][i];
  }

  /** Each step's rank is its position in the chain. */
  lemma {:induction false} RankIsPosition()
    ensures forall i | 0 <= i < |StepOrder| :: Rank(StepOrder[i]) == i
  {
    StepOrderDistinct();
  }

  /** The keys of `map_steps` are the first five steps, and each maps to the next one. */
  lemma {:induction false} MapStepsFollowsOrder()
    ensures MapSteps.Keys == set i | 0 <= i < 5 :: StepOrder[i]
    ensures forall i | 0 <= i < 5 :: MapSteps[StepOrder[i]] == StepOrder[i + 1]
  {
    assert forall i | 0 <= i < 5 :: StepOrder[i] in MapSteps;
    forall k | k in MapSteps
      ensures exists i | 0 <= i < 5 :: k == StepOrder[i]
    {
      assert k == StepOrder[0] || k == StepOrder[1] || k == StepOrder[2] || k == StepOrder[3] || k == StepOrder[4];
    }
  }

  /**
   * `map_steps` is forward-only: its keys are the steps before `final`, and
   * every step maps to the one immediately after it, never to an earlier one.
   */
  lemma {:induction false} MapStepsIsForwardChain()
    ensures MapSteps.Keys == set i | 0 <= i < 5 :: StepOrder[i]
    ensures forall k | k in MapSteps :: Rank(MapSteps[k]) == Rank(k) + 1
    ensures Final !in MapSteps
  {
    MapStepsFollowsOrder();
    RankIsPosition();
    forall k | k in MapSteps
      ensures Rank(MapSteps[k]) == Rank(k) + 1
    {
      var i :| 0 <= i < 5 && k == StepOrder[i];
      assert MapSteps[k] == StepOrder[i + 1];
    }
    assert Final == StepOrder[5];
  }

  /** Follow `map_steps` `n` times from `step`. */
  function Walk(step: string, n: nat): Option<string>
    decreases n
  {
    if n == 0 then Some(step)
    else if step in MapSteps then Walk(MapSteps[step], n - 1)
    else None
  }

  /** `final` is reached from `initial` in exactly five steps, and not sooner. */
  lemma InitialReachesFinalInFive()
    ensures Walk(Initial, 5) == Some(Final)
    ensures forall n | n < 5 :: Walk(Initial, n) != Some(Final)
  {
    assert Walk(Initial, 1) == Some("load_parquet_partition");
    assert Walk(Initial, 2) == Some("load_redshift_partition");
    assert Walk(Initial, 3) == Some("load_functional");
    assert Walk(Initial, 4) == Some("load_functional_redshift");
  }

  // ---------------------------------------------------------------------
  // Job requests
  // ---------------------------------------------------------------------

  /** The four request builders of `step_processing`. */
  datatype Builder = LoadParquetPartition | LoadRedshiftPartition | LoadFunctional | LoadFunctionalRedshift

  /** `step_processing`: which builder serves which step. */
  const StepProcessing: map<string, Builder> := map[
    "load_parquet_partition" := LoadParquetPartition,
    "load_redshift_partition" := LoadRedshiftPartition,
    "load_functional" := LoadFunctional,
    "load_functional_redshift" := LoadFunctionalRedshift
  ]

  /** The builders exist exactly for the steps that `map_steps` can send to, other than `final`. */
  lemma {:induction false} StepProcessingCoversJobSteps()
    ensures StepProcessing.Keys == MapSteps.Values - {Final}
  {
    StepOrderDistinct();
    assert forall i | 0 <= i < 5 :: MapSteps[StepOrder[i]] == StepOrder[i + 1];
    var values := {StepOrder[1], StepOrder[2], StepOrder[3], StepOrder[4], StepOrder[5]};
    assert MapSteps.Values == values by {
      forall v | v in MapSteps.Values ensures v in values {
        var k :| k in MapSteps && MapSteps[k] == v;
        assert k == StepOrder[0] || k == StepOrder[1] || k == StepOrder[2] || k == StepOrder[3] || k == StepOrder[4];
      }
      forall i | 1 <= i < 6 ensures StepOrder[i] in MapSteps.Values {
        assert MapSteps[StepOrder[i - 1]] == StepOrder[i];
      }
    }
  }

  /** A Livy batch submission. */
  datatype LivyRequest = LivyRequest(
    file: string, className: string, executorCores: int,
    executorMemory: string, driverMemory: string,
    conf: map<string, string>, args: seq<string>)

  const SparkConf: map<string, string> := map[
    "spark.master" := "yarn",
    "spark.submit.deployMode" := "cluster",
    "spark.driver.extraJavaOptions" := "-Xss2m",
    "spark.yarn.maxAppAttempts" := "1"
  ]

  /** `get_base_livy_payload`: `int(exec_cores)` raises when the setting is not an integer. */
  function BaseLivyPayload(env: Env, className: string): (r: Result<LivyRequest>)
    ensures r.Ok? <==> ParseInt(env.execCores).Some?
    ensures r.Ok? ==> r.value.className == env.packageName + "." + className
                      && r.value.executorCores == ParseInt(env.execCores).value
                      && r.value.file == env.jarProject
                      && r.value.executorMemory == env.executorMemory
                      && r.value.driverMemory == env.driverMemory
                      && r.value.conf == SparkConf
                      && r.value.args == []
  {
    match ParseInt(env.execCores)
    case None => Err(ValueError("invalid literal for int() with base 10"))
    case Some(cores) =>
      Ok(LivyRequest(env.jarProject, env.packageName + "." + className, cores,
                     env.executorMemory, env.driverMemory, SparkConf, []))
  }

  /** `get_jdbc`: the Redshift JDBC URL. */
  function GetJdbc(env: Env): (r: string)
    ensures |r| > 16 && r[..16] == "jdbc:redshift://"
    ensures var tail := "&password=" + env.redshiftPassword; |r| >= |tail| && r[|r| - |tail|..] == tail
  {
    var r := "jdbc:redshift://" + env.endpointAddress + ":" + env.endpointPort + "/"
      + env.redshiftDb + "?user=" + env.redshiftUser + "&password=" + env.redshiftPassword;
    assert r[..16] == "jdbc:redshift://";
    r
  }

  /** The text before the first `c` in `s` and the text after it; None when `c` does not occur. */
  function CutAt(s: string, c: char): (r: Option<(string, string)>)
    ensures r.Some? ==> s == r.value.0 + [c] + r.value.1 && c !in r.value.0
    ensures r.None? ==> c !in s
    decreases |s|
  {
    if s == [] then None
    else if s[0] == c then Some(([], s[1..]))
    else match CutAt(s[1..], c)
      case None => None
      case Some(p) => Some(([s[0]] + p.0, p.1))
  }

  /** Cutting at a separator absent from the head finds the separator right after the head. */
  lemma {:induction false} CutAtFirst(a: string, c: char, b: string)
    requires c !in a
    ensures CutAt(a + [c] + b, c) == Some((a, b))
    decreases |a|
  {
    if a == [] {
      assert a + [c] + b == [c] + b;
    } else {
      CutAtFirst(a[1..], c, b);
      assert (a + [c] + b)[0] == a[0] && a[0] != c;
      assert (a + [c] + b)[1..] == a[1..] + [c] + b;
      assert [a[0]] + a[1..] == a;
    }
  }

  /** The five settings a Redshift JDBC URL carries. */
  datatype JdbcParts = JdbcParts(host: string, port: string, database: string, user: string, password: string)

  /** Reads `jdbc:redshift://<host>:<port>/<db>?user=<user>&password=<password>` back into its parts. */
  function ParseJdbc(url: string): Option<JdbcParts> {
    if !("jdbc:redshift://" <= url) then None
    else match CutAt(url[16..], ':')
      case None => None
      case Some(h) =>
        match CutAt(h.1, '/')
        case None => None
        case Some(p) =>
          match CutAt(p.1, '?')
          case None => None
          case Some(d) =>
            if !("user=" <= d.1) then None
            else match CutAt(d.1[5..], '&')
              case None => None
              case Some(u) =>
                if !("password=" <= u.1) then None
                else Some(JdbcParts(h.0, p.0, d.0, u.0, u.1[9..]))
  }

  /** The URL text `GetJdbc` builds, grouped from the right: each separator follows its field. */
  function JdbcText(parts: JdbcParts): string {
    "jdbc:redshift://" + (parts.host + [':'] + (parts.port + ['/'] + (parts.database + ['?']
      + ("user=" + (parts.user + ['&'] + ("password=" + parts.password))))))
  }

  /** Each field is cut off at its own separator, so the parser reads every field back. */
  lemma {:induction false} ParseJdbcText(parts: JdbcParts)
    requires ':' !in parts.host && '/' !in parts.port && '?' !in parts.database && '&' !in parts.user
    ensures ParseJdbc(JdbcText(parts)) == Some(parts)
  {
    var pw := "password=" + parts.password;
    var afterUser := parts.user + ['&'] + pw;
    var afterDb := parts.database + ['?'] + ("user=" + afterUser);
    var afterPort := parts.port + ['/'] + afterDb;
    var afterHost := parts.host + [':'] + afterPort;
    assert JdbcText(parts)[16..] == afterHost;
    CutAtFirst(parts.host, ':', afterPort);
    CutAtFirst(parts.port, '/', afterDb);
    CutAtFirst(parts.database, '?', "user=" + afterUser);
    assert ("user=" + afterUser)[5..] == afterUser;
    CutAtFirst(parts.user, '&', pw);
    assert pw[9..] == parts.password;
  }

  /**
   * The URL carries every setting in its place: when the host holds no `:`, the
   * port no `/`, the database no `?` and the user no `&`, the URL reads back as
   * exactly the five settings.
   */
  lemma {:induction false} JdbcRoundTrip(env: Env)
    requires ':' !in env.endpointAddress && '/' !in env.endpointPort
    requires '?' !in env.redshiftDb && '&' !in env.redshiftUser
    ensures ParseJdbc(GetJdbc(env)) == Some(JdbcParts(env.endpointAddress, env.endpointPort, env.redshiftDb,
                                                      env.redshiftUser, env.redshiftPassword))
  {
    var parts := JdbcParts(env.endpointAddress, env.endpointPort, env.redshiftDb, env.redshiftUser, env.redshiftPassword);
    assert GetJdbc(env) == JdbcText(parts);
    ParseJdbcText(parts);
  }

  /** A monitoring topic is used only when it is set and non-empty (Python truthiness). */
  predicate TopicConfigured(topic: Option<string>) {
    topic.Some? && topic.value != ""
  }

  /** Number of arguments before the optional monitoring topic. */
  const BaseArgCount: nat := 34

  /** `get_spark_command_partition`: the Spark job's command line. */
  function GetSparkCommandPartition(env: Env, topic: Option<string>, task: TaskData, step: string, extraArgs: seq<string>): (r: seq<string>)
    ensures |r| == BaseArgCount + (if TopicConfigured(topic) then 2 else 0) + |extraArgs|
    ensures r[22] == "--attempt" && r[23] == IntToString(task.attempt)
    ensures r[26] == "--step-id" && r[27] == step
    ensures TopicConfigured(topic) ==> r[34] == "--monitoring-topic" && r[35] == topic.value
    ensures r[|r| - |extraArgs|..] == extraArgs
  {
    var args := [
      "--process-all", "--skip-failures",
      "--glue-staging-database", env.glueStagingDb,
      "--glue-landing-database", env.glueLandingDb,
      "--glue-functional-database", env.glueFunctionalDb,
      "--system", task.system,
      "--country", task.country,
      "--year", task.year, "--month", task.month,
      "--day", task.day, "--secs", task.secs,
      "--execution-id", task.executionId,
      "--attempt", IntToString(task.attempt),
      "--tempS3Dir", env.s3TempDir, "--step-id", step,
      "--jdbc", GetJdbc(env), "--lambda-callback", env.functionName,
      "--lock-table", env.emrLockTable
    ];
    var withTopic := if TopicConfigured(topic) then args + ["--monitoring-topic", topic.value] else args;
    withTopic + extraArgs
  }

  /** The attempt the job reads back from its command line is the attempt of the task. */
  lemma {:induction false} SparkCommandCarriesAttempt(env: Env, topic: Option<string>, task: TaskData, step: string, extraArgs: seq<string>)
    ensures var args := GetSparkCommandPartition(env, topic, task, step, extraArgs);
            ParseInt(args[23]) == Some(task.attempt) && args[27] == step
  {
    ParseIntRoundTrip(task.attempt);
  }

  /** `get_load_parquet_partition_request`. */
  function LoadParquetPartitionRequest(env: Env, topic: Option<string>, task: TaskData): (r: Result<LivyRequest>)
    ensures r.Ok? <==> ParseInt(env.execCores).Some?
    ensures r.Ok? ==> r.value == BaseLivyPayload(env, "LoadToParquet").value.(args := r.value.args)
    ensures r.Ok? ==> r.value.className == env.packageName + ".LoadToParquet"
                      && r.value.args == GetSparkCommandPartition(env, topic, task, "load_parquet_partition", [])
  {
    match BaseLivyPayload(env, "LoadToParquet")
    case Err(e) => Err(e)
    case Ok(base) => Ok(base.(args := GetSparkCommandPartition(env, topic, task, "load_parquet_partition", [])))
  }

  /** `get_load_redshift_partition_request`. */
  function LoadRedshiftPartitionRequest(env: Env, topic: Option<string>, task: TaskData): (r: Result<LivyRequest>)
    ensures r.Ok? <==> ParseInt(env.execCores).Some?
    ensures r.Ok? ==> r.value == BaseLivyPayload(env, "LoadOnRedshift").value.(args := r.value.args)
    ensures r.Ok? ==> r.value.className == env.packageName + ".LoadOnRedshift"
                      && r.value.args == GetSparkCommandPartition(env, topic, task, "load_redshift_partition", [])
  {
    match BaseLivyPayload(env, "LoadOnRedshift")
    case Err(e) => Err(e)
    case Ok(base) => Ok(base.(args := GetSparkCommandPartition(env, topic, task, "load_redshift_partition", [])))
  }

  /** `get_load_functional_request`: adds `--create --update --model <model>`. */
  function LoadFunctionalRequest(env: Env, topic: Option<string>, task: TaskData): (r: Result<LivyRequest>)
    ensures r.Ok? <==> ParseInt(env.execCores).Some?
    ensures r.Ok? ==> r.value == BaseLivyPayload(env, "LoadModel").value.(args := r.value.args)
    ensures r.Ok? ==> r.value.className == env.packageName + ".LoadModel"
                      && r.value.args == GetSparkCommandPartition(env, topic, task, "load_functional",
                                                                  ["--create", "--update", "--model", env.model])
  {
    match BaseLivyPayload(env, "LoadModel")
    case Err(e) => Err(e)
    case Ok(base) =>
      Ok(base.(args := GetSparkCommandPartition(env, topic, task, "load_functional",
                                                ["--create", "--update", "--model", env.model])))
  }

  /** `get_load_functional_redshift_request`: adds `--model <model>`. */
  function LoadFunctionalRedshiftRequest(env: Env, topic: Option<string>, task: TaskData): (r: Result<LivyRequest>)
    ensures r.Ok? <==> ParseInt(env.execCores).Some?
    ensures r.Ok? ==> r.value == BaseLivyPayload(env, "LoadModelToParquet").value.(args := r.value.args)
    ensures r.Ok? ==> r.value.className == env.packageName + ".LoadModelToParquet"
                      && r.value.args == GetSparkCommandPartition(env, topic, task, "load_functional_redshift",
                                                                  ["--model", env.model])
  {
    match BaseLivyPayload(env, "LoadModelToParquet")
    case Err(e) => Err(e)
    case Ok(base) =>
      Ok(base.(args := GetSparkCommandPartition(env, topic, task, "load_functional_redshift", ["--model", env.model])))
  }

  /** The arguments each step's builder appends after the common ones. */
  function ExtraArgsOf(env: Env, b: Builder): seq<string> {
    match b
    case LoadFunctional => ["--create", "--update", "--model", env.model]
    case LoadFunctionalRedshift => ["--model", env.model]
    case _ => []
  }

  /**
   * The request `send_job` submits: `step_processing[step](payload)`. A step
   * without a builder raises KeyError. A job step gets its request exactly when
   * `exec_cores` is an integer; its arguments name the step and end with that
   * step's own extra arguments.
   */
  function StepRequest(env: Env, topic: Option<string>, step: string, task: TaskData): (r: Result<LivyRequest>)
    ensures step !in StepProcessing ==> r == Err(KeyError(step))
    ensures r.Ok? <==> step in StepProcessing && ParseInt(env.execCores).Some?
    ensures r.Ok? ==> r.value.args == GetSparkCommandPartition(env, topic, task, step, ExtraArgsOf(env, StepProcessing[step]))
  {
    if step !in StepProcessing then Err(KeyError(step))
    else match StepProcessing[step]
      case LoadParquetPartition =>
        assert step == "load_parquet_partition";
        LoadParquetPartitionRequest(env, topic, task)
      case LoadRedshiftPartition =>
        assert step == "load_redshift_partition";
        LoadRedshiftPartitionRequest(env, topic, task)
      case LoadFunctional =>
        assert step == "load_functional";
        LoadFunctionalRequest(env, topic, task)
      case LoadFunctionalRedshift =>
        assert step == "load_functional_redshift";
        LoadFunctionalRedshiftRequest(env, topic, task)
  }

  /** The arguments of a built request that follow the common ones and the optional monitoring topic. */
  function ExtraArgs(r: LivyRequest, topic: Option<string>): seq<string>
    requires |r.args| >= BaseArgCount + (if TopicConfigured(topic) then 2 else 0)
  {
    r.args[BaseArgCount + (if TopicConfigured(topic) then 2 else 0)..]
  }

  /**
   * Every job step gets a request exactly when `exec_cores` is an integer.
   * The request names that step as `--step-id` and carries the task's attempt.
   * Only the two functional steps append `--model`.
   */
  lemma {:induction false} StepRequestShape(env: Env, topic: Option<string>, step: string, task: TaskData)
    requires step in StepProcessing
    ensures var r := StepRequest(env, topic, step, task);
            && (r.Ok? <==> ParseInt(env.execCores).Some?)
            && (r.Ok? ==>
                  && |r.value.args| >= BaseArgCount + (if TopicConfigured(topic) then 2 else 0)
                  && r.value.args[27] == step
                  && ParseInt(r.value.args[23]) == Some(task.attempt)
                  && ("--model" in ExtraArgs(r.value, topic) <==> step == "load_functional" || step == "load_functional_redshift"))
  {
    var r := StepRequest(env, topic, step, task);
    if r.Ok? {
      var extra := ExtraArgsOf(env, StepProcessing[step]);
      SparkCommandCarriesAttempt(env, topic, task, step, extra);
      assert ExtraArgs(r.value, topic) == extra;
    }
  }

  /**
   * `send_job(step, payload)`: the request is built, then posted. Only the outcome
   * of the post (`submitted`) is taken from outside. A failed post raises.
   */
  function SendJob(env: Env, topic: Option<string>, step: string, task: TaskData, submitted: bool): (r: Result<LivyRequest>)
    ensures r.Ok? <==> StepRequest(env, topic, step, task).Ok? && submitted
    ensures r.Ok? ==> r == StepRequest(env, topic, step, task)
  {
    match StepRequest(env, topic, step, task)
    case Err(e) => Err(e)
    case Ok(request) => if submitted then Ok(request) else Err(HttpError)
  }

  // ---------------------------------------------------------------------
  // Names
  // ---------------------------------------------------------------------

  /** `get_queue_name(prefix, env, project, fifo)`. */
  function GetQueueName(prefix: string, stage: string, project: string, fifo: bool): (r: string)
    ensures var base := prefix + "-" + stage + "-" + project;
            |r| >= |base| && r[..|base|] == base && r[|base|..] == (if fifo then ".fifo" else "")
  {
    var base := prefix + "-" + stage + "-" + project;
    var r := base + (if fifo then ".fifo" else "");
    assert r[..|base|] == base;
    r
  }

  /** The FIFO and the standard queue of the same prefix, stage and project never share a name. */
  lemma QueueKindsDiffer(prefix: string, stage: string, project: string)
    ensures GetQueueName(prefix, stage, project, true) != GetQueueName(prefix, stage, project, false)
  {
    var base := prefix + "-" + stage + "-" + project;
    assert |GetQueueName(prefix, stage, project, true)| == |base| + 5;
  }

  // ---------------------------------------------------------------------
  // Interfaces accepted per source system
  // ---------------------------------------------------------------------

  /**
   * A value of the `interfaces` table: a tuple of names, or, where the parentheses
   * hold a single string without a trailing comma, that plain string.
   */
  datatype InterfaceList = Names(names: seq<string>) | Text(text: string)

  /** The `interfaces` table as written: the `"sap"` entry is the string `"dproducto"`, not a tuple. */
  const Interfaces: map<string, InterfaceList> := map[
    "sicc" := Names(["dcampcer", "dgeografia", "debelista", "debelistadatosadic", "dmatrizcampana",
                     "dgeografiacampana", "dletsrangoscomision", "dnrodocumento", "fvtaproebecam",
                     "fstaebecam", "fstaebeadic", "tstaebecam", "dstatusf", "dtiempoactividadzona",
                     "fnumpedcam", "dapoyoproducto"]),
    "planit" := Names(["dcontrol", "dtipooferta", "dmatrizcampana", "dcostoproductocampana",
                       "fnumpedcam", "fvtaprocammes"]),
    "sap" := Text("dproducto"),
    "bi" := Names(["debelista", "findsociaemp", "dcatalogovehiculo", "fstaebecam",
                   "dcomportamientorolling", "dstatus", "fresultadopalancas", "dpais", "dpalancas"]),
    "digital" := Names(["flogingresoportal", "fingresosconsultoraportal", "dorigenpedidoweb",
                        "fpedidowebdetalle", "fofertafinalconsultora", "fcompdigcon"])
  ]

  /** The table as evidently intended: `"sap"` is the one-element tuple `("dproducto",)`. */
  const InterfacesIntended: map<string, InterfaceList> := Interfaces["sap" := Names(["dproducto"])]

  /** Python's `x in s` on strings: `x` occurs as a contiguous substring of `s`. */
  function ContainsSubstring(s: string, x: string): (r: bool)
    ensures r <==> OccursAt(s, x)
    decreases |s|
  {
    if x <= s then
      assert Window(s, 0, |x|) == x;
      true
    else if s == [] then false
    else
      OccursInTail(s, x);
      ContainsSubstring(s[1..], x)
  }

  /** The `n` characters of `s` from index `i` on. */
  function Window(s: string, i: nat, n: nat): string
    requires i + n <= |s|
  {
    s[i..i + n]
  }

  /** `x` occurs in `s`: it is the window of its own length at some index. */
  predicate OccursAt(s: string, x: string) {
    exists i: nat | i + |x| <= |s| :: Window(s, i, |x|) == x
  }

  /** When `x` is not a prefix of `s`, it occurs in `s` exactly when it occurs in the tail of `s`. */
  lemma OccursInTail(s: string, x: string)
    requires s != [] && !(x <= s)
    ensures OccursAt(s, x) <==> OccursAt(s[1..], x)
  {
    if OccursAt(s, x) {
      var i: nat :| i + |x| <= |s| && Window(s, i, |x|) == x;
      assert i != 0;
      assert Window(s[1..], i - 1, |x|) == Window(s, i, |x|);
    }
    if OccursAt(s[1..], x) {
      var i: nat :| i + |x| <= |s[1..]| && Window(s[1..], i, |x|) == x;
      assert Window(s, i + 1, |x|) == Window(s[1..], i, |x|);
    }
  }

  /** `name in table[system]`: membership in a tuple, substring search in a string; an unknown system raises. */
  function InterfaceListed(table: map<string, InterfaceList>, system: string, name: string): (r: Result<bool>)
    ensures r.Err? <==> system !in table
    ensures r.Ok? && table[system].Names? ==> r.value == (name in table[system].names)
    ensures r.Ok? && table[system].Text? ==>
              r.value == OccursAt(table[system].text, name)
  {
    if system !in table then Err(KeyError(system))
    else match table[system]
      case Names(names) => Ok(name in names)
      case Text(text) => Ok(ContainsSubstring(text, name))
  }

  /** As written, fragments of `"dproducto"`, the empty name among them, count as SAP interfaces. */
  lemma SapAcceptsFragments()
    ensures InterfaceListed(Interfaces, "sap", "producto") == Ok(true)
    ensures InterfaceListed(Interfaces, "sap", "") == Ok(true)
    ensures InterfaceListed(InterfacesIntended, "sap", "producto") == Ok(false)
  {
    assert "producto" <= "dproducto"[1..];
  }

  /** With the intended table, a name is accepted exactly when it is listed verbatim for its system. */
  lemma IntendedTableIsExactMembership(system: string, name: string)
    requires system in InterfacesIntended
    ensures InterfacesIntended[system].Names?
    ensures InterfaceListed(InterfacesIntended, system, name) == Ok(name in InterfacesIntended[system].names)
  {
  }
}
