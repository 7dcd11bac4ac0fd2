/** `RealTimeConfiguration`: the instance-label grammar, the metric namespaces derived
    from it, and the resolvers that turn cloud inventory responses into identifier lists.
    Every response is an input: a sequence of records, or a function from query to response. */
module RealTime {
  import opened Common
  import opened Text

  // ---------------------------------------------------------------------------
  // Naming grammar

  /** `code` is what precedes the first '-' of `stackInstance`. */
  predicate IsInstanceCode(stackInstance: string, code: string)
  {
    && '-' !in code
    && |code| < |stackInstance|
    && stackInstance[..|code|] == code
    && stackInstance[|code|] == '-'
  }

  /** A label has at most one instance code. */
  lemma InstanceCodeUnique(stackInstance: string, c1: string, c2: string)
    requires IsInstanceCode(stackInstance, c1) && IsInstanceCode(stackInstance, c2)
    ensures c1 == c2
  {
    assert forall i :: 0 <= i < |c1| ==> c1[i] == stackInstance[i];
    assert forall i :: 0 <= i < |c2| ==> c2[i] == stackInstance[i];
  }

  /** `get_instance_from_stack_instance`: the version code before the first '-'; it may be
      empty (label "-a"), and a label without '-' raises. */
  function InstanceFromStackInstance(stackInstance: string): (r: Result<string>)
    ensures r.Err? <==> '-' !in stackInstance
    ensures r.Err? ==> r.error == InvalidStackInstance(stackInstance)
    ensures r.Ok? ==> IsInstanceCode(stackInstance, r.value)
  {
    var idx := Find(stackInstance, '-');
    if idx == -1 then Err(InvalidStackInstance(stackInstance))
    else Ok(stackInstance[..idx])
  }

  /** The label grammar `<code>-<letter>` read back: the code is recovered from any label built from it. */
  lemma InstanceOfLabel(code: string, rest: string)
    requires '-' !in code
    ensures InstanceFromStackInstance(code + "-" + rest) == Ok(code)
  {
    var s := code + "-" + rest;
    assert IsInstanceCode(s, code) by {
      assert s[..|code|] == code;
    }
    InstanceCodeUnique(s, code, InstanceFromStackInstance(s).value);
  }

  const WorkerStatsPrefix := "Worker-Statistics-"
  const AsyncWorkersPrefix := "Asynchronous Workers - "
  const AsyncJobStatsPrefix := "Asynchronous-Jobs-"
  const RepositoryMemoryPrefix := "Repository-Memory-"
  const WorkersMemoryPrefix := "Workers-Memory-"

  /** `ns` is `prefix` followed by the instance code of `stackInstance`. */
  predicate IsNamespaceOf(ns: string, prefix: string, stackInstance: string)
  {
    |prefix| <= |ns| && ns[..|prefix|] == prefix && IsInstanceCode(stackInstance, ns[|prefix|..])
  }

  function WithPrefix(prefix: string, stackInstance: string): (r: Result<string>)
    ensures r.Err? <==> '-' !in stackInstance
    ensures r.Err? ==> r.error == InvalidStackInstance(stackInstance)
    ensures r.Ok? ==> IsNamespaceOf(r.value, prefix, stackInstance)
  {
    match InstanceFromStackInstance(stackInstance)
    case Err(e) => Err(e)
    case Ok(code) =>
      assert (prefix + code)[|prefix|..] == code;
      Ok(prefix + code)
  }

  /** `get_worker_stats_namespace`: "Worker-Statistics-" and the instance code. */
  function WorkerStatsNamespace(stackInstance: string): (r: Result<string>)
    ensures r.Err? <==> '-' !in stackInstance
    ensures r.Err? ==> r.error == InvalidStackInstance(stackInstance)
    ensures r.Ok? ==> IsNamespaceOf(r.value, WorkerStatsPrefix, stackInstance)
  {
    WithPrefix(WorkerStatsPrefix, stackInstance)
  }

  /** `get_async_workers_namespace`: "Asynchronous Workers - " and the instance code. */
  function AsyncWorkersNamespace(stackInstance: string): (r: Result<string>)
    ensures r.Err? <==> '-' !in stackInstance
    ensures r.Err? ==> r.error == InvalidStackInstance(stackInstance)
    ensures r.Ok? ==> IsNamespaceOf(r.value, AsyncWorkersPrefix, stackInstance)
  {
    WithPrefix(AsyncWorkersPrefix, stackInstance)
  }

  /** `get_async_job_stats_namespace`: "Asynchronous-Jobs-" and the instance code. */
  function AsyncJobStatsNamespace(stackInstance: string): (r: Result<string>)
    ensures r.Err? <==> '-' !in stackInstance
    ensures r.Err? ==> r.error == InvalidStackInstance(stackInstance)
    ensures r.Ok? ==> IsNamespaceOf(r.value, AsyncJobStatsPrefix, stackInstance)
  {
    WithPrefix(AsyncJobStatsPrefix, stackInstance)
  }

  /** `get_memory_namespace`: the instance type is checked first, so a bad type raises
      whatever the label; "R" selects the repository prefix and "W" the workers prefix. */
  function MemoryNamespace(stackInstance: string, instanceType: string): (r: Result<string>)
    ensures instanceType != "R" && instanceType != "W" ==> r == Err(InvalidInstanceType(instanceType))
    ensures instanceType == "R" || instanceType == "W" ==>
              (r.Err? <==> '-' !in stackInstance) && (r.Err? ==> r.error == InvalidStackInstance(stackInstance))
    ensures r.Ok? && instanceType == "R" ==> IsNamespaceOf(r.value, RepositoryMemoryPrefix, stackInstance)
    ensures r.Ok? && instanceType == "W" ==> IsNamespaceOf(r.value, WorkersMemoryPrefix, stackInstance)
  {
    if instanceType == "R" then WithPrefix(RepositoryMemoryPrefix, stackInstance)
    else if instanceType == "W" then WithPrefix(WorkersMemoryPrefix, stackInstance)
    else Err(InvalidInstanceType(instanceType))
  }

  /** The namespace determines the label's code: a builder never maps two different codes
      to one namespace, and `WithPrefix` gives exactly the prefix and that code. */
  lemma NamespaceDeterminesCode(prefix: string, s1: string, s2: string)
    requires WithPrefix(prefix, s1).Ok? && WithPrefix(prefix, s2).Ok?
    ensures WithPrefix(prefix, s1) == WithPrefix(prefix, s2) <==>
              InstanceFromStackInstance(s1) == InstanceFromStackInstance(s2)
    ensures WithPrefix(prefix, s1).value == prefix + InstanceFromStackInstance(s1).value
  {
    var n1, n2 := WithPrefix(prefix, s1).value, WithPrefix(prefix, s2).value;
    var c1, c2 := InstanceFromStackInstance(s1).value, InstanceFromStackInstance(s2).value;
    InstanceCodeUnique(s1, c1, n1[|prefix|..]);
    InstanceCodeUnique(s2, c2, n2[|prefix|..]);
    assert n1 == n1[..|prefix|] + n1[|prefix|..];
    assert n2 == n2[..|prefix|] + n2[|prefix|..];
  }

  /** Repository and workers memory namespaces never collide, whatever the two labels.
      The prefixes already differ in their first character, and nothing deeper is needed. */
  lemma MemoryNamespacesDisjoint(s1: string, s2: string)
    requires MemoryNamespace(s1, "R").Ok? && MemoryNamespace(s2, "W").Ok?
    ensures MemoryNamespace(s1, "R").value != MemoryNamespace(s2, "W").value
  {
    var r, w := MemoryNamespace(s1, "R").value, MemoryNamespace(s2, "W").value;
    assert r[0] == 'R' && w[0] == 'W';
  }

  /** No namespace of one builder is a namespace of another, whatever the labels. Each pair of
      prefixes differs at a fixed position (the first character, or the sixth or twelfth), so
      comparing that one character settles it. */
  lemma NamespaceFamiliesDisjoint(s1: string, s2: string)
    requires '-' in s1 && '-' in s2
    ensures WorkerStatsNamespace(s1) != AsyncWorkersNamespace(s2)
    ensures WorkerStatsNamespace(s1) != AsyncJobStatsNamespace(s2)
    ensures AsyncWorkersNamespace(s1) != AsyncJobStatsNamespace(s2)
    ensures WorkerStatsNamespace(s1) != MemoryNamespace(s2, "R")
    ensures WorkerStatsNamespace(s1) != MemoryNamespace(s2, "W")
    ensures AsyncWorkersNamespace(s1) != MemoryNamespace(s2, "R")
    ensures AsyncWorkersNamespace(s1) != MemoryNamespace(s2, "W")
    ensures AsyncJobStatsNamespace(s1) != MemoryNamespace(s2, "R")
    ensures AsyncJobStatsNamespace(s1) != MemoryNamespace(s2, "W")
  {
    var ws, aw, aj := WorkerStatsNamespace(s1).value, AsyncWorkersNamespace(s2).value, AsyncJobStatsNamespace(s2).value;
    var aw1, aj1 := AsyncWorkersNamespace(s1).value, AsyncJobStatsNamespace(s1).value;
    var mr, mw := MemoryNamespace(s2, "R").value, MemoryNamespace(s2, "W").value;
    assert ws[0] == 'W' && aw[0] == 'A' && aj[0] == 'A' && mr[0] == 'R';
    assert aw1[12] == ' ' && aj[12] == '-';
    assert ws[6] == '-' && mw[6] == 's';
    assert aw1[0] == 'A' && aj1[0] == 'A' && mw[0] == 'W';
  }

  // ---------------------------------------------------------------------------
  // Resolvers over inventory responses

  datatype MetricDimension = MetricDimension(name: string, value: string)

  /** One entry of a `list_metrics` response: its dimensions, in response order. */
  datatype ListedMetric = ListedMetric(dimensions: seq<MetricDimension>)

  /** `[metric["Dimensions"][0]["Value"] for metric in ...]`: the first dimension value of each
      listed metric, in response order; a metric without dimensions raises. */
  function FirstDimensionValues(metrics: seq<ListedMetric>): (r: Result<seq<string>>)
    ensures r.Ok? <==> forall i :: 0 <= i < |metrics| ==> metrics[i].dimensions != []
    ensures r.Err? ==> r.error == MissingDimension
    ensures r.Ok? ==> |r.value| == |metrics|
    ensures r.Ok? ==> forall i :: 0 <= i < |metrics| ==> r.value[i] == metrics[i].dimensions[0].value
  {
    if metrics == [] then Ok([])
    else if metrics[0].dimensions == [] then Err(MissingDimension)
    else match FirstDimensionValues(metrics[1..])
      case Err(e) => Err(e)
      case Ok(rest) => Ok([metrics[0].dimensions[0].value] + rest)
  }

  /** One database instance of a `describe_db_instances` response; `DBName` may be absent. */
  datatype DbInstance = DbInstance(identifier: string, dbName: Option<string>)

  /** The cloud's answers, as functions of the queries the resolvers send. */
  datatype Cloud = Cloud(
    instancesNamed: string -> seq<string>,                // ids of the EC2 instances whose Name tag is the argument
    listMetrics: (string, string) -> seq<ListedMetric>,   // CloudWatch metrics for (namespace, metric name)
    loadBalancersTagged: string -> seq<string>,           // ARNs of load balancers with that environment-name tag
    dbInstances: seq<DbInstance>)                         // every RDS instance

  /** `get_cloudwatch_memory_instances`: the instances reporting "used" memory under the memory
      namespace. A bad instance type raises first, then a label without '-'; otherwise the query
      names the type's prefix followed by the label's instance code. */
  function CloudwatchMemoryInstances(cloud: Cloud, stackInstance: string, instanceType: string): (r: Result<seq<string>>)
    ensures instanceType != "R" && instanceType != "W" ==> r == Err(InvalidInstanceType(instanceType))
    ensures (instanceType == "R" || instanceType == "W") && '-' !in stackInstance ==> r == Err(InvalidStackInstance(stackInstance))
    ensures instanceType == "R" && '-' in stackInstance ==>
              r == FirstDimensionValues(cloud.listMetrics(RepositoryMemoryPrefix + InstanceFromStackInstance(stackInstance).value, "used"))
    ensures instanceType == "W" && '-' in stackInstance ==>
              r == FirstDimensionValues(cloud.listMetrics(WorkersMemoryPrefix + InstanceFromStackInstance(stackInstance).value, "used"))
  {
    match MemoryNamespace(stackInstance, instanceType)
    case Err(e) => Err(e)
    case Ok(ns) =>
      NamespaceDeterminesCode(RepositoryMemoryPrefix, stackInstance, stackInstance);
      NamespaceDeterminesCode(WorkersMemoryPrefix, stackInstance, stackInstance);
      FirstDimensionValues(cloud.listMetrics(ns, "used"))
  }

  /** `get_cloudwatch_worker_stats_instances`: the worker names reporting `metricName`, queried
      under "Worker-Statistics-" and the label's instance code; a label without '-' raises. */
  function CloudwatchWorkerStatsInstances(cloud: Cloud, stackInstance: string, metricName: string): (r: Result<seq<string>>)
    ensures '-' !in stackInstance ==> r == Err(InvalidStackInstance(stackInstance))
    ensures '-' in stackInstance ==>
              r == FirstDimensionValues(cloud.listMetrics(WorkerStatsPrefix + InstanceFromStackInstance(stackInstance).value, metricName))
  {
    match WorkerStatsNamespace(stackInstance)
    case Err(e) => Err(e)
    case Ok(ns) =>
      NamespaceDeterminesCode(WorkerStatsPrefix, stackInstance, stackInstance);
      FirstDimensionValues(cloud.listMetrics(ns, metricName))
  }

  const CompletedJobCount := "Completed Job Count"
  const TimeRunning := "% Time Running"
  const CumulativeRuntime := "Cumulative runtime"

  /** The three statistics share the namespace and differ only in the metric name they query. */
  function CompletedJobCountInstances(cloud: Cloud, stackInstance: string): (r: Result<seq<string>>)
    ensures '-' !in stackInstance ==> r == Err(InvalidStackInstance(stackInstance))
    ensures '-' in stackInstance ==>
              r == FirstDimensionValues(cloud.listMetrics(WorkerStatsPrefix + InstanceFromStackInstance(stackInstance).value, "Completed Job Count"))
  {
    CloudwatchWorkerStatsInstances(cloud, stackInstance, CompletedJobCount)
  }

  function TimeRunningInstances(cloud: Cloud, stackInstance: string): (r: Result<seq<string>>)
    ensures '-' !in stackInstance ==> r == Err(InvalidStackInstance(stackInstance))
    ensures '-' in stackInstance ==>
              r == FirstDimensionValues(cloud.listMetrics(WorkerStatsPrefix + InstanceFromStackInstance(stackInstance).value, "% Time Running"))
  {
    CloudwatchWorkerStatsInstances(cloud, stackInstance, TimeRunning)
  }

  function CumulativeTimeInstances(cloud: Cloud, stackInstance: string): (r: Result<seq<string>>)
    ensures '-' !in stackInstance ==> r == Err(InvalidStackInstance(stackInstance))
    ensures '-' in stackInstance ==>
              r == FirstDimensionValues(cloud.listMetrics(WorkerStatsPrefix + InstanceFromStackInstance(stackInstance).value, "Cumulative runtime"))
  {
    CloudwatchWorkerStatsInstances(cloud, stackInstance, CumulativeRuntime)
  }

  /** The Name tag an environment's EC2 instances carry. */
  function Ec2NameTag(environment: string, stack: string, stackInstance: string): string
  {
    environment + "-" + stack + "-" + stackInstance
  }

  /** With a fixed stack and environments without '-', the tag tells the environments apart:
      two environments, or two labels, never query the same tag. */
  lemma Ec2NameTagDistinct(e1: string, e2: string, stack: string, s1: string, s2: string)
    requires '-' !in e1 && '-' !in e2
    ensures Ec2NameTag(e1, stack, s1) == Ec2NameTag(e2, stack, s2) <==> e1 == e2 && s1 == s2
  {
    if Ec2NameTag(e1, stack, s1) == Ec2NameTag(e2, stack, s2) {
      var t, r1, r2 := Ec2NameTag(e1, stack, s1), stack + "-" + s1, stack + "-" + s2;
      assert t == e1 + ['-'] + r1;
      assert t == e2 + ['-'] + r2;
      FindAfterPrefix(e1, '-', r1);
      FindAfterPrefix(e2, '-', r2);
      assert e1 == t[..|e1|] && e2 == t[..|e2|];
      assert r1 == t[|e1| + 1..] && r2 == t[|e2| + 1..];
      assert s1 == r1[|stack| + 1..] && s2 == r2[|stack| + 1..];
    }
  }

  /** `get_ec2_instance_ids`: the ids the cloud lists for the composite Name tag, in its order. */
  function Ec2InstanceIds(cloud: Cloud, environment: string, stack: string, stackInstance: string): seq<string>
  {
    cloud.instancesNamed(Ec2NameTag(environment, stack, stackInstance))
  }

  /** The identifiers of the instances whose database name is `dbName`, in response order:
      the filter of the list comprehension, for instances that all carry a name. */
  function Matching(dbName: string, dbs: seq<DbInstance>): seq<string>
  {
    if dbs == [] then []
    else (if dbs[0].dbName == Some(dbName) then [dbs[0].identifier] else []) + Matching(dbName, dbs[1..])
  }

  /** The comprehension as the source evaluates it: reading the name of an instance that has
      none raises, and otherwise the result is the filter. */
  function MatchingIds(dbName: string, dbs: seq<DbInstance>): (r: Result<seq<string>>)
    ensures r.Err? <==> exists i :: 0 <= i < |dbs| && dbs[i].dbName.None?
    ensures r.Err? ==> r.error.MissingDbName?
    ensures r.Ok? ==> r.value == Matching(dbName, dbs)
  {
    if dbs == [] then Ok([])
    else if dbs[0].dbName.None? then Err(MissingDbName(dbs[0].identifier))
    else match MatchingIds(dbName, dbs[1..])
      case Err(e) =>
        var i :| 0 <= i < |dbs[1..]| && dbs[1..][i].dbName.None?;
        assert dbs[i + 1].dbName.None?;
        Err(e)
      case Ok(rest) =>
        assert forall i :: 1 <= i < |dbs| ==> dbs[i] == dbs[1..][i - 1];
        Ok((if dbs[0].dbName == Some(dbName) then [dbs[0].identifier] else []) + rest)
  }

  /** The filter keeps exactly the identifiers of the instances with that name. */
  lemma {:induction false} MatchingMembers(dbName: string, dbs: seq<DbInstance>)
    ensures forall x :: x in Matching(dbName, dbs) <==>
              exists i :: 0 <= i < |dbs| && dbs[i].dbName == Some(dbName) && dbs[i].identifier == x
  {
    if dbs != [] {
      MatchingMembers(dbName, dbs[1..]);
      forall x | x in Matching(dbName, dbs[1..])
        ensures exists i :: 0 <= i < |dbs| && dbs[i].dbName == Some(dbName) && dbs[i].identifier == x
      {
        var i :| 0 <= i < |dbs[1..]| && dbs[1..][i].dbName == Some(dbName) && dbs[1..][i].identifier == x;
        assert dbs[i + 1] == dbs[1..][i];
      }
      forall x, i | 1 <= i < |dbs| && dbs[i].dbName == Some(dbName) && dbs[i].identifier == x
        ensures x in Matching(dbName, dbs[1..])
      {
        assert dbs[1..][i - 1] == dbs[i];
      }
    }
  }

  /** The first identifier the filter keeps is that of the first instance with that name. */
  lemma {:induction false} MatchingFirst(dbName: string, dbs: seq<DbInstance>)
    requires Matching(dbName, dbs) != []
    ensures exists i :: 0 <= i < |dbs| && dbs[i].dbName == Some(dbName) && dbs[i].identifier == Matching(dbName, dbs)[0]
                        && forall j :: 0 <= j < i ==> dbs[j].dbName != Some(dbName)
  {
    if dbs[0].dbName != Some(dbName) {
      MatchingFirst(dbName, dbs[1..]);
      var i :| 0 <= i < |dbs[1..]| && dbs[1..][i].dbName == Some(dbName) && dbs[1..][i].identifier == Matching(dbName, dbs[1..])[0]
                  && forall j :: 0 <= j < i ==> dbs[1..][j].dbName != Some(dbName);
      assert dbs[i + 1] == dbs[1..][i];
      assert forall j :: 1 <= j < i + 1 ==> dbs[j] == dbs[1..][j - 1];
    }
  }

  /** The filter result is empty exactly when no instance carries the name. */
  lemma MatchingNone(dbName: string, dbs: seq<DbInstance>)
    ensures Matching(dbName, dbs) == [] <==> forall i :: 0 <= i < |dbs| ==> dbs[i].dbName != Some(dbName)
  {
    MatchingMembers(dbName, dbs);
    if Matching(dbName, dbs) == [] {
      forall i | 0 <= i < |dbs| ensures dbs[i].dbName != Some(dbName) {
        assert dbs[i].identifier !in Matching(dbName, dbs);
      }
    } else {
      assert Matching(dbName, dbs)[0] in Matching(dbName, dbs);
    }
  }

  /** The filter works in input order: it distributes over concatenation. */
  lemma {:induction false} MatchingAppend(dbName: string, a: seq<DbInstance>, b: seq<DbInstance>)
    ensures Matching(dbName, a + b) == Matching(dbName, a) + Matching(dbName, b)
  {
    if a == [] {
      assert a + b == b;
    } else {
      assert (a + b)[0] == a[0];
      assert (a + b)[1..] == a[1..] + b;
      MatchingAppend(dbName, a[1..], b);
      var h := if a[0].dbName == Some(dbName) then [a[0].identifier] else [];
      assert h + (Matching(dbName, a[1..]) + Matching(dbName, b)) == (h + Matching(dbName, a[1..])) + Matching(dbName, b);
    }
  }

  /** Listing two responses one after the other lists their matches one after the other. */
  lemma MatchingIdsAppend(dbName: string, a: seq<DbInstance>, b: seq<DbInstance>)
    requires MatchingIds(dbName, a).Ok? && MatchingIds(dbName, b).Ok?
    ensures MatchingIds(dbName, a + b) == Ok(MatchingIds(dbName, a).value + MatchingIds(dbName, b).value)
  {
    assert forall i :: 0 <= i < |a + b| ==> (a + b)[i] == if i < |a| then a[i] else b[i - |a|];
    MatchingAppend(dbName, a, b);
  }

  /** `get_rds_instance_ids`: the instances whose database name is the stack name followed by the release. */
  function RdsInstanceIds(stack: string, releaseNum: string, dbs: seq<DbInstance>): (r: Result<seq<string>>)
    ensures r.Ok? ==> forall x :: x in r.value <==>
              exists i :: 0 <= i < |dbs| && dbs[i].dbName == Some(stack + releaseNum) && dbs[i].identifier == x
    ensures r.Err? <==> exists i :: 0 <= i < |dbs| && dbs[i].dbName.None?
    ensures r.Ok? ==> r.value == Matching(stack + releaseNum, dbs)
  {
    MatchingMembers(stack + releaseNum, dbs);
    MatchingIds(stack + releaseNum, dbs)
  }

  /** `get_rds_idgen_id`: the first instance whose database name is the stack name followed by
      "idgen"; no such instance raises. */
  function RdsIdgenId(stack: string, dbs: seq<DbInstance>): (r: Result<string>)
    ensures r.Ok? <==> (forall i :: 0 <= i < |dbs| ==> dbs[i].dbName.Some?)
                       && (exists i :: 0 <= i < |dbs| && dbs[i].dbName == Some(stack + "idgen"))
    ensures (exists i :: 0 <= i < |dbs| && dbs[i].dbName.None?) ==> r.Err? && r.error.MissingDbName?
    ensures (forall i :: 0 <= i < |dbs| ==> dbs[i].dbName.Some? && dbs[i].dbName != Some(stack + "idgen"))
            ==> r == Err(NoIdgenInstance)
    ensures r.Ok? ==> exists i :: 0 <= i < |dbs| && dbs[i].dbName == Some(stack + "idgen") && dbs[i].identifier == r.value
                          && forall j :: 0 <= j < i ==> dbs[j].dbName != Some(stack + "idgen")
  {
    MatchingMembers(stack + "idgen", dbs);
    match MatchingIds(stack + "idgen", dbs)
    case Err(e) => Err(e)
    case Ok(ids) =>
      if ids == [] then MatchingNone(stack + "idgen", dbs); Err(NoIdgenInstance)
      else
        MatchingFirst(stack + "idgen", dbs);
        Ok(ids[0])
  }

  // ---------------------------------------------------------------------------
  // Load-balancer ARN

  /** `s` is `prefix`, a non-empty run of digits, `marker`, then `name` up to `tail`: one match of
      `prefix\d+marker(.+)` anchored at the start of `s`, `name` being the captured group (`.` takes
      every character but a newline, and greedily). */
  predicate Shape(s: string, prefix: string, marker: string, digits: string, name: string, tail: string)
  {
    && s == prefix + digits + marker + name + tail
    && digits != [] && AllDigits(digits)
    && name != [] && '\n' !in name
    && (tail == [] || tail[0] == '\n')
  }

  /** The match written out for any literal prefix and marker. */
  function MatchCapture(s: string, prefix: string, marker: string): (r: Option<string>)
    ensures r.Some? ==> exists digits, tail :: Shape(s, prefix, marker, digits, r.value, tail)
  {
    if !(prefix <= s) then None
    else
      var rest := s[|prefix|..];
      var n := DigitRun(rest);
      var after := rest[n..];
      if n == 0 || !(marker <= after) then None
      else
        var body := after[|marker|..];
        var name := Line(body);
        if name == [] then None
        else
          ShapeOfParts(s, prefix, marker, rest[..n], name, body[|name|..]);
          Some(name)
  }

  /** The pieces `MatchCapture` cuts off one after the other put `s` together again. */
  lemma ShapeOfParts(s: string, prefix: string, marker: string, digits: string, name: string, tail: string)
    requires prefix <= s && digits <= s[|prefix|..]
    requires marker <= s[|prefix|..][|digits|..]
    requires name <= s[|prefix|..][|digits|..][|marker|..]
    requires tail == s[|prefix|..][|digits|..][|marker|..][|name|..]
    requires digits != [] && AllDigits(digits)
    requires name != [] && '\n' !in name && (tail == [] || tail[0] == '\n')
    ensures Shape(s, prefix, marker, digits, name, tail)
  {
    var rest := s[|prefix|..];
    var after := rest[|digits|..];
    var body := after[|marker|..];
    assert body == name + tail;
    assert after == marker + body;
    assert rest == digits + after;
    assert s == prefix + rest;
  }

  /** When the marker starts with a non-digit, every string of that shape is matched with that capture. */
  lemma MatchCaptureComplete(s: string, prefix: string, marker: string, digits: string, name: string, tail: string)
    requires marker != [] && !IsDigit(marker[0])
    requires Shape(s, prefix, marker, digits, name, tail)
    ensures MatchCapture(s, prefix, marker) == Some(name)
  {
    var after := marker + (name + tail);
    var rest := digits + after;
    AppendAssoc(prefix + digits + marker, name, tail);
    AppendAssoc(prefix + digits, marker, name + tail);
    AppendAssoc(prefix, digits, after);
    DropPrefix(prefix, rest);
    DigitRunOf(digits, after);
    DropPrefix(digits, after);
    DropPrefix(marker, name + tail);
    LineOf(name, tail);
  }

  const ArnPrefix := "arn:aws:elasticloadbalancing:us-east-1:"
  const LoadBalancerMarker := ":loadbalancer/"

  /** The ALB regular expression applied with `match`: the captured group, if the ARN matches. */
  function ParseAlbArn(arn: string): (r: Option<string>)
    ensures r.Some? ==> exists digits, tail :: Shape(arn, ArnPrefix, LoadBalancerMarker, digits, r.value, tail)
  {
    MatchCapture(arn, ArnPrefix, LoadBalancerMarker)
  }

  /** Every ARN of that shape is matched, and its captured group is the whole remainder
      after the marker (up to a newline), not only its last path segment. */
  lemma ParseAlbArnComplete(arn: string, digits: string, name: string, tail: string)
    requires Shape(arn, ArnPrefix, LoadBalancerMarker, digits, name, tail)
    ensures ParseAlbArn(arn) == Some(name)
  {
    assert LoadBalancerMarker[0] == ':';
    MatchCaptureComplete(arn, ArnPrefix, LoadBalancerMarker, digits, name, tail);
  }

  /** `get_repo_alb_name` after the lookup: no tagged load balancer gives "", otherwise the first
      ARN is parsed and a non-matching one raises. */
  function AlbNameFromArns(arns: seq<string>): (r: Result<string>)
    ensures arns == [] ==> r == Ok("")
    ensures arns != [] ==> (r.Ok? <==> exists digits, name, tail :: Shape(arns[0], ArnPrefix, LoadBalancerMarker, digits, name, tail))
    ensures arns != [] && r.Ok? ==> exists digits, tail :: Shape(arns[0], ArnPrefix, LoadBalancerMarker, digits, r.value, tail)
    ensures r.Err? ==> r.error == ArnMismatch(arns[0])
  {
    if arns == [] then Ok("")
    else match ParseAlbArn(arns[0])
      case None =>
        assert forall digits, name, tail :: !Shape(arns[0], ArnPrefix, LoadBalancerMarker, digits, name, tail) by {
          forall digits, name, tail | Shape(arns[0], ArnPrefix, LoadBalancerMarker, digits, name, tail) ensures false {
            ParseAlbArnComplete(arns[0], digits, name, tail);
          }
        }
        Err(ArnMismatch(arns[0]))
      case Some(name) => Ok(name)
  }

  /** An ARN such as `...:loadbalancer/app/my-alb/abc123` yields the name with every path segment. */
  lemma AlbNameExample()
    ensures AlbNameFromArns([ArnPrefix + "123456789012" + LoadBalancerMarker + "app/my-alb/abc123"])
            == Ok("app/my-alb/abc123")
  {
    var arn := ArnPrefix + "123456789012" + LoadBalancerMarker + "app/my-alb/abc123";
    assert arn == ArnPrefix + "123456789012" + LoadBalancerMarker + "app/my-alb/abc123" + "";
    ParseAlbArnComplete(arn, "123456789012", "app/my-alb/abc123", "");
  }

  /** The environment-name tag value of the repository's load balancer. */
  function RepoEnvironmentName(stack: string, stackInstance: string): string
  {
    "repo-" + stack + "-" + stackInstance
  }

  /** `get_repo_alb_name`: the load balancers tagged `repo-{stack}-{label}` are looked up; none gives
      "", otherwise the first ARN's captured name, and an ARN of another shape raises. */
  function RepoAlbName(cloud: Cloud, stack: string, stackInstance: string): (r: Result<string>)
    ensures var arns := cloud.loadBalancersTagged("repo-" + stack + "-" + stackInstance);
            && (arns == [] ==> r == Ok(""))
            && (arns != [] ==> (r.Ok? <==> exists digits, name, tail :: Shape(arns[0], ArnPrefix, LoadBalancerMarker, digits, name, tail)))
            && (arns != [] && r.Ok? ==> exists digits, tail :: Shape(arns[0], ArnPrefix, LoadBalancerMarker, digits, r.value, tail))
            && (r.Err? ==> r.error == ArnMismatch(arns[0]))
  {
    AlbNameFromArns(cloud.loadBalancersTagged(RepoEnvironmentName(stack, stackInstance)))
  }
}
