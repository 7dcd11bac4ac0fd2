/** The dashboard stack: where it finds the configuration document, and the ordered metric
    lists its graph widgets are made of, derived from that document and the stack versions.
    A metric is an abstract record; the rendering library's widget objects are not modelled. */
module Dashboard {
  import opened Common
  import opened Text
  import opened Providers
  import opened RealTime
  import opened AppConfig

  // ---------------------------------------------------------------------------
  // Locating and loading the configuration document

  function BucketName(stack: string): string { stack + ".cloudwatch.metrics.sagebase.org" }

  function FileKey(stack: string): string { stack + "_cw_configuration.json" }

  /** Every stack has its own bucket and its own file key, and neither is ever empty. */
  lemma LocationDeterminesStack(s1: string, s2: string)
    ensures BucketName(s1) == BucketName(s2) <==> s1 == s2
    ensures FileKey(s1) == FileKey(s2) <==> s1 == s2
    ensures BucketName(s1) != "" && FileKey(s1) != ""
  {
    assert BucketName(s1)[..|s1|] == s1 && BucketName(s2)[..|s2|] == s2;
    assert FileKey(s1)[..|s1|] == s1 && FileKey(s2)[..|s2|] == s2;
  }

  const Region := "us-east-1"

  /** `init_config`: a session-backed provider always binds an s3 client and the location
      is never empty, so the precondition checks never raise; what comes back is the stored
      document, or `None` when it could not be read. */
  method InitConfig(stack: string, profileName: Option<string>, fetched: Fetch) returns (config: Option<Document>)
    ensures config == if fetched.Fetched? then Some(fetched.document) else None
  {
    // an empty profile name is falsy and selects the default profile
    var profile := if profileName.Some? && profileName.value != "" then profileName else None;
    var awsProvider := new AwsProvider(Some(Session(profile, Region)));
    var s3Client := awsProvider.GetClient("s3");
    SessionBindsClients(awsProvider, "s3");
    var configurationProvider := new ConfigurationProvider(Some(s3Client.value), Some(BucketName(stack)), Some(FileKey(stack)));
    LocationDeterminesStack(stack, stack);
    var load := configurationProvider.LoadRawConfiguration(fetched);
    config := load.value;
  }

  // ---------------------------------------------------------------------------
  // Metrics and graphs

  datatype Dimension = Dimension(name: string, value: string)

  /** A metric: its namespace, its name, its dimensions in the order they are given, and the
      statistic when the metric sets one itself. */
  datatype Metric = Metric(namespace: string, metricName: string, dimensions: seq<Dimension>, statistic: Option<string>)

  /** A graph widget: its title, its size and the metrics on its left axis. */
  datatype Graph = Graph(title: string, width: nat, height: nat, left: seq<Metric>)

  /** A metric with the single dimension `{dimensionName: value}`. */
  function SeriesMetric(namespace: string, metricName: string, dimensionName: string, value: string): Metric
  {
    Metric(namespace, metricName, [Dimension(dimensionName, value)], None)
  }

  /** The metrics of `create_graph_widget`: one per value, in the order of the values. */
  function GraphMetrics(namespace: string, metricName: string, dimensionName: string, values: seq<string>): (ms: seq<Metric>)
    ensures |ms| == |values|
    ensures forall i :: 0 <= i < |values| ==> ms[i] == SeriesMetric(namespace, metricName, dimensionName, values[i])
  {
    if values == [] then []
    else [SeriesMetric(namespace, metricName, dimensionName, values[0])] + GraphMetrics(namespace, metricName, dimensionName, values[1..])
  }

  /** `create_graph_widget`: one series per value, in order, each read back as its value. */
  function CreateGraphWidget(namespace: string, metricName: string, dimensionName: string, values: seq<string>,
                             title: string, width: nat, height: nat): (g: Graph)
    ensures g.title == title && g.width == width && g.height == height
    ensures |g.left| == |values|
    ensures forall i :: 0 <= i < |values| ==> g.left[i] == SeriesMetric(namespace, metricName, dimensionName, values[i])
    ensures DimensionValues(g.left) == values
  {
    GraphMetricsRoundTrip(namespace, metricName, dimensionName, values);
    Graph(title, width, height, GraphMetrics(namespace, metricName, dimensionName, values))
  }

  /** The value of each metric's first dimension (empty for a metric without dimensions). */
  function DimensionValues(ms: seq<Metric>): seq<string>
  {
    if ms == [] then []
    else [if ms[0].dimensions != [] then ms[0].dimensions[0].value else ""] + DimensionValues(ms[1..])
  }

  lemma {:induction false} DimensionValuesAppend(a: seq<Metric>, b: seq<Metric>)
    ensures DimensionValues(a + b) == DimensionValues(a) + DimensionValues(b)
  {
    if a == [] {
      assert a + b == b;
    } else {
      assert (a + b)[1..] == a[1..] + b;
      DimensionValuesAppend(a[1..], b);
    }
  }

  /** A graph's series read back give exactly the values it was built from. */
  lemma {:induction false} GraphMetricsRoundTrip(namespace: string, metricName: string, dimensionName: string, values: seq<string>)
    ensures DimensionValues(GraphMetrics(namespace, metricName, dimensionName, values)) == values
  {
    if values != [] {
      GraphMetricsRoundTrip(namespace, metricName, dimensionName, values[1..]);
    }
  }

  /** Building the metrics of two value lists one after the other is building them for the concatenation. */
  lemma {:induction false} GraphMetricsAppend(namespace: string, metricName: string, dimensionName: string, a: seq<string>, b: seq<string>)
    ensures GraphMetrics(namespace, metricName, dimensionName, a + b) ==
              GraphMetrics(namespace, metricName, dimensionName, a) + GraphMetrics(namespace, metricName, dimensionName, b)
  {
    var l, r := GraphMetrics(namespace, metricName, dimensionName, a), GraphMetrics(namespace, metricName, dimensionName, b);
    var both := GraphMetrics(namespace, metricName, dimensionName, a + b);
    assert |both| == |l + r|;
    forall i | 0 <= i < |both|
      ensures both[i] == (l + r)[i]
    {
      if i < |a| {
        assert (a + b)[i] == a[i];
      } else {
        assert (a + b)[i] == b[i - |a|];
      }
    }
  }

  // ---------------------------------------------------------------------------
  // EC2 graphs and the version-major flattening of stored lists

  /** The stored lists of `keys`, one after the other; a key that is absent contributes nothing
      (`config.get(key, [])`, and equally a comprehension filtered by `key in config`). */
  function Flatten(config: Document, keys: seq<string>): seq<string>
  {
    if keys == [] then []
    else (if keys[0] in config then config[keys[0]] else []) + Flatten(config, keys[1..])
  }

  lemma {:induction false} FlattenAppend(config: Document, a: seq<string>, b: seq<string>)
    ensures Flatten(config, a + b) == Flatten(config, a) + Flatten(config, b)
  {
    if a == [] {
      assert a + b == b;
    } else {
      assert (a + b)[1..] == a[1..] + b;
      FlattenAppend(config, a[1..], b);
    }
  }

  lemma FlattenSingle(config: Document, key: string)
    ensures Flatten(config, [key]) == if key in config then config[key] else []
  {
    assert [key][1..] == [];
    var stored := if key in config then config[key] else [];
    assert stored + [] == stored;
  }

  /** An identifier is in the flattened list exactly when some present key stores it. */
  lemma {:induction false} FlattenMembers(config: Document, keys: seq<string>, x: string)
    ensures x in Flatten(config, keys) <==> exists i :: 0 <= i < |keys| && keys[i] in config && x in config[keys[i]]
  {
    if keys != [] {
      FlattenMembers(config, keys[1..], x);
      if x in Flatten(config, keys[1..]) {
        var i :| 0 <= i < |keys[1..]| && keys[1..][i] in config && x in config[keys[1..][i]];
        assert keys[i + 1] == keys[1..][i];
      }
      if exists i :: 0 <= i < |keys| && keys[i] in config && x in config[keys[i]] {
        var i :| 0 <= i < |keys| && keys[i] in config && x in config[keys[i]];
        if i > 0 {
          assert keys[1..][i - 1] == keys[i];
        }
      }
    }
  }

  /** The number of identifiers stored under `keys`, an absent key counting none. */
  function StoredCount(config: Document, keys: seq<string>): nat
  {
    if keys == [] then 0
    else (if keys[0] in config then |config[keys[0]]| else 0) + StoredCount(config, keys[1..])
  }

  lemma {:induction false} FlattenLength(config: Document, keys: seq<string>)
    ensures |Flatten(config, keys)| == StoredCount(config, keys)
  {
    if keys != [] {
      FlattenLength(config, keys[1..]);
    }
  }

  function Ec2Keys(versions: seq<string>, environment: string): (keys: seq<string>)
  {
    seq(|versions|, i requires 0 <= i < |versions| => Ec2Key(versions[i], environment))
  }

  /** The EC2 ids of an environment across all versions (the stack's `repo_ec2_ids`,
      `workers_ec2_ids` and `portal_ec2_ids`). */
  function Ec2Ids(config: Document, versions: seq<string>, environment: string): (ids: seq<string>)
    ensures forall x :: x in ids <==>
              exists i :: 0 <= i < |versions| && Ec2Key(versions[i], environment) in config && x in config[Ec2Key(versions[i], environment)]
    ensures |ids| == StoredCount(config, Ec2Keys(versions, environment))
  {
    var keys := Ec2Keys(versions, environment);
    FlattenLength(config, keys);
    assert forall x :: x in Flatten(config, keys) <==> exists i :: 0 <= i < |versions| && Ec2Key(versions[i], environment) in config && x in config[Ec2Key(versions[i], environment)] by {
      forall x ensures x in Flatten(config, keys) <==> exists i :: 0 <= i < |versions| && Ec2Key(versions[i], environment) in config && x in config[Ec2Key(versions[i], environment)] {
        FlattenMembers(config, keys, x);
        if x in Flatten(config, keys) {
          var i :| 0 <= i < |keys| && keys[i] in config && x in config[keys[i]];
          assert keys[i] == Ec2Key(versions[i], environment);
        }
        if exists i :: 0 <= i < |versions| && Ec2Key(versions[i], environment) in config && x in config[Ec2Key(versions[i], environment)] {
          var i :| 0 <= i < |versions| && Ec2Key(versions[i], environment) in config && x in config[Ec2Key(versions[i], environment)];
          assert keys[i] == Ec2Key(versions[i], environment);
        }
      }
    }
    Flatten(config, keys)
  }

  /** Version-major: the ids of `a + b` are those of `a` followed by those of `b`, and a single
      version contributes its stored list, or nothing when the key is absent. */
  lemma Ec2IdsAppend(config: Document, a: seq<string>, b: seq<string>, environment: string)
    ensures Ec2Ids(config, a + b, environment) == Ec2Ids(config, a, environment) + Ec2Ids(config, b, environment)
  {
    assert Ec2Keys(a + b, environment) == Ec2Keys(a, environment) + Ec2Keys(b, environment);
    FlattenAppend(config, Ec2Keys(a, environment), Ec2Keys(b, environment));
  }

  /** A single version contributes its stored list, or nothing when its key is absent. */
  lemma Ec2IdsSingle(config: Document, version: string, environment: string)
    ensures Ec2Ids(config, [version], environment) ==
              if Ec2Key(version, environment) in config then config[Ec2Key(version, environment)] else []
  {
    assert Ec2Keys([version], environment) == [Ec2Key(version, environment)];
    FlattenSingle(config, Ec2Key(version, environment));
  }

  /** `create_ec2_cpu_utilization_widget`: one CPU series per instance id, in order. */
  function Ec2CpuUtilizationWidget(title: string, ids: seq<string>): (g: Graph)
    ensures g.title == title && g.width == 24 && g.height == 6
    ensures |g.left| == |ids| && DimensionValues(g.left) == ids
    ensures forall i :: 0 <= i < |ids| ==> g.left[i] == SeriesMetric("AWS/EC2", "CPUUtilization", "InstanceId", ids[i])
  {
    CreateGraphWidget("AWS/EC2", "CPUUtilization", "InstanceId", ids, title, 24, 6)
  }

  /** `create_ec2_network_out_widget`: one outbound-traffic series per instance id, in order. */
  function Ec2NetworkOutWidget(title: string, ids: seq<string>): (g: Graph)
    ensures g.title == title && g.width == 24 && g.height == 3
    ensures |g.left| == |ids| && DimensionValues(g.left) == ids
    ensures forall i :: 0 <= i < |ids| ==> g.left[i] == SeriesMetric("AWS/EC2", "NetworkOut", "InstanceId", ids[i])
  {
    CreateGraphWidget("AWS/EC2", "NetworkOut", "InstanceId", ids, title, 24, 3)
  }

  // ---------------------------------------------------------------------------
  // RDS graphs

  const DbTypes := ["db", "table-0"]

  function DbId(stack: string, version: string, dbType: string): string { stack + "-" + version + "-" + dbType }

  function IdGeneratorId(stack: string): string { stack + "-id-generator-db-orange" }

  /** The per-version part of `rds_ids_from_stack_versions`. */
  function VersionDbIds(stack: string, versions: seq<string>): (ids: seq<string>)
    ensures |ids| == 2 * |versions|
    ensures forall i :: 0 <= i < |versions| ==>
              ids[2 * i] == DbId(stack, versions[i], "db") && ids[2 * i + 1] == DbId(stack, versions[i], "table-0")
  {
    if versions == [] then []
    else [DbId(stack, versions[0], DbTypes[0]), DbId(stack, versions[0], DbTypes[1])] + VersionDbIds(stack, versions[1..])
  }

  /** `rds_ids_from_stack_versions`: for each version in order its main and its table database,
      then the id generator, always last. */
  function RdsIds(stack: string, versions: seq<string>): (ids: seq<string>)
    ensures |ids| == 2 * |versions| + 1
    ensures forall i :: 0 <= i < |versions| ==>
              ids[2 * i] == DbId(stack, versions[i], "db") && ids[2 * i + 1] == DbId(stack, versions[i], "table-0")
    ensures ids[2 * |versions|] == IdGeneratorId(stack)
  {
    VersionDbIds(stack, versions) + [IdGeneratorId(stack)]
  }

  datatype RdsMetric = CpuUtilization | FreeStorageSpace | ReadThroughput | WriteThroughput
                     | ReadLatency | WriteLatency | ReadIops | WriteIops

  function RdsMetricName(m: RdsMetric): string
  {
    match m
    case CpuUtilization => "CPUUtilization"
    case FreeStorageSpace => "FreeStorageSpace"
    case ReadThroughput => "ReadThroughput"
    case WriteThroughput => "WriteThroughput"
    case ReadLatency => "ReadLatency"
    case WriteLatency => "WriteLatency"
    case ReadIops => "ReadIOPS"
    case WriteIops => "WriteIOPS"
  }

  /** The eight `create_rds_*_widget` functions: one series per database of `RdsIds`. */
  function RdsWidget(m: RdsMetric, title: string, stack: string, versions: seq<string>): (g: Graph)
    ensures g.title == title
    ensures m == CpuUtilization ==> g.width == 24 && g.height == 6
    ensures m == FreeStorageSpace ==> g.width == 24 && g.height == 3
    ensures m != CpuUtilization && m != FreeStorageSpace ==> g.width == 12 && g.height == 4
    ensures |g.left| == 2 * |versions| + 1
    ensures DimensionValues(g.left) == RdsIds(stack, versions)
    ensures forall i :: 0 <= i < |g.left| ==>
              g.left[i] == SeriesMetric("AWS/RDS", RdsMetricName(m), "DBInstanceIdentifier", RdsIds(stack, versions)[i])
  {
    var ids := RdsIds(stack, versions);
    GraphMetricsRoundTrip("AWS/RDS", RdsMetricName(m), "DBInstanceIdentifier", ids);
    match m
    case CpuUtilization => CreateGraphWidget("AWS/RDS", RdsMetricName(m), "DBInstanceIdentifier", ids, title, 24, 6)
    case FreeStorageSpace => CreateGraphWidget("AWS/RDS", RdsMetricName(m), "DBInstanceIdentifier", ids, title, 24, 3)
    case _ => CreateGraphWidget("AWS/RDS", RdsMetricName(m), "DBInstanceIdentifier", ids, title, 12, 4)
  }

  /** The metrics of the throughput, latency and IOPS widgets, read and write side by side. */
  const RdsIoMetrics := [ReadThroughput, WriteThroughput, ReadLatency, WriteLatency, ReadIops, WriteIops]

  const RdsIoTitles := ["RDS Read Throughput", "RDS Write Throughput", "RDS Read Latency",
                        "RDS Write Latency", "RDS Read Iops", "RDS Write Iops"]

  /** `g` is a `width` by `height` graph titled `title` with one series of metric `m` per database
      of `RdsIds`, in order. */
  predicate ShowsRds(g: Graph, m: RdsMetric, title: string, width: nat, height: nat, stack: string, versions: seq<string>)
  {
    && g.title == title && g.width == width && g.height == height
    && DimensionValues(g.left) == RdsIds(stack, versions)
    && |g.left| == 2 * |versions| + 1
    && forall j :: 0 <= j < |g.left| ==>
         g.left[j] == SeriesMetric("AWS/RDS", RdsMetricName(m), "DBInstanceIdentifier", RdsIds(stack, versions)[j])
  }

  lemma RdsIoWidgetShows(m: RdsMetric, title: string, stack: string, versions: seq<string>)
    requires m != CpuUtilization && m != FreeStorageSpace
    ensures ShowsRds(RdsWidget(m, title, stack, versions), m, title, 12, 4, stack, versions)
  {
  }

  /** The six input-output widgets, half-width, each with one series per database of `RdsIds`. */
  function RdsIoWidgets(stack: string, versions: seq<string>): (gs: seq<Graph>)
    ensures |gs| == 6
    ensures forall i :: 0 <= i < 6 ==> ShowsRds(gs[i], RdsIoMetrics[i], RdsIoTitles[i], 12, 4, stack, versions)
  {
    var gs := seq(6, i requires 0 <= i < 6 => RdsWidget(RdsIoMetrics[i], RdsIoTitles[i], stack, versions));
    assert forall i :: 0 <= i < 6 ==> ShowsRds(gs[i], RdsIoMetrics[i], RdsIoTitles[i], 12, 4, stack, versions) by {
      forall i | 0 <= i < 6 {
        RdsIoWidgetShows(RdsIoMetrics[i], RdsIoTitles[i], stack, versions);
      }
    }
    gs
  }

  // ---------------------------------------------------------------------------
  // Memory and worker statistics: one series per stored value, version after version

  /** The two kinds of per-version series read from the document. */
  datatype Series =
    | WorkerStats(metricName: string)             // create_worker_stats_widget
    | Memory(environment: string, envKey: string) // create_memory_widget, envKey = ENV_KEYS[environment]

  function SeriesNamespace(s: Series, version: string): string
  {
    match s
    case WorkerStats(_) => WorkerStatsPrefix + version
    case Memory(environment, _) => environment + "-Memory-" + version
  }

  function SeriesKey(s: Series, version: string): string
  {
    match s
    case WorkerStats(_) => WorkerNamesKey(version)
    case Memory(_, envKey) => VmidsKey(version, envKey)
  }

  function SeriesMetricName(s: Series): string
  {
    match s
    case WorkerStats(metricName) => metricName
    case Memory(_, _) => "used"
  }

  function SeriesDimension(s: Series): string
  {
    match s
    case WorkerStats(_) => "Worker Name"
    case Memory(_, _) => "instance"
  }

  function SeriesKeys(s: Series, versions: seq<string>): seq<string>
  {
    seq(|versions|, i requires 0 <= i < |versions| => SeriesKey(s, versions[i]))
  }

  /** The metrics of one version: one per value stored under its key. */
  function VersionSeries(config: Document, s: Series, version: string): seq<Metric>
    requires SeriesKey(s, version) in config
  {
    GraphMetrics(SeriesNamespace(s, version), SeriesMetricName(s), SeriesDimension(s), config[SeriesKey(s, version)])
  }

  /** The loop of the series widgets, as a specification: versions in order, each contributing
      its own metrics; the first version whose key is absent raises. */
  function SeriesMetrics(config: Document, versions: seq<string>, s: Series): (r: Result<seq<Metric>>)
    decreases |versions|
  {
    if versions == [] then Ok([])
    else if SeriesKey(s, versions[0]) !in config then Err(MissingKey(SeriesKey(s, versions[0])))
    else
      match SeriesMetrics(config, versions[1..], s)
      case Err(e) => Err(e)
      case Ok(ms) =>
        Ok(VersionSeries(config, s, versions[0]) + ms)
  }

  /** A failure among the first versions is raised whatever follows them. */
  lemma {:induction false} SeriesAppendFails(config: Document, a: seq<string>, b: seq<string>, s: Series)
    requires SeriesMetrics(config, a, s).Err?
    ensures SeriesMetrics(config, a + b, s) == SeriesMetrics(config, a, s)
  {
    assert (a + b)[0] == a[0];
    if SeriesKey(s, a[0]) in config {
      assert (a + b)[1..] == a[1..] + b;
      SeriesAppendFails(config, a[1..], b, s);
    }
  }

  /** Version-major order: after versions that succeed, the series of `a + b` are those of `a`
      followed by those of `b`, or the failure of `b`. */
  lemma SeriesAppend(config: Document, a: seq<string>, b: seq<string>, s: Series)
    requires SeriesMetrics(config, a, s).Ok?
    ensures SeriesMetrics(config, b, s).Err? ==> SeriesMetrics(config, a + b, s) == SeriesMetrics(config, b, s)
    ensures SeriesMetrics(config, b, s).Ok? ==>
              SeriesMetrics(config, a + b, s) == Ok(SeriesMetrics(config, a, s).value + SeriesMetrics(config, b, s).value)
  {
    if SeriesMetrics(config, b, s).Ok? {
      SeriesAppendOk(config, a, b, s);
    } else {
      SeriesAppendErr(config, a, b, s);
    }
  }

  lemma {:induction false} SeriesAppendOk(config: Document, a: seq<string>, b: seq<string>, s: Series)
    requires SeriesMetrics(config, a, s).Ok? && SeriesMetrics(config, b, s).Ok?
    ensures SeriesMetrics(config, a + b, s) == Ok(SeriesMetrics(config, a, s).value + SeriesMetrics(config, b, s).value)
  {
    var mb := SeriesMetrics(config, b, s).value;
    if a == [] {
      assert a + b == b;
      assert [] + mb == mb;
    } else {
      SeriesUncons(config, a, s);
      SeriesAppendOk(config, a[1..], b, s);
      AppendHead(a, b);
      SeriesCons(config, a + b, s);
      AppendAssoc(VersionSeries(config, s, a[0]), SeriesMetrics(config, a[1..], s).value, mb);
    }
  }

  /** The series of a non-empty version list that succeed: the first key is present, the rest
      succeed, and the first version's metrics come first. */
  lemma SeriesUncons(config: Document, versions: seq<string>, s: Series)
    requires versions != [] && SeriesMetrics(config, versions, s).Ok?
    ensures SeriesKey(s, versions[0]) in config && SeriesMetrics(config, versions[1..], s).Ok?
    ensures SeriesMetrics(config, versions, s).value == VersionSeries(config, s, versions[0]) + SeriesMetrics(config, versions[1..], s).value
  {
  }

  /** Conversely, a present first key and a rest that succeeds give the series of the whole list. */
  lemma SeriesCons(config: Document, versions: seq<string>, s: Series)
    requires versions != [] && SeriesKey(s, versions[0]) in config && SeriesMetrics(config, versions[1..], s).Ok?
    ensures SeriesMetrics(config, versions, s) == Ok(VersionSeries(config, s, versions[0]) + SeriesMetrics(config, versions[1..], s).value)
  {
  }

  lemma {:induction false} SeriesAppendErr(config: Document, a: seq<string>, b: seq<string>, s: Series)
    requires SeriesMetrics(config, a, s).Ok? && SeriesMetrics(config, b, s).Err?
    ensures SeriesMetrics(config, a + b, s) == SeriesMetrics(config, b, s)
  {
    if a == [] {
      assert a + b == b;
    } else {
      AppendHead(a, b);
      SeriesAppendErr(config, a[1..], b, s);
    }
  }

  /** The series succeed exactly when every version's key is present. */
  lemma {:induction false} SeriesOk(config: Document, versions: seq<string>, s: Series)
    ensures SeriesMetrics(config, versions, s).Ok? <==> forall i :: 0 <= i < |versions| ==> SeriesKey(s, versions[i]) in config
  {
    if versions != [] {
      SeriesOk(config, versions[1..], s);
      assert forall i :: 1 <= i < |versions| ==> versions[i] == versions[1..][i - 1];
    }
  }

  /** The error raised names the key of the first version whose key is absent. */
  lemma {:induction false} SeriesFirstMissing(config: Document, versions: seq<string>, s: Series, j: nat)
    requires j < |versions| && SeriesKey(s, versions[j]) !in config
    requires forall i :: 0 <= i < j ==> SeriesKey(s, versions[i]) in config
    ensures SeriesMetrics(config, versions, s) == Err(MissingKey(SeriesKey(s, versions[j])))
  {
    if j > 0 {
      assert forall i :: 0 <= i < j - 1 ==> versions[1..][i] == versions[i + 1];
      SeriesFirstMissing(config, versions[1..], s, j - 1);
    }
  }

  /** Read back, the series are the stored lists flattened version after version; so their
      number is the sum of the stored lists' lengths. */
  lemma {:induction false} SeriesValues(config: Document, versions: seq<string>, s: Series)
    requires SeriesMetrics(config, versions, s).Ok?
    ensures DimensionValues(SeriesMetrics(config, versions, s).value) == Flatten(config, SeriesKeys(s, versions))
    ensures |SeriesMetrics(config, versions, s).value| == StoredCount(config, SeriesKeys(s, versions))
  {
    FlattenLength(config, SeriesKeys(s, versions));
    DimensionValuesLength(SeriesMetrics(config, versions, s).value);
    if versions != [] {
      SeriesUncons(config, versions, s);
      var key := SeriesKey(s, versions[0]);
      var ms := SeriesMetrics(config, versions[1..], s).value;
      SeriesValues(config, versions[1..], s);
      DimensionValuesAppend(VersionSeries(config, s, versions[0]), ms);
      GraphMetricsRoundTrip(SeriesNamespace(s, versions[0]), SeriesMetricName(s), SeriesDimension(s), config[key]);
      SeriesKeysTail(s, versions);
    }
  }

  lemma SeriesKeysTail(s: Series, versions: seq<string>)
    requires versions != []
    ensures SeriesKeys(s, versions)[0] == SeriesKey(s, versions[0])
    ensures SeriesKeys(s, versions)[1..] == SeriesKeys(s, versions[1..])
  {
  }

  /** A single version's series read back exactly the list stored under its key. */
  lemma SeriesSingle(config: Document, version: string, s: Series)
    requires SeriesKey(s, version) in config
    ensures SeriesMetrics(config, [version], s).Ok?
    ensures DimensionValues(SeriesMetrics(config, [version], s).value) == config[SeriesKey(s, version)]
  {
    SeriesOk(config, [version], s);
    SeriesValues(config, [version], s);
    assert SeriesKeys(s, [version]) == [SeriesKey(s, version)];
    FlattenSingle(config, SeriesKey(s, version));
  }

  lemma {:induction false} DimensionValuesLength(ms: seq<Metric>)
    ensures |DimensionValues(ms)| == |ms|
  {
    if ms != [] {
      DimensionValuesLength(ms[1..]);
    }
  }

  /** Every series carries its kind's metric name and dimension, and the namespace of one of the versions. */
  lemma {:induction false} SeriesShape(config: Document, versions: seq<string>, s: Series)
    requires SeriesMetrics(config, versions, s).Ok?
    ensures forall m :: m in SeriesMetrics(config, versions, s).value ==>
              && m.metricName == SeriesMetricName(s)
              && |m.dimensions| == 1 && m.dimensions[0].name == SeriesDimension(s)
              && exists i :: 0 <= i < |versions| && m.namespace == SeriesNamespace(s, versions[i])
  {
    if versions != [] {
      SeriesShape(config, versions[1..], s);
      var head := VersionSeries(config, s, versions[0]);
      forall m | m in SeriesMetrics(config, versions, s).value
        ensures && m.metricName == SeriesMetricName(s)
                && |m.dimensions| == 1 && m.dimensions[0].name == SeriesDimension(s)
                && exists i :: 0 <= i < |versions| && m.namespace == SeriesNamespace(s, versions[i])
      {
        if m in head {
          var k :| 0 <= k < |head| && head[k] == m;
          assert m.namespace == SeriesNamespace(s, versions[0]);
        } else {
          var i :| 0 <= i < |versions[1..]| && m.namespace == SeriesNamespace(s, versions[1..][i]);
          assert versions[1..][i] == versions[i + 1];
        }
      }
    }
  }

  /** One more version whose key is present extends the series by that version's metrics. */
  lemma SeriesExtend(config: Document, versions: seq<string>, i: nat, s: Series, ms: seq<Metric>)
    requires i < |versions| && SeriesKey(s, versions[i]) in config
    requires SeriesMetrics(config, versions[..i], s) == Ok(ms)
    ensures SeriesMetrics(config, versions[..i + 1], s) == Ok(ms + VersionSeries(config, s, versions[i]))
  {
    var sv := versions[i];
    SingletonTail(sv);
    SeriesCons(config, [sv], s);
    AppendEmpty(VersionSeries(config, s, sv));
    SeriesAppendOk(config, versions[..i], [sv], s);
    TakeNext(versions, i);
  }

  /** A version whose key is absent, after versions that succeed, is the error of the whole list. */
  lemma SeriesStops(config: Document, versions: seq<string>, i: nat, s: Series)
    requires i < |versions| && SeriesKey(s, versions[i]) !in config
    requires SeriesMetrics(config, versions[..i], s).Ok?
    ensures SeriesMetrics(config, versions, s) == Err(MissingKey(SeriesKey(s, versions[i])))
  {
    SeriesOk(config, versions[..i], s);
    assert forall k :: 0 <= k < i ==> versions[..i][k] == versions[k];
    SeriesFirstMissing(config, versions, s, i);
  }

  /** The loop shared by the memory and worker-statistics widgets. */
  method CollectSeries(config: Document, versions: seq<string>, s: Series) returns (r: Result<seq<Metric>>)
    ensures r == SeriesMetrics(config, versions, s)
  {
    var metrics: seq<Metric> := [];
    for i := 0 to |versions|
      invariant SeriesMetrics(config, versions[..i], s) == Ok(metrics)
    {
      var sv := versions[i];
      var namespace := SeriesNamespace(s, sv);
      var configKey := SeriesKey(s, sv);
      if configKey !in config {
        SeriesStops(config, versions, i, s);
        return Err(MissingKey(configKey));
      }
      var versionMetrics := GraphMetrics(namespace, SeriesMetricName(s), SeriesDimension(s), config[configKey]);
      SeriesExtend(config, versions, i, s, metrics);
      metrics := metrics + versionMetrics;
    }
    assert versions[..|versions|] == versions;
    r := Ok(metrics);
  }

  /** The graph a series widget is built into, or the error that stopped it. */
  function SeriesGraph(title: string, metrics: Result<seq<Metric>>): Result<Graph>
  {
    match metrics
    case Err(e) => Err(e)
    case Ok(ms) => Ok(Graph(title, 24, 3, ms))
  }

  /** `create_worker_stats_widget`: namespace `Worker-Statistics-{sv}` and key `{sv}-workers-names`. */
  method CreateWorkerStatsWidget(title: string, config: Document, versions: seq<string>, metricName: string)
    returns (r: Result<Graph>)
    ensures r == SeriesGraph(title, SeriesMetrics(config, versions, WorkerStats(metricName)))
  {
    var metrics := CollectSeries(config, versions, WorkerStats(metricName));
    r := SeriesGraph(title, metrics);
  }

  /** `ENV_KEYS`: the document's name of each memory environment. */
  const EnvKeys: map<string, string> := map["Repository" := "repo", "Workers" := "workers"]

  /** The memory series: the environment is looked up when the first version is processed,
      so an unknown environment raises only when there is a version. */
  function MemoryMetrics(config: Document, versions: seq<string>, environment: string): (r: Result<seq<Metric>>)
    ensures versions == [] ==> r == Ok([])
    ensures versions != [] && environment !in EnvKeys ==> r == Err(UnknownEnvironment(environment))
    ensures environment in EnvKeys ==> r == SeriesMetrics(config, versions, Memory(environment, EnvKeys[environment]))
  {
    if versions == [] then Ok([])
    else if environment !in EnvKeys then Err(UnknownEnvironment(environment))
    else SeriesMetrics(config, versions, Memory(environment, EnvKeys[environment]))
  }

  /** `create_memory_widget`. */
  method CreateMemoryWidget(title: string, config: Document, versions: seq<string>, environment: string)
    returns (r: Result<Graph>)
    ensures r == SeriesGraph(title, MemoryMetrics(config, versions, environment))
  {
    if versions == [] {
      return Ok(Graph(title, 24, 3, []));
    }
    if environment !in EnvKeys {
      return Err(UnknownEnvironment(environment));
    }
    var metrics := CollectSeries(config, versions, Memory(environment, EnvKeys[environment]));
    r := SeriesGraph(title, metrics);
  }

  /** The two memory widgets read `{sv}-repo-vmids` and `{sv}-workers-vmids` under the namespaces
      `Repository-Memory-{sv}` and `Workers-Memory-{sv}`: the namespaces the memory metrics are
      published under when the version is the instance code of the label. */
  lemma MemoryKeysAndNamespaces(stackInstance: string, sv: string)
    requires InstanceFromStackInstance(stackInstance) == Ok(sv)
    ensures SeriesKey(Memory("Repository", EnvKeys["Repository"]), sv) == VmidsKey(sv, "repo")
    ensures SeriesKey(Memory("Workers", EnvKeys["Workers"]), sv) == VmidsKey(sv, "workers")
    ensures MemoryNamespace(stackInstance, "R") == Ok(SeriesNamespace(Memory("Repository", "repo"), sv))
    ensures MemoryNamespace(stackInstance, "W") == Ok(SeriesNamespace(Memory("Workers", "workers"), sv))
    ensures WorkerStatsNamespace(stackInstance) == Ok(SeriesNamespace(WorkerStats(CompletedJobCount), sv))
  {
    NamespaceDeterminesCode(RepositoryMemoryPrefix, stackInstance, stackInstance);
    NamespaceDeterminesCode(WorkersMemoryPrefix, stackInstance, stackInstance);
    NamespaceDeterminesCode(WorkerStatsPrefix, stackInstance, stackInstance);
    assert "Repository" + "-Memory-" == RepositoryMemoryPrefix;
    assert "Workers" + "-Memory-" == WorkersMemoryPrefix;
  }

  // ---------------------------------------------------------------------------
  // Active connections and CloudSearch

  const Dbs := ["idgen", "main", "tables"]

  function DatabaseNamespace(environment: string, version: string): string { environment + "-Database-" + version }

  /** `create_active_connections_metric`. */
  function ActiveConnectionsMetric(namespace: string, db: string): Metric
  {
    SeriesMetric(namespace, "activeConnectionsCount", "dataSourceId", db)
  }

  /** The metrics of `create_active_connections_widget`: for each version in order, the
      idgen, main and tables data sources under `{environment}-Database-{sv}`. */
  function ActiveConnectionsMetrics(environment: string, versions: seq<string>): (ms: seq<Metric>)
    ensures |ms| == 3 * |versions|
    ensures forall i :: 0 <= i < |versions| ==>
              && ms[3 * i] == ActiveConnectionsMetric(DatabaseNamespace(environment, versions[i]), "idgen")
              && ms[3 * i + 1] == ActiveConnectionsMetric(DatabaseNamespace(environment, versions[i]), "main")
              && ms[3 * i + 2] == ActiveConnectionsMetric(DatabaseNamespace(environment, versions[i]), "tables")
  {
    if versions == [] then []
    else
      var ns := DatabaseNamespace(environment, versions[0]);
      var rest := ActiveConnectionsMetrics(environment, versions[1..]);
      var ms := [ActiveConnectionsMetric(ns, Dbs[0]), ActiveConnectionsMetric(ns, Dbs[1]), ActiveConnectionsMetric(ns, Dbs[2])] + rest;
      ms
  }

  /** `create_active_connections_widget`: a full-width graph of the three data sources of each
      version, versions in order (the layout `ActiveConnectionsMetrics` states). */
  function ActiveConnectionsWidget(title: string, environment: string, versions: seq<string>): (g: Graph)
    ensures g.title == title && g.width == 24 && g.height == 6
    ensures g.left == ActiveConnectionsMetrics(environment, versions) && |g.left| == 3 * |versions|
  {
    Graph(title, 24, 6, ActiveConnectionsMetrics(environment, versions))
  }

  const CloudsearchClientId := "325565585839"

  function CloudsearchDomain(version: string): string { "prod-" + version + "-sagebase-org" }

  /** `create_cloudsearch_metric`: the domain and the fixed client id, in that order. */
  function CloudsearchMetric(domain: string): Metric
  {
    Metric("AWS/CloudSearch", "SearchableDocuments", [Dimension("DomainName", domain), Dimension("ClientId", CloudsearchClientId)], None)
  }

  /** The metrics of `create_cloudsearch_widget`: one per version, in order. */
  function CloudsearchMetrics(versions: seq<string>): (ms: seq<Metric>)
    ensures |ms| == |versions|
    ensures forall i :: 0 <= i < |versions| ==> ms[i] == CloudsearchMetric(CloudsearchDomain(versions[i]))
  {
    if versions == [] then []
    else [CloudsearchMetric(CloudsearchDomain(versions[0]))] + CloudsearchMetrics(versions[1..])
  }

  /** Different versions watch different search domains. */
  lemma CloudsearchDomainInjective(v1: string, v2: string)
    ensures CloudsearchDomain(v1) == CloudsearchDomain(v2) <==> v1 == v2
  {
    if CloudsearchDomain(v1) == CloudsearchDomain(v2) {
      assert |v1| == |v2|;
      assert forall i :: 0 <= i < |v1| ==> v1[i] == CloudsearchDomain(v1)[i + 5] == CloudsearchDomain(v2)[i + 5] == v2[i];
    }
  }

  /** `create_cloudsearch_widget`: one searchable-documents series per version's domain. */
  function CloudsearchWidget(title: string, versions: seq<string>): (g: Graph)
    ensures g.title == title && g.width == 24 && g.height == 4
    ensures g.left == CloudsearchMetrics(versions) && |g.left| == |versions|
  {
    Graph(title, 24, 4, CloudsearchMetrics(versions))
  }

  /** The CloudSearch widget's `i`-th series watches the `i`-th version's domain. */
  lemma CloudsearchWidgetSeries(title: string, versions: seq<string>)
    ensures forall i :: 0 <= i < |versions| ==>
              CloudsearchWidget(title, versions).left[i] == CloudsearchMetric(CloudsearchDomain(versions[i]))
  {
  }

  // ---------------------------------------------------------------------------
  // Query performance

  function QueryQueue(stack: string, version: string): string { stack + "-" + version + "-QUERY" }

  function QueryQueues(stack: string, versions: seq<string>): seq<string>
  {
    seq(|versions|, i requires 0 <= i < |versions| => QueryQueue(stack, versions[i]))
  }

  /** Different versions of one stack watch different query queues. */
  lemma QueryQueueInjective(stack: string, v1: string, v2: string)
    ensures QueryQueue(stack, v1) == QueryQueue(stack, v2) <==> v1 == v2
  {
    if QueryQueue(stack, v1) == QueryQueue(stack, v2) {
      assert |v1| == |v2|;
      assert forall i :: 0 <= i < |v1| ==>
               v1[i] == QueryQueue(stack, v1)[|stack| + 1 + i] == QueryQueue(stack, v2)[|stack| + 1 + i] == v2[i];
    }
  }

  /** `create_query_performance_widget`: the age of the oldest message of each version's query
      queue, versions in order. */
  function QueryPerformanceWidget(title: string, stack: string, versions: seq<string>): (g: Graph)
    ensures g.title == title && g.width == 24 && g.height == 6
    ensures |g.left| == |versions|
    ensures DimensionValues(g.left) == QueryQueues(stack, versions)
  {
    var queues := QueryQueues(stack, versions);
    GraphMetricsRoundTrip("AWS/SQS", "ApproximateAgeOfOldestMessage", "QueueName", queues);
    Graph(title, 24, 6, GraphMetrics("AWS/SQS", "ApproximateAgeOfOldestMessage", "QueueName", queues))
  }

  /** The query performance widget's `i`-th series is the oldest message age of the `i`-th
      version's queue. */
  lemma QueryPerformanceSeries(title: string, stack: string, versions: seq<string>)
    ensures forall i :: 0 <= i < |versions| ==>
              QueryPerformanceWidget(title, stack, versions).left[i]
                == SeriesMetric("AWS/SQS", "ApproximateAgeOfOldestMessage", "QueueName", QueryQueue(stack, versions[i]))
  {
  }

  // ---------------------------------------------------------------------------
  // Load balancer response times

  function AlbKeys(versions: seq<string>): seq<string>
  {
    seq(|versions|, i requires 0 <= i < |versions| => AlbNameKey(versions[i]))
  }

  /** The load-balancer names of the present `{sv}-repo-alb-name` keys, version after version. */
  function AlbDimensionValues(config: Document, versions: seq<string>): (names: seq<string>)
    ensures forall x :: x in names <==>
              exists i :: 0 <= i < |versions| && AlbNameKey(versions[i]) in config && x in config[AlbNameKey(versions[i])]
    ensures |names| == StoredCount(config, AlbKeys(versions))
  {
    var keys := AlbKeys(versions);
    FlattenLength(config, keys);
    assert forall x :: x in Flatten(config, keys) <==> exists i :: 0 <= i < |versions| && AlbNameKey(versions[i]) in config && x in config[AlbNameKey(versions[i])] by {
      forall x ensures x in Flatten(config, keys) <==> exists i :: 0 <= i < |versions| && AlbNameKey(versions[i]) in config && x in config[AlbNameKey(versions[i])] {
        FlattenMembers(config, keys, x);
        if x in Flatten(config, keys) {
          var i :| 0 <= i < |keys| && keys[i] in config && x in config[keys[i]];
          assert keys[i] == AlbNameKey(versions[i]);
        }
        if exists i :: 0 <= i < |versions| && AlbNameKey(versions[i]) in config && x in config[AlbNameKey(versions[i])] {
          var i :| 0 <= i < |versions| && AlbNameKey(versions[i]) in config && x in config[AlbNameKey(versions[i])];
          assert keys[i] == AlbNameKey(versions[i]);
        }
      }
    }
    Flatten(config, keys)
  }

  /** Version-major, as for the EC2 ids: the names of `a + b` are those of `a` followed by
      those of `b`. */
  lemma AlbDimensionValuesAppend(config: Document, a: seq<string>, b: seq<string>)
    ensures AlbDimensionValues(config, a + b) == AlbDimensionValues(config, a) + AlbDimensionValues(config, b)
  {
    assert AlbKeys(a + b) == AlbKeys(a) + AlbKeys(b);
    FlattenAppend(config, AlbKeys(a), AlbKeys(b));
  }

  /** A single version contributes its stored names, or nothing when its key is absent. */
  lemma AlbDimensionValuesSingle(config: Document, version: string)
    ensures AlbDimensionValues(config, [version]) ==
              if AlbNameKey(version) in config then config[AlbNameKey(version)] else []
  {
    assert AlbKeys([version]) == [AlbNameKey(version)];
    FlattenSingle(config, AlbNameKey(version));
  }

  function AlbMetric(loadBalancer: string, statistic: string): Metric
  {
    Metric("AWS/ApplicationELB", "TargetResponseTime", [Dimension("LoadBalancer", loadBalancer)], Some(statistic))
  }

  /** `create_repo_alb_response_widget`: two series per load balancer, the average first and
      then the 95th percentile, so twice as many metrics as names; it never fails. */
  method CreateRepoAlbResponseWidget(title: string, config: Document, versions: seq<string>) returns (g: Graph)
    ensures g.title == title && g.width == 24 && g.height == 4
    ensures var dvs := AlbDimensionValues(config, versions);
            && |g.left| == 2 * |dvs|
            && forall i :: 0 <= i < |dvs| ==> g.left[2 * i] == AlbMetric(dvs[i], "Average") && g.left[2 * i + 1] == AlbMetric(dvs[i], "p95")
  {
    var metrics: seq<Metric> := [];
    var dimensionsValues := AlbDimensionValues(config, versions);
    for k := 0 to |dimensionsValues|
      invariant |metrics| == 2 * k
      invariant forall i :: 0 <= i < k ==>
                  metrics[2 * i] == AlbMetric(dimensionsValues[i], "Average") && metrics[2 * i + 1] == AlbMetric(dimensionsValues[i], "p95")
    {
      var dv := dimensionsValues[k];
      var metric1 := AlbMetric(dv, "Average");
      var metric2 := AlbMetric(dv, "p95");
      metrics := metrics + [metric1];
      metrics := metrics + [metric2];
    }
    g := Graph(title, 24, 4, metrics);
  }

  // ---------------------------------------------------------------------------
  // Stack construction

  /** The stack's context values: the stack, the version list and the optional profile. */
  datatype Parameters = Parameters(stack: string, stackVersions: seq<string>, profileName: Option<string>)

  /** The context checks of the stack: a missing stack, then missing versions, raise; the versions
      are the comma-separated fields of their context value, empty fields included. */
  function StackParameters(context: map<string, string>): (r: Result<Parameters>)
    ensures r.Ok? <==> "stack" in context && "stack_versions" in context
    ensures "stack" !in context ==> r == Err(MissingContext("stack"))
    ensures "stack" in context && "stack_versions" !in context ==> r == Err(MissingContext("stack_versions"))
    ensures r.Ok? ==> r.value.stack == context["stack"]
    ensures r.Ok? ==> |r.value.stackVersions| >= 1 && Join(r.value.stackVersions, ',') == context["stack_versions"]
    ensures r.Ok? ==> forall i :: 0 <= i < |r.value.stackVersions| ==> ',' !in r.value.stackVersions[i]
    ensures r.Ok? ==> r.value.profileName == if "profile_name" in context then Some(context["profile_name"]) else None
  {
    if "stack" !in context then Err(MissingContext("stack"))
    else if "stack_versions" !in context then Err(MissingContext("stack_versions"))
    else
      var profileName := if "profile_name" in context then Some(context["profile_name"]) else None;
      Ok(Parameters(context["stack"], Split(context["stack_versions"], ','), profileName))
  }

  /** A version list joined by commas into the context is read back unchanged. */
  lemma StackVersionsRoundTrip(context: map<string, string>, versions: seq<string>)
    requires "stack" in context
    requires |versions| >= 1 && forall i :: 0 <= i < |versions| ==> ',' !in versions[i]
    ensures StackParameters(context["stack_versions" := Join(versions, ',')]).Ok?
    ensures StackParameters(context["stack_versions" := Join(versions, ',')]).value.stackVersions == versions
  {
    var c := context["stack_versions" := Join(versions, ',')];
    assert "stack" in c && c["stack_versions"] == Join(versions, ',');
    SplitJoin(versions, ',');
    assert StackParameters(c).value.stackVersions == Split(Join(versions, ','), ',');
  }

  /** The widgets whose series depend on the versions (and the stack) only, apart from RDS. */
  datatype VersionWidgets = VersionWidgets(
    cloudsearch: Graph,
    repoConnections: Graph,
    workersConnections: Graph,
    queryPerformance: Graph)

  predicate ShowsVersionSeries(w: VersionWidgets, stack: string, versions: seq<string>)
  {
    && w.cloudsearch.left == CloudsearchMetrics(versions)
    && w.repoConnections.left == ActiveConnectionsMetrics("Repository", versions)
    && w.workersConnections.left == ActiveConnectionsMetrics("Workers", versions)
    && DimensionValues(w.queryPerformance.left) == QueryQueues(stack, versions)
  }

  function CreateVersionWidgets(stack: string, versions: seq<string>): (w: VersionWidgets)
    ensures ShowsVersionSeries(w, stack, versions)
  {
    VersionWidgets(
      CloudsearchWidget("CloudSearch - searchableDocuments", versions),
      ActiveConnectionsWidget("Repo-Active-Connections", "Repository", versions),
      ActiveConnectionsWidget("Workers-Active-Connections", "Workers", versions),
      QueryPerformanceWidget("Query Performance", stack, versions))
  }

  /** The RDS widgets: CPU, free storage and the six input-output widgets. */
  datatype RdsWidgets = RdsWidgets(cpu: Graph, freeStorage: Graph, io: seq<Graph>)

  predicate ShowsRdsSeries(w: RdsWidgets, stack: string, versions: seq<string>)
  {
    && DimensionValues(w.cpu.left) == RdsIds(stack, versions)
    && DimensionValues(w.freeStorage.left) == RdsIds(stack, versions)
    && |w.io| == 6
    && forall i :: 0 <= i < 6 ==> DimensionValues(w.io[i].left) == RdsIds(stack, versions)
  }

  function CreateRdsWidgets(stack: string, versions: seq<string>): (w: RdsWidgets)
    ensures ShowsRdsSeries(w, stack, versions)
  {
    RdsWidgets(
      RdsWidget(CpuUtilization, "RDS - CPU Utilization", stack, versions),
      RdsWidget(FreeStorageSpace, "RDS - Free Storage Space", stack, versions),
      RdsIoWidgets(stack, versions))
  }

  /** The EC2 widgets: CPU of the three environments and the portal's network traffic. */
  datatype Ec2Widgets = Ec2Widgets(cpuRepo: Graph, cpuWorkers: Graph, cpuPortal: Graph, networkOutPortal: Graph)

  predicate ShowsEc2Series(w: Ec2Widgets, versions: seq<string>, config: Document)
  {
    && DimensionValues(w.cpuRepo.left) == Ec2Ids(config, versions, "repo")
    && DimensionValues(w.cpuWorkers.left) == Ec2Ids(config, versions, "workers")
    && DimensionValues(w.cpuPortal.left) == Ec2Ids(config, versions, "portal")
    && DimensionValues(w.networkOutPortal.left) == Ec2Ids(config, versions, "portal")
  }

  function CreateEc2Widgets(config: Document, versions: seq<string>): (w: Ec2Widgets)
    ensures ShowsEc2Series(w, versions, config)
  {
    var repoEc2Ids := Ec2Ids(config, versions, "repo");
    var workersEc2Ids := Ec2Ids(config, versions, "workers");
    var portalEc2Ids := Ec2Ids(config, versions, "portal");
    Ec2Widgets(
      Ec2CpuUtilizationWidget("Repo - CPU Utilization", repoEc2Ids),
      Ec2CpuUtilizationWidget("Workers - CPU Utilization", workersEc2Ids),
      Ec2CpuUtilizationWidget("Portal - CPU Utilization", portalEc2Ids),
      Ec2NetworkOutWidget("Portal - Network out", portalEc2Ids))
  }

  /** The widgets that read the document by key. */
  datatype StoredWidgets = StoredWidgets(
    repoMemory: Graph,
    workersMemory: Graph,
    jobsCompleted: Graph,
    timeRunning: Graph,
    cumulativeTime: Graph)

  predicate ShowsStoredSeries(w: StoredWidgets, versions: seq<string>, config: Document)
  {
    && SeriesMetrics(config, versions, Memory("Repository", "repo")) == Ok(w.repoMemory.left)
    && SeriesMetrics(config, versions, Memory("Workers", "workers")) == Ok(w.workersMemory.left)
    && SeriesMetrics(config, versions, WorkerStats(CompletedJobCount)) == Ok(w.jobsCompleted.left)
    && SeriesMetrics(config, versions, WorkerStats(TimeRunning)) == Ok(w.timeRunning.left)
    && SeriesMetrics(config, versions, WorkerStats(CumulativeRuntime)) == Ok(w.cumulativeTime.left)
  }

  /** The first failure among the widgets that read the document by key, in the source's order. */
  function WidgetFailure(config: Document, versions: seq<string>): Option<Error>
  {
    var repo := SeriesMetrics(config, versions, Memory("Repository", "repo"));
    var workers := SeriesMetrics(config, versions, Memory("Workers", "workers"));
    var jobs := SeriesMetrics(config, versions, WorkerStats(CompletedJobCount));
    if repo.Err? then Some(repo.error)
    else if workers.Err? then Some(workers.error)
    else if jobs.Err? then Some(jobs.error)
    else None
  }

  /** The memory and worker-statistics widgets, in the source's order, or the first failure. */
  method CreateStoredWidgets(config: Document, versions: seq<string>) returns (r: Result<StoredWidgets>)
    ensures r.Err? <==> WidgetFailure(config, versions).Some?
    ensures r.Err? ==> r.error == WidgetFailure(config, versions).value
    ensures r.Ok? ==> ShowsStoredSeries(r.value, versions, config)
  {
    var repoMemory := CreateMemoryWidget("Repo - Memory used", config, versions, "Repository");
    if repoMemory.Err? { return Err(repoMemory.error); }
    var workersMemory := CreateMemoryWidget("Workers - Memory used", config, versions, "Workers");
    if workersMemory.Err? { return Err(workersMemory.error); }
    var jobsCompleted := CreateWorkerStatsWidget("Workers stats - Jobs completed", config, versions, CompletedJobCount);
    if jobsCompleted.Err? { return Err(jobsCompleted.error); }
    // the three statistics read the same key, so once the first succeeds the others do too
    SeriesSameKeys(config, versions, CompletedJobCount, TimeRunning);
    SeriesSameKeys(config, versions, CompletedJobCount, CumulativeRuntime);
    var timeRunning := CreateWorkerStatsWidget("Workers stats - % time running", config, versions, TimeRunning);
    var cumulativeTime := CreateWorkerStatsWidget("Workers stats - Cumulative time", config, versions, CumulativeRuntime);
    r := Ok(StoredWidgets(repoMemory.value, workersMemory.value, jobsCompleted.value, timeRunning.value, cumulativeTime.value));
  }

  /** The widgets of the dashboard whose series come from the document or the versions. */
  datatype Widgets = Widgets(fixed: VersionWidgets, rds: RdsWidgets, ec2: Ec2Widgets, stored: StoredWidgets, repoAlb: Graph)

  /** The series each widget shows, for the stack, its versions and the loaded document. */
  predicate ShowsSeries(w: Widgets, stack: string, versions: seq<string>, config: Document)
  {
    && ShowsVersionSeries(w.fixed, stack, versions)
    && ShowsRdsSeries(w.rds, stack, versions)
    && ShowsEc2Series(w.ec2, versions, config)
    && ShowsStoredSeries(w.stored, versions, config)
    && (var names := AlbDimensionValues(config, versions);
        && |w.repoAlb.left| == 2 * |names|
        && forall i :: 0 <= i < |names| ==>
             w.repoAlb.left[2 * i] == AlbMetric(names[i], "Average") && w.repoAlb.left[2 * i + 1] == AlbMetric(names[i], "p95"))
  }

  /** The widgets built from a loaded document, or the first failure among them. */
  method DocumentWidgets(stack: string, versions: seq<string>, config: Document) returns (r: Result<Widgets>)
    ensures r.Err? <==> WidgetFailure(config, versions).Some?
    ensures r.Err? ==> r.error == WidgetFailure(config, versions).value
    ensures r.Ok? ==> ShowsSeries(r.value, stack, versions, config)
  {
    var fixed := CreateVersionWidgets(stack, versions);
    var rds := CreateRdsWidgets(stack, versions);
    var ec2 := CreateEc2Widgets(config, versions);
    var stored := CreateStoredWidgets(config, versions);
    if stored.Err? { return Err(stored.error); }
    var repoAlb := CreateRepoAlbResponseWidget("Repo ALB response time", config, versions);
    r := Ok(Widgets(fixed, rds, ec2, stored.value, repoAlb));
  }

  /** `SynapseCloudwatchDashboardStack`: the context checks, the document load, then the widgets.
      A document that could not be loaded is `None`, and its first use (the EC2 id lists) fails
      before any widget reads it by key. */
  method BuildStack(context: map<string, string>, fetched: Fetch) returns (r: Result<Widgets>)
    ensures StackParameters(context).Err? ==> r == Err(StackParameters(context).error)
    ensures StackParameters(context).Ok? && !fetched.Fetched? ==> r == Err(NoDocument)
    ensures StackParameters(context).Ok? && fetched.Fetched? ==>
              var p := StackParameters(context).value;
              && (r.Err? <==> WidgetFailure(fetched.document, p.stackVersions).Some?)
              && (r.Err? ==> r.error == WidgetFailure(fetched.document, p.stackVersions).value)
              && (r.Ok? ==> ShowsSeries(r.value, p.stack, p.stackVersions, fetched.document))
  {
    var parameters := StackParameters(context);
    if parameters.Err? {
      return Err(parameters.error);
    }
    var stack, stackVersions := parameters.value.stack, parameters.value.stackVersions;
    var loaded := InitConfig(stack, parameters.value.profileName, fetched);
    if loaded.None? {
      return Err(NoDocument);
    }
    r := DocumentWidgets(stack, stackVersions, loaded.value);
  }

  /** The worker statistics differ only in the metric name: they succeed or fail together. */
  lemma SeriesSameKeys(config: Document, versions: seq<string>, m1: string, m2: string)
    ensures SeriesMetrics(config, versions, WorkerStats(m1)).Ok? <==> SeriesMetrics(config, versions, WorkerStats(m2)).Ok?
  {
  }

  // ---------------------------------------------------------------------------
  // The writer and the reader of the document agree

  /** What the dashboard of one version reads back from `after`: every key the series widgets
      need is present, and every value the seven steps `es` discovered is among the series. */
  predicate ReadsWhatWasRecorded(after: Document, es: seq<Entry>, version: string, statistic: string)
  {
    && |es| == 7
    && (forall i :: 0 <= i < |es| ==> es[i].discovered.Ok?)
    && SeriesMetrics(after, [version], Memory("Repository", "repo")).Ok?
    && SeriesMetrics(after, [version], Memory("Workers", "workers")).Ok?
    && SeriesMetrics(after, [version], WorkerStats(statistic)).Ok?
    && (forall x :: x in es[0].discovered.value ==> x in Ec2Ids(after, [version], "repo"))
    && (forall x :: x in es[1].discovered.value ==> x in Ec2Ids(after, [version], "workers"))
    && (forall x :: x in es[2].discovered.value ==> x in Ec2Ids(after, [version], "portal"))
    && (forall x :: x in es[3].discovered.value ==>
          x in DimensionValues(SeriesMetrics(after, [version], Memory("Repository", "repo")).value))
    && (forall x :: x in es[4].discovered.value ==>
          x in DimensionValues(SeriesMetrics(after, [version], Memory("Workers", "workers")).value))
    && (forall x :: x in es[5].discovered.value ==>
          x in DimensionValues(SeriesMetrics(after, [version], WorkerStats(statistic)).value))
    && (forall x :: x in es[6].discovered.value ==> x in AlbDimensionValues(after, [version]))
  }

  /** After an update that did not fail, the dashboard of that one version finds every key it
      needs: the memory and worker-statistics widgets succeed, and every discovered EC2 id, VM id,
      worker name and the load-balancer name are among the series they read. */
  lemma DashboardReadsWhatUpdateRecorded(doc: Document, cloud: Cloud, stack: string, version: string,
                                         instances: map<string, string>, statistic: string)
    requires ApplyEntries(Some(doc), Entries(cloud, stack, version, instances)).failure.None?
    ensures var es := Entries(cloud, stack, version, instances);
            ReadsWhatWasRecorded(ApplyEntries(Some(doc), es).configuration.value, es, version, statistic)
  {
    StepsReadBack(doc, Entries(cloud, stack, version, instances), version, statistic);
  }

  /** The same for any seven steps that write the keys of `update_configuration`, in its order. */
  lemma StepsReadBack(doc: Document, es: seq<Entry>, version: string, statistic: string)
    requires |es| == 7
    requires es[0].key == Ec2Key(version, "repo") && es[1].key == Ec2Key(version, "workers")
    requires es[2].key == Ec2Key(version, "portal")
    requires es[3].key == VmidsKey(version, "repo") && es[4].key == VmidsKey(version, "workers")
    requires es[5].key == WorkerNamesKey(version) && es[6].key == AlbNameKey(version)
    requires ApplyEntries(Some(doc), es).failure.None?
    ensures ReadsWhatWasRecorded(ApplyEntries(Some(doc), es).configuration.value, es, version, statistic)
  {
    ApplyEntriesAbsorbs(doc, es);
    ApplyEntriesGrows(doc, es);
    var after := ApplyEntries(Some(doc), es).configuration.value;
    RecordedEverywhere(after, es);
    StoredSeriesRead(after, version, Memory("Repository", "repo"), es[3].discovered.value);
    StoredSeriesRead(after, version, Memory("Workers", "workers"), es[4].discovered.value);
    StoredSeriesRead(after, version, WorkerStats(statistic), es[5].discovered.value);
    StoredEc2Read(after, version, "repo", es[0].discovered.value);
    StoredEc2Read(after, version, "workers", es[1].discovered.value);
    StoredEc2Read(after, version, "portal", es[2].discovered.value);
    StoredAlbRead(after, version, es[6].discovered.value);
  }

  /** Values recorded under a series key are read back by that version's series. */
  lemma StoredSeriesRead(after: Document, version: string, s: Series, values: seq<string>)
    requires SeriesKey(s, version) in after && forall x :: x in values ==> x in after[SeriesKey(s, version)]
    ensures SeriesMetrics(after, [version], s).Ok?
    ensures forall x :: x in values ==> x in DimensionValues(SeriesMetrics(after, [version], s).value)
  {
    SeriesSingle(after, version, s);
  }

  /** Values recorded under an EC2 key are among that environment's EC2 ids. */
  lemma StoredEc2Read(after: Document, version: string, environment: string, values: seq<string>)
    requires Ec2Key(version, environment) in after && forall x :: x in values ==> x in after[Ec2Key(version, environment)]
    ensures forall x :: x in values ==> x in Ec2Ids(after, [version], environment)
  {
    Ec2IdsSingle(after, version, environment);
  }

  /** A name recorded under the load-balancer key is among the names the ALB widget reads. */
  lemma StoredAlbRead(after: Document, version: string, values: seq<string>)
    requires AlbNameKey(version) in after && forall x :: x in values ==> x in after[AlbNameKey(version)]
    ensures forall x :: x in values ==> x in AlbDimensionValues(after, [version])
  {
    assert AlbKeys([version]) == [AlbNameKey(version)];
    FlattenSingle(after, AlbNameKey(version));
  }
}
