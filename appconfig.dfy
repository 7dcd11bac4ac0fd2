/** `AppConfiguration`: the append-if-absent merge of discovered identifiers into the
    configuration document, and the fixed discovery sequence that feeds it. */
module AppConfig {
  import opened Common
  import opened Providers
  import opened RealTime

  // ---------------------------------------------------------------------------
  // The merge

  /** The elements of `values` that are not in `existing`, in `values` order. Membership is
      tested against `existing` only, never against what is being added. */
  function NewValues(existing: seq<string>, values: seq<string>): (r: seq<string>)
    ensures |r| <= |values|
    ensures forall i :: 0 <= i < |r| ==> r[i] in values && r[i] !in existing
  {
    if values == [] then []
    else
      var last := values[|values| - 1];
      NewValues(existing, values[..|values| - 1]) + (if last in existing then [] else [last])
  }

  /** A value is added exactly when it is offered and not yet recorded. */
  lemma {:induction false} NewValuesMembers(existing: seq<string>, values: seq<string>, x: string)
    ensures x in NewValues(existing, values) <==> x in values && x !in existing
  {
    if values != [] {
      var init := values[..|values| - 1];
      NewValuesMembers(existing, init, x);
      assert values == init + [values[|values| - 1]];
    }
  }

  /** Each offered value absent from `existing` is added once per occurrence, duplicates included. */
  lemma {:induction false} NewValuesCount(existing: seq<string>, values: seq<string>, x: string)
    ensures multiset(NewValues(existing, values))[x] == if x in existing then 0 else multiset(values)[x]
  {
    if values != [] {
      var init, last := values[..|values| - 1], values[|values| - 1];
      var added := if last in existing then [] else [last];
      NewValuesCount(existing, init, x);
      SplitLast(values);
      assert multiset(values) == multiset(init) + multiset{last};
      assert multiset(NewValues(existing, values)) == multiset(NewValues(existing, init)) + multiset(added);
    }
  }

  /** The added values keep their order of discovery: the selection distributes over concatenation. */
  lemma {:induction false} NewValuesAppend(existing: seq<string>, a: seq<string>, b: seq<string>)
    ensures NewValues(existing, a + b) == NewValues(existing, a) + NewValues(existing, b)
  {
    if b == [] {
      assert a + b == a;
    } else {
      var init := b[..|b| - 1];
      assert (a + b)[..|a + b| - 1] == a + init;
      NewValuesAppend(existing, a, init);
    }
  }

  /** Nothing is added when every offered value is already recorded. */
  lemma {:induction false} NewValuesNone(existing: seq<string>, values: seq<string>)
    requires forall x :: x in values ==> x in existing
    ensures NewValues(existing, values) == []
  {
    if values != [] {
      assert values[|values| - 1] in values;
      NewValuesNone(existing, values[..|values| - 1]);
    }
  }

  /** `update_configuration_entry`: an absent key receives `values` verbatim; a present key keeps
      its list and gains the new values at its end; no other key changes. */
  function MergeEntry(doc: Document, key: string, values: seq<string>): (r: Document)
    ensures r.Keys == doc.Keys + {key}
    ensures forall k :: k in doc && k != key ==> r[k] == doc[k]
    ensures key !in doc ==> r[key] == values
    ensures key in doc ==> r[key] == doc[key] + NewValues(doc[key], values)
  {
    if key !in doc then doc[key := values]
    else doc[key := doc[key] + NewValues(doc[key], values)]
  }

  /** The merged list starts with the old one, never shrinks and holds every offered value. */
  lemma MergeGrows(doc: Document, key: string, values: seq<string>)
    ensures key in doc ==> doc[key] <= MergeEntry(doc, key, values)[key]
    ensures key in doc ==> |MergeEntry(doc, key, values)[key]| >= |doc[key]|
    ensures forall x :: x in values ==> x in MergeEntry(doc, key, values)[key]
  {
    forall x | x in values
      ensures x in MergeEntry(doc, key, values)[key]
    {
      if key in doc {
        NewValuesMembers(doc[key], values, x);
      }
    }
  }

  /** A merge whose values are all recorded already changes nothing. */
  lemma MergeAbsorbed(doc: Document, key: string, values: seq<string>)
    requires key in doc
    requires forall x :: x in values ==> x in doc[key]
    ensures MergeEntry(doc, key, values) == doc
  {
    NewValuesNone(doc[key], values);
    assert doc[key] + [] == doc[key];
  }

  /** Repeating a merge with the same key and values changes nothing. */
  lemma MergeIdempotent(doc: Document, key: string, values: seq<string>)
    ensures MergeEntry(MergeEntry(doc, key, values), key, values) == MergeEntry(doc, key, values)
  {
    MergeGrows(doc, key, values);
    MergeAbsorbed(MergeEntry(doc, key, values), key, values);
  }

  predicate NoDuplicates(s: seq<string>)
  {
    forall i, j :: 0 <= i < j < |s| ==> s[i] != s[j]
  }

  lemma {:induction false} NewValuesNoDuplicates(existing: seq<string>, values: seq<string>)
    requires NoDuplicates(values)
    ensures NoDuplicates(NewValues(existing, values))
  {
    if values != [] {
      var init := values[..|values| - 1];
      var last := values[|values| - 1];
      assert NoDuplicates(init);
      NewValuesNoDuplicates(existing, init);
      NewValuesMembers(existing, init, last);
    }
  }

  /** The document's uniqueness invariant survives a merge when the offered values are themselves
      unique; the code does not enforce it otherwise (see `MergeKeepsRepeatedValues`). */
  lemma MergeKeepsUnique(doc: Document, key: string, values: seq<string>)
    requires key in doc ==> NoDuplicates(doc[key])
    requires NoDuplicates(values)
    ensures NoDuplicates(MergeEntry(doc, key, values)[key])
  {
    if key in doc {
      var e, n := doc[key], NewValues(doc[key], values);
      NewValuesNoDuplicates(e, values);
      forall i, j | 0 <= i < |e| <= j < |e + n|
        ensures (e + n)[i] != (e + n)[j]
      {
        NewValuesMembers(e, values, n[j - |e|]);
      }
    }
  }

  /** A new value offered twice is recorded twice, whether or not the key existed. */
  lemma MergeKeepsRepeatedValues()
    ensures MergeEntry(map[], "k", ["i-2", "i-2"])["k"] == ["i-2", "i-2"]
    ensures MergeEntry(map["k" := ["i-1"]], "k", ["i-2", "i-2"])["k"] == ["i-1", "i-2", "i-2"]
  {
    var init := ["i-2"];
    assert ["i-2", "i-2"][..1] == init;
    assert init[..0] == [];
  }

  /** A first discovery stores the ids as found; a rediscovery appends only the one new id. */
  lemma MergeScenarios()
    ensures MergeEntry(map[], "v1-repo-ec2-instances", ["i-1", "i-2"]) == map["v1-repo-ec2-instances" := ["i-1", "i-2"]]
    ensures MergeEntry(map["v1-repo-ec2-instances" := ["i-1", "i-2"]], "v1-repo-ec2-instances", ["i-2", "i-3"])
            == map["v1-repo-ec2-instances" := ["i-1", "i-2", "i-3"]]
  {
    var e := ["i-1", "i-2"];
    assert ["i-2", "i-3"][..1] == ["i-2"];
    assert ["i-2"][..0] == [];
    assert NewValues(e, ["i-2", "i-3"]) == ["i-3"];
    assert e + ["i-3"] == ["i-1", "i-2", "i-3"];
  }

  // ---------------------------------------------------------------------------
  // The discovery sequence

  /** One step of the sequence: the key it updates and what its resolver produced. */
  datatype Entry = Entry(key: string, discovered: Result<seq<string>>)

  /** `self.instances[env]`, which raises when the environment has no label. */
  function InstanceLabel(instances: map<string, string>, environment: string): (r: Result<string>)
    ensures r.Ok? <==> environment in instances
    ensures r.Ok? ==> r.value == instances[environment]
    ensures r.Err? ==> r.error == MissingInstance(environment)
  {
    if environment in instances then Ok(instances[environment]) else Err(MissingInstance(environment))
  }

  /** `update_ec2_instances(env)`: the environment's EC2 ids under `{version}-{env}-ec2-instances`. */
  function Ec2Entry(cloud: Cloud, stack: string, version: string, instances: map<string, string>, environment: string): (e: Entry)
    ensures e.key == Ec2Key(version, environment)
  {
    Entry(Ec2Key(version, environment),
      match InstanceLabel(instances, environment)
      case Err(e) => Err(e)
      case Ok(stackInstance) => Ok(Ec2InstanceIds(cloud, environment, stack, stackInstance)))
  }

  /** The EC2 step fails on an unlabelled environment and otherwise records the ids the name tag query returns. */
  lemma Ec2EntryDiscovered(cloud: Cloud, stack: string, version: string, instances: map<string, string>, environment: string)
    ensures environment !in instances ==> Ec2Entry(cloud, stack, version, instances, environment).discovered == Err(MissingInstance(environment))
    ensures environment in instances ==>
              Ec2Entry(cloud, stack, version, instances, environment).discovered
                == Ok(cloud.instancesNamed(environment + "-" + stack + "-" + instances[environment]))
  {
  }

  /** The vmids step of `update_configuration`: the label is looked up before the instance type
      is checked. */
  function MemoryEntry(cloud: Cloud, version: string, instances: map<string, string>, environment: string, instanceType: string): (e: Entry)
    ensures e.key == VmidsKey(version, environment)
  {
    Entry(VmidsKey(version, environment),
      match InstanceLabel(instances, environment)
      case Err(e) => Err(e)
      case Ok(stackInstance) => CloudwatchMemoryInstances(cloud, stackInstance, instanceType))
  }

  /** The memory step fails on an unlabelled environment before anything else, and otherwise
      records what `get_cloudwatch_memory_instances` returns for the label. */
  lemma MemoryEntryDiscovered(cloud: Cloud, version: string, instances: map<string, string>, environment: string, instanceType: string)
    ensures environment !in instances ==> MemoryEntry(cloud, version, instances, environment, instanceType).discovered == Err(MissingInstance(environment))
    ensures environment in instances ==>
              MemoryEntry(cloud, version, instances, environment, instanceType).discovered
                == CloudwatchMemoryInstances(cloud, instances[environment], instanceType)
  {
  }

  /** The worker-names step of `update_configuration`: the workers' names, as reported under
      "Completed Job Count". */
  function WorkerNamesEntry(cloud: Cloud, version: string, instances: map<string, string>): (e: Entry)
    ensures e.key == WorkerNamesKey(version)
  {
    Entry(WorkerNamesKey(version),
      match InstanceLabel(instances, "workers")
      case Err(e) => Err(e)
      case Ok(stackInstance) => CloudwatchWorkerStatsInstances(cloud, stackInstance, CompletedJobCount))
  }

  /** The worker names step fails when the workers have no label and otherwise records the
      names reported under "Completed Job Count". */
  lemma WorkerNamesEntryDiscovered(cloud: Cloud, version: string, instances: map<string, string>)
    ensures "workers" !in instances ==> WorkerNamesEntry(cloud, version, instances).discovered == Err(MissingInstance("workers"))
    ensures "workers" in instances ==>
              WorkerNamesEntry(cloud, version, instances).discovered == CompletedJobCountInstances(cloud, instances["workers"])
  {
  }

  /** The ALB step of `update_configuration`: a one-element list holding the name, which is ""
      when no load balancer carries the tag. */
  function AlbEntry(cloud: Cloud, stack: string, version: string, instances: map<string, string>): (e: Entry)
    ensures e.key == AlbNameKey(version)
  {
    Entry(AlbNameKey(version),
      match InstanceLabel(instances, "repo")
      case Err(e) => Err(e)
      case Ok(stackInstance) =>
        match RepoAlbName(cloud, stack, stackInstance)
        case Err(e) => Err(e)
        case Ok(name) => Ok([name]))
  }

  /** The load balancer step fails when the repository has no label, passes on a lookup
      failure, and otherwise records the one name, "" when no load balancer carries the tag. */
  lemma AlbEntryDiscovered(cloud: Cloud, stack: string, version: string, instances: map<string, string>)
    ensures "repo" !in instances ==> AlbEntry(cloud, stack, version, instances).discovered == Err(MissingInstance("repo"))
    ensures "repo" in instances ==>
              match RepoAlbName(cloud, stack, instances["repo"])
              case Ok(name) => AlbEntry(cloud, stack, version, instances).discovered == Ok([name])
              case Err(err) => AlbEntry(cloud, stack, version, instances).discovered == Err(err)
    ensures "repo" in instances && cloud.loadBalancersTagged("repo-" + stack + "-" + instances["repo"]) == [] ==>
              AlbEntry(cloud, stack, version, instances).discovered == Ok([""])
  {
  }

  /** The steps of `update_configuration`, in the order the source performs them. */
  function Entries(cloud: Cloud, stack: string, version: string, instances: map<string, string>): (es: seq<Entry>)
    ensures |es| == 7
    ensures es[0].key == Ec2Key(version, "repo")
    ensures es[1].key == Ec2Key(version, "workers")
    ensures es[2].key == Ec2Key(version, "portal")
    ensures es[3].key == VmidsKey(version, "repo")
    ensures es[4].key == VmidsKey(version, "workers")
    ensures es[5].key == WorkerNamesKey(version)
    ensures es[6].key == AlbNameKey(version)
    ensures es[6].discovered.Ok? ==> |es[6].discovered.value| == 1
  {
    [ Ec2Entry(cloud, stack, version, instances, "repo"),
      Ec2Entry(cloud, stack, version, instances, "workers"),
      Ec2Entry(cloud, stack, version, instances, "portal"),
      MemoryEntry(cloud, version, instances, "repo", "R"),
      MemoryEntry(cloud, version, instances, "workers", "W"),
      WorkerNamesEntry(cloud, version, instances),
      AlbEntry(cloud, stack, version, instances) ]
  }

  /** The in-memory document after a run and the exception that stopped it, if any. */
  datatype Run = Run(configuration: Option<Document>, failure: Option<Error>)

  /** The steps applied one after the other: the first failing resolver, or a document that is
      `None`, stops the run; the merges done before it stay in memory. */
  function ApplyEntries(cfg: Option<Document>, entries: seq<Entry>): (r: Run)
    ensures r.configuration.Some? <==> cfg.Some?
    decreases |entries|
  {
    if entries == [] then Run(cfg, None)
    else match entries[0].discovered
      case Err(e) => Run(cfg, Some(e))
      case Ok(values) =>
        if cfg.None? then Run(cfg, Some(NoDocument))
        else ApplyEntries(Some(MergeEntry(cfg.value, entries[0].key, values)), entries[1..])
  }

  /** A run over `[e] + rest` is the run over `[e]` continued, if it did not fail, over `rest`. */
  lemma ApplyEntriesStep(cfg: Option<Document>, e: Entry, rest: seq<Entry>)
    ensures var first := ApplyEntries(cfg, [e]);
            ApplyEntries(cfg, [e] + rest) ==
              if first.failure.Some? then first else ApplyEntries(first.configuration, rest)
  {
    assert ([e] + rest)[0] == e && ([e] + rest)[1..] == rest;
    assert [e][1..] == [];
  }

  /** The first resolver failure among the steps. */
  function FirstFailure(entries: seq<Entry>): Option<Error>
    decreases |entries|
  {
    if entries == [] then None
    else if entries[0].discovered.Err? then Some(entries[0].discovered.error)
    else FirstFailure(entries[1..])
  }

  /** Every step that ran before the first failure has all its values recorded. */
  predicate Absorbs(doc: Document, entries: seq<Entry>)
    decreases |entries|
  {
    entries != [] && entries[0].discovered.Ok? ==>
      && entries[0].key in doc
      && (forall x :: x in entries[0].discovered.value ==> x in doc[entries[0].key])
      && Absorbs(doc, entries[1..])
  }

  /** Runs only grow the document: no key disappears and every list keeps its old contents as a prefix. */
  lemma {:induction false} ApplyEntriesGrows(doc: Document, entries: seq<Entry>)
    ensures ApplyEntries(Some(doc), entries).configuration.Some?
    ensures var after := ApplyEntries(Some(doc), entries).configuration.value;
            forall k :: k in doc ==> k in after && doc[k] <= after[k]
    decreases |entries|
  {
    if entries != [] && entries[0].discovered.Ok? {
      var values := entries[0].discovered.value;
      var next := MergeEntry(doc, entries[0].key, values);
      MergeGrows(doc, entries[0].key, values);
      ApplyEntriesGrows(next, entries[1..]);
    }
  }

  /** Keys that no step names are left exactly as they were. */
  lemma {:induction false} ApplyEntriesUntouched(doc: Document, entries: seq<Entry>, k: string)
    requires forall i :: 0 <= i < |entries| ==> entries[i].key != k
    ensures var after := ApplyEntries(Some(doc), entries).configuration.value;
            (k in after <==> k in doc) && (k in doc ==> after[k] == doc[k])
    decreases |entries|
  {
    ApplyEntriesGrows(doc, entries);
    if entries != [] && entries[0].discovered.Ok? {
      var next := MergeEntry(doc, entries[0].key, entries[0].discovered.value);
      ApplyEntriesGrows(next, entries[1..]);
      ApplyEntriesUntouched(next, entries[1..], k);
    }
  }

  /** On a document, a run stops exactly at the first resolver failure and records every value
      discovered before it. */
  lemma {:induction false} ApplyEntriesAbsorbs(doc: Document, entries: seq<Entry>)
    ensures ApplyEntries(Some(doc), entries).failure == FirstFailure(entries)
    ensures Absorbs(ApplyEntries(Some(doc), entries).configuration.value, entries)
    decreases |entries|
  {
    ApplyEntriesGrows(doc, entries);
    if entries != [] && entries[0].discovered.Ok? {
      var key, values := entries[0].key, entries[0].discovered.value;
      var next := MergeEntry(doc, key, values);
      MergeGrows(doc, key, values);
      ApplyEntriesAbsorbs(next, entries[1..]);
      ApplyEntriesGrows(next, entries[1..]);
      var after := ApplyEntries(Some(next), entries[1..]).configuration.value;
      forall x | x in values
        ensures x in after[key]
      {
        assert x in next[key];
        assert next[key] <= after[key];
      }
    }
  }

  /** After a run that did not fail, every step discovered its values and all of them are
      recorded under that step's key. */
  lemma {:induction false} RecordedEverywhere(doc: Document, entries: seq<Entry>)
    requires FirstFailure(entries).None? && Absorbs(doc, entries)
    ensures forall i :: 0 <= i < |entries| ==>
              && entries[i].discovered.Ok?
              && entries[i].key in doc
              && (forall x :: x in entries[i].discovered.value ==> x in doc[entries[i].key])
    decreases |entries|
  {
    if entries != [] {
      RecordedEverywhere(doc, entries[1..]);
      forall i | 1 <= i < |entries|
        ensures entries[i] == entries[1..][i - 1]
      {
      }
    }
  }

  /** A run over a document that already records everything it would add changes nothing. */
  lemma {:induction false} ApplyEntriesAbsorbed(doc: Document, entries: seq<Entry>)
    requires Absorbs(doc, entries)
    ensures ApplyEntries(Some(doc), entries) == Run(Some(doc), FirstFailure(entries))
    decreases |entries|
  {
    if entries != [] && entries[0].discovered.Ok? {
      MergeAbsorbed(doc, entries[0].key, entries[0].discovered.value);
      ApplyEntriesAbsorbed(doc, entries[1..]);
    }
  }

  /** Running the same discovery twice leaves the document as one run left it. */
  lemma ApplyEntriesIdempotent(doc: Document, entries: seq<Entry>)
    ensures var once := ApplyEntries(Some(doc), entries);
            ApplyEntries(once.configuration, entries) == once
  {
    ApplyEntriesAbsorbs(doc, entries);
    ApplyEntriesGrows(doc, entries);
    ApplyEntriesAbsorbed(ApplyEntries(Some(doc), entries).configuration.value, entries);
  }

  /** A document that is `None` fails at the first step, with that step's own failure if it has one. */
  lemma NoDocumentFails(entries: seq<Entry>)
    requires entries != []
    ensures ApplyEntries(None, entries) ==
              Run(None, Some(if entries[0].discovered.Err? then entries[0].discovered.error else NoDocument))
  {
  }

  // ---------------------------------------------------------------------------
  // The object

  class AppConfiguration {
    const configurationProvider: ConfigurationProvider?
    const realtimeConfiguration: Cloud
    const stack: string
    const version: string
    const instances: map<string, string>   // the label of each environment: repo, workers, portal
    var configuration: Option<Document>

    /** Construction keeps `{}` without a provider and otherwise what the provider loaded. */
    constructor (configurationProvider: ConfigurationProvider?, loaded: Option<Document>, realtimeConfiguration: Cloud,
                 stack: string, version: string, instances: map<string, string>)
      ensures this.configurationProvider == configurationProvider
      ensures this.realtimeConfiguration == realtimeConfiguration
      ensures this.stack == stack && this.version == version && this.instances == instances
      ensures configuration == if configurationProvider == null then Some(map[]) else loaded
    {
      this.configurationProvider := configurationProvider;
      this.realtimeConfiguration := realtimeConfiguration;
      this.stack := stack;
      this.version := version;
      this.instances := instances;
      configuration := if configurationProvider == null then Some(map[]) else loaded;
    }

    /** `AppConfiguration(...)`: the provider's load, whose precondition failures escape. */
    static method Create(configurationProvider: ConfigurationProvider?, fetched: Fetch, realtimeConfiguration: Cloud,
                         stack: string, version: string, instances: map<string, string>)
      returns (r: Result<AppConfiguration>)
      ensures r.Err? <==> configurationProvider != null && configurationProvider.LoadRawConfiguration(fetched).Err?
      ensures r.Err? ==> r.error == configurationProvider.LoadRawConfiguration(fetched).error
      ensures r.Ok? ==> fresh(r.value)
      ensures r.Ok? ==>
                r.value.configuration == (if configurationProvider == null then Some(map[])
                                          else configurationProvider.LoadRawConfiguration(fetched).value)
      ensures r.Ok? ==> r.value.configurationProvider == configurationProvider && r.value.stack == stack
                        && r.value.version == version && r.value.instances == instances
                        && r.value.realtimeConfiguration == realtimeConfiguration
    {
      var loaded: Option<Document> := None;
      if configurationProvider != null {
        var load := configurationProvider.LoadRawConfiguration(fetched);
        if load.Err? {
          return Err(load.error);
        }
        loaded := load.value;
      }
      var app := new AppConfiguration(configurationProvider, loaded, realtimeConfiguration, stack, version, instances);
      r := Ok(app);
    }

    /** `update_configuration_entry`: the merge, performed in place; merging into a configuration
        that is `None` fails. */
    method UpdateConfigurationEntry(key: string, values: seq<string>) returns (ok: bool)
      modifies this
      ensures ok <==> old(configuration).Some?
      ensures configuration == if ok then Some(MergeEntry(old(configuration).value, key, values)) else old(configuration)
    {
      if configuration.None? {
        return false;
      }
      var doc := configuration.value;
      if key !in doc {
        configuration := Some(doc[key := values]);
      } else {
        var existing := doc[key];
        var toAdd: seq<string> := [];
        for i := 0 to |values|
          invariant toAdd == NewValues(existing, values[..i])
        {
          assert values[..i + 1][..i] == values[..i];
          if values[i] !in existing {
            toAdd := toAdd + [values[i]];
          }
        }
        assert values[..|values|] == values;
        configuration := Some(doc[key := existing + toAdd]);
      }
      ok := true;
    }

    /** One step of `update_configuration`: a failed resolver raises before anything is merged. */
    method Record(entry: Entry) returns (failure: Option<Error>)
      modifies this
      ensures Run(configuration, failure) == ApplyEntries(old(configuration), [entry])
    {
      assert [entry][1..] == [];
      match entry.discovered {
        case Err(e) =>
          failure := Some(e);
        case Ok(values) =>
          var ok := UpdateConfigurationEntry(entry.key, values);
          failure := if ok then None else Some(NoDocument);
      }
    }

    /** `update_ec2_instances`. */
    method UpdateEc2Instances(envType: string) returns (failure: Option<Error>)
      modifies this
      ensures Run(configuration, failure) ==
                ApplyEntries(old(configuration), [Ec2Entry(realtimeConfiguration, stack, version, instances, envType)])
    {
      failure := Record(Ec2Entry(realtimeConfiguration, stack, version, instances, envType));
    }

    /** One step of `update_configuration`: record `e`, with `run` the run over `[e] + rest`
        from the document before it; what is left of `run` is then either this step's
        failure or the run over `rest` from the document after it. */
    method Step(e: Entry, ghost rest: seq<Entry>, ghost run: Run) returns (failure: Option<Error>)
      modifies this
      requires run == ApplyEntries(configuration, [e] + rest)
      ensures failure.Some? ==> run == Run(configuration, failure)
      ensures failure.None? ==> run == ApplyEntries(configuration, rest)
    {
      ApplyEntriesStep(configuration, e, rest);
      failure := Record(e);
    }

    /** `Step` for the `update_ec2_instances` calls. */
    method Ec2Step(envType: string, ghost rest: seq<Entry>, ghost run: Run) returns (failure: Option<Error>)
      modifies this
      requires run == ApplyEntries(configuration, [Ec2Entry(realtimeConfiguration, stack, version, instances, envType)] + rest)
      ensures failure.Some? ==> run == Run(configuration, failure)
      ensures failure.None? ==> run == ApplyEntries(configuration, rest)
    {
      ApplyEntriesStep(configuration, Ec2Entry(realtimeConfiguration, stack, version, instances, envType), rest);
      failure := UpdateEc2Instances(envType);
    }

    /** `update_configuration`: the seven steps in order, then one save of the whole document.
        The first exception ends the run, with the merges before it kept in memory and nothing
        saved; the result is the document handed to the save. */
    method UpdateConfiguration() returns (r: Result<Document>)
      modifies this
      ensures var run := ApplyEntries(old(configuration), Entries(realtimeConfiguration, stack, version, instances));
              && configuration == run.configuration
              && (r.Ok? <==> run.failure.None? && configurationProvider != null)
              && (r.Ok? ==> configuration == Some(r.value))
              && (r.Err? ==> r.error == if run.failure.Some? then run.failure.value else NoProvider)
    {
      var alb := AlbEntry(realtimeConfiguration, stack, version, instances);
      var workerNames := WorkerNamesEntry(realtimeConfiguration, version, instances);
      var workersMemory := MemoryEntry(realtimeConfiguration, version, instances, "workers", "W");
      var repoMemory := MemoryEntry(realtimeConfiguration, version, instances, "repo", "R");
      // the steps still to run after each one: rest[k] == Entries(...)[k..]
      ghost var rest6: seq<Entry> := [alb];
      ghost var rest5 := [workerNames] + rest6;
      ghost var rest4 := [workersMemory] + rest5;
      ghost var rest3 := [repoMemory] + rest4;
      ghost var rest2 := [Ec2Entry(realtimeConfiguration, stack, version, instances, "portal")] + rest3;
      ghost var rest1 := [Ec2Entry(realtimeConfiguration, stack, version, instances, "workers")] + rest2;
      ghost var rest0 := [Ec2Entry(realtimeConfiguration, stack, version, instances, "repo")] + rest1;
      assert rest0 == Entries(realtimeConfiguration, stack, version, instances);
      ghost var run := ApplyEntries(configuration, rest0);
      var failure: Option<Error>;
      failure := Ec2Step("repo", rest1, run);
      if failure.Some? { return Err(failure.value); }
      failure := Ec2Step("workers", rest2, run);
      if failure.Some? { return Err(failure.value); }
      failure := Ec2Step("portal", rest3, run);
      if failure.Some? { return Err(failure.value); }
      failure := Step(repoMemory, rest4, run);
      if failure.Some? { return Err(failure.value); }
      failure := Step(workersMemory, rest5, run);
      if failure.Some? { return Err(failure.value); }
      // the worker names are the same for every statistic: one lookup serves them all
      failure := Step(workerNames, rest6, run);
      if failure.Some? { return Err(failure.value); }
      AppendEmpty(rest6);
      failure := Step(alb, [], run);
      if failure.Some? { return Err(failure.value); }
      assert run == Run(configuration, None);

      if configurationProvider == null {
        return Err(NoProvider);
      }
      r := Ok(configuration.value);
    }
  }
}
