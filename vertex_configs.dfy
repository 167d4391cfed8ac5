/**
 * The configuration builders of the pipeline: the Beam argument lists for
 * Dataflow and for the in-process DirectRunner, and the dictionaries handed
 * to Vertex AI for tuning, training and serving. Each builder is a literal
 * whose fields are the caller's strings embedded verbatim; an f-string
 * `f"--name={value}"` is written `BeamFlags.Setting("name", value)`.
 */
module VertexConfigs {
  import opened Wrappers
  import opened PyValues
  import BeamFlags

  const BATCH_SIZE: nat := 4096
  const DATASET_SIZE: nat := 284807
  const METADATA_PATH: string := "/tmp/tfx_metadata.db"
  const SERVING_MODEL_DIR: string := "/tmp/tfx_model/"

  /** The machine type used both for Vertex training workers and for the serving endpoint. */
  const MACHINE_TYPE: string := "e2-standard-4"
  /** The training image, tagged with the installed TFX version. */
  const TFX_IMAGE_PREFIX: string := "gcr.io/tfx-oss-public/tfx:"

  /** The three arguments both Beam builders start with. */
  function CommonBeamArgs(project: string, tempLocationGcs: string, region: string): (args: seq<string>)
    ensures |args| == 3
  {
    [BeamFlags.Setting("project", project),
     BeamFlags.Setting("temp_location", tempLocationGcs),
     BeamFlags.Setting("region", region)]
  }

  /** The four arguments the Dataflow builder adds after the common ones. */
  function DataflowOnlyArgs(serviceAccountDataflow: string, dataflowNetwork: string): (args: seq<string>)
    ensures |args| == 4
  {
    [BeamFlags.Setting("runner", "DataflowRunner"),
     BeamFlags.Setting("service_account_email", serviceAccountDataflow),
     "--no_use_public_ips",
     BeamFlags.Setting("subnetwork", dataflowNetwork)]
  }

  /** Beam arguments that run the processing steps on Dataflow, without public IPs. */
  function BeamArgsForDataflow(project: string, tempLocationGcs: string, region: string,
                               serviceAccountDataflow: string, dataflowNetwork: string): (args: seq<string>)
    ensures |args| == 7
    ensures args[3] == "--runner=DataflowRunner" && args[5] == "--no_use_public_ips"
  {
    assert BeamFlags.Setting("runner", "DataflowRunner") == "--runner=DataflowRunner";
    CommonBeamArgs(project, tempLocationGcs, region) + DataflowOnlyArgs(serviceAccountDataflow, dataflowNetwork)
  }

  /** Beam arguments that run the processing steps in-process. */
  function BeamArgsForLocal(project: string, tempLocationGcs: string, region: string): (args: seq<string>)
    ensures |args| == 4
    ensures args[3] == "--runner=DirectRunner"
  {
    assert BeamFlags.Setting("runner", "DirectRunner") == "--runner=DirectRunner";
    CommonBeamArgs(project, tempLocationGcs, region) + [BeamFlags.Setting("runner", "DirectRunner")]
  }

  /** The tuning arguments for the cloud tuner. */
  function VertexTunerConfig(projectId: string, region: string, serviceAccount: string): (config: map<string, Value>)
    ensures config.Keys == {"project", "region", "service_account"}
  {
    map["project" := Str(projectId), "region" := Str(region), "service_account" := Str(serviceAccount)]
  }

  /** The Vertex training job: one worker pool of one replica running the TFX image. */
  function VertexTrainingConfig(projectId: string, serviceAccount: string, tfxVersion: string): (config: map<string, Value>)
    ensures config.Keys == {"project", "service_account", "worker_pool_specs"}
  {
    map["project" := Str(projectId),
        "service_account" := Str(serviceAccount),
        "worker_pool_specs" := List([TrainingPool(tfxVersion)])]
  }

  /** The single worker pool of the training config. */
  function TrainingPool(tfxVersion: string): (pool: Value)
    ensures pool.Dict? && pool.entries.Keys == {"machine_spec", "replica_count", "container_spec"}
  {
    Dict(map["machine_spec" := Dict(map["machine_type" := Str(MACHINE_TYPE)]),
             "replica_count" := Int(1),
             "container_spec" := Dict(map["image_uri" := Str(TFX_IMAGE_PREFIX + tfxVersion)])])
  }

  /** The Vertex serving endpoint. */
  function VertexEndpointConfig(projectId: string, endpointName: string): (config: map<string, Value>)
    ensures config.Keys == {"project_id", "endpoint_name", "machine_type"}
  {
    map["project_id" := Str(projectId), "endpoint_name" := Str(endpointName), "machine_type" := Str(MACHINE_TYPE)]
  }

  // ---------------------------------------------------------------------
  // Reading the Beam arguments back
  // ---------------------------------------------------------------------

  /** The value the common arguments give to `name`, if any. */
  function CommonValue(project: string, tempLocationGcs: string, region: string, name: string): Option<string> {
    if name == "project" then Some(project)
    else if name == "temp_location" then Some(tempLocationGcs)
    else if name == "region" then Some(region)
    else None
  }

  /** Reading past the three common arguments: they set `project`, `temp_location` and `region`, once each. */
  lemma CommonArgsRead(project: string, tempLocationGcs: string, region: string, rest: seq<string>, name: string)
    requires '=' !in name
    ensures BeamFlags.Lookup(CommonBeamArgs(project, tempLocationGcs, region) + rest, name)
         == if BeamFlags.Lookup(rest, name).Some? then BeamFlags.Lookup(rest, name)
            else CommonValue(project, tempLocationGcs, region, name)
    ensures BeamFlags.Count(CommonBeamArgs(project, tempLocationGcs, region) + rest, name)
         == BeamFlags.Count(rest, name) + (if CommonValue(project, tempLocationGcs, region, name).Some? then 1 else 0)
  {
    var a0, a1, a2 := BeamFlags.Setting("project", project), BeamFlags.Setting("temp_location", tempLocationGcs),
                      BeamFlags.Setting("region", region);
    assert CommonBeamArgs(project, tempLocationGcs, region) + rest == [a0] + ([a1] + ([a2] + rest));
    BeamFlags.SettingSets("project", project, name);
    BeamFlags.SettingSets("temp_location", tempLocationGcs, name);
    BeamFlags.SettingSets("region", region, name);
    BeamFlags.ReadCons(a2, rest, name);
    BeamFlags.ReadCons(a1, [a2] + rest, name);
    BeamFlags.ReadCons(a0, [a1] + ([a2] + rest), name);
  }

  /** The common arguments hold no bare switch. */
  lemma CommonArgsHaveNoSwitch(project: string, tempLocationGcs: string, region: string, name: string)
    requires '=' !in name
    ensures !BeamFlags.HasSwitch(CommonBeamArgs(project, tempLocationGcs, region), name)
  {
    BeamFlags.SettingSets("project", project, name);
    BeamFlags.SettingSets("temp_location", tempLocationGcs, name);
    BeamFlags.SettingSets("region", region, name);
  }

  /**
   * The local arguments set exactly `project`, `temp_location` and `region` to
   * the caller's strings and `runner` to DirectRunner, each once, and hold no
   * switch; in particular they name no Dataflow service account and no subnetwork.
   */
  lemma LocalArgsRead(project: string, tempLocationGcs: string, region: string, name: string)
    requires '=' !in name
    ensures BeamFlags.Lookup(BeamArgsForLocal(project, tempLocationGcs, region), name)
         == if name == "runner" then Some("DirectRunner") else CommonValue(project, tempLocationGcs, region, name)
    ensures BeamFlags.Count(BeamArgsForLocal(project, tempLocationGcs, region), name)
         == if name in {"project", "temp_location", "region", "runner"} then 1 else 0
    ensures !BeamFlags.HasSwitch(BeamArgsForLocal(project, tempLocationGcs, region), name)
  {
    var runner := BeamFlags.Setting("runner", "DirectRunner");
    BeamFlags.SettingSets("runner", "DirectRunner", name);
    BeamFlags.ReadCons(runner, [], name);
    assert [runner] + [] == [runner];
    CommonArgsRead(project, tempLocationGcs, region, [runner], name);
    CommonArgsHaveNoSwitch(project, tempLocationGcs, region, name);
  }

  /** The value the Dataflow-only arguments give to `name`, if any. */
  function DataflowValue(serviceAccountDataflow: string, dataflowNetwork: string, name: string): Option<string> {
    if name == "runner" then Some("DataflowRunner")
    else if name == "service_account_email" then Some(serviceAccountDataflow)
    else if name == "subnetwork" then Some(dataflowNetwork)
    else None
  }

  /** The Dataflow-only arguments give `runner`, `service_account_email` and `subnetwork` their values. */
  lemma DataflowOnlyArgsLookup(serviceAccountDataflow: string, dataflowNetwork: string, name: string)
    requires '=' !in name
    ensures BeamFlags.Lookup(DataflowOnlyArgs(serviceAccountDataflow, dataflowNetwork), name)
         == DataflowValue(serviceAccountDataflow, dataflowNetwork, name)
  {
    var args := DataflowOnlyArgs(serviceAccountDataflow, dataflowNetwork);
    DataflowOnlyArgsCons(serviceAccountDataflow, dataflowNetwork, name);
    BeamFlags.ReadCons(args[3], [], name);
    BeamFlags.ReadCons(args[2], [args[3]] + [], name);
    BeamFlags.ReadCons(args[1], [args[2]] + ([args[3]] + []), name);
    BeamFlags.ReadCons(args[0], [args[1]] + ([args[2]] + ([args[3]] + [])), name);
  }

  /** The Dataflow-only arguments set each of `runner`, `service_account_email` and `subnetwork` once and nothing else. */
  lemma DataflowOnlyArgsCount(serviceAccountDataflow: string, dataflowNetwork: string, name: string)
    requires '=' !in name
    ensures BeamFlags.Count(DataflowOnlyArgs(serviceAccountDataflow, dataflowNetwork), name)
         == if DataflowValue(serviceAccountDataflow, dataflowNetwork, name).Some? then 1 else 0
  {
    var args := DataflowOnlyArgs(serviceAccountDataflow, dataflowNetwork);
    DataflowOnlyArgsCons(serviceAccountDataflow, dataflowNetwork, name);
    BeamFlags.ReadCons(args[3], [], name);
    BeamFlags.ReadCons(args[2], [args[3]] + [], name);
    BeamFlags.ReadCons(args[1], [args[2]] + ([args[3]] + []), name);
    BeamFlags.ReadCons(args[0], [args[1]] + ([args[2]] + ([args[3]] + [])), name);
  }

  /** How each of the four Dataflow-only arguments reads, one at a time. */
  lemma DataflowOnlyArgsCons(serviceAccountDataflow: string, dataflowNetwork: string, name: string)
    requires '=' !in name
    ensures var args := DataflowOnlyArgs(serviceAccountDataflow, dataflowNetwork);
            && args == [args[0]] + ([args[1]] + ([args[2]] + ([args[3]] + [])))
            && (BeamFlags.Sets(args[0], name) <==> name == "runner")
            && (BeamFlags.Sets(args[1], name) <==> name == "service_account_email")
            && !BeamFlags.Sets(args[2], name)
            && (BeamFlags.Sets(args[3], name) <==> name == "subnetwork")
            && (name == "runner" ==> BeamFlags.ValueOf(args[0], name) == "DataflowRunner")
            && (name == "service_account_email" ==> BeamFlags.ValueOf(args[1], name) == serviceAccountDataflow)
            && (name == "subnetwork" ==> BeamFlags.ValueOf(args[3], name) == dataflowNetwork)
  {
    var args := DataflowOnlyArgs(serviceAccountDataflow, dataflowNetwork);
    assert args == [args[0]] + ([args[1]] + ([args[2]] + ([args[3]] + [])));
    BeamFlags.SettingSets("runner", "DataflowRunner", name);
    BeamFlags.SettingSets("service_account_email", serviceAccountDataflow, name);
    BeamFlags.SettingSets("subnetwork", dataflowNetwork, name);
    BeamFlags.SwitchSetsNothing(args[2], name);
  }

  /** Of the Dataflow-only arguments, only `--no_use_public_ips` is a bare switch. */
  lemma DataflowOnlySwitches(serviceAccountDataflow: string, dataflowNetwork: string, name: string)
    requires '=' !in name
    ensures BeamFlags.HasSwitch(DataflowOnlyArgs(serviceAccountDataflow, dataflowNetwork), name)
        <==> name == "no_use_public_ips"
  {
    var args := DataflowOnlyArgs(serviceAccountDataflow, dataflowNetwork);
    var switch := "--" + name;
    assert args[0] != switch by { BeamFlags.SettingSets("runner", "DataflowRunner", name); }
    assert args[1] != switch by { BeamFlags.SettingSets("service_account_email", serviceAccountDataflow, name); }
    assert args[3] != switch by { BeamFlags.SettingSets("subnetwork", dataflowNetwork, name); }
    assert args[2] == switch <==> name == "no_use_public_ips" by {
      assert args[2] == "--" + "no_use_public_ips";
      BeamFlags.SwitchNamed("no_use_public_ips", name);
    }
    assert switch in args <==> args[2] == switch by {
      if switch in args {
        var i :| 0 <= i < |args| && args[i] == switch;
        assert i == 2;
      }
    }
  }

  /**
   * The Dataflow arguments set `project`, `temp_location`, `region`,
   * `service_account_email` and `subnetwork` to the caller's strings and
   * `runner` to DataflowRunner, each once, and hold the one switch
   * `no_use_public_ips`.
   */
  lemma DataflowArgsRead(project: string, tempLocationGcs: string, region: string,
                         serviceAccountDataflow: string, dataflowNetwork: string, name: string)
    requires '=' !in name
    ensures BeamFlags.Lookup(BeamArgsForDataflow(project, tempLocationGcs, region, serviceAccountDataflow, dataflowNetwork), name)
         == if DataflowValue(serviceAccountDataflow, dataflowNetwork, name).Some?
            then DataflowValue(serviceAccountDataflow, dataflowNetwork, name)
            else CommonValue(project, tempLocationGcs, region, name)
    ensures BeamFlags.Count(BeamArgsForDataflow(project, tempLocationGcs, region, serviceAccountDataflow, dataflowNetwork), name)
         == if name in {"project", "temp_location", "region", "runner", "service_account_email", "subnetwork"} then 1 else 0
    ensures BeamFlags.HasSwitch(BeamArgsForDataflow(project, tempLocationGcs, region, serviceAccountDataflow, dataflowNetwork), name)
        <==> name == "no_use_public_ips"
  {
    var rest := DataflowOnlyArgs(serviceAccountDataflow, dataflowNetwork);
    DataflowOnlyArgsLookup(serviceAccountDataflow, dataflowNetwork, name);
    DataflowOnlyArgsCount(serviceAccountDataflow, dataflowNetwork, name);
    DataflowOnlySwitches(serviceAccountDataflow, dataflowNetwork, name);
    CommonArgsRead(project, tempLocationGcs, region, rest, name);
    CommonArgsHaveNoSwitch(project, tempLocationGcs, region, name);
  }

  /** Both builders open with `--project`, `--temp_location`, `--region`, in that order, holding the same strings. */
  lemma BuildersShareLeadingArgs(project: string, tempLocationGcs: string, region: string,
                                 serviceAccountDataflow: string, dataflowNetwork: string)
    ensures BeamArgsForLocal(project, tempLocationGcs, region)[..3]
         == BeamArgsForDataflow(project, tempLocationGcs, region, serviceAccountDataflow, dataflowNetwork)[..3]
         == ["--project=" + project, "--temp_location=" + tempLocationGcs, "--region=" + region]
  {
    assert BeamArgsForLocal(project, tempLocationGcs, region)[..3] == CommonBeamArgs(project, tempLocationGcs, region);
    assert BeamArgsForDataflow(project, tempLocationGcs, region, serviceAccountDataflow, dataflowNetwork)[..3]
        == CommonBeamArgs(project, tempLocationGcs, region);
    assert "--" + "project" + "=" == "--project=";
    assert "--" + "temp_location" + "=" == "--temp_location=";
    assert "--" + "region" + "=" == "--region=";
  }

  // ---------------------------------------------------------------------
  // Reading the Vertex dictionaries back
  // ---------------------------------------------------------------------

  /** The tuner config maps `project`, `region` and `service_account` to the three inputs; any other key is missing. */
  lemma TunerConfigRead(projectId: string, region: string, serviceAccount: string, key: string)
    ensures var config := Dict(VertexTunerConfig(projectId, region, serviceAccount));
            Get(config, [Key(key)])
              == if key == "project" then Ok(Str(projectId))
                 else if key == "region" then Ok(Str(region))
                 else if key == "service_account" then Ok(Str(serviceAccount))
                 else Err(KeyError(Key(key)))
  {
    var config := Dict(VertexTunerConfig(projectId, region, serviceAccount));
    assert [Key(key)][1..] == [];
    assert Get(config, [Key(key)]) == GetItem(config, Key(key));
  }

  /** The path to a field of the first worker pool of a training config. */
  function PoolField(field: seq<Subscript>): seq<Subscript> {
    [Key("worker_pool_specs"), Index(0)] + field
  }

  /** The training config echoes `project` and `service_account`. */
  lemma TrainingConfigEchoes(projectId: string, serviceAccount: string, tfxVersion: string)
    ensures var config := Dict(VertexTrainingConfig(projectId, serviceAccount, tfxVersion));
            && Get(config, [Key("project")]) == Ok(Str(projectId))
            && Get(config, [Key("service_account")]) == Ok(Str(serviceAccount))
  {
  }

  /** The training config has exactly one worker pool: index 1 is out of range and index -1 is the same pool as index 0. */
  lemma TrainingConfigOnePool(projectId: string, serviceAccount: string, tfxVersion: string)
    ensures var config := Dict(VertexTrainingConfig(projectId, serviceAccount, tfxVersion));
            && Get(config, [Key("worker_pool_specs"), Index(1)]) == Err(IndexError(1))
            && Get(config, [Key("worker_pool_specs"), Index(-1)]) == Get(config, [Key("worker_pool_specs"), Index(0)])
  {
    var config := Dict(VertexTrainingConfig(projectId, serviceAccount, tfxVersion));
    var pools := [Key("worker_pool_specs")];
    GetConcat(config, pools, [Index(0)]);
    GetConcat(config, pools, [Index(1)]);
    GetConcat(config, pools, [Index(-1)]);
  }

  /** The one worker pool has one replica on an e2-standard-4 machine running the TFX image of the given version. */
  lemma TrainingConfigPool(projectId: string, serviceAccount: string, tfxVersion: string)
    ensures var config := Dict(VertexTrainingConfig(projectId, serviceAccount, tfxVersion));
            && Get(config, PoolField([Key("replica_count")])) == Ok(Int(1))
            && Get(config, PoolField([Key("machine_spec"), Key("machine_type")])) == Ok(Str(MACHINE_TYPE))
            && Get(config, PoolField([Key("container_spec"), Key("image_uri")])) == Ok(Str(TFX_IMAGE_PREFIX + tfxVersion))
  {
    var pool := TrainingPool(tfxVersion);
    TrainingPoolField(projectId, serviceAccount, tfxVersion, [Key("replica_count")]);
    TrainingPoolField(projectId, serviceAccount, tfxVersion, [Key("machine_spec"), Key("machine_type")]);
    TrainingPoolField(projectId, serviceAccount, tfxVersion, [Key("container_spec"), Key("image_uri")]);
    GetConcat(pool, [Key("machine_spec")], [Key("machine_type")]);
    GetConcat(pool, [Key("container_spec")], [Key("image_uri")]);
  }

  /** A field read under the first worker pool is that field of the pool. */
  lemma TrainingPoolField(projectId: string, serviceAccount: string, tfxVersion: string, field: seq<Subscript>)
    ensures Get(Dict(VertexTrainingConfig(projectId, serviceAccount, tfxVersion)), PoolField(field))
         == Get(TrainingPool(tfxVersion), field)
  {
    var config := Dict(VertexTrainingConfig(projectId, serviceAccount, tfxVersion));
    var first := [Key("worker_pool_specs"), Index(0)];
    assert Get(config, first) == Ok(TrainingPool(tfxVersion)) by {
      GetConcat(config, [Key("worker_pool_specs")], [Index(0)]);
    }
    GetConcat(config, first, field);
  }

  /** The endpoint config maps `project_id`, `endpoint_name` and `machine_type`; any other key is missing. */
  lemma EndpointConfigRead(projectId: string, endpointName: string, key: string)
    ensures var config := Dict(VertexEndpointConfig(projectId, endpointName));
            Get(config, [Key(key)])
              == if key == "project_id" then Ok(Str(projectId))
                 else if key == "endpoint_name" then Ok(Str(endpointName))
                 else if key == "machine_type" then Ok(Str(MACHINE_TYPE))
                 else Err(KeyError(Key(key)))
  {
    var config := Dict(VertexEndpointConfig(projectId, endpointName));
    assert [Key(key)][1..] == [];
    assert Get(config, [Key(key)]) == GetItem(config, Key(key));
  }
}
