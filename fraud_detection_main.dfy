/**
 * The entry point of the pipeline: it names the definition file after the
 * pipeline, lets one flag choose between local and managed execution, has
 * the definition written, and then either runs the pipeline in-process or
 * submits the definition to Vertex AI Pipelines. Building the pipeline, the
 * runner and the cloud SDK stay abstract: the pipeline is whatever value
 * the supplied construction function makes of the arguments, and the effects
 * are events appended to a log.
 */
module FraudDetectionMain {
  import opened Wrappers
  import VertexConfigs
  import BeamFlags

  /** The arguments of `main`. */
  datatype MainArgs = MainArgs(
    runningLocally: bool,
    enableCloudTuner: bool,
    pipelineName: string,
    pipelineRoot: string,
    query: string,
    projectId: string,
    region: string,
    serviceAccount: string,
    serviceAccountDataflow: string,
    dataflowNetwork: string,
    transformFnFile: string,
    trainerFnFile: string,
    tensorboard: string,
    tempLocation: string)

  /** The metadata store of a local run: an SQLite database at a path. */
  datatype MetadataConnection = SqliteMetadata(databasePath: string)

  const DEFINITION_SUFFIX: string := "_pipeline.json"

  /** The file the pipeline definition is written to. */
  function PipelineDefinitionFile(pipelineName: string): (file: string)
    ensures |file| == |pipelineName| + |DEFINITION_SUFFIX|
    ensures file[..|pipelineName|] == pipelineName && file[|pipelineName|..] == DEFINITION_SUFFIX
  {
    pipelineName + DEFINITION_SUFFIX
  }

  /** Different pipelines get different definition files. */
  lemma DefinitionFileInjective(a: string, b: string)
    ensures PipelineDefinitionFile(a) == PipelineDefinitionFile(b) ==> a == b
  {
    if PipelineDefinitionFile(a) == PipelineDefinitionFile(b) {
      assert |a| == |b|;
      assert a == PipelineDefinitionFile(a)[..|a|];
    }
  }

  /** What the local/remote flag chooses before the pipeline is built. */
  datatype RunSetup = RunSetup(metadataConnection: Option<MetadataConnection>, beamArgs: seq<string>)

  /** The local metadata store, or none for Vertex, and the Beam arguments for the chosen runner. */
  function SelectRunSetup(a: MainArgs): (setup: RunSetup)
    ensures setup.metadataConnection.Some? <==> a.runningLocally
    ensures 3 <= |setup.beamArgs| && setup.beamArgs[..3] == VertexConfigs.CommonBeamArgs(a.projectId, a.tempLocation, a.region)
  {
    if a.runningLocally then
      RunSetup(Some(SqliteMetadata(VertexConfigs.METADATA_PATH)),
               VertexConfigs.BeamArgsForLocal(a.projectId, a.tempLocation, a.region))
    else
      RunSetup(None,
               VertexConfigs.BeamArgsForDataflow(a.projectId, a.tempLocation, a.region,
                                                 a.serviceAccountDataflow, a.dataflowNetwork))
  }

  /**
   * A local run uses the SQLite metadata store at METADATA_PATH and the
   * DirectRunner, with the project, temp location and region passed through.
   */
  lemma LocalSetup(a: MainArgs)
    requires a.runningLocally
    ensures SelectRunSetup(a).metadataConnection == Some(SqliteMetadata(VertexConfigs.METADATA_PATH))
    ensures BeamFlags.Lookup(SelectRunSetup(a).beamArgs, "runner") == Some("DirectRunner")
    ensures BeamFlags.Lookup(SelectRunSetup(a).beamArgs, "project") == Some(a.projectId)
    ensures BeamFlags.Lookup(SelectRunSetup(a).beamArgs, "temp_location") == Some(a.tempLocation)
    ensures BeamFlags.Lookup(SelectRunSetup(a).beamArgs, "region") == Some(a.region)
    ensures BeamFlags.Lookup(SelectRunSetup(a).beamArgs, "service_account_email") == None
    ensures BeamFlags.Lookup(SelectRunSetup(a).beamArgs, "subnetwork") == None
  {
    var p, t, r := a.projectId, a.tempLocation, a.region;
    var args := SelectRunSetup(a).beamArgs;
    assert BeamFlags.Lookup(args, "runner") == Some("DirectRunner") by {
      VertexConfigs.LocalArgsRead(p, t, r, "runner");
    }
    assert BeamFlags.Lookup(args, "project") == Some(p) by {
      VertexConfigs.LocalArgsRead(p, t, r, "project");
    }
    assert BeamFlags.Lookup(args, "temp_location") == Some(t) by {
      VertexConfigs.LocalArgsRead(p, t, r, "temp_location");
    }
    assert BeamFlags.Lookup(args, "region") == Some(r) by {
      VertexConfigs.LocalArgsRead(p, t, r, "region");
    }
    assert BeamFlags.Lookup(args, "service_account_email") == None by {
      VertexConfigs.LocalArgsRead(p, t, r, "service_account_email");
    }
    assert BeamFlags.Lookup(args, "subnetwork") == None by {
      VertexConfigs.LocalArgsRead(p, t, r, "subnetwork");
    }
  }

  /** In a local run the cloud-only flags make no difference to the setup. */
  lemma LocalSetupIgnoresCloudFlags(a: MainArgs, b: MainArgs)
    requires a.runningLocally && b.runningLocally
    requires a.projectId == b.projectId && a.tempLocation == b.tempLocation && a.region == b.region
    ensures SelectRunSetup(a) == SelectRunSetup(b)
  {
  }

  /**
   * A Vertex run has no local metadata store and runs Beam on Dataflow
   * under the Dataflow service account, in the given network.
   */
  lemma RemoteSetup(a: MainArgs)
    requires !a.runningLocally
    ensures SelectRunSetup(a).metadataConnection == None
    ensures BeamFlags.Lookup(SelectRunSetup(a).beamArgs, "runner") == Some("DataflowRunner")
    ensures BeamFlags.Lookup(SelectRunSetup(a).beamArgs, "project") == Some(a.projectId)
    ensures BeamFlags.Lookup(SelectRunSetup(a).beamArgs, "temp_location") == Some(a.tempLocation)
    ensures BeamFlags.Lookup(SelectRunSetup(a).beamArgs, "region") == Some(a.region)
    ensures BeamFlags.Lookup(SelectRunSetup(a).beamArgs, "service_account_email") == Some(a.serviceAccountDataflow)
    ensures BeamFlags.Lookup(SelectRunSetup(a).beamArgs, "subnetwork") == Some(a.dataflowNetwork)
    ensures BeamFlags.HasSwitch(SelectRunSetup(a).beamArgs, "no_use_public_ips")
  {
    var p, t, r, sa, n := a.projectId, a.tempLocation, a.region, a.serviceAccountDataflow, a.dataflowNetwork;
    var args := SelectRunSetup(a).beamArgs;
    assert BeamFlags.Lookup(args, "runner") == Some("DataflowRunner") by {
      VertexConfigs.DataflowArgsRead(p, t, r, sa, n, "runner");
    }
    assert BeamFlags.Lookup(args, "project") == Some(p) by {
      VertexConfigs.DataflowArgsRead(p, t, r, sa, n, "project");
    }
    assert BeamFlags.Lookup(args, "temp_location") == Some(t) by {
      VertexConfigs.DataflowArgsRead(p, t, r, sa, n, "temp_location");
    }
    assert BeamFlags.Lookup(args, "region") == Some(r) by {
      VertexConfigs.DataflowArgsRead(p, t, r, sa, n, "region");
    }
    assert BeamFlags.Lookup(args, "service_account_email") == Some(sa) by {
      VertexConfigs.DataflowArgsRead(p, t, r, sa, n, "service_account_email");
    }
    assert BeamFlags.Lookup(args, "subnetwork") == Some(n) by {
      VertexConfigs.DataflowArgsRead(p, t, r, sa, n, "subnetwork");
    }
    assert BeamFlags.HasSwitch(args, "no_use_public_ips") by {
      VertexConfigs.DataflowArgsRead(p, t, r, sa, n, "no_use_public_ips");
    }
  }

  /** The keyword arguments `main` passes to `create_pipeline`. */
  datatype PipelineRequest = PipelineRequest(
    pipelineName: string,
    pipelineRoot: string,
    query: string,
    beamPipelineArgs: seq<string>,
    transformFnFile: string,
    region: string,
    trainerFnFile: string,
    projectId: string,
    tensorboard: string,
    serviceAccount: string,
    tempLocation: string,
    localConnectionConfig: Option<MetadataConnection>,
    enableCloudTuner: bool)

  /**
   * The request is made of the named command-line values, passed through
   * under their own names, and the setup; the pipeline is built with the
   * Dataflow service account, never with the Vertex one.
   */
  function PipelineRequestOf(a: MainArgs, setup: RunSetup): (request: PipelineRequest)
    ensures request.serviceAccount == a.serviceAccountDataflow
    ensures request.beamPipelineArgs == setup.beamArgs && request.localConnectionConfig == setup.metadataConnection
    ensures request.pipelineName == a.pipelineName && request.pipelineRoot == a.pipelineRoot && request.query == a.query
    ensures request.projectId == a.projectId && request.region == a.region && request.tempLocation == a.tempLocation
    ensures request.transformFnFile == a.transformFnFile && request.trainerFnFile == a.trainerFnFile
    ensures request.tensorboard == a.tensorboard && request.enableCloudTuner == a.enableCloudTuner
  {
    PipelineRequest(a.pipelineName, a.pipelineRoot, a.query, setup.beamArgs, a.transformFnFile, a.region,
                    a.trainerFnFile, a.projectId, a.tensorboard, a.serviceAccountDataflow, a.tempLocation,
                    setup.metadataConnection, a.enableCloudTuner)
  }

  /** The effects of `main`, in the order they happen. */
  datatype Event<P> =
    | WriteDefinition(outputFilename: string, pipeline: P)
    | RunLocally(pipeline: P)
    | SubmitToVertex(projectId: string, region: string, pipelineDefinition: string, pipelineName: string,
                     serviceAccount: string, tensorboardInstance: string)

  /** The effects `main` has with arguments `a` when `createPipeline` builds the pipeline. */
  function MainTrace<P>(a: MainArgs, createPipeline: PipelineRequest -> P): (trace: seq<Event<P>>)
    ensures |trace| == 2 && trace[0].WriteDefinition?
    ensures trace[0].outputFilename == PipelineDefinitionFile(a.pipelineName)
    ensures trace[1].RunLocally? <==> a.runningLocally
    ensures trace[1].SubmitToVertex? <==> !a.runningLocally
  {
    var definition := PipelineDefinitionFile(a.pipelineName);
    var pipeline := createPipeline(PipelineRequestOf(a, SelectRunSetup(a)));
    [WriteDefinition(definition, pipeline)]
      + if a.runningLocally then [RunLocally(pipeline)]
        else [SubmitToVertex(a.projectId, a.region, definition, a.pipelineName, a.serviceAccount, a.tensorboard)]
  }

  /** The log of effects. */
  class Effects<P> {
    var events: seq<Event<P>>

    constructor ()
      ensures events == []
    {
      events := [];
    }

    method Record(e: Event<P>)
      modifies this
      ensures events == old(events) + [e]
    {
      events := events + [e];
    }
  }

  /** `main`: build the pipeline, write its definition, then run it here or submit it to Vertex. */
  method RunMain<P>(a: MainArgs, createPipeline: PipelineRequest -> P, effects: Effects<P>)
    modifies effects
    ensures effects.events == old(effects.events) + MainTrace(a, createPipeline)
  {
    var pipelineDefinition := PipelineDefinitionFile(a.pipelineName);
    var setup := SelectRunSetup(a);
    var pipeline := createPipeline(PipelineRequestOf(a, setup));
    effects.Record(WriteDefinition(pipelineDefinition, pipeline));
    if a.runningLocally {
      effects.Record(RunLocally(pipeline));
    } else {
      effects.Record(SubmitToVertex(a.projectId, a.region, pipelineDefinition, a.pipelineName,
                                    a.serviceAccount, a.tensorboard));
    }
  }

  /**
   * `main` has exactly two effects: first the definition is written to
   * `<pipeline_name>_pipeline.json`, then exactly one dispatch follows, and it
   * is the one the Beam runner was chosen for: a local run with the
   * DirectRunner, a Vertex submission with Dataflow.
   */
  lemma DispatchFollowsRunner<P>(a: MainArgs, createPipeline: PipelineRequest -> P)
    ensures var t := MainTrace(a, createPipeline);
            && |t| == 2
            && t[0] == WriteDefinition(PipelineDefinitionFile(a.pipelineName), createPipeline(PipelineRequestOf(a, SelectRunSetup(a))))
            && (t[1].RunLocally? || t[1].SubmitToVertex?)
            && (t[1].RunLocally? <==> BeamFlags.Lookup(SelectRunSetup(a).beamArgs, "runner") == Some("DirectRunner"))
            && (t[1].SubmitToVertex? <==> BeamFlags.Lookup(SelectRunSetup(a).beamArgs, "runner") == Some("DataflowRunner"))
  {
    if a.runningLocally { LocalSetup(a); } else { RemoteSetup(a); }
  }

  /**
   * What is dispatched is what was written: a local run executes the
   * pipeline whose definition was written, and a Vertex submission names
   * the file the definition was written to.
   */
  lemma DispatchUsesWrittenDefinition<P>(a: MainArgs, createPipeline: PipelineRequest -> P)
    ensures var t := MainTrace(a, createPipeline);
            && (t[1].RunLocally? ==> t[1].pipeline == t[0].pipeline)
            && (t[1].SubmitToVertex? ==> t[1].pipelineDefinition == t[0].outputFilename
                                         && t[1].pipelineName == a.pipelineName)
  {
  }

  /**
   * The two service accounts are kept apart: Vertex submits the job as
   * `service_account`, while Dataflow workers run as
   * `service_account_dataflow`, which is also the account the pipeline is built with.
   */
  lemma ServiceAccountsKeptApart<P>(a: MainArgs, createPipeline: PipelineRequest -> P)
    requires !a.runningLocally
    ensures MainTrace(a, createPipeline)[1].serviceAccount == a.serviceAccount
    ensures BeamFlags.Lookup(SelectRunSetup(a).beamArgs, "service_account_email") == Some(a.serviceAccountDataflow)
    ensures PipelineRequestOf(a, SelectRunSetup(a)).serviceAccount == a.serviceAccountDataflow
  {
    RemoteSetup(a);
  }

  /**
   * The Vertex service account never reaches `create_pipeline`: two
   * invocations that differ only in it build the same pipeline.
   */
  lemma PipelineIgnoresVertexAccount(a: MainArgs, b: MainArgs)
    requires a.(serviceAccount := b.serviceAccount) == b
    ensures PipelineRequestOf(a, SelectRunSetup(a)) == PipelineRequestOf(b, SelectRunSetup(b))
  {
  }

  /** A local run makes no call to the managed service. */
  lemma LocalRunStaysLocal<P>(a: MainArgs, createPipeline: PipelineRequest -> P)
    requires a.runningLocally
    ensures forall e :: e in MainTrace(a, createPipeline) ==> !e.SubmitToVertex?
  {
  }
}
