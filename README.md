# Fraud-detection pipeline launcher: a Dafny model

This project models the parts of the fraud-detection TFX pipeline that carry
their own logic. The rest of the repository is glue around TFX, TensorFlow
and the Vertex AI SDK. Three source files are modelled:

- `vertex_configs.py` turns a few strings into Beam argument lists and Vertex AI
  configuration dictionaries. In `VertexConfigs` (vertex_configs.dfy) this is
  pure functions. Argument lists are `seq<string>`. Dictionaries are
  `map<string, Value>`, where `Value` is a Python literal value.
- `trainer_fn.py` picks the model inputs, strips the label from the serving
  feature spec and chooses the hyperparameters. In `TrainerFn`
  (trainer_fn.dfy), the selection and the hyperparameter choice are
  functions. The in-place `del` of the label is a method on the
  `FeatureSpec` class.
- `fraud_detection_main.py` is the entry point, `main`. In
  `FraudDetectionMain` (fraud_detection_main.dfy) one flag chooses the
  metadata store, the Beam arguments and the dispatch. `RunMain` appends
  the effects to an `Effects` log, in order: the definition is written,
  then the pipeline runs locally or is submitted to Vertex. `MainTrace`
  specifies that log.

Two reference modules give the contracts something to be checked against:

- `BeamFlags` (beam_flags.dfy) reads an argument list the way Beam's
  argparse-based pipeline options do. `--name=value` sets `name` to
  everything after the first `=`, verbatim. A bare `--name` is a switch. If
  an option is set twice, the last setting wins.
- `PyValues` (py_values.dfy) is Python subscripting (`__getitem__`) on
  nested dicts, lists and strings: `d[k]`, and `l[i]` and `s[i]` with
  negative indices. A missing key raises KeyError, and an integer on a dict
  is a missing key. An index out of range raises IndexError. An integer
  subscripted, or a list or a string subscripted by a string, raises
  TypeError.

The builder contracts are stated through these readings. For example, the
local Beam arguments set `project`, `temp_location` and `region` to the
caller's strings, verbatim, and set `runner` to `DirectRunner`. Each is set
exactly once, and no other option is set. `Wrappers` (wrappers.dfy) holds
`Option` and `Result`.

## Model

| member | source | states |
|---|---|---|
| `VertexConfigs.CommonBeamArgs` | fraud-detection-pipelines/my_vertex_pipelines/vertex_configs.py:30-32 | three arguments; read back by `CommonArgsRead`: they set `project`, `temp_location`, `region` to the inputs, once each |
| `VertexConfigs.DataflowOnlyArgs` | fraud-detection-pipelines/my_vertex_pipelines/vertex_configs.py:33-36 | four arguments; read back by `DataflowOnlyArgsLookup`, `DataflowOnlyArgsCount` and `DataflowOnlySwitches` |
| `VertexConfigs.BeamArgsForDataflow` | fraud-detection-pipelines/my_vertex_pipelines/vertex_configs.py:25-38 | exactly seven arguments; `--runner=DataflowRunner` at index 3 and `--no_use_public_ips` at index 5 |
| `VertexConfigs.BeamArgsForLocal` | fraud-detection-pipelines/my_vertex_pipelines/vertex_configs.py:41-47 | exactly four arguments, the last `--runner=DirectRunner` |
| `VertexConfigs.BuildersShareLeadingArgs` | fraud-detection-pipelines/my_vertex_pipelines/vertex_configs.py:30-32 | for the same project, temp location and region, both builders start with the same three arguments, in the order `--project=`, `--temp_location=`, `--region=`, each holding its input |
| `VertexConfigs.CommonArgsRead` | fraud-detection-pipelines/my_vertex_pipelines/vertex_configs.py:42-44 | the three leading arguments set `project`, `temp_location` and `region` once each, to the inputs verbatim; a later argument that sets the same option wins |
| `VertexConfigs.LocalArgsRead` | fraud-detection-pipelines/my_vertex_pipelines/vertex_configs.py:41-47 | for every option name: the local arguments set `project`, `temp_location`, `region` to the inputs and `runner` to `DirectRunner`; each of these exactly once; no other option (no service account, no subnetwork) and no switch |
| `VertexConfigs.DataflowOnlyArgsLookup` | fraud-detection-pipelines/my_vertex_pipelines/vertex_configs.py:33-36 | read on their own, the four trailing Dataflow arguments give `runner` the value `DataflowRunner`, `service_account_email` the Dataflow service account and `subnetwork` the network; every other option is unset (`--no_use_public_ips` sets nothing) |
| `VertexConfigs.DataflowOnlyArgsCount` | fraud-detection-pipelines/my_vertex_pipelines/vertex_configs.py:33-36 | each of `runner`, `service_account_email` and `subnetwork` is set exactly once by the trailing Dataflow arguments, every other option zero times |
| `VertexConfigs.DataflowOnlySwitches` | fraud-detection-pipelines/my_vertex_pipelines/vertex_configs.py:33-36 | of the trailing Dataflow arguments, only `--no_use_public_ips` is a bare switch |
| `VertexConfigs.DataflowArgsRead` | fraud-detection-pipelines/my_vertex_pipelines/vertex_configs.py:25-38 | for every option name: the Dataflow arguments set `project`, `temp_location`, `region`, `service_account_email`, `subnetwork` to the inputs and `runner` to `DataflowRunner`; each exactly once; no other option; the one switch is `no_use_public_ips` |
| `VertexConfigs.VertexTunerConfig` | fraud-detection-pipelines/my_vertex_pipelines/vertex_configs.py:50-54 | the keys are exactly `project`, `region`, `service_account` |
| `VertexConfigs.TunerConfigRead` | fraud-detection-pipelines/my_vertex_pipelines/vertex_configs.py:50-54 | subscripting the tuner config with `project`, `region` or `service_account` gives the three inputs; any other key raises KeyError |
| `VertexConfigs.VertexTrainingConfig` | fraud-detection-pipelines/my_vertex_pipelines/vertex_configs.py:57-68 | the keys are exactly `project`, `service_account`, `worker_pool_specs` |
| `VertexConfigs.TrainingConfigEchoes` | fraud-detection-pipelines/my_vertex_pipelines/vertex_configs.py:59-61 | `project` and `service_account` hold the inputs verbatim |
| `VertexConfigs.TrainingConfigOnePool` | fraud-detection-pipelines/my_vertex_pipelines/vertex_configs.py:62-65 | exactly one worker pool: index 1 raises IndexError and index -1 is the same pool as index 0 |
| `VertexConfigs.TrainingPool` | fraud-detection-pipelines/my_vertex_pipelines/vertex_configs.py:62-65 | the worker pool has exactly the keys `machine_spec`, `replica_count`, `container_spec` |
| `VertexConfigs.TrainingConfigPool` | fraud-detection-pipelines/my_vertex_pipelines/vertex_configs.py:62-64 | read through `worker_pool_specs[0]`: `replica_count` is 1, `machine_spec.machine_type` is `e2-standard-4`, `container_spec.image_uri` is `gcr.io/tfx-oss-public/tfx:` followed by the TFX version |
| `VertexConfigs.VertexEndpointConfig` | fraud-detection-pipelines/my_vertex_pipelines/vertex_configs.py:71-85 | the keys are exactly `project_id`, `endpoint_name`, `machine_type` |
| `VertexConfigs.EndpointConfigRead` | fraud-detection-pipelines/my_vertex_pipelines/vertex_configs.py:71-85 | echoes `project_id` and `endpoint_name`, `machine_type` is `e2-standard-4`, any other key raises KeyError |
| `TrainerFn.GetFeatureKeys` | fraud-detection-pipelines/my_vertex_pipelines/trainer_fn.py:33-35 | a key is returned if and only if it is an input key starting with "V" or "Amount"; `Class` is never returned; the output is no longer than the input; an empty input gives an empty list |
| `TrainerFn.FeatureKeysDistinct` | fraud-detection-pipelines/my_vertex_pipelines/trainer_fn.py:33-35 | selecting from keys without duplicates (as a dict's keys are) gives keys without duplicates |
| `TrainerFn.FeatureKeysKeepOrder` | fraud-detection-pipelines/my_vertex_pipelines/trainer_fn.py:34 | selecting from `a + b` is selecting from `a` followed by selecting from `b`: dictionary order is kept |
| `TrainerFn.FeatureKeysIdempotent` | fraud-detection-pipelines/my_vertex_pipelines/trainer_fn.py:33-35 | selecting again from the selected keys returns them unchanged |
| `TrainerFn.FeatureKeysIgnoreLabel` | fraud-detection-pipelines/my_vertex_pipelines/trainer_fn.py:30-35 | removing the label key first does not change the selected feature keys |
| `TrainerFn.Without` | fraud-detection-pipelines/my_vertex_pipelines/trainer_fn.py:77-78 | the keys left after deleting `k` are exactly the old keys other than `k`; no duplicates appear; the result is no longer than the input |
| `TrainerFn.WithoutAbsent` | fraud-detection-pipelines/my_vertex_pipelines/trainer_fn.py:77 | deleting a key that is absent leaves the keys unchanged |
| `TrainerFn.WithoutIdempotent` | fraud-detection-pipelines/my_vertex_pipelines/trainer_fn.py:77-78 | deleting the label twice is deleting it once |
| `TrainerFn.WithoutAt` | fraud-detection-pipelines/my_vertex_pipelines/trainer_fn.py:77-78 | deleting a key found once at position `i` of the dict's keys cuts out exactly that position: the other keys keep their order |
| `TrainerFn.FeatureSpec.DeleteLabel` | fraud-detection-pipelines/my_vertex_pipelines/trainer_fn.py:77-78 | in place: the label entry is gone, every other entry keeps its value and (by `WithoutAt`) its position, and the dict stays well formed; with no label present nothing changes |
| `TrainerFn.ServingFeatureSpec` | fraud-detection-pipelines/my_vertex_pipelines/trainer_fn.py:76-78 | the spec used for parsing is a fresh copy of the raw spec without the label |
| `TrainerFn.DefaultHyperParameters` | fraud-detection-pipelines/my_vertex_pipelines/trainer_fn.py:89-94 | a single, well-formed choice, `num_neurons`, searched over [128, 256, 512, 1024, 2048]; its current value is its default, which lies in that list |
| `TrainerFn.SelectHyperParameters` | fraud-detection-pipelines/my_vertex_pipelines/trainer_fn.py:106-110 | with None or an empty dict, the default space `num_neurons` over [128, 256, 512, 1024, 2048] with current value 256; with a tuner's config, its space and its `num_neurons` value; a well-formed supply gives a well-formed selection |
| `TrainerFn.ReadTuningTarget` | fraud-detection-pipelines/my_vertex_pipelines/trainer_fn.py:143-144 | project and region are read in that order; the first missing key raises KeyError |
| `TrainerFn.TunerConfigFeedsTuner` | fraud-detection-pipelines/my_vertex_pipelines/trainer_fn.py:143-144 | the tuner config built by `get_vertex_tuner_config` gives the tuner callback back its project and region, verbatim |
| `FraudDetectionMain.PipelineDefinitionFile` | fraud-detection-pipelines/my_vertex_pipelines/fraud_detection_main.py:39 | the definition file name is the pipeline name followed by `_pipeline.json` |
| `FraudDetectionMain.DefinitionFileInjective` | fraud-detection-pipelines/my_vertex_pipelines/fraud_detection_main.py:39 | different pipeline names give different definition files |
| `FraudDetectionMain.SelectRunSetup` | fraud-detection-pipelines/my_vertex_pipelines/fraud_detection_main.py:44-55 | there is a metadata connection if and only if the run is local; both kinds of Beam arguments open with the same project, temp location and region; in full by `LocalSetup` and `RemoteSetup` |
| `FraudDetectionMain.LocalSetup` | fraud-detection-pipelines/my_vertex_pipelines/fraud_detection_main.py:44-48 | a local run uses the SQLite store at `METADATA_PATH` and Beam arguments for `DirectRunner` that carry the project, temp location and region and no service account or subnetwork |
| `FraudDetectionMain.LocalSetupIgnoresCloudFlags` | fraud-detection-pipelines/my_vertex_pipelines/fraud_detection_main.py:44-48 | in a local run, the setup depends only on the project, temp location and region, whatever the other flags are |
| `FraudDetectionMain.RemoteSetup` | fraud-detection-pipelines/my_vertex_pipelines/fraud_detection_main.py:49-55 | a Vertex run has no metadata connection, and its Beam arguments select `DataflowRunner` with `service_account_dataflow`, `dataflow_network` and no public IPs |
| `FraudDetectionMain.MainTrace` | fraud-detection-pipelines/my_vertex_pipelines/fraud_detection_main.py:39-84 | two effects: first the definition is written to `<pipeline name>_pipeline.json`, then a local run if and only if running locally, a Vertex submission otherwise |
| `FraudDetectionMain.DispatchFollowsRunner` | fraud-detection-pipelines/my_vertex_pipelines/fraud_detection_main.py:72-84 | there are exactly two effects: the definition is written first, then comes exactly one dispatch, local if and only if the Beam runner is `DirectRunner`, to Vertex if and only if it is `DataflowRunner` |
| `FraudDetectionMain.DispatchUsesWrittenDefinition` | fraud-detection-pipelines/my_vertex_pipelines/fraud_detection_main.py:72-83 | the local run executes the pipeline whose definition was written; the Vertex submission names the file written at line 39 and the pipeline name |
| `FraudDetectionMain.PipelineRequestOf` | fraud-detection-pipelines/my_vertex_pipelines/fraud_detection_main.py:57-70 | each keyword argument of `create_pipeline` carries the command-line value of the same name, except `service_account`, which carries `service_account_dataflow`, and the Beam arguments and connection, which come from the setup |
| `FraudDetectionMain.PipelineIgnoresVertexAccount` | fraud-detection-pipelines/my_vertex_pipelines/fraud_detection_main.py:57-70 | two invocations differing only in `service_account` build the pipeline from the same request |
| `FraudDetectionMain.ServiceAccountsKeptApart` | fraud-detection-pipelines/my_vertex_pipelines/fraud_detection_main.py:51-83 | Vertex submits as `service_account`; the Dataflow arguments and `create_pipeline` get `service_account_dataflow` |
| `FraudDetectionMain.LocalRunStaysLocal` | fraud-detection-pipelines/my_vertex_pipelines/fraud_detection_main.py:76-77 | a local run makes no Vertex submission |
| `FraudDetectionMain.RunMain` | fraud-detection-pipelines/my_vertex_pipelines/fraud_detection_main.py:25-84 | appends to the effect log exactly `MainTrace` of the arguments: write the definition, then dispatch |

## Left out

- `fraud_detection_pipeline.py`: most components are `None` placeholders. The model resolver (line 109) and the evaluator (line 132) are real TFX objects, built from library calls, and so is the rest of the file. `create_pipeline` is abstract: it is the function parameter `createPipeline` of `MainTrace` and `RunMain`.
- The evaluation threshold (binary accuracy of at least 0.6): it is declarative TFMA data. TFMA compares it on floats, and that code is not part of this model.
- `vertex_run.py`: `run_locally` and `run_in_vertex` call the TFX local runner and the `aiplatform` SDK, which is network I/O. They appear only as the `RunLocally` and `SubmitToVertex` events.
- `FraudDetectionMain.RunMain`: does not model that `main` as written raises TypeError at line 57. `main` passes `tensorboard`, `temp_location` and `enable_cloud_tuner` to `create_pipeline`, which does not accept them. It also omits the required `experiment_name` and `experiment_run_name`. `run_in_vertex` likewise does not accept `tensorboard_instance`. The model records the calls `main` makes, as if they were accepted. It does not claim that a run completes.
- The KubeflowV2DagRunner configuration and the logging level (lines 40-42 and 74): these are library calls. Only the output file name and the `runner.run` event are kept.
- The argparse block of `fraud_detection_main.py` (lines 87-124): command-line I/O. `MainArgs` holds the parsed values.
- TensorFlow, Keras and keras_tuner work in `trainer_fn.py`: `build_model`, `read_using_tfx`, `fit` and `save`, `parse_example`, the transform layer, the TensorBoard callback and its environment variable, and the `DistributingCloudTuner` setup. These are foreign libraries with floating-point numerics.
- `steps_per_epoch` and `validation_steps`: they use float division.
- `TrainerFn.SelectHyperParameters`: `HyperParameters.from_config` is taken as the identity on the supplied configuration. keras_tuner's parsing of the config is not modelled.
- `tuner_fn` reads `remote_trials_working_dir` from its tuning arguments. `get_vertex_tuner_config` does not produce that key, and TFX's Vertex tuner may add it. Only the `project` and `region` reads (lines 143-144) are modelled; the lookup of the tuning config in `custom_config` (line 142) is not: `ReadTuningTarget` takes the tuning config itself.
- `tfx.__version__` in the training image is the string parameter `tfxVersion`.
- Key order of the Vertex configuration dictionaries: they are `map`s. Order is kept only where it is observable: feature keys and the feature spec.
- `BATCH_SIZE`, `DATASET_SIZE` and `SERVING_MODEL_DIR` are declared as constants. They are only used by the pipeline file.
- Validation the code does not do. Nothing checks for missing Dataflow fields before a Vertex run. Nothing fails when no column is a feature: `GetFeatureKeys` then returns an empty list. A redesign might want both checks, but the model follows the code.
