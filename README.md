# MediaPipe task graph configuration, modelled in Dafny

This project models how the MediaPipe Unity plugin's task layer turns a task
description (`TaskInfo<T>`) into the `CalculatorGraphConfig` that the MediaPipe
graph runtime executes. A description holds the name of the task's subgraph,
its input streams, output streams and input side packets, and a task-specific
options object. `GenerateGraphConfig(enableFlowLimiting)` does three things:

- It rejects an incomplete description with `InvalidOperationException`
  before it builds anything.
- Without flow limiting, it emits one node that is the task itself, with every
  list copied verbatim.
- With flow limiting, it emits two nodes. The first is a
  `FlowLimiterCalculator` that admits one packet in flight and one queued. It
  reads the bare input names plus a back edge named `FINISHED:` followed by the
  bare name of the first output, and it
  writes `throttled_` streams. The second is the task node, which reads those
  throttled streams.

In both modes the configuration's own input, output and side-packet lists are
the task's originals, so callers never see the throttling.

Files:

- `wrappers.dfy`: module `Wrappers`, holding `Option` (a possibly-null
  reference) and `Result` (a value or the exception thrown).
- `stream_names.dfy`: module `StreamNames`, the `TAG:name` stream addressing
  scheme (parsing, the bare name, and the round trip between splitting and
  joining).
- `task_info.dfy`: module `TasksCore`, holding the data model (`TaskInfo`,
  `Node`, `CalculatorGraphConfig`, `InputStreamInfo`, `CalculatorOptions`, the
  two rejection reasons), `AddStreamNamePrefix`, `FinishedStream`, the two
  list maps `ThrottledStreams` and `BareNames`, and `GenerateGraphConfig`.
- `task_info_properties.dfy`: module `TaskInfoProperties`, the lemmas about the
  generated configuration.

Modelling decisions:

- Everything is pure. `TaskInfo<T>`'s constructor only stores its five
  arguments, and its properties are get-only. So `TaskInfo` is a datatype and
  the datatype's constructor is the C# constructor (`TaskInfo.cs:21-28`).
  `GenerateGraphConfig` is a function of the description and the flag. The C#
  default `enableFlowLimiting = false` is the caller passing `false`.
- The two `InvalidOperationException`s appear as the `Err` values
  `MissingTaskGraphOrOptions` (`TaskInfo.cs:32-35`) and `EmptyStreams`
  (`TaskInfo.cs:36-39`). Their messages are not modelled.
- `taskOptions.ToCalculatorOptions()` appears as the opaque value
  `TaskCalculatorOptions(options)`. The flow limiter's extension-carrying
  `CalculatorOptions` appears as `FlowLimiterCalculatorOptions(maxInFlight,
  maxInQueue)`.
- The stream lists and the graph name are never null. A missing `taskOptions`
  is `None`. `string.IsNullOrEmpty` at `TaskInfo.cs:32` treats a null graph
  name like `""`, so modelling only the empty name loses no behaviour.
- `Tool.ParseTagAndName` and `Tool.ParseNameFromStream` are not part of this
  model, since their source is not available. `StreamNames` defines the
  behaviour this model assumes for them: the name is what follows the last
  colon, the tag (with any index) is what precedes it, and a string without a
  colon has the empty tag and is its own name. So `TAG:name` and
  `TAG:INDEX:name` both keep their prefix under `AddStreamNamePrefix`. An
  untagged `name` becomes `:throttled_name`, which is exactly what the
  interpolation at `TaskInfo.cs:106` gives when the tag is empty.
- The flow limiter's own input and output lists hold bare names only, because
  `TaskInfo.cs:83-84` passes both lists through `ParseNameFromStream`. For a
  task input `IMAGE:image` the limiter reads `image` and writes
  `throttled_image`, while the task node reads `IMAGE:throttled_image`
  (`FaceDetectorLimiterStreams`, `FaceDetectorTaskStreams`).
- Determinism (building twice gives equal configurations) holds because every
  member is a Dafny function, so no lemma states it.

## Model

| member | source | states |
|---|---|---|
| `StreamNames.LastColon` | Packages/com.github.homuler.mediapipe/Runtime/Scripts/Tasks/Core/TaskInfo.cs:105 | the position found holds a colon and no later position does; -1 means the reference has no colon at all |
| `StreamNames.ParseTagAndName` | Packages/com.github.homuler.mediapipe/Runtime/Scripts/Tasks/Core/TaskInfo.cs:105 | the name it returns contains no colon; a reference with a colon is exactly tag + `:` + name; one without a colon has the empty tag and is its own name |
| `StreamNames.ParseNameFromStream` | Packages/com.github.homuler.mediapipe/Runtime/Scripts/Tasks/Core/TaskInfo.cs:83-84 | the bare name is colon-free, is a suffix of the stream reference, and is the whole reference when there is no tag; when there is a tag, the bare name is strictly shorter and is preceded by a colon, so it is exactly the part after the last colon |
| `StreamNames.ParseJoined` | Packages/com.github.homuler.mediapipe/Runtime/Scripts/Tasks/Core/TaskInfo.cs:105-106 | splitting the joined form `tag:name` (name colon-free) gives back exactly that tag and name |
| `StreamNames.BareNameIsFixed` | Packages/com.github.homuler.mediapipe/Runtime/Scripts/Tasks/Core/TaskInfo.cs:83-84 | a property of the assumed last-colon split, not of the C# code itself: applying `ParseNameFromStream` to its own result changes nothing, so the bare names the limiter lists are already in the form `ParseNameFromStream` returns |
| `TasksCore.AddStreamNamePrefix` | Packages/com.github.homuler.mediapipe/Runtime/Scripts/Tasks/Core/TaskInfo.cs:103-107 | the throttled reference parses to the same tag and to `throttled_` + the original name, so its bare name is `throttled_` + the original bare name |
| `TasksCore.ThrottledStreams` | Packages/com.github.homuler.mediapipe/Runtime/Scripts/Tasks/Core/TaskInfo.cs:61 | the LINQ `Select(AddStreamNamePrefix)`: one result per input, in order; result i is exactly tag + `:throttled_` + name of input i, parses back to that tag and `throttled_` + name, and its bare name is `throttled_` + the bare name of input i |
| `TasksCore.BareNames` | Packages/com.github.homuler.mediapipe/Runtime/Scripts/Tasks/Core/TaskInfo.cs:83-84 | the LINQ `Select(ParseNameFromStream)`: one result per input, in order; result i is colon-free, equals input i when that has no tag, and otherwise is what follows input i's tag and colon |
| `TasksCore.FinishedStream` | Packages/com.github.homuler.mediapipe/Runtime/Scripts/Tasks/Core/TaskInfo.cs:62 | the synthetic stream has tag `FINISHED` and, as its name, the bare name of the given output stream |
| `TasksCore.GenerateGraphConfig` | Packages/com.github.homuler.mediapipe/Runtime/Scripts/Tasks/Core/TaskInfo.cs:30-101 | succeeds iff graph name and options are given and both stream lists are non-empty; a missing graph name or missing options is reported first, then empty stream lists; on success the external input, output and side-packet lists equal the task's in both modes, there are 2 nodes with flow limiting and 1 without, and the last node runs the task graph with the task's outputs and options |
| `TaskInfoProperties.DirectNodeCopiesTask` | Packages/com.github.homuler.mediapipe/Runtime/Scripts/Tasks/Core/TaskInfo.cs:41-58 | without flow limiting the single node's calculator is the task graph, and its inputs, outputs, side packets and options are the task's verbatim, with no input-stream info |
| `TaskInfoProperties.FlowLimiterNodeSettings` | Packages/com.github.homuler.mediapipe/Runtime/Scripts/Tasks/Core/TaskInfo.cs:63-87 | with flow limiting the first node is `FlowLimiterCalculator` with max-in-flight 1 and max-in-queue 1, the task's side packets, and exactly one input-stream info `FINISHED` marked as a back edge |
| `TaskInfoProperties.FlowLimiterInputs` | Packages/com.github.homuler.mediapipe/Runtime/Scripts/Tasks/Core/TaskInfo.cs:62-83 | the limiter has one more input than the task: the bare name of each task input in order, then `FINISHED:` + the bare name of the first output; that stream's tag is the back-edge info's tag and its name is the bare name of the task node's first output |
| `TaskInfoProperties.ThrottledStreamsConnectNodes` | Packages/com.github.homuler.mediapipe/Runtime/Scripts/Tasks/Core/TaskInfo.cs:61-93 | the task node's input i is exactly tag + `:throttled_` + name, where tag and name are the split of the task's input i, and it parses back to that tag and `throttled_` + name; the limiter's output i is `throttled_` + bare name i, which is the bare name of the task node's input i |
| `TaskInfoProperties.TaskNodeOnlyInputsThrottled` | Packages/com.github.homuler.mediapipe/Runtime/Scripts/Tasks/Core/TaskInfo.cs:88-99 | the flow-limited task node equals the unthrottled node except for its input streams, and both modes expose the same external lists |
| `TaskInfoProperties.TaggedStreamThrottled` | Packages/com.github.homuler.mediapipe/Runtime/Scripts/Tasks/Core/TaskInfo.cs:103-107 | under the assumed last-colon split, `TAG:name` and `TAG:INDEX:name` become `TAG:throttled_name` and `TAG:INDEX:throttled_name` |
| `TaskInfoProperties.UntaggedStreamThrottled` | Packages/com.github.homuler.mediapipe/Runtime/Scripts/Tasks/Core/TaskInfo.cs:106 | an untagged `name` becomes `:throttled_name`, whose bare name is still `throttled_name` |
| `TaskInfoProperties.FaceDetectorLimiterStreams` | Packages/com.github.homuler.mediapipe/Runtime/Scripts/Tasks/Core/TaskInfo.cs:61-84 | for a `FaceDetector` task with input `IMAGE:<image>` and output `DETECTIONS:<detections>`, the limiter reads exactly `<image>` and `FINISHED:<detections>` and writes exactly `throttled_<image>` |
| `TaskInfoProperties.FaceDetectorTaskStreams` | Packages/com.github.homuler.mediapipe/Runtime/Scripts/Tasks/Core/TaskInfo.cs:88-93 | for the same task, the task node reads exactly `IMAGE:throttled_<image>` and writes exactly `DETECTIONS:<detections>` |

## Left out

- `StreamNames.ParseTagAndName`, `StreamNames.ParseNameFromStream`: the plugin's `Tool` helpers are not part of this model. Their validation of tags, indices and names, and any exception they throw for malformed references, is not modelled. The split at the last colon is an assumption.
- `TaskInfo.cs:36` uses `?.Count <= 0`, which does not reject null lists. Null lists are not modelled because the sequences here are never null.
- `ToCalculatorOptions()` is protobuf serialisation behind the `ITaskOptions` interface. It is kept as an opaque value.
- The protobuf extension mechanics of `SetExtension` are not modelled. Only the resulting limits (1 and 1) are.
- The exception messages are not modelled. The two failure reasons are distinct constructors.
- The MediaPipe graph runtime that consumes the configuration, including back-pressure and concurrency at run time, is external and not modelled.
- `FaceLandmarkListAnnotationController` (Unity scene objects, prefab instantiation, floating-point transforms) is engine glue, not part of this model. Its static edge table is constant data.
