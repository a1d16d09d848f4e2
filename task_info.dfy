/** The task layer's graph builder: `TaskInfo<T>` and the calculator graph
    configuration it generates, with an optional flow limiter in front of the
    task's subgraph. */
module TasksCore {
  import opened Wrappers
  import opened StreamNames

  /** A node's options payload. `TaskCalculatorOptions(o)` stands for the
      opaque result of `o.ToCalculatorOptions()`; the flow limiter's payload is
      the two limits it is configured with. */
  datatype CalculatorOptions<T> =
    | TaskCalculatorOptions(taskOptions: T)
    | FlowLimiterCalculatorOptions(maxInFlight: int, maxInQueue: int)

  /** Per-input-stream settings of a node; a back edge closes an intended cycle. */
  datatype InputStreamInfo = InputStreamInfo(tagIndex: string, backEdge: bool)

  /** One calculator node of a graph configuration. */
  datatype Node<T> = Node(
    calculator: string,
    inputStream: seq<string>,
    outputStream: seq<string>,
    inputSidePacket: seq<string>,
    inputStreamInfo: seq<InputStreamInfo>,
    options: CalculatorOptions<T>)

  /** The configuration handed to the graph runtime: its nodes and the
      streams and side packets it exposes to callers. */
  datatype CalculatorGraphConfig<T> = CalculatorGraphConfig(
    node: seq<Node<T>>,
    inputStream: seq<string>,
    outputStream: seq<string>,
    inputSidePacket: seq<string>)

  /** A task description. The lists are never null here; a missing options
      object is `None`. */
  datatype TaskInfo<T> = TaskInfo(
    taskGraph: string,
    inputStreams: seq<string>,
    outputStreams: seq<string>,
    inputSidePackets: seq<string>,
    taskOptions: Option<T>)

  /** The two reasons `GenerateGraphConfig` throws `InvalidOperationException`. */
  datatype InvalidOperation =
    | MissingTaskGraphOrOptions
    | EmptyStreams

  const FlowLimiterCalculator: string := "FlowLimiterCalculator"
  const FinishedTag: string := "FINISHED"

  /** A description from which a graph can be generated: a graph name and
      options are given, and there is at least one input and one output stream. */
  predicate IsComplete<T>(info: TaskInfo<T>)
  {
    |info.taskGraph| > 0 && info.taskOptions.Some?
    && |info.inputStreams| > 0 && |info.outputStreams| > 0
  }

  /** Renames a stream to its throttled counterpart, keeping its tag. */
  function AddStreamNamePrefix(tagIndexName: string): (r: string)
    ensures var p := ParseTagAndName(tagIndexName);
            ParseTagAndName(r) == TagAndName(p.tag, ThrottledPrefix + p.name)
    ensures ParseNameFromStream(r) == ThrottledPrefix + ParseNameFromStream(tagIndexName)
  {
    var p := ParseTagAndName(tagIndexName);
    var throttledName := ThrottledPrefix + p.name;
    assert IsBareName(ThrottledPrefix + p.name) by {
      assert forall i :: 0 <= i < |ThrottledPrefix| ==> ThrottledPrefix[i] != Colon;
    }
    ParseJoined(p.tag, throttledName);
    p.tag + [Colon] + throttledName
  }

  /** The synthetic stream on which the task's first output signals the
      flow limiter that a packet has been processed. */
  function FinishedStream(outputStream: string): (r: string)
    ensures ParseTagAndName(r) == TagAndName(FinishedTag, ParseNameFromStream(outputStream))
  {
    ParseJoined(FinishedTag, ParseNameFromStream(outputStream));
    FinishedTag + [Colon] + ParseNameFromStream(outputStream)
  }

  /** `streams.Select(AddStreamNamePrefix)`: every stream renamed to its
      throttled form, in order, keeping its tag and prefixing its name. */
  function ThrottledStreams(streams: seq<string>): (r: seq<string>)
    ensures |r| == |streams|
    ensures forall i :: 0 <= i < |streams| ==>
              var t := ParseTagAndName(streams[i]);
              r[i] == t.tag + [Colon] + ThrottledPrefix + t.name
              && ParseTagAndName(r[i]) == TagAndName(t.tag, ThrottledPrefix + t.name)
              && ParseNameFromStream(r[i]) == ThrottledPrefix + ParseNameFromStream(streams[i])
  {
    seq(|streams|, i requires 0 <= i < |streams| => AddStreamNamePrefix(streams[i]))
  }

  /** `streams.Select(Tool.ParseNameFromStream)`: the bare name of every
      stream, in order; a tagged stream is its tag, a colon and that name. */
  function BareNames(streams: seq<string>): (r: seq<string>)
    ensures |r| == |streams|
    ensures forall i :: 0 <= i < |streams| ==>
              IsBareName(r[i])
              && (IsBareName(streams[i]) ==> r[i] == streams[i])
              && (!IsBareName(streams[i]) ==>
                    streams[i] == ParseTagAndName(streams[i]).tag + [Colon] + r[i])
  {
    seq(|streams|, i requires 0 <= i < |streams| => ParseNameFromStream(streams[i]))
  }

  /** Builds the graph configuration for a task, or rejects an incomplete
      description before building anything. Callers see the task's own stream
      and side-packet names whether or not a flow limiter is inserted. */
  function GenerateGraphConfig<T>(info: TaskInfo<T>, enableFlowLimiting: bool)
    : (r: Result<CalculatorGraphConfig<T>, InvalidOperation>)
    ensures r.Ok? <==> IsComplete(info)
    ensures (info.taskGraph == "" || info.taskOptions.None?) ==> r == Err(MissingTaskGraphOrOptions)
    ensures (info.taskGraph != "" && info.taskOptions.Some?
             && (info.inputStreams == [] || info.outputStreams == [])) ==> r == Err(EmptyStreams)
    ensures r.Ok? ==> r.value.inputStream == info.inputStreams
                      && r.value.outputStream == info.outputStreams
                      && r.value.inputSidePacket == info.inputSidePackets
    ensures r.Ok? ==> |r.value.node| == if enableFlowLimiting then 2 else 1
    ensures r.Ok? ==> var task := r.value.node[|r.value.node| - 1];
                      task.calculator == info.taskGraph
                      && task.outputStream == info.outputStreams
                      && task.options == TaskCalculatorOptions(info.taskOptions.value)
  {
    if info.taskGraph == "" || info.taskOptions.None? then
      Err(MissingTaskGraphOrOptions)
    else if |info.inputStreams| <= 0 || |info.outputStreams| <= 0 then
      Err(EmptyStreams)
    else if !enableFlowLimiting then
      Ok(CalculatorGraphConfig(
        [Node(info.taskGraph, info.inputStreams, info.outputStreams, info.inputSidePackets,
              [], TaskCalculatorOptions(info.taskOptions.value))],
        info.inputStreams, info.outputStreams, info.inputSidePackets))
    else
      var throttledInputStreams := ThrottledStreams(info.inputStreams);
      var finishedStream := FinishedStream(info.outputStreams[0]);
      var flowLimiterOptions := FlowLimiterCalculatorOptions(1, 1);
      Ok(CalculatorGraphConfig(
        [ Node(FlowLimiterCalculator,
               BareNames(info.inputStreams) + [finishedStream],
               BareNames(throttledInputStreams),
               info.inputSidePackets,
               [InputStreamInfo(FinishedTag, true)],
               flowLimiterOptions),
          Node(info.taskGraph, throttledInputStreams, info.outputStreams, info.inputSidePackets,
               [], TaskCalculatorOptions(info.taskOptions.value)) ],
        info.inputStreams, info.outputStreams, info.inputSidePackets))
  }
}
