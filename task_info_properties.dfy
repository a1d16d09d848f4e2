/** Properties of the generated graph configuration: what each node holds in
    the two modes and how the flow limiter is wired to the task node. */
module TaskInfoProperties {
  import opened Wrappers
  import opened StreamNames
  import opened TasksCore

  /** Without flow limiting the single node is the task itself, with the
      task's streams, side packets and options copied verbatim. */
  lemma DirectNodeCopiesTask<T>(info: TaskInfo<T>)
    requires IsComplete(info)
    ensures var r := GenerateGraphConfig(info, false);
            r.Ok? && |r.value.node| == 1
            && r.value.node[0].calculator == info.taskGraph
            && r.value.node[0].inputStream == info.inputStreams
            && r.value.node[0].outputStream == info.outputStreams
            && r.value.node[0].inputSidePacket == info.inputSidePackets
            && r.value.node[0].inputStreamInfo == []
            && r.value.node[0].options == TaskCalculatorOptions(info.taskOptions.value)
  {
  }

  /** With flow limiting the first node is the flow limiter: it admits one
      packet in flight and one queued, sees the task's side packets, and
      declares one input-stream info, the FINISHED back edge. */
  lemma FlowLimiterNodeSettings<T>(info: TaskInfo<T>)
    requires IsComplete(info)
    ensures var r := GenerateGraphConfig(info, true);
            r.Ok? && |r.value.node| == 2
            && r.value.node[0].calculator == "FlowLimiterCalculator"
            && r.value.node[0].options == FlowLimiterCalculatorOptions(1, 1)
            && r.value.node[0].inputSidePacket == info.inputSidePackets
            && r.value.node[0].inputStreamInfo == [InputStreamInfo("FINISHED", true)]
  {
  }

  /** The flow limiter reads the bare name of every task input, in order,
      and then the FINISHED stream named after the task's first output; that
      last stream's tag is the one its back-edge info declares, so the cycle
      from the task's output back to the limiter is closed. */
  lemma FlowLimiterInputs<T>(info: TaskInfo<T>)
    requires IsComplete(info)
    ensures var r := GenerateGraphConfig(info, true);
            r.Ok? && |r.value.node| == 2
            && var limiter, task := r.value.node[0], r.value.node[1];
            |limiter.inputStream| == |info.inputStreams| + 1
            && (forall i :: 0 <= i < |info.inputStreams| ==>
                  limiter.inputStream[i] == ParseNameFromStream(info.inputStreams[i]))
            && limiter.inputStream[|info.inputStreams|]
               == FinishedTag + [Colon] + ParseNameFromStream(info.outputStreams[0])
            && ParseTagAndName(limiter.inputStream[|info.inputStreams|])
               == TagAndName(limiter.inputStreamInfo[0].tagIndex,
                             ParseNameFromStream(task.outputStream[0]))
  {
  }

  /** The task node reads the throttled form of every task input, in order,
      with its tag kept and its name prefixed; the flow limiter produces
      exactly those throttled names, so element i of the limiter's outputs is
      the bare name of element i of the task node's inputs. */
  lemma ThrottledStreamsConnectNodes<T>(info: TaskInfo<T>)
    requires IsComplete(info)
    ensures var r := GenerateGraphConfig(info, true);
            r.Ok? && |r.value.node| == 2
            && var limiter, task := r.value.node[0], r.value.node[1];
            |task.inputStream| == |info.inputStreams|
            && |limiter.outputStream| == |info.inputStreams|
            && forall i :: 0 <= i < |info.inputStreams| ==>
                 var p := ParseTagAndName(info.inputStreams[i]);
                 task.inputStream[i] == p.tag + [Colon] + ThrottledPrefix + p.name
                 && ParseTagAndName(task.inputStream[i]) == TagAndName(p.tag, ThrottledPrefix + p.name)
                 && limiter.outputStream[i] == ThrottledPrefix + p.name
                 && limiter.outputStream[i] == ParseNameFromStream(task.inputStream[i])
  {
    var nodes := GenerateGraphConfig(info, true).value.node;
    var throttled := ThrottledStreams(info.inputStreams);
    assert nodes[1].inputStream == throttled;
    assert nodes[0].outputStream == BareNames(throttled);
    forall i | 0 <= i < |info.inputStreams|
      ensures var p := ParseTagAndName(info.inputStreams[i]);
              throttled[i] == p.tag + [Colon] + ThrottledPrefix + p.name
    {
      var p := ParseTagAndName(info.inputStreams[i]);
      assert throttled[i] == p.tag + [Colon] + (ThrottledPrefix + p.name);
    }
  }

  /** Inserting the flow limiter changes nothing about the task node except
      that it reads the throttled streams. */
  lemma TaskNodeOnlyInputsThrottled<T>(info: TaskInfo<T>)
    requires IsComplete(info)
    ensures var direct, limited := GenerateGraphConfig(info, false), GenerateGraphConfig(info, true);
            direct.Ok? && limited.Ok?
            && limited.value.node[1]
               == direct.value.node[0].(inputStream := limited.value.node[1].inputStream)
            && limited.value.inputStream == direct.value.inputStream
            && limited.value.outputStream == direct.value.outputStream
            && limited.value.inputSidePacket == direct.value.inputSidePacket
  {
  }

  /** A tagged stream, `TAG:name` or `TAG:INDEX:name`, keeps everything up to
      its last colon and has `throttled_` put in front of its name. */
  lemma TaggedStreamThrottled(tag: string, name: string)
    requires IsBareName(name)
    ensures AddStreamNamePrefix(tag + [Colon] + name) == tag + [Colon] + ThrottledPrefix + name
  {
    ParseJoined(tag, name);
  }

  /** A bare stream has the empty tag, so its throttled form starts with a
      colon; its bare name is still the prefixed name. */
  lemma UntaggedStreamThrottled(name: string)
    requires IsBareName(name)
    ensures AddStreamNamePrefix(name) == [Colon] + ThrottledPrefix + name
    ensures ParseNameFromStream(AddStreamNamePrefix(name)) == ThrottledPrefix + name
  {
  }

  /** The description of a face detector with one tagged image input and one
      tagged detections output. */
  function FaceDetectorTask<T>(image: string, detections: string, options: T): TaskInfo<T>
  {
    TaskInfo("FaceDetector", ["IMAGE" + [Colon] + image], ["DETECTIONS" + [Colon] + detections],
             [], Some(options))
  }

  /** The streams of the flow limiter generated for the face detector: it
      reads the bare image name and the FINISHED back edge named after the
      detections, and writes the bare throttled image name. */
  lemma FaceDetectorLimiterStreams<T>(image: string, detections: string, options: T)
    requires IsBareName(image) && IsBareName(detections)
    ensures var r := GenerateGraphConfig(FaceDetectorTask(image, detections, options), true);
            r.Ok? && |r.value.node| == 2
            && r.value.node[0].inputStream == [image, FinishedTag + [Colon] + detections]
            && r.value.node[0].outputStream == [ThrottledPrefix + image]
  {
    var info := FaceDetectorTask(image, detections, options);
    var limiter := GenerateGraphConfig(info, true).value.node[0];
    ParseJoined("IMAGE", image);
    ParseJoined("DETECTIONS", detections);
    FlowLimiterInputs(info);
    ThrottledStreamsConnectNodes(info);
    assert limiter.inputStream == [limiter.inputStream[0], limiter.inputStream[1]];
    assert limiter.outputStream == [limiter.outputStream[0]];
  }

  /** The streams of the face detector's task node: it reads the tagged
      throttled image stream and writes the detections stream unchanged. */
  lemma FaceDetectorTaskStreams<T>(image: string, detections: string, options: T)
    requires IsBareName(image)
    ensures var r := GenerateGraphConfig(FaceDetectorTask(image, detections, options), true);
            r.Ok? && |r.value.node| == 2
            && r.value.node[1].inputStream == ["IMAGE" + [Colon] + ThrottledPrefix + image]
            && r.value.node[1].outputStream == ["DETECTIONS" + [Colon] + detections]
  {
    TaggedStreamThrottled("IMAGE", image);
    assert ThrottledStreams(["IMAGE" + [Colon] + image])
        == ["IMAGE" + [Colon] + ThrottledPrefix + image];
  }
}
