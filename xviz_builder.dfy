/**
 * XVIZBuilder: it owns a pose, a variable and a primitive builder, hands one
 * of them out per stream selection, and assembles the snapshot message.
 *
 * The pose and variable builders are reduced to the interface the
 * orchestrator uses: `Stream(id)` switches the stream and returns the
 * builder, `GetData()` returns the collected map, or None when it is empty.
 * The wire encoder is a parameter of GetMessage.
 */
module XvizBuilding {
  import opened Wrappers
  import opened Validation
  import opened PrimitiveModel
  import opened PrimitiveBuilding

  /** The stream every message must carry a pose for. */
  const PrimaryPoseStream: string := "/vehicle_pose"

  /** A pose as the orchestrator sees it: only its timestamp is read. */
  datatype PoseRecord = PoseRecord(timestamp: Scalar)

  /** The values of one variable stream, opaque here. */
  datatype VariableRecord = VariableRecord(values: seq<Scalar>)

  /** The assembled update handed to the encoder (the StreamSet). */
  datatype StreamSet = StreamSet(
    timestamp: Scalar,
    poses: map<string, PoseRecord>,
    primitives: Option<Collection>,
    variables: Option<map<string, VariableRecord>>)

  /** The outgoing message: its update type and its list of encoded updates. */
  datatype Message<E> = Message(updateType: string, updates: seq<E>)

  /** The pose builder: a stream id and the poses collected per stream. */
  class PoseBuilder {
    var streamId: Option<string>
    var collected: map<string, PoseRecord>

    constructor ()
      ensures streamId == None && collected == map[]
    {
      streamId, collected := None, map[];
    }

    method Stream(id: string) returns (b: PoseBuilder)
      modifies this
      ensures b == this && streamId == Some(id) && collected == old(collected)
    {
      streamId := Some(id);
      b := this;
    }

    /** The collected poses, or None when there are none. */
    function Data(): (d: Option<map<string, PoseRecord>>)
      reads this
      ensures d.None? <==> |collected| == 0
      ensures d.Some? ==> d.value == collected
    {
      if |collected| == 0 then None else Some(collected)
    }

    method GetData() returns (d: Option<map<string, PoseRecord>>)
      ensures d == Data()
    {
      d := Data();
    }
  }

  /** The variable builder: a stream id and the values collected per stream. */
  class VariableBuilder {
    var streamId: Option<string>
    var collected: map<string, VariableRecord>

    constructor ()
      ensures streamId == None && collected == map[]
    {
      streamId, collected := None, map[];
    }

    method Stream(id: string) returns (b: VariableBuilder)
      modifies this
      ensures b == this && streamId == Some(id) && collected == old(collected)
    {
      streamId := Some(id);
      b := this;
    }

    /** The collected variables, or None when there are none. */
    function Data(): (d: Option<map<string, VariableRecord>>)
      reads this
      ensures d.None? <==> |collected| == 0
      ensures d.Some? ==> d.value == collected
    {
      if |collected| == 0 then None else Some(collected)
    }

    method GetData() returns (d: Option<map<string, VariableRecord>>)
      ensures d == Data()
    {
      d := Data();
    }
  }

  /** The guard of get_message: the poses must exist and carry the primary stream. */
  function PrimaryTimestamp(poses: Option<map<string, PoseRecord>>): (r: Result<Scalar, Error>)
    ensures r.Ok? <==> poses.Some? && PrimaryPoseStream in poses.value
    ensures r.Ok? ==> r.value == poses.value[PrimaryPoseStream].timestamp
    ensures r.Err? ==> r.error == MissingPrimaryPose
  {
    if poses.None? || |poses.value| == 0 || PrimaryPoseStream !in poses.value then Err(MissingPrimaryPose)
    else Ok(poses.value[PrimaryPoseStream].timestamp)
  }

  /**
   * The message get_message returns for the data the three builders hand
   * over: a SNAPSHOT with exactly one encoded update, or the first error.
   */
  function Assemble<E>(
    poses: Option<map<string, PoseRecord>>,
    primitives: Result<Option<Collection>, Error>,
    variables: Option<map<string, VariableRecord>>,
    encode: StreamSet -> E): (r: Result<Message<E>, Error>)
    ensures r.Err? <==> PrimaryTimestamp(poses).Err? || primitives.Err?
    ensures PrimaryTimestamp(poses).Err? ==> r == Err(MissingPrimaryPose)
    ensures PrimaryTimestamp(poses).Ok? && primitives.Err? ==> r == Err(primitives.error)
    ensures r.Ok? ==>
      && r.value.updateType == "SNAPSHOT"
      && |r.value.updates| == 1
      && r.value.updates[0] == encode(StreamSet(
           poses.value[PrimaryPoseStream].timestamp, poses.value, primitives.value, variables))
  {
    match PrimaryTimestamp(poses)
    case Err(e) => Err(e)
    case Ok(ts) =>
      match primitives
      case Err(e) => Err(e)
      case Ok(p) => Ok(Message("SNAPSHOT", [encode(StreamSet(ts, poses.value, p, variables))]))
  }

  class XvizBuilder {
    const poseBuilder: PoseBuilder
    const variablesBuilder: VariableBuilder
    const primitivesBuilder: PrimitiveBuilder
    /** The sub-builder the last selector handed out, or null. */
    var streamBuilder: object?

    constructor ()
      ensures fresh(poseBuilder) && fresh(variablesBuilder) && fresh(primitivesBuilder)
      ensures streamBuilder == null
      ensures poseBuilder.streamId == None && poseBuilder.collected == map[]
      ensures variablesBuilder.streamId == None && variablesBuilder.collected == map[]
      ensures primitivesBuilder.View() == Initial
    {
      streamBuilder := null;
      poseBuilder := new PoseBuilder();
      variablesBuilder := new VariableBuilder();
      primitivesBuilder := new PrimitiveBuilder();
    }

    /** Selects a pose stream, the primary one by default. */
    method Pose(streamId: string := PrimaryPoseStream) returns (b: PoseBuilder)
      modifies this, poseBuilder
      ensures b == poseBuilder && streamBuilder == b
      ensures poseBuilder.streamId == Some(streamId) && poseBuilder.collected == old(poseBuilder.collected)
      ensures unchanged(variablesBuilder, primitivesBuilder)
    {
      b := poseBuilder.Stream(streamId);
      streamBuilder := b;
    }

    /** Selects a variable stream. */
    method Variable(streamId: string) returns (b: VariableBuilder)
      modifies this, variablesBuilder
      ensures b == variablesBuilder && streamBuilder == b
      ensures variablesBuilder.streamId == Some(streamId)
      ensures variablesBuilder.collected == old(variablesBuilder.collected)
      ensures unchanged(poseBuilder, primitivesBuilder)
    {
      b := variablesBuilder.Stream(streamId);
      streamBuilder := b;
    }

    /** Selects a primitive stream; the pending primitive is left as it is. */
    method Primitive(streamId: string) returns (b: PrimitiveBuilder)
      modifies this, primitivesBuilder
      ensures b == primitivesBuilder && streamBuilder == b
      ensures primitivesBuilder.View() == old(primitivesBuilder.View()).(streamId := Some(streamId))
      ensures unchanged(poseBuilder, variablesBuilder)
    {
      b := primitivesBuilder.Stream(streamId);
      streamBuilder := b;
    }

    /** Not implemented by the builder: changes nothing and returns None. */
    method FutureInstance(streamId: string, timestamp: Scalar) returns (none: Option<object>)
      ensures none == None
    {
      none := None;
    }

    /** Not implemented by the builder: changes nothing and returns None. */
    method UiPrimitives(streamId: string) returns (none: Option<object>)
      ensures none == None
    {
      none := None;
    }

    /** Not implemented by the builder: changes nothing and returns None. */
    method TimeSeries(streamId: string) returns (none: Option<object>)
      ensures none == None
    {
      none := None;
    }

    /** Forgets the selected sub-builder; nothing else changes. */
    method Reset()
      modifies this
      ensures streamBuilder == null
    {
      streamBuilder := null;
    }

    /**
     * Checks the primary pose, then fetches the primitives (which flushes the
     * pending primitive) and the variables, and wraps the encoded update.
     */
    method GetMessage<E>(encode: StreamSet -> E) returns (r: Result<Message<E>, Error>)
      modifies primitivesBuilder
      ensures r == Assemble(poseBuilder.Data(), Collect(old(primitivesBuilder.View())).data,
                            variablesBuilder.Data(), encode)
      ensures primitivesBuilder.View() ==
        if PrimaryTimestamp(poseBuilder.Data()).Ok? then Collect(old(primitivesBuilder.View())).state
        else old(primitivesBuilder.View())
    {
      var poses := poseBuilder.GetData();
      if poses.None? || |poses.value| == 0 || PrimaryPoseStream !in poses.value {
        return Err(MissingPrimaryPose);
      }
      var timestamp := poses.value[PrimaryPoseStream].timestamp;
      var primitives := primitivesBuilder.GetData();
      if primitives.Err? {
        return Err(primitives.error);
      }
      var variables := variablesBuilder.GetData();
      var data := StreamSet(timestamp, poses.value, primitives.value, variables);
      r := Ok(Message("SNAPSHOT", [encode(data)]));
    }
  }
}
