/**
 * Chains of calls on a fresh PrimitiveBuilder, as a client writes them, with
 * what they return.  Each is proved from the class contracts and a lemma
 * about the same chain of transitions.
 */
module Scenarios {
  import opened Wrappers
  import opened Validation
  import opened PrimitiveModel
  import opened PrimitiveBuilding
  import opened PrimitiveProperties
  import opened XvizBuilding

  lemma PairConcat<T>(a: T, b: T)
    ensures [a] + [b] == [a, b]
  {
  }

  /** The transitions behind TwoPolygonsInOrder: s, then polygon(first), then polygon(second). */
  lemma TwoPolygonsTransitions(s: State, s1: State, s2: State, first: Vertices, second: Vertices)
    requires s.streamId.Some? && s.slot == EmptySlot && s.primitives == map[]
    requires s1 == Apply(s, PolygonCall(Some(first))).state && s2 == Apply(s1, PolygonCall(Some(second))).state
    ensures Collect(s2).data.Ok? && Collect(s2).data.value.Some?
    ensures ListOf(Collect(s2).data.value.value, s.streamId.value, "polygons")
         == [Record(PathShape(Some(first)), None), Record(PathShape(Some(second)), None)]
  {
    PolygonOnIdleSlot(s, first);
    assert s1 == s.(slot := PolygonSlot(first));
    PolygonAfterPolygon(s1, first, second);
    var sid := s.streamId.value;
    var one := Record(PathShape(Some(first)), None);
    assert s2 == s1.(slot := PolygonSlot(second), primitives := Append(map[], sid, ListKey(Polygon), one));
    ListKeyValues();
    assert ListOf(s2.primitives, sid, "polygons") == [one];
    CollectPendingPolygon(s2, second);
    var two := Record(PathShape(Some(second)), None);
    var c := Collect(s2).state.primitives;
    assert ListOf(c, sid, "polygons") == [one] + [two];
    PairConcat(one, two);
  }

  /** Two polygons on one stream come back from get_data in call order. */
  method TwoPolygonsInOrder(first: Vertices, second: Vertices) returns (d: Result<Option<Collection>, Error>)
    ensures d.Ok? && d.value.Some?
    ensures ListOf(d.value.value, "/objects", "polygons")
         == [Record(PathShape(Some(first)), None), Record(PathShape(Some(second)), None)]
  {
    var b := new PrimitiveBuilder();
    var _ := b.Stream("/objects");
    ghost var s := b.View();
    assert s == Initial.(streamId := Some("/objects"));
    var r1 := b.Polygon(Some(first));
    ghost var s1 := b.View();
    var r2 := b.Polygon(Some(second));
    ghost var s2 := b.View();
    TwoPolygonsTransitions(s, s1, s2, first, second);
    d := b.GetData();
    assert d == Collect(s2).data;
  }

  /** circle([1, 2, 3], 5) then get_data: one circle record and no base. */
  method CircleHasNoBase() returns (d: Result<Option<Collection>, Error>)
    ensures d.Ok? && d.value.Some?
    ensures ListOf(d.value.value, "/circles", "circles") == [Record(CircleShape([1, 2, 3], Some(5)), None)]
  {
    var b := new PrimitiveBuilder();
    var _ := b.Stream("/circles");
    ghost var s := b.View();
    assert s == Initial.(streamId := Some("/circles"));
    var r := b.Circle([1, 2, 3], 5);
    ghost var s1 := b.View();
    CircleCommitsWithoutBase(s, [1, 2, 3], 5);
    CollectAfterCommitIsSome(s1);
    d := b.GetData();
    assert d == Collect(s1).data;
  }

  /** stadium(...).id("abc") raises as written, because id() finds the stadium pending. */
  method StadiumThenId() returns (r1: Outcome<Error>, r2: Outcome<Error>)
    ensures r1 == Pass && r2 == Fail(ShapeAlreadyPending)
  {
    var b := new PrimitiveBuilder();
    var _ := b.Stream("/stadiums");
    ghost var s := b.View();
    assert s == Initial.(streamId := Some("/stadiums"));
    r1 := b.Stadium([1, 2, 3], [4, 5, 6], 2);
    assert FlushIfPending(s) == Step(s, Pass);
    r2 := b.Id("abc");
  }

  /** A start point with two coordinates raises and commits nothing. */
  method ShortStadiumStart() returns (r: Outcome<Error>, d: Result<Option<Collection>, Error>)
    ensures r == Fail(MalformedStart) && d == Ok(None)
  {
    var b := new PrimitiveBuilder();
    var _ := b.Stream("/stadiums");
    ghost var s := b.View();
    assert s == Initial.(streamId := Some("/stadiums"));
    assert FlushIfPending(s) == Step(s, Pass);
    assert Apply(s, StadiumCall([1, 2], [4, 5, 6], 2)) == Step(s, Fail(MalformedStart));
    r := b.Stadium([1, 2], [4, 5, 6], 2);
    assert b.View() == s;
    assert Collect(s) == DataStep(s, Ok(None));
    d := b.GetData();
  }

  /** style() with no shape started passes as written: the prerequisite check is inverted. */
  method StyleBeforeShape(st: Style) returns (r: Outcome<Error>)
    ensures r == Pass
  {
    var b := new PrimitiveBuilder();
    r := b.Style(st);
  }

  /** polygon(None) then get_data: the flush warns once, and the polygon is committed without vertices. */
  method PolygonWithoutVertices() returns (d: Result<Option<Collection>, Error>, w: seq<Warning>)
    ensures d.Ok? && d.value.Some?
    ensures ListOf(d.value.value, "/objects", "polygons") == [Record(PathShape(None), None)]
    ensures w == [VerticesMissing(Some("/objects"))]
  {
    var b := new PrimitiveBuilder();
    var _ := b.Stream("/objects");
    ghost var s := b.View();
    assert s == Initial.(streamId := Some("/objects"));
    var r := b.Polygon(None);
    PolygonWithoutVerticesWarnsAndCommits(s);
    CollectAfterCommitIsSome(b.View());
    d := b.GetData();
    w := b.warnings;
  }

  /** Committing one record into an empty collection gives a one-stream, one-list map. */
  lemma AppendToEmpty(sid: string, key: string, rec: Record)
    ensures Append(map[], sid, key, rec) == map[sid := map[key := [rec]]]
  {
    var w := WithList(map[], sid, key);
    assert w == map[sid := map[key := []]];
    assert [] + [rec] == [rec];
    assert w[sid][key := [rec]] == map[key := [rec]];
    assert w[sid := map[key := [rec]]] == map[sid := map[key := [rec]]];
  }

  /** get_data on a fresh `/objects` builder with polygon(v) pending returns just that polygon. */
  lemma CollectOnePolygon(v: Vertices)
    ensures Collect(Initial.(streamId := Some("/objects"), slot := PolygonSlot(v))).data
         == Ok(Some(map["/objects" := map["polygons" := [Record(PathShape(Some(v)), None)]]]))
  {
    var t := Initial.(streamId := Some("/objects"), slot := PolygonSlot(v));
    var rec := Record(PathShape(Some(v)), None);
    ListKeyValues();
    assert FlushWarnings(t.slot, t.streamId) == [];
    assert Format(t.slot) == Ok(rec);
    var c := Append(map[], "/objects", "polygons", rec);
    assert FlushStep(t) == Step(t.(primitives := c, slot := EmptySlot), Pass);
    AppendToEmpty("/objects", "polygons", rec);
  }

  /**
   * get_message's envelope for a primary pose at `ts` and one pending polygon
   * on `/objects`: a SNAPSHOT whose single update carries that timestamp, the
   * poses and the collection holding just the committed polygon.
   */
  lemma SnapshotOfOnePolygon<E>(v: Vertices, ts: Scalar, encode: StreamSet -> E)
    ensures var poses := map[PrimaryPoseStream := PoseRecord(ts)];
      var t := Initial.(streamId := Some("/objects"), slot := PolygonSlot(v));
      var c := map["/objects" := map["polygons" := [Record(PathShape(Some(v)), None)]]];
      Assemble(Some(poses), Collect(t).data, None, encode)
        == Ok(Message("SNAPSHOT", [encode(StreamSet(ts, poses, Some(c), None))]))
  {
    CollectOnePolygon(v);
  }

  /** get_message with no pose collected raises and produces no message. */
  method MessageWithoutPose<E>(encode: StreamSet -> E) returns (m: Result<Message<E>, Error>)
    ensures m == Err(MissingPrimaryPose)
  {
    var x := new XvizBuilder();
    var p := x.Primitive("/objects");
    var r := p.Polygon(Some([[0, 0, 0]]));
    m := x.GetMessage(encode);
  }
}
