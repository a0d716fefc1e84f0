/**
 * Properties of the primitive builder's transitions: the implicit flush,
 * append-only commits in call order, the set-once and prerequisite guards as
 * written, get_data, and an invariant of every state a builder can reach.
 */
module PrimitiveProperties {
  import opened Wrappers
  import opened Validation
  import opened PrimitiveModel

  // ---------------------------------------------------------------- list keys

  /** The literal list keys. */
  lemma ListKeyValues()
    ensures ListKey(Image) == "images" && ListKey(Polygon) == "polygons"
    ensures ListKey(Polyline) == "polylines" && ListKey(Point) == "points"
    ensures ListKey(Circle) == "circles" && ListKey(Stadium) == "stadiums" && ListKey(Text) == "texts"
  {
  }

  /** The kind a list key belongs to; it inverts ListKey. */
  function KindOfListKey(key: string): Option<Kind>
  {
    if key == "images" then Some(Image)
    else if key == "polygons" then Some(Polygon)
    else if key == "polylines" then Some(Polyline)
    else if key == "points" then Some(Point)
    else if key == "circles" then Some(Circle)
    else if key == "stadiums" then Some(Stadium)
    else if key == "texts" then Some(Text)
    else None
  }

  /** Pluralising a kind loses nothing: primitives of different kinds land in different lists. */
  lemma ListKeyRoundTrip(k: Kind)
    ensures KindOfListKey(ListKey(k)) == Some(k)
  {
    ListKeyValues();
    match k
    case Image =>
    case Polygon => assert "polygons"[0] != "images"[0];
    case Polyline => assert "polylines"[0] != "images"[0] && "polylines"[4] != "polygons"[4];
    case Point => assert "points"[0] != "images"[0] && "points"[2] != "polygons"[2] && "points"[2] != "polylines"[2];
    case Circle => assert "circles"[0] != "images"[0] && "circles"[0] != "points"[0];
    case Stadium => assert "stadiums"[0] != "images"[0] && "stadiums"[0] != "polygons"[0];
    case Text => assert "texts"[0] != "images"[0] && "texts"[0] != "points"[0];
  }

  /** Different kinds never share a list. */
  lemma ListKeyInjective(a: Kind, b: Kind)
    requires ListKey(a) == ListKey(b)
    ensures a == b
  {
    ListKeyRoundTrip(a);
    ListKeyRoundTrip(b);
  }

  // ---------------------------------------------------------------- chains

  /** A chain of two calls. */
  lemma RunTwo(s: State, a: Call, b: Call)
    ensures Run(s, [a, b]) == if Apply(s, a).outcome.Fail? then Apply(s, a) else Apply(Apply(s, a).state, b)
  {
    var st := Apply(s, a);
    assert [a, b][0] == a && [a, b][1..] == [b];
    if st.outcome.Pass? {
      var t := Apply(st.state, b);
      assert [b][0] == b && [b][1..] == [];
      assert Run(st.state, [b]) == if t.outcome.Fail? then t else Run(t.state, []);
    }
  }

  // ---------------------------------------------------------------- implicit flush

  /**
   * A shape starter called while a primitive is pending commits exactly that
   * primitive, at the end of its list, before anything else happens.
   */
  lemma ImplicitFlushCommitsOne(s: State, c: Call)
    requires StartsShape(c) && s.slot.kind.Some? && s.streamId.Some? && Format(s.slot).Ok?
    ensures var sid, key := s.streamId.value, ListKey(s.slot.kind.value);
      && ListOf(Apply(s, c).state.primitives, sid, key) == ListOf(s.primitives, sid, key) + [Format(s.slot).value]
      && (forall s', k :: s' != sid || k != key ==>
            ListOf(Apply(s, c).state.primitives, s', k) == ListOf(s.primitives, s', k))
  {
  }

  /** The flush warning is advisory: the primitive is committed all the same. */
  lemma WarningStillCommits(s: State)
    requires s.slot.kind.Some? && s.streamId.Some? && Format(s.slot).Ok?
    requires FlushWarnings(s.slot, s.streamId) != []
    ensures FlushStep(s).outcome.Pass?
    ensures |FlushStep(s).state.warnings| == |s.warnings| + 1
    ensures ListOf(FlushStep(s).state.primitives, s.streamId.value, ListKey(s.slot.kind.value))
         == ListOf(s.primitives, s.streamId.value, ListKey(s.slot.kind.value)) + [Format(s.slot).value]
  {
  }

  // ---------------------------------------------------------------- append-only

  /** Every list of `a` is a prefix of the same list in `b`, and no stream disappears. */
  ghost predicate Grows(a: Collection, b: Collection)
  {
    && a.Keys <= b.Keys
    && (forall sid, k :: ListOf(a, sid, k) <= ListOf(b, sid, k))
  }

  /** Growth composes over consecutive calls. */
  lemma GrowsTransitive(a: Collection, b: Collection, c: Collection)
    requires Grows(a, b) && Grows(b, c)
    ensures Grows(a, c)
  {
    forall sid, k ensures ListOf(a, sid, k) <= ListOf(c, sid, k) {
      assert ListOf(a, sid, k) <= ListOf(b, sid, k);
      assert ListOf(b, sid, k) <= ListOf(c, sid, k);
    }
  }

  /** A flush, failing or not, keeps every committed list as a prefix. */
  lemma FlushGrows(s: State)
    requires s.slot.kind.Some?
    ensures Grows(s.primitives, FlushStep(s).state.primitives)
  {
    var t := s.(warnings := s.warnings + FlushWarnings(s.slot, s.streamId));
    if s.streamId.Some? {
      var sid, key := s.streamId.value, ListKey(s.slot.kind.value);
      if Format(s.slot).Ok? {
        var r := Append(s.primitives, sid, key, Format(s.slot).value);
        assert Commit(t).state.primitives == r;
        forall s', k ensures ListOf(s.primitives, s', k) <= ListOf(r, s', k) {
          if s' == sid && k == key {
            assert ListOf(r, s', k) == ListOf(s.primitives, s', k) + [Format(s.slot).value];
          }
        }
      }
    }
  }

  /** One call never removes or reorders a committed record. */
  lemma ApplyGrows(s: State, c: Call)
    ensures Grows(s.primitives, Apply(s, c).state.primitives)
  {
    if StartsShape(c) && s.slot.kind.Some? {
      FlushGrows(s);
    }
  }

  /** The collection is append-only over any chain of calls. */
  lemma {:induction false} RunGrows(s: State, calls: seq<Call>)
    ensures Grows(s.primitives, Run(s, calls).state.primitives)
    decreases |calls|
  {
    if calls != [] {
      var st := Apply(s, calls[0]);
      ApplyGrows(s, calls[0]);
      if st.outcome.Pass? {
        RunGrows(st.state, calls[1..]);
        GrowsTransitive(s.primitives, st.state.primitives, Run(st.state, calls[1..]).state.primitives);
      }
    }
  }

  // ---------------------------------------------------------------- call order

  /** The chain polygon(vss[0]).polygon(vss[1])... */
  function PolygonCalls(vss: seq<Vertices>): (calls: seq<Call>)
    ensures |calls| == |vss|
  {
    if vss == [] then [] else [PolygonCall(Some(vss[0]))] + PolygonCalls(vss[1..])
  }

  /** The records those polygons are committed as, in order. */
  function PolygonRecords(vss: seq<Vertices>): (rs: seq<Record>)
    ensures |rs| == |vss|
    ensures forall i :: 0 <= i < |vss| ==> rs[i] == Record(PathShape(Some(vss[i])), None)
  {
    seq(|vss|, i requires 0 <= i < |vss| => Record(PathShape(Some(vss[i])), None))
  }

  /** A pending polygon with nothing else set. */
  function PolygonSlot(vs: Vertices): Slot
  {
    EmptySlot.(kind := Some(Polygon), vertices := Some(vs))
  }

  /** Sequence concatenation regroups. */
  lemma ConcatAssociative<T>(a: seq<T>, b: seq<T>, c: seq<T>)
    ensures (a + b) + c == a + (b + c)
  {
  }

  /** polygon(v) with nothing pending and no vertices set starts the polygon. */
  lemma PolygonOnIdleSlot(s: State, v: Vertices)
    requires s.slot.kind.None? && s.slot.vertices.None?
    ensures Apply(s, PolygonCall(Some(v))) == Step(s.(slot := s.slot.(vertices := Some(v), kind := Some(Polygon))), Pass)
  {
    assert FlushIfPending(s) == Step(s, Pass);
  }

  /** get_data with polygon(v) pending commits it at the end of the stream's polygons. */
  lemma CollectPendingPolygon(t: State, v: Vertices)
    requires t.streamId.Some? && t.slot == PolygonSlot(v)
    ensures Collect(t).data.Ok? && Collect(t).data.value.Some?
    ensures Collect(t).data.value.value == Collect(t).state.primitives
    ensures ListOf(Collect(t).state.primitives, t.streamId.value, "polygons")
         == ListOf(t.primitives, t.streamId.value, "polygons") + [Record(PathShape(Some(v)), None)]
  {
    assert Format(t.slot) == Ok(Record(PathShape(Some(v)), None));
    CollectCommitsPending(t);
    CollectAfterCommitIsSome(t);
    ListKeyValues();
  }

  /** polygon(v) while polygon(prev) is pending commits prev and leaves v pending. */
  lemma PolygonAfterPolygon(s: State, prev: Vertices, v: Vertices)
    requires s.streamId.Some? && s.slot == PolygonSlot(prev)
    ensures Apply(s, PolygonCall(Some(v))) == Step(s.(slot := PolygonSlot(v),
      primitives := Append(s.primitives, s.streamId.value, ListKey(Polygon), Record(PathShape(Some(prev)), None))), Pass)
  {
    var rec := Record(PathShape(Some(prev)), None);
    assert Format(s.slot) == Ok(rec);
    var f := FlushStep(s);
    assert f.outcome.Pass? && f.state.slot == EmptySlot;
    assert f.state == s.(slot := EmptySlot, primitives := Append(s.primitives, s.streamId.value, ListKey(Polygon), rec));
  }

  /** The records of a chain, split after its first polygon. */
  lemma PolygonRecordsCons(ws: seq<Vertices>)
    requires |ws| > 1
    ensures PolygonRecords(ws[..|ws| - 1]) == [Record(PathShape(Some(ws[0])), None)] + PolygonRecords(ws[1..][..|ws| - 2])
  {
  }

  /** The records of a chain, split before its last polygon. */
  lemma PolygonRecordsSnoc(vss: seq<Vertices>)
    requires |vss| > 0
    ensures PolygonRecords(vss) == PolygonRecords(vss[..|vss| - 1]) + [Record(PathShape(Some(vss[|vss| - 1])), None)]
  {
  }

  /** A chain of polygon calls runs its first call, then the rest. */
  lemma RunPolygonsCons(s: State, ws: seq<Vertices>)
    requires |ws| > 1
    ensures Run(s, PolygonCalls(ws[1..])) ==
      if Apply(s, PolygonCall(Some(ws[1]))).outcome.Fail? then Apply(s, PolygonCall(Some(ws[1])))
      else Run(Apply(s, PolygonCall(Some(ws[1]))).state, PolygonCalls(ws[1..][1..]))
  {
    assert PolygonCalls(ws[1..])[0] == PolygonCall(Some(ws[1]));
    assert PolygonCalls(ws[1..])[1..] == PolygonCalls(ws[1..][1..]);
  }

  /** With a polygon pending, further polygons commit every earlier one in call order. */
  lemma {:induction false} PendingPolygonsInOrder(s: State, ws: seq<Vertices>)
    requires |ws| > 0 && s.streamId.Some? && s.slot == PolygonSlot(ws[0])
    ensures var r := Run(s, PolygonCalls(ws[1..]));
      && r.outcome.Pass?
      && r.state.streamId == s.streamId
      && r.state.slot == PolygonSlot(ws[|ws| - 1])
      && ListOf(r.state.primitives, s.streamId.value, ListKey(Polygon))
         == ListOf(s.primitives, s.streamId.value, ListKey(Polygon)) + PolygonRecords(ws[..|ws| - 1])
    decreases |ws|
  {
    if |ws| == 1 {
      assert ws[1..] == [] && ws[..0] == [];
      assert PolygonRecords([]) == [];
    } else {
      var sid, key := s.streamId.value, ListKey(Polygon);
      var rec := Record(PathShape(Some(ws[0])), None);
      var t := s.(slot := PolygonSlot(ws[1]), primitives := Append(s.primitives, sid, key, rec));
      PolygonAfterPolygon(s, ws[0], ws[1]);
      RunPolygonsCons(s, ws);
      assert Run(s, PolygonCalls(ws[1..])) == Run(t, PolygonCalls(ws[1..][1..]));
      PendingPolygonsInOrder(t, ws[1..]);
      PolygonRecordsCons(ws);
      var A := ListOf(s.primitives, sid, key);
      var B := PolygonRecords(ws[1..][..|ws| - 2]);
      assert ListOf(t.primitives, sid, key) == A + [rec];
      ConcatAssociative(A, [rec], B);
    }
  }

  /**
   * polygon(vss[0])...polygon(vss[n-1]) on one stream, then get_data: the
   * stream's polygon list gains exactly those records, in call order.
   */
  lemma PolygonsKeepCallOrder(s: State, vss: seq<Vertices>)
    requires |vss| > 0 && s.streamId.Some? && s.slot == EmptySlot
    ensures var d := Collect(Run(s, PolygonCalls(vss)).state);
      && Run(s, PolygonCalls(vss)).outcome.Pass?
      && d.data.Ok?
      && ListOf(d.state.primitives, s.streamId.value, "polygons")
         == ListOf(s.primitives, s.streamId.value, "polygons") + PolygonRecords(vss)
  {
    ListKeyValues();
    var sid, key := s.streamId.value, ListKey(Polygon);
    var t := s.(slot := PolygonSlot(vss[0]));
    PolygonOnIdleSlot(s, vss[0]);
    assert PolygonCalls(vss)[0] == PolygonCall(Some(vss[0])) && PolygonCalls(vss)[1..] == PolygonCalls(vss[1..]);
    var r := Run(t, PolygonCalls(vss[1..]));
    assert Run(s, PolygonCalls(vss)) == r;
    PendingPolygonsInOrder(t, vss);
    var last := Record(PathShape(Some(vss[|vss| - 1])), None);
    assert Format(r.state.slot) == Ok(last);
    CollectCommitsPending(r.state);
    var A := ListOf(s.primitives, sid, key);
    var B := PolygonRecords(vss[..|vss| - 1]);
    var C := Collect(r.state).state.primitives;
    assert ListOf(C, sid, key) == (A + B) + [last];
    PolygonRecordsSnoc(vss);
    ConcatAssociative(A, B, [last]);
  }

  // ---------------------------------------------------------------- guards as written

  /** position, colors, id and classes succeed once and then raise until the next flush. */
  lemma ModifiersAreSetOnce(s: State, c: Call, c': Call)
    requires c.PositionCall? || c.ColorsCall? || c.IdCall? || c.ClassesCall?
    requires (c.PositionCall? && c'.PositionCall?) || (c.ColorsCall? && c'.ColorsCall?)
          || (c.IdCall? && c'.IdCall?) || (c.ClassesCall? && c'.ClassesCall?)
    requires Apply(s, c).outcome.Pass?
    ensures Apply(Apply(s, c).state, c').outcome.Fail?
    ensures Apply(Apply(s, c).state, c').state == Apply(s, c).state
  {
  }

  /** style() never trips its set-once check: `_style` is never written. */
  lemma StyleIsNotSetOnce(s: State, a: Style, b: Style)
    requires s.slot.kind.None? && s.slot.style.None?
    ensures Apply(s, StyleCall(a)).outcome.Pass?
    ensures Apply(Apply(s, StyleCall(a)).state, StyleCall(b)).outcome.Pass?
    ensures Apply(Apply(s, StyleCall(a)).state, StyleCall(b)).state == s.(stype := Some(b))
  {
  }

  /** style, id and classes raise while a shape is pending, and only then for that reason. */
  lemma MetadataRequiresNoPendingShape(s: State, c: Call)
    requires c.StyleCall? || c.IdCall? || c.ClassesCall?
    ensures s.slot.kind.Some? ==> Apply(s, c) == Step(s, Fail(ShapeAlreadyPending))
    ensures s.slot.kind.None? ==> Apply(s, c).outcome != Fail(ShapeAlreadyPending)
  {
  }

  /** image() raises for every payload; a pending primitive is flushed first. */
  lemma ImageAlwaysRaises(s: State, d: ImageData)
    ensures ImageTypeRejected(d)
    ensures Apply(s, ImageCall(d)).outcome.Fail?
    ensures FlushIfPending(s).outcome.Pass? ==>
      Apply(s, ImageCall(d)) == Step(FlushIfPending(s).state, Fail(UnsupportedImageData))
  {
  }

  /** A malformed stadium raises after the implicit flush and starts no primitive. */
  lemma StadiumArityCommitsNothing(s: State, start: Vertex, end: Vertex, radius: Scalar)
    requires |start| != 3 || |end| != 3
    ensures var st := Apply(s, StadiumCall(start, end, radius));
      && st.outcome.Fail?
      && st.state == FlushIfPending(s).state
      && (FlushIfPending(s).outcome.Pass? && FlushIfPending(s).state.slot.radius.None? ==>
            st.outcome == Fail(if |start| != 3 then MalformedStart else MalformedEnd))
  {
  }

  /** text() sets no vertices, so committing it without position() raises. */
  lemma TextNeedsPosition(s: State, message: string)
    requires s.streamId.Some? && s.slot == EmptySlot
    ensures var t := Apply(s, TextCall(message)).state;
      && Collect(t).data == Err(VertexMissing(Text))
      && Collect(t).state.slot == t.slot
      && Collect(t).state.slot.kind == Some(Text)
      && ListOf(Collect(t).state.primitives, s.streamId.value, "texts")
         == ListOf(s.primitives, s.streamId.value, "texts")
  {
    var t := Apply(s, TextCall(message)).state;
    assert t == s.(slot := EmptySlot.(text := Some(message), kind := Some(Text)));
    assert Format(t.slot) == Err(VertexMissing(Text));
  }

  /** get_data on a pending primitive that formats commits exactly that record. */
  lemma CollectCommitsPending(t: State)
    requires t.slot.kind.Some? && t.streamId.Some? && Format(t.slot).Ok?
    ensures Collect(t).data.Ok?
    ensures ListOf(Collect(t).state.primitives, t.streamId.value, ListKey(t.slot.kind.value))
         == ListOf(t.primitives, t.streamId.value, ListKey(t.slot.kind.value)) + [Format(t.slot).value]
  {
  }

  /** text() with nothing pending starts the text and sets no vertices. */
  lemma TextOnEmptySlot(s: State, message: string)
    requires s.slot == EmptySlot
    ensures Apply(s, TextCall(message)) == Step(s.(slot := EmptySlot.(text := Some(message), kind := Some(Text))), Pass)
  {
    assert FlushIfPending(s) == Step(s, Pass);
  }

  /** position() with no vertices set and three coordinates sets the single vertex. */
  lemma PositionOnFreeSlot(s: State, p: Vertex)
    requires s.slot.vertices.None? && |p| == 3
    ensures Apply(s, PositionCall(p)) == Step(s.(slot := s.slot.(vertices := Some([p]))), Pass)
  {
  }

  /** text() followed by position() commits the text at that position. */
  lemma TextAfterPosition(s: State, message: string, p: Vertex)
    requires s.streamId.Some? && s.slot == EmptySlot && |p| == 3
    ensures var r := Run(s, [TextCall(message), PositionCall(p)]);
      && r.outcome.Pass?
      && Collect(r.state).data.Ok?
      && ListOf(Collect(r.state).state.primitives, s.streamId.value, "texts")
         == ListOf(s.primitives, s.streamId.value, "texts") + [Record(TextShape(p, Some(message)), None)]
  {
    var t := s.(slot := EmptySlot.(text := Some(message), kind := Some(Text)));
    TextOnEmptySlot(s, message);
    var u := t.(slot := t.slot.(vertices := Some([p])));
    PositionOnFreeSlot(t, p);
    RunTwo(s, TextCall(message), PositionCall(p));
    assert Format(u.slot) == Ok(Record(TextShape(p, Some(message)), None));
    CollectCommitsPending(u);
    ListKeyValues();
  }

  /** id() with nothing pending and no id set records the id. */
  lemma IdOnIdleSlot(s: State, id: string)
    requires s.slot.kind.None? && s.slot.objectId.None?
    ensures Apply(s, IdCall(id)) == Step(s.(slot := s.slot.(objectId := Some(id))), Pass)
  {
  }

  /** id() before a shape passes the inverted prerequisite and lands on the next shape. */
  lemma IdBeforeShapeAttachesToIt(s: State, id: string, vs: Vertices)
    requires s.streamId.Some? && s.slot == EmptySlot && |id| > 0
    ensures var r := Run(s, [IdCall(id), PolygonCall(Some(vs))]);
      && r.outcome.Pass?
      && Collect(r.state).data.Ok?
      && ListOf(Collect(r.state).state.primitives, s.streamId.value, "polygons")
         == ListOf(s.primitives, s.streamId.value, "polygons")
            + [Record(PathShape(Some(vs)), Some(Base(Some(id), None, None)))]
  {
    var t := s.(slot := EmptySlot.(objectId := Some(id)));
    IdOnIdleSlot(s, id);
    var u := t.(slot := t.slot.(vertices := Some(vs), kind := Some(Polygon)));
    PolygonOnIdleSlot(t, vs);
    RunTwo(s, IdCall(id), PolygonCall(Some(vs)));
    assert Format(u.slot) == Ok(Record(PathShape(Some(vs)), Some(Base(Some(id), None, None))));
    CollectCommitsPending(u);
    ListKeyValues();
  }

  /** circle(center, radius) commits a circle record without a base. */
  lemma CircleCommitsWithoutBase(s: State, center: Vertex, radius: Scalar)
    requires s.streamId.Some? && s.slot == EmptySlot && |center| == 3
    ensures var st := Apply(s, CircleCall(center, radius));
      && st.outcome.Pass?
      && Collect(st.state).data.Ok?
      && ListOf(Collect(st.state).state.primitives, s.streamId.value, "circles")
         == ListOf(s.primitives, s.streamId.value, "circles") + [Record(CircleShape(center, Some(radius)), None)]
  {
    var u := s.(slot := EmptySlot.(vertices := Some([center]), radius := Some(radius), kind := Some(Circle)));
    assert FlushIfPending(s) == Step(s, Pass);
    assert SetPosition(s, center) == Step(s.(slot := EmptySlot.(vertices := Some([center]))), Pass);
    assert Apply(s, CircleCall(center, radius)) == Step(u, Pass);
    assert Format(u.slot) == Ok(Record(CircleShape(center, Some(radius)), None));
    CollectCommitsPending(u);
    ListKeyValues();
  }

  /**
   * stadium(...).id(...) raises as written: the inverted prerequisite rejects
   * id() while the stadium is pending, and the stadium stays pending.
   */
  lemma StadiumThenIdRaises(s: State, start: Vertex, end: Vertex, radius: Scalar, id: string)
    requires s.slot == EmptySlot && |start| == 3 && |end| == 3
    ensures var r := Run(s, [StadiumCall(start, end, radius), IdCall(id)]);
      && r.outcome == Fail(ShapeAlreadyPending)
      && r.state.slot == EmptySlot.(vertices := Some([start, end]), radius := Some(radius), kind := Some(Stadium))
  {
    var u := s.(slot := EmptySlot.(vertices := Some([start, end]), radius := Some(radius), kind := Some(Stadium)));
    assert FlushIfPending(s) == Step(s, Pass);
    assert Apply(s, StadiumCall(start, end, radius)) == Step(u, Pass);
    assert Apply(u, IdCall(id)) == Step(u, Fail(ShapeAlreadyPending));
    RunTwo(s, StadiumCall(start, end, radius), IdCall(id));
  }

  // ---------------------------------------------------------------- paths and vertices

  /** The kind a path starter begins. */
  function PathKind(c: Call): Kind
    requires c.PolygonCall? || c.PolylineCall? || c.PointsCall?
  {
    if c.PolygonCall? then Polygon else if c.PolylineCall? then Polyline else Point
  }

  /**
   * polygon, polyline or points with nothing pending and no vertices set passes
   * and stores exactly the vertices as given (None included) and the kind.
   */
  lemma PathOnIdleSlot(s: State, c: Call)
    requires c.PolygonCall? || c.PolylineCall? || c.PointsCall?
    requires s.slot.kind.None? && s.slot.vertices.None?
    ensures Apply(s, c) == Step(s.(slot := s.slot.(vertices := c.vertices, kind := Some(PathKind(c)))), Pass)
  {
    assert FlushIfPending(s) == Step(s, Pass);
  }

  /**
   * With nothing pending but vertices already set (by position()), a path
   * starter or a circle raises a set-once check and changes nothing: the
   * `_vertices` check, or for a circle with a radius set the `_radius` check.
   */
  lemma VerticesSetOnce(s: State, c: Call)
    requires c.PolygonCall? || c.PolylineCall? || c.PointsCall? || c.CircleCall?
    requires s.slot.kind.None? && s.slot.vertices.Some?
    ensures Apply(s, c).state == s
    ensures c.CircleCall? && s.slot.radius.Some? ==> Apply(s, c).outcome == Fail(AlreadySet(RadiusField))
    ensures !(c.CircleCall? && s.slot.radius.Some?) ==> Apply(s, c).outcome == Fail(AlreadySet(VerticesField))
  {
    assert FlushIfPending(s) == Step(s, Pass);
  }

  /** position(p).polygon(v) raises the `_vertices` check of polygon; the position stays set. */
  lemma PositionThenPolygonRaises(s: State, p: Vertex, v: Option<Vertices>)
    requires s.slot == EmptySlot && |p| == 3
    ensures Run(s, [PositionCall(p), PolygonCall(v)])
         == Step(s.(slot := EmptySlot.(vertices := Some([p]))), Fail(AlreadySet(VerticesField)))
  {
    PositionOnFreeSlot(s, p);
    var t := s.(slot := EmptySlot.(vertices := Some([p])));
    VerticesSetOnce(t, PolygonCall(v));
    RunTwo(s, PositionCall(p), PolygonCall(v));
  }

  /**
   * A circle whose centre does not have three coordinates raises from within
   * position() after the implicit flush, and starts no primitive.
   */
  lemma CircleNeedsThreeCoordinates(s: State, center: Vertex, radius: Scalar)
    requires |center| != 3
    ensures var st, f := Apply(s, CircleCall(center, radius)), FlushIfPending(s);
      && st.outcome.Fail?
      && st.state == f.state
      && (f.outcome.Pass? && f.state.slot.radius.None? && f.state.slot.vertices.None? ==>
            st.outcome == Fail(MalformedPosition))
  {
  }

  /**
   * polygon(None) warns at the flush and still commits: get_data logs one
   * VerticesMissing warning for the stream and appends a polygon without vertices.
   */
  lemma PolygonWithoutVerticesWarnsAndCommits(s: State)
    requires s.streamId.Some? && s.slot == EmptySlot
    ensures var st := Apply(s, PolygonCall(None));
      && st.outcome.Pass?
      && Collect(st.state).data.Ok?
      && Collect(st.state).state.warnings == s.warnings + [VerticesMissing(s.streamId)]
      && ListOf(Collect(st.state).state.primitives, s.streamId.value, "polygons")
         == ListOf(s.primitives, s.streamId.value, "polygons") + [Record(PathShape(None), None)]
  {
    var u := s.(slot := EmptySlot.(kind := Some(Polygon)));
    PathOnIdleSlot(s, PolygonCall(None));
    assert Apply(s, PolygonCall(None)) == Step(u, Pass);
    assert FlushWarnings(u.slot, u.streamId) == [VerticesMissing(s.streamId)];
    assert Format(u.slot) == Ok(Record(PathShape(None), None));
    WarningStillCommits(u);
    ListKeyValues();
  }

  // ---------------------------------------------------------------- starters after a flush

  /**
   * A shape starter whose implicit flush passes behaves as the same call on
   * the flushed state, which has nothing pending: the empty slot after a
   * commit, or the slot as it was when nothing was pending.
   */
  lemma StarterAfterFlush(s: State, c: Call)
    requires StartsShape(c) && FlushIfPending(s).outcome.Pass?
    ensures FlushIfPending(s).state.slot.kind.None?
    ensures s.slot.kind.Some? ==> FlushIfPending(s).state.slot == EmptySlot
    ensures s.slot.kind.None? ==> FlushIfPending(s).state == s
    ensures Apply(s, c) == Apply(FlushIfPending(s).state, c)
  {
  }

  /** circle with nothing pending and neither radius nor vertices set starts the circle. */
  lemma CircleOnIdleSlot(s: State, center: Vertex, radius: Scalar)
    requires s.slot.kind.None? && s.slot.radius.None? && s.slot.vertices.None? && |center| == 3
    ensures Apply(s, CircleCall(center, radius))
         == Step(s.(slot := s.slot.(vertices := Some([center]), radius := Some(radius), kind := Some(Circle))), Pass)
  {
    assert FlushIfPending(s) == Step(s, Pass);
  }

  /**
   * stadium with nothing pending, no radius set and two three-coordinate
   * points starts the stadium; it overwrites any vertices, as it has no
   * `_vertices` check.
   */
  lemma StadiumOnIdleSlot(s: State, start: Vertex, end: Vertex, radius: Scalar)
    requires s.slot.kind.None? && s.slot.radius.None? && |start| == 3 && |end| == 3
    ensures Apply(s, StadiumCall(start, end, radius))
         == Step(s.(slot := s.slot.(vertices := Some([start, end]), radius := Some(radius), kind := Some(Stadium))), Pass)
  {
    assert FlushIfPending(s) == Step(s, Pass);
  }

  /** text with nothing pending and no text set sets exactly the text and the kind. */
  lemma TextOnIdleSlot(s: State, message: string)
    requires s.slot.kind.None? && s.slot.text.None?
    ensures Apply(s, TextCall(message)) == Step(s.(slot := s.slot.(text := Some(message), kind := Some(Text))), Pass)
  {
    assert FlushIfPending(s) == Step(s, Pass);
  }

  // ---------------------------------------------------------------- get_data

  /** A second get_data with nothing pending returns the same and changes nothing. */
  lemma CollectIdempotent(s: State)
    requires Collect(s).data.Ok?
    ensures Collect(Collect(s).state) == Collect(s)
  {
  }

  /** A successful flush leaves a non-empty collection, so get_data then returns it. */
  lemma CollectAfterCommitIsSome(s: State)
    requires s.slot.kind.Some? && Collect(s).data.Ok?
    ensures Collect(s).data.value.Some?
  {
    var f := FlushStep(s);
    assert s.streamId.value in f.state.primitives;
  }

  // ---------------------------------------------------------------- reachable states

  /** A record whose base carries no style. */
  predicate Unstyled(r: Record)
  {
    r.base.None? || r.base.value.style.None?
  }


  /**
   * What holds of the pending slot in every state a builder reaches from
   * construction: no image is ever pending, `_style` stays None, and text and
   * radius are only ever set together with their kind.
   */
  predicate SlotInvariant(slot: Slot)
  {
    && slot.image.None? && slot.kind != Some(Image) && slot.style.None?
    && (slot.text.Some? ==> slot.kind == Some(Text))
    && (slot.radius.Some? ==> slot.kind == Some(Circle) || slot.kind == Some(Stadium))
  }

  /** What holds of the collection: no image list, and no committed base has a style. */
  ghost predicate CollectionInvariant(c: Collection)
  {
    && (forall sid :: sid in c ==> ListKey(Image) !in c[sid])
    && (forall sid, k, i :: 0 <= i < |ListOf(c, sid, k)| ==> Unstyled(ListOf(c, sid, k)[i]))
  }

  /** Every state a builder reaches from construction. */
  ghost predicate Reachable(s: State)
  {
    SlotInvariant(s.slot) && CollectionInvariant(s.primitives)
  }

  /** A fresh builder is reachable. */
  lemma InitialReachable()
    ensures Reachable(Initial)
  {
  }

  /** A flush keeps the invariant: the committed record has no style and is never an image. */
  lemma CommitKeepsReachable(s: State)
    requires Reachable(s) && s.slot.kind.Some?
    ensures Reachable(FlushStep(s).state)
  {
    var f := FlushStep(s);
    if s.streamId.Some? {
      var sid, key := s.streamId.value, ListKey(s.slot.kind.value);
      if key == ListKey(Image) {
        ListKeyInjective(s.slot.kind.value, Image);
      }
      if Format(s.slot).Ok? {
        assert Unstyled(Format(s.slot).value);
        forall s', k, i | 0 <= i < |ListOf(f.state.primitives, s', k)|
          ensures Unstyled(ListOf(f.state.primitives, s', k)[i])
        {
          if s' == sid && k == key && i == |ListOf(s.primitives, sid, key)| {
            assert ListOf(f.state.primitives, s', k)[i] == Format(s.slot).value;
          } else if s' == sid && k == key {
            assert ListOf(f.state.primitives, s', k)[i] == ListOf(s.primitives, s', k)[i];
          }
        }
      }
    }
  }

  /** Every call keeps the invariant. */
  lemma ApplyKeepsReachable(s: State, c: Call)
    requires Reachable(s)
    ensures Reachable(Apply(s, c).state)
  {
    if StartsShape(c) && s.slot.kind.Some? {
      CommitKeepsReachable(s);
    }
  }

  /** Every chain of calls keeps the invariant. */
  lemma {:induction false} RunKeepsReachable(s: State, calls: seq<Call>)
    requires Reachable(s)
    ensures Reachable(Run(s, calls).state)
    decreases |calls|
  {
    if calls != [] {
      ApplyKeepsReachable(s, calls[0]);
      if Apply(s, calls[0]).outcome.Pass? {
        RunKeepsReachable(Apply(s, calls[0]).state, calls[1..]);
      }
    }
  }

  /**
   * From construction, whatever the chain of calls: no image list exists, no
   * committed record has `base.style`, and dimensions() always raises.
   */
  lemma NoImageNoStyleEver(calls: seq<Call>, w: Option<Scalar>, h: Option<Scalar>)
    ensures var s := Run(Initial, calls).state;
      && (forall sid :: sid in s.primitives ==> "images" !in s.primitives[sid])
      && (forall sid, k, i :: 0 <= i < |ListOf(s.primitives, sid, k)| ==> Unstyled(ListOf(s.primitives, sid, k)[i]))
      && Apply(s, DimensionsCall(w, h)) == Step(s, Fail(ImageNotStarted))
  {
    InitialReachable();
    RunKeepsReachable(Initial, calls);
    ListKeyValues();
  }

  /**
   * After the implicit flush of a reachable state, the flush itself failed for
   * a reason other than a set-once field, or it left radius and text unset.
   */
  lemma FlushLeavesNoSetOnceField(s: State)
    requires SlotInvariant(s.slot)
    ensures var f := FlushIfPending(s);
      && (f.outcome.Fail? ==> f.outcome.error in {StreamNotSelected, ImageMissing, VertexMissing(s.slot.kind.value)})
      && (f.outcome.Pass? ==> f.state.slot.radius.None? && f.state.slot.text.None?)
  {
  }

  /** The outcome is not the set-once error of `_radius`, `_text` or `_style`. */
  predicate NotSetOnceGuard(o: Outcome<Error>)
  {
    o != Fail(AlreadySet(RadiusField)) && o != Fail(AlreadySet(TextField)) && o != Fail(AlreadySet(StyleField))
  }

  /** circle() never raises for `_radius` or `_text` from a reachable slot. */
  lemma CircleSetOnceGuards(s: State, p: Vertex, r: Scalar)
    requires SlotInvariant(s.slot)
    ensures NotSetOnceGuard(StartCircle(s, p, r).outcome)
  {
    FlushLeavesNoSetOnceField(s);
  }

  /** stadium() never raises for `_radius` or `_text` from a reachable slot. */
  lemma StadiumSetOnceGuards(s: State, a: Vertex, b: Vertex, r: Scalar)
    requires SlotInvariant(s.slot)
    ensures NotSetOnceGuard(StartStadium(s, a, b, r).outcome)
  {
    FlushLeavesNoSetOnceField(s);
  }

  /** text() never raises for `_text` from a reachable slot. */
  lemma TextSetOnceGuards(s: State, m: string)
    requires SlotInvariant(s.slot)
    ensures NotSetOnceGuard(StartText(s, m).outcome)
  {
    FlushLeavesNoSetOnceField(s);
  }

  /** polygon, polyline and points never raise these guards. */
  lemma PathSetOnceGuards(s: State, vs: Option<Vertices>, k: Kind)
    requires SlotInvariant(s.slot)
    ensures NotSetOnceGuard(StartPath(s, vs, k).outcome)
  {
    FlushLeavesNoSetOnceField(s);
  }

  /** image() never raises these guards. */
  lemma ImageSetOnceGuards(s: State, d: ImageData)
    requires SlotInvariant(s.slot)
    ensures NotSetOnceGuard(StartImage(s, d).outcome)
  {
    FlushLeavesNoSetOnceField(s);
  }

  /** No shape starter raises these guards from a reachable slot. */
  lemma StarterSetOnceGuards(s: State, c: Call)
    requires SlotInvariant(s.slot) && StartsShape(c)
    ensures NotSetOnceGuard(Apply(s, c).outcome)
  {
    match c
    case ImageCall(d) => ImageSetOnceGuards(s, d);
    case PolygonCall(vs) => PathSetOnceGuards(s, vs, Polygon);
    case PolylineCall(vs) => PathSetOnceGuards(s, vs, Polyline);
    case PointsCall(vs) => PathSetOnceGuards(s, vs, Point);
    case CircleCall(p, r) => CircleSetOnceGuards(s, p, r);
    case StadiumCall(a, b, r) => StadiumSetOnceGuards(s, a, b, r);
    case TextCall(m) => TextSetOnceGuards(s, m);
  }

  /** No modifier raises these guards from a reachable slot; style() finds `_style` unset. */
  lemma ModifierSetOnceGuards(s: State, c: Call)
    requires SlotInvariant(s.slot) && !StartsShape(c)
    ensures NotSetOnceGuard(Apply(s, c).outcome)
  {
  }

  /** In a reachable state the set-once guards of circle, stadium, text and style never fire. */
  lemma UnreachableSetOnceGuards(s: State, c: Call)
    requires SlotInvariant(s.slot)
    ensures Apply(s, c).outcome != Fail(AlreadySet(RadiusField))
    ensures Apply(s, c).outcome != Fail(AlreadySet(TextField))
    ensures Apply(s, c).outcome != Fail(AlreadySet(StyleField))
  {
    if StartsShape(c) {
      StarterSetOnceGuards(s, c);
    } else {
      ModifierSetOnceGuards(s, c);
    }
  }
}
