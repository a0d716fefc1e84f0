/**
 * XVIZPrimitiveBuilder: the fields of the pending primitive, the stream id,
 * the nested collection and the warning log, updated in place by the chained
 * calls.  Each method is proved to perform the transition of PrimitiveModel
 * for its call, outcome included; a call that raises returns `Fail` and keeps
 * what it changed before the failing check.
 */
module PrimitiveBuilding {
  import opened Wrappers
  import opened Validation
  import opened PrimitiveModel

  class PrimitiveBuilder {
    // the pending primitive
    var kind: Option<Kind>
    var image: Option<ImageRecord>
    var vertices: Option<Vertices>
    var radius: Option<Scalar>
    var text: Option<string>
    var colors: Option<seq<Color>>
    var objectId: Option<string>
    var style: Option<Style>
    var classes: Option<seq<string>>
    // the attribute style() writes to; reset() leaves it alone
    var stype: Option<Style>
    // per-builder bookkeeping
    var streamId: Option<string>
    var primitives: Collection
    var warnings: seq<Warning>

    /** The pending primitive as a value. */
    function Pending(): Slot
      reads this
    {
      Slot(kind, image, vertices, radius, text, colors, objectId, style, classes)
    }

    /** The whole builder as a value. */
    function View(): State
      reads this
    {
      State(Pending(), stype, streamId, primitives, warnings)
    }

    constructor ()
      ensures View() == Initial
    {
      primitives := map[];
      stype, streamId, warnings := None, None, [];
      kind, image, vertices, radius, text, colors, objectId, style, classes :=
        None, None, None, None, None, None, None, None, None;
    }

    /** Clears every pending field; the collection, stream id and `stype` are kept. */
    method Reset()
      modifies this
      ensures Pending() == EmptySlot
      ensures stype == old(stype) && streamId == old(streamId) && primitives == old(primitives) && warnings == old(warnings)
    {
      kind, image, vertices, radius, text, colors, objectId, style, classes :=
        None, None, None, None, None, None, None, None, None;
    }

    /** Selects the stream later primitives are committed to. */
    method Stream(id: string) returns (b: PrimitiveBuilder)
      modifies this
      ensures b == this
      ensures View() == Apply(old(View()), StreamCall(id)).state
    {
      streamId := Some(id);
      b := this;
    }

    /** Records the warning for a primitive without payload or vertices. */
    method Validate()
      requires kind.Some?
      modifies this
      ensures View() == old(View()).(warnings := old(warnings) + FlushWarnings(old(Pending()), streamId))
    {
      if kind.value == Kind.Image {
        if image.None? || image.value.data == NoneValue {
          warnings := warnings + [ImageDataMissing(streamId)];
        }
      } else if vertices.None? {
        warnings := warnings + [VerticesMissing(streamId)];
      }
    }

    /** Appends the formatted primitive to its stream's list and resets the slot. */
    method FlushPrimitives() returns (r: Outcome<Error>)
      requires kind.Some?
      modifies this
      ensures Step(View(), r) == Commit(old(View()))
    {
      if streamId.None? {
        return Fail(StreamNotSelected);
      }
      var sid := streamId.value;
      var key := ListKey(kind.value);
      primitives := WithList(primitives, sid, key);
      var obj := Format(Pending());
      if obj.Err? {
        return Fail(obj.error);
      }
      primitives := primitives[sid := primitives[sid][key := primitives[sid][key] + [obj.value]]];
      Reset();
      r := Pass;
    }

    /** Validates and commits the pending primitive. */
    method Flush() returns (r: Outcome<Error>)
      requires kind.Some?
      modifies this
      ensures Step(View(), r) == FlushStep(old(View()))
    {
      Validate();
      r := FlushPrimitives();
    }

    /** Adds an image; every payload fails the type test, after the implicit flush. */
    method Image(data: ImageData) returns (r: Outcome<Error>)
      modifies this
      ensures Step(View(), r) == Apply(old(View()), ImageCall(data))
    {
      if kind.Some? {
        r := Flush();
        if r.Fail? { return; }
      }
      assert ImageTypeRejected(data);
      r := Fail(UnsupportedImageData);
    }

    /** Sets the pixel dimensions of the pending image. */
    method Dimensions(widthPx: Option<Scalar> := None, heightPx: Option<Scalar> := None) returns (r: Outcome<Error>)
      modifies this
      ensures Step(View(), r) == Apply(old(View()), DimensionsCall(widthPx, heightPx))
    {
      if image.None? {
        return Fail(ImageNotStarted);
      }
      image := Some(image.value.(dims := Some(Dims(widthPx, heightPx))));
      r := Pass;
    }

    /** Starts a polygon. */
    method Polygon(vs: Option<Vertices>) returns (r: Outcome<Error>)
      modifies this
      ensures Step(View(), r) == Apply(old(View()), PolygonCall(vs))
    {
      ghost var s0 := View();
      assert Apply(s0, PolygonCall(vs)) == StartPath(s0, vs, Kind.Polygon);
      if kind.Some? {
        r := Flush();
        if r.Fail? { return; }
      }
      ghost var f := View();
      assert FlushIfPending(s0) == Step(f, Pass);
      if vertices.Some? {
        return Fail(AlreadySet(VerticesField));
      }
      vertices := vs;
      kind := Some(Kind.Polygon);
      r := Pass;
    }

    /** Starts a polyline. */
    method Polyline(vs: Option<Vertices>) returns (r: Outcome<Error>)
      modifies this
      ensures Step(View(), r) == Apply(old(View()), PolylineCall(vs))
    {
      ghost var s0 := View();
      assert Apply(s0, PolylineCall(vs)) == StartPath(s0, vs, Kind.Polyline);
      if kind.Some? {
        r := Flush();
        if r.Fail? { return; }
      }
      ghost var f := View();
      assert FlushIfPending(s0) == Step(f, Pass);
      if vertices.Some? {
        return Fail(AlreadySet(VerticesField));
      }
      vertices := vs;
      kind := Some(Kind.Polyline);
      r := Pass;
    }

    /** Starts a point cloud. */
    method Points(vs: Option<Vertices>) returns (r: Outcome<Error>)
      modifies this
      ensures Step(View(), r) == Apply(old(View()), PointsCall(vs))
    {
      ghost var s0 := View();
      assert Apply(s0, PointsCall(vs)) == StartPath(s0, vs, Kind.Point);
      if kind.Some? {
        r := Flush();
        if r.Fail? { return; }
      }
      ghost var f := View();
      assert FlushIfPending(s0) == Step(f, Pass);
      if vertices.Some? {
        return Fail(AlreadySet(VerticesField));
      }
      vertices := vs;
      kind := Some(Kind.Point);
      r := Pass;
    }

    /** Starts a circle at `center`, set through Position. */
    method Circle(center: Vertex, rad: Scalar) returns (r: Outcome<Error>)
      modifies this
      ensures Step(View(), r) == Apply(old(View()), CircleCall(center, rad))
    {
      ghost var s0 := View();
      assert Apply(s0, CircleCall(center, rad)) == StartCircle(s0, center, rad);
      if kind.Some? {
        r := Flush();
        if r.Fail? { return; }
      }
      ghost var f := View();
      assert FlushIfPending(s0) == Step(f, Pass);
      if radius.Some? {
        return Fail(AlreadySet(RadiusField));
      }
      r := Position(center);
      if r.Fail? { return; }
      radius := Some(rad);
      kind := Some(Kind.Circle);
    }

    /** Starts a stadium from `start` to `end`. */
    method Stadium(start: Vertex, end: Vertex, rad: Scalar) returns (r: Outcome<Error>)
      modifies this
      ensures Step(View(), r) == Apply(old(View()), StadiumCall(start, end, rad))
    {
      ghost var s0 := View();
      assert Apply(s0, StadiumCall(start, end, rad)) == StartStadium(s0, start, end, rad);
      if kind.Some? {
        r := Flush();
        if r.Fail? { return; }
      }
      ghost var f := View();
      assert FlushIfPending(s0) == Step(f, Pass);
      if radius.Some? {
        return Fail(AlreadySet(RadiusField));
      }
      if |start| != 3 {
        return Fail(MalformedStart);
      }
      if |end| != 3 {
        return Fail(MalformedEnd);
      }
      vertices := Some([start, end]);
      radius := Some(rad);
      kind := Some(Kind.Stadium);
      r := Pass;
    }

    /** Starts a text primitive; it sets no vertices. */
    method Text(message: string) returns (r: Outcome<Error>)
      modifies this
      ensures Step(View(), r) == Apply(old(View()), TextCall(message))
    {
      ghost var s0 := View();
      assert Apply(s0, TextCall(message)) == StartText(s0, message);
      if kind.Some? {
        r := Flush();
        if r.Fail? { return; }
      }
      if text.Some? {
        return Fail(AlreadySet(TextField));
      }
      text := Some(message);
      kind := Some(Kind.Text);
      r := Pass;
    }

    /** Sets the single vertex of the pending primitive. */
    method Position(point: Vertex) returns (r: Outcome<Error>)
      modifies this
      ensures Step(View(), r) == Apply(old(View()), PositionCall(point))
    {
      if vertices.Some? {
        return Fail(AlreadySet(VerticesField));
      }
      if |point| != 3 {
        return Fail(MalformedPosition);
      }
      vertices := Some([point]);
      r := Pass;
    }

    /** Sets the colours of the pending primitive. */
    method Colors(colorArray: seq<Color>) returns (r: Outcome<Error>)
      modifies this
      ensures Step(View(), r) == Apply(old(View()), ColorsCall(colorArray))
    {
      if colors.Some? {
        return Fail(AlreadySet(ColorsField));
      }
      colors := Some(colorArray);
      r := Pass;
    }

    /** The prerequisite check of style, id and classes. */
    method ValidatePrerequisite() returns (r: Outcome<Error>)
      ensures r == Prerequisite(kind)
      ensures r.Fail? <==> kind.Some?
    {
      if kind.Some? {
        return Fail(ShapeAlreadyPending);
      }
      r := Pass;
    }

    /** Records a style; it is stored in `stype`, never in the pending `style`. */
    method Style(st: Style) returns (r: Outcome<Error>)
      modifies this
      ensures Step(View(), r) == Apply(old(View()), StyleCall(st))
    {
      r := ValidatePrerequisite();
      if r.Fail? { return; }
      if style.Some? {
        return Fail(AlreadySet(StyleField));
      }
      stype := Some(st);
    }

    /** Sets the object id of the next primitive. */
    method Id(identifier: string) returns (r: Outcome<Error>)
      modifies this
      ensures Step(View(), r) == Apply(old(View()), IdCall(identifier))
    {
      r := ValidatePrerequisite();
      if r.Fail? { return; }
      if objectId.Some? {
        return Fail(AlreadySet(IdField));
      }
      objectId := Some(identifier);
    }

    /** Sets the classes of the next primitive. */
    method Classes(classList: seq<string>) returns (r: Outcome<Error>)
      modifies this
      ensures Step(View(), r) == Apply(old(View()), ClassesCall(classList))
    {
      r := ValidatePrerequisite();
      if r.Fail? { return; }
      if classes.Some? {
        return Fail(AlreadySet(ClassesField));
      }
      classes := Some(classList);
    }

    /** Flushes what is pending and returns the collection, or None when it is empty. */
    method GetData() returns (d: Result<Option<Collection>, Error>)
      modifies this
      ensures DataStep(View(), d) == Collect(old(View()))
    {
      if kind.Some? {
        var r := Flush();
        if r.Fail? {
          return Err(r.error);
        }
      }
      if |primitives| == 0 {
        return Ok(None);
      }
      d := Ok(Some(primitives));
    }
  }
}
