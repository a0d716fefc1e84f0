/**
 * The primitive builder as a state machine on values.
 *
 * A `State` holds the single pending-primitive slot, the stream id, the
 * collection of committed records and the warning log.  Every builder call
 * is a fallible transition `State -> Step`; a failing transition keeps the
 * effects that the call made before the failing check.  The class in
 * PrimitiveBuilding is proved to perform exactly these transitions.
 */
module PrimitiveModel {
  import opened Wrappers
  import opened Validation

  // Coordinates, radii, colour channels and pixels are opaque values here:
  // only the number of coordinates of a point is ever checked.
  type Scalar = int
  type Vertex = seq<Scalar>
  type Vertices = seq<Vertex>
  type Color = seq<Scalar>
  type Style = map<string, string>

  /** The image payload, tagged by its runtime type. */
  datatype ImageData = NdArray(cells: seq<Scalar>) | Str(encoded: string) | OtherObject | NoneValue

  /** The pixel size set by dimensions(); either may be left None. */
  datatype Dims = Dims(widthPx: Option<Scalar>, heightPx: Option<Scalar>)

  /** The image record: its payload, optional dimensions and optional anchor. */
  datatype ImageRecord = ImageRecord(data: ImageData, dims: Option<Dims>, position: Option<Vertex>)

  /** The pending fields of the builder; `kind` is `_type`. */
  datatype Slot = Slot(
    kind: Option<Kind>,
    image: Option<ImageRecord>,
    vertices: Option<Vertices>,
    radius: Option<Scalar>,
    text: Option<string>,
    colors: Option<seq<Color>>,
    objectId: Option<string>,
    style: Option<Style>,
    classes: Option<seq<string>>)

  /** The slot after reset(): every field None. */
  const EmptySlot: Slot := Slot(None, None, None, None, None, None, None, None, None)

  /** The kind-shaped part of a formatted primitive. */
  datatype Shape =
    | PathShape(vertices: Option<Vertices>)                       // polygon and polyline
    | PointsShape(points: Option<Vertices>, colors: Option<seq<Color>>)
    | TextShape(position: Vertex, text: Option<string>)
    | CircleShape(center: Vertex, radius: Option<Scalar>)
    | StadiumShape(start: Vertex, end: Vertex, radius: Option<Scalar>)
    | ImageShape(image: Option<ImageRecord>)

  /** The base metadata; only the members that were set are present. */
  datatype Base = Base(objectId: Option<string>, style: Option<Style>, classes: Option<seq<string>>)

  /** One committed primitive. */
  datatype Record = Record(shape: Shape, base: Option<Base>)

  /** Stream id to list key (`kind + 's'`) to the records in commit order. */
  type Collection = map<string, map<string, seq<Record>>>

  /** Everything a primitive builder holds; `stype` is the attribute style() writes. */
  datatype State = State(
    slot: Slot,
    stype: Option<Style>,
    streamId: Option<string>,
    primitives: Collection,
    warnings: seq<Warning>)

  /** The new state after a call, and whether the call completed. */
  datatype Step = Step(state: State, outcome: Outcome<Error>)

  /** The new state after get_data, and what it returned. */
  datatype DataStep = DataStep(state: State, data: Result<Option<Collection>, Error>)

  /** A freshly constructed builder. */
  const Initial: State := State(EmptySlot, None, None, map[], [])

  // ---------------------------------------------------------------- truthiness

  /** Python truthiness of an optional list or string: set and non-empty. */
  predicate Filled<T>(o: Option<seq<T>>)
  {
    o.Some? && |o.value| > 0
  }

  /** Python truthiness of an optional style dictionary. */
  predicate FilledStyle(o: Option<Style>)
  {
    o.Some? && |o.value| > 0
  }

  /** How many vertices indexing may read: none when the list is None. */
  function Length<T>(o: Option<seq<T>>): nat
  {
    if o.Some? then |o.value| else 0
  }

  // ---------------------------------------------------------------- formatting

  /** The list key a primitive of kind `k` is appended under. */
  function ListKey(k: Kind): string
  {
    KindName(k) + "s"
  }

  /** How many vertices the formatting of kind `k` indexes into. */
  function VerticesNeeded(k: Kind): nat
  {
    match k
    case Text => 1
    case Circle => 1
    case Stadium => 2
    case _ => 0
  }

  /** The base metadata of a slot: present iff an id, style or classes is truthy. */
  function BaseOf(slot: Slot): (b: Option<Base>)
    ensures b.Some? <==> Filled(slot.objectId) || FilledStyle(slot.style) || Filled(slot.classes)
    ensures b.Some? ==> (b.value.objectId.Some? <==> Filled(slot.objectId))
    ensures b.Some? ==> (b.value.style.Some? <==> FilledStyle(slot.style))
    ensures b.Some? ==> (b.value.classes.Some? <==> Filled(slot.classes))
    ensures b.Some? && b.value.objectId.Some? ==> b.value.objectId == slot.objectId
    ensures b.Some? && b.value.style.Some? ==> b.value.style == slot.style
    ensures b.Some? && b.value.classes.Some? ==> b.value.classes == slot.classes
  {
    if Filled(slot.objectId) || FilledStyle(slot.style) || Filled(slot.classes) then
      Some(Base(
        if Filled(slot.objectId) then slot.objectId else None,
        if FilledStyle(slot.style) then slot.style else None,
        if Filled(slot.classes) then slot.classes else None))
    else
      None
  }

  /** The kind-shaped part of the pending primitive, or the error indexing raises. */
  function ShapeOf(slot: Slot): Result<Shape, Error>
    requires slot.kind.Some?
  {
    var v := slot.vertices;
    match slot.kind.value
    case Polygon => Ok(PathShape(v))
    case Polyline => Ok(PathShape(v))
    case Point => Ok(PointsShape(v, if Filled(slot.colors) then slot.colors else None))
    case Text =>
      if Length(v) < 1 then Err(VertexMissing(Text)) else Ok(TextShape(v.value[0], slot.text))
    case Circle =>
      if Length(v) < 1 then Err(VertexMissing(Circle)) else Ok(CircleShape(v.value[0], slot.radius))
    case Stadium =>
      if Length(v) < 2 then Err(VertexMissing(Stadium))
      else Ok(StadiumShape(v.value[0], v.value[1], slot.radius))
    case Image =>
      if !Filled(v) then Ok(ImageShape(slot.image))
      else if slot.image.None? then Err(ImageMissing)
      else Ok(ImageShape(Some(slot.image.value.(position := Some(v.value[0])))))
  }

  /** The record a flush commits for the pending primitive (_format_primitives). */
  function Format(slot: Slot): (r: Result<Record, Error>)
    requires slot.kind.Some?
    ensures r.Err? <==>
      Length(slot.vertices) < VerticesNeeded(slot.kind.value)
      || (slot.kind.value == Image && Filled(slot.vertices) && slot.image.None?)
    ensures r.Err? ==> r.error == if slot.kind.value == Image then ImageMissing else VertexMissing(slot.kind.value)
    ensures r.Ok? ==> r.value.base == BaseOf(slot)
    ensures r.Ok? && slot.kind.value in {Polygon, Polyline} ==> r.value.shape == PathShape(slot.vertices)
    ensures r.Ok? && slot.kind.value == Point ==>
      && r.value.shape.PointsShape?
      && r.value.shape.points == slot.vertices
      && (r.value.shape.colors.Some? <==> Filled(slot.colors))
      && (r.value.shape.colors.Some? ==> r.value.shape.colors == slot.colors)
    ensures r.Ok? && slot.kind.value == Text ==>
      r.value.shape == TextShape(slot.vertices.value[0], slot.text)
    ensures r.Ok? && slot.kind.value == Circle ==>
      r.value.shape == CircleShape(slot.vertices.value[0], slot.radius)
    ensures r.Ok? && slot.kind.value == Stadium ==>
      r.value.shape == StadiumShape(slot.vertices.value[0], slot.vertices.value[1], slot.radius)
    ensures r.Ok? && slot.kind.value == Image ==>
      && r.value.shape.ImageShape?
      && (r.value.shape.image.None? <==> slot.image.None?)
      && (Filled(slot.vertices) ==> r.value.shape.image == Some(slot.image.value.(position := Some(slot.vertices.value[0]))))
      && (!Filled(slot.vertices) ==> r.value.shape.image == slot.image)
  {
    match ShapeOf(slot)
    case Err(e) => Err(e)
    case Ok(shape) => Ok(Record(shape, BaseOf(slot)))
  }

  // ---------------------------------------------------------------- collection

  /** The list under `sid` and `key`, or the empty list when either is missing. */
  function ListOf(c: Collection, sid: string, key: string): seq<Record>
  {
    if sid in c && key in c[sid] then c[sid][key] else []
  }

  /** The keys of the stream map of `sid`, or none when it is missing. */
  function KeysOf(c: Collection, sid: string): set<string>
  {
    if sid in c then c[sid].Keys else {}
  }

  /** Creates the stream map and the list when missing; no list changes its contents. */
  function WithList(c: Collection, sid: string, key: string): (r: Collection)
    ensures r.Keys == c.Keys + {sid} && key in r[sid]
    ensures r[sid].Keys == KeysOf(c, sid) + {key}
    ensures forall s :: s in c && s != sid ==> r[s] == c[s]
    ensures forall s, k :: ListOf(r, s, k) == ListOf(c, s, k)
  {
    var lists := if sid in c then c[sid] else map[];
    c[sid := if key in lists then lists else lists[key := []]]
  }

  /** Commits `rec` at the end of the list `key` of stream `sid`, creating both if missing. */
  function Append(c: Collection, sid: string, key: string, rec: Record): (r: Collection)
    ensures r.Keys == c.Keys + {sid} && key in r[sid]
    ensures r[sid].Keys == KeysOf(c, sid) + {key}
    ensures ListOf(r, sid, key) == ListOf(c, sid, key) + [rec]
    ensures forall s :: s in c && s != sid ==> r[s] == c[s]
    ensures forall s, k :: s != sid || k != key ==> ListOf(r, s, k) == ListOf(c, s, k)
  {
    var w := WithList(c, sid, key);
    w[sid := w[sid][key := w[sid][key] + [rec]]]
  }

  // ---------------------------------------------------------------- flushing

  /** The warning _validate records for the pending primitive, if any. */
  function FlushWarnings(slot: Slot, sid: Option<string>): (w: seq<Warning>)
    requires slot.kind.Some?
    ensures slot.kind.value == Image ==>
      w == if slot.image.None? || slot.image.value.data == NoneValue then [ImageDataMissing(sid)] else []
    ensures slot.kind.value != Image ==>
      w == if slot.vertices.None? then [VerticesMissing(sid)] else []
  {
    if slot.kind.value == Image then
      if slot.image.None? || slot.image.value.data == NoneValue then [ImageDataMissing(sid)] else []
    else
      if slot.vertices.None? then [VerticesMissing(sid)] else []
  }

  /** Commits the pending primitive and resets the slot (_flush_primitives). */
  function Commit(s: State): (f: Step)
    requires s.slot.kind.Some?
    ensures f.state.streamId == s.streamId && f.state.stype == s.stype && f.state.warnings == s.warnings
    ensures f.outcome.Pass? <==> s.streamId.Some? && Format(s.slot).Ok?
    ensures s.streamId.None? ==> f == Step(s, Fail(StreamNotSelected))
    ensures f.outcome.Pass? ==>
      && f.state.slot == EmptySlot
      && f.state.primitives == Append(s.primitives, s.streamId.value, ListKey(s.slot.kind.value), Format(s.slot).value)
    ensures s.streamId.Some? && Format(s.slot).Err? ==>
      && f.outcome == Fail(Format(s.slot).error)
      && f.state.slot == s.slot
      && f.state.primitives == WithList(s.primitives, s.streamId.value, ListKey(s.slot.kind.value))
  {
    if s.streamId.None? then
      Step(s, Fail(StreamNotSelected))
    else
      var sid := s.streamId.value;
      var key := ListKey(s.slot.kind.value);
      match Format(s.slot)
      case Err(e) => Step(s.(primitives := WithList(s.primitives, sid, key)), Fail(e))
      case Ok(rec) => Step(s.(primitives := Append(s.primitives, sid, key, rec), slot := EmptySlot), Pass)
  }

  /** Validates, then commits, the pending primitive (_flush). */
  function FlushStep(s: State): (f: Step)
    requires s.slot.kind.Some?
    ensures f.state.streamId == s.streamId && f.state.stype == s.stype
    ensures f.state.warnings == s.warnings + FlushWarnings(s.slot, s.streamId)
    ensures f.outcome.Pass? <==> s.streamId.Some? && Format(s.slot).Ok?
    ensures f.outcome.Pass? ==>
      && f.state.slot == EmptySlot
      && f.state.primitives == Append(s.primitives, s.streamId.value, ListKey(s.slot.kind.value), Format(s.slot).value)
    ensures f.outcome.Fail? ==> f.state.slot == s.slot
    ensures f.outcome.Fail? ==> forall sid, k :: ListOf(f.state.primitives, sid, k) == ListOf(s.primitives, sid, k)
  {
    Commit(s.(warnings := s.warnings + FlushWarnings(s.slot, s.streamId)))
  }

  /** The implicit flush at the top of every shape-starting call. */
  function FlushIfPending(s: State): Step
  {
    if s.slot.kind.Some? then FlushStep(s) else Step(s, Pass)
  }

  /**
   * `st` began with the implicit flush of `s`: its collection, warnings and
   * stream id are those the flush left, and a failing flush is the result.
   */
  predicate FlushedFirst(s: State, st: Step)
  {
    var f := FlushIfPending(s);
    && st.state.primitives == f.state.primitives
    && st.state.warnings == f.state.warnings
    && st.state.streamId == s.streamId
    && (f.outcome.Fail? ==> st == f)
  }

  // ---------------------------------------------------------------- shape starters

  /** polygon, polyline and points: flush, check `_vertices` set once, store the vertices as given (None too) and the kind. */
  function StartPath(s: State, vs: Option<Vertices>, k: Kind): (st: Step)
    ensures FlushedFirst(s, st)
  {
    var f := FlushIfPending(s);
    if f.outcome.Fail? then f
    else if f.state.slot.vertices.Some? then Step(f.state, Fail(AlreadySet(VerticesField)))
    else Step(f.state.(slot := f.state.slot.(vertices := vs, kind := Some(k))), Pass)
  }

  /** The payload type test exactly as written: not an array, or not a string. */
  predicate ImageTypeRejected(d: ImageData)
  {
    !d.NdArray? || !d.Str?
  }

  /** image: flush, then the payload type test; it rejects every payload. */
  function StartImage(s: State, d: ImageData): (st: Step)
    ensures FlushedFirst(s, st)
  {
    var f := FlushIfPending(s);
    if f.outcome.Fail? then f
    else
      assert ImageTypeRejected(d);
      Step(f.state, Fail(UnsupportedImageData))
  }

  /** position: check `_vertices` set once and the point's arity, then set one vertex. */
  function SetPosition(s: State, p: Vertex): (st: Step)
    ensures st.outcome.Pass? <==> s.slot.vertices.None? && |p| == 3
    ensures st.outcome.Pass? ==> st.state == s.(slot := s.slot.(vertices := Some([p])))
    ensures st.outcome.Fail? ==> st.state == s
    ensures s.slot.vertices.Some? ==> st.outcome == Fail(AlreadySet(VerticesField))
    ensures s.slot.vertices.None? && |p| != 3 ==> st.outcome == Fail(MalformedPosition)
  {
    if s.slot.vertices.Some? then Step(s, Fail(AlreadySet(VerticesField)))
    else if |p| != 3 then Step(s, Fail(MalformedPosition))
    else Step(s.(slot := s.slot.(vertices := Some([p]))), Pass)
  }

  /** circle: flush, check `_radius` set once, set the position, then radius and kind. */
  function StartCircle(s: State, center: Vertex, radius: Scalar): (st: Step)
    ensures FlushedFirst(s, st)
  {
    var f := FlushIfPending(s);
    if f.outcome.Fail? then f
    else if f.state.slot.radius.Some? then Step(f.state, Fail(AlreadySet(RadiusField)))
    else
      var p := SetPosition(f.state, center);
      if p.outcome.Fail? then p
      else Step(p.state.(slot := p.state.slot.(radius := Some(radius), kind := Some(Circle))), Pass)
  }

  /** stadium: flush, check `_radius` set once, check both arities, then set the two vertices. */
  function StartStadium(s: State, start: Vertex, end: Vertex, radius: Scalar): (st: Step)
    ensures FlushedFirst(s, st)
  {
    var f := FlushIfPending(s);
    if f.outcome.Fail? then f
    else if f.state.slot.radius.Some? then Step(f.state, Fail(AlreadySet(RadiusField)))
    else if |start| != 3 then Step(f.state, Fail(MalformedStart))
    else if |end| != 3 then Step(f.state, Fail(MalformedEnd))
    else Step(f.state.(slot := f.state.slot.(vertices := Some([start, end]), radius := Some(radius), kind := Some(Stadium))), Pass)
  }

  /** text: flush, check `_text` set once, set text and kind; no vertices are set. */
  function StartText(s: State, message: string): (st: Step)
    ensures FlushedFirst(s, st)
  {
    var f := FlushIfPending(s);
    if f.outcome.Fail? then f
    else if f.state.slot.text.Some? then Step(f.state, Fail(AlreadySet(TextField)))
    else Step(f.state.(slot := f.state.slot.(text := Some(message), kind := Some(Text))), Pass)
  }

  // ---------------------------------------------------------------- modifiers

  /** dimensions: requires an image record, then sets both pixel sizes. */
  function SetDimensions(s: State, w: Option<Scalar>, h: Option<Scalar>): (st: Step)
    ensures st.outcome.Pass? <==> s.slot.image.Some?
    ensures st.outcome.Fail? ==> st == Step(s, Fail(ImageNotStarted))
    ensures st.outcome.Pass? ==> st.state == s.(slot := s.slot.(image := Some(s.slot.image.value.(dims := Some(Dims(w, h))))))
  {
    if s.slot.image.None? then Step(s, Fail(ImageNotStarted))
    else Step(s.(slot := s.slot.(image := Some(s.slot.image.value.(dims := Some(Dims(w, h)))))), Pass)
  }

  /** colors: check `_colors` set once, then set it. */
  function SetColors(s: State, c: seq<Color>): (st: Step)
    ensures st.outcome.Pass? <==> s.slot.colors.None?
    ensures st.outcome.Fail? ==> st == Step(s, Fail(AlreadySet(ColorsField)))
    ensures st.outcome.Pass? ==> st.state == s.(slot := s.slot.(colors := Some(c)))
  {
    if s.slot.colors.Some? then Step(s, Fail(AlreadySet(ColorsField)))
    else Step(s.(slot := s.slot.(colors := Some(c))), Pass)
  }

  /** _validate_prerequisite as written: it fails when a primitive IS pending. */
  function Prerequisite(kind: Option<Kind>): (o: Outcome<Error>)
    ensures o.Fail? <==> kind.Some?
    ensures o.Fail? ==> o.error == ShapeAlreadyPending
  {
    if kind.Some? then Fail(ShapeAlreadyPending) else Pass
  }

  /** style: prerequisite, set-once on `_style`, but the value goes to `stype`. */
  function SetStyle(s: State, st: Style): (r: Step)
    ensures r.outcome.Pass? <==> s.slot.kind.None? && s.slot.style.None?
    ensures r.outcome.Fail? ==> r.state == s
    ensures r.outcome.Pass? ==> r.state == s.(stype := Some(st))
  {
    if Prerequisite(s.slot.kind).Fail? then Step(s, Prerequisite(s.slot.kind))
    else if s.slot.style.Some? then Step(s, Fail(AlreadySet(StyleField)))
    else Step(s.(stype := Some(st)), Pass)
  }

  /** id: prerequisite, set-once on `_id`, then set it. */
  function SetId(s: State, id: string): (r: Step)
    ensures r.outcome.Pass? <==> s.slot.kind.None? && s.slot.objectId.None?
    ensures r.outcome.Fail? ==> r.state == s
    ensures s.slot.kind.None? && s.slot.objectId.Some? ==> r.outcome == Fail(AlreadySet(IdField))
    ensures r.outcome.Pass? ==> r.state == s.(slot := s.slot.(objectId := Some(id)))
  {
    if Prerequisite(s.slot.kind).Fail? then Step(s, Prerequisite(s.slot.kind))
    else if s.slot.objectId.Some? then Step(s, Fail(AlreadySet(IdField)))
    else Step(s.(slot := s.slot.(objectId := Some(id))), Pass)
  }

  /** classes: prerequisite, set-once on `_classes`, then set it. */
  function SetClasses(s: State, cl: seq<string>): (r: Step)
    ensures r.outcome.Pass? <==> s.slot.kind.None? && s.slot.classes.None?
    ensures r.outcome.Fail? ==> r.state == s
    ensures s.slot.kind.None? && s.slot.classes.Some? ==> r.outcome == Fail(AlreadySet(ClassesField))
    ensures r.outcome.Pass? ==> r.state == s.(slot := s.slot.(classes := Some(cl)))
  {
    if Prerequisite(s.slot.kind).Fail? then Step(s, Prerequisite(s.slot.kind))
    else if s.slot.classes.Some? then Step(s, Fail(AlreadySet(ClassesField)))
    else Step(s.(slot := s.slot.(classes := Some(cl))), Pass)
  }

  // ---------------------------------------------------------------- calls

  /** One call of the fluent interface. */
  datatype Call =
    | ImageCall(data: ImageData)
    | DimensionsCall(widthPx: Option<Scalar>, heightPx: Option<Scalar>)
    | PolygonCall(vertices: Option<Vertices>)
    | PolylineCall(vertices: Option<Vertices>)
    | PointsCall(vertices: Option<Vertices>)
    | CircleCall(center: Vertex, radius: Scalar)
    | StadiumCall(start: Vertex, end: Vertex, radius: Scalar)
    | TextCall(message: string)
    | PositionCall(point: Vertex)
    | ColorsCall(colors: seq<Color>)
    | StyleCall(style: Style)
    | IdCall(id: string)
    | ClassesCall(classes: seq<string>)
    | StreamCall(id: string)

  /** The seven calls that begin a new primitive. */
  predicate StartsShape(c: Call)
  {
    c.ImageCall? || c.PolygonCall? || c.PolylineCall? || c.PointsCall?
    || c.CircleCall? || c.StadiumCall? || c.TextCall?
  }

  /** The transition of one call; only shape starters commit, and they flush first. */
  function Apply(s: State, c: Call): (st: Step)
    ensures !StartsShape(c) ==> st.state.primitives == s.primitives && st.state.warnings == s.warnings
    ensures StartsShape(c) ==> FlushedFirst(s, st)
    ensures st.state.streamId == if c.StreamCall? then Some(c.id) else s.streamId
  {
    match c
    case ImageCall(d) => StartImage(s, d)
    case DimensionsCall(w, h) => SetDimensions(s, w, h)
    case PolygonCall(vs) => StartPath(s, vs, Polygon)
    case PolylineCall(vs) => StartPath(s, vs, Polyline)
    case PointsCall(vs) => StartPath(s, vs, Point)
    case CircleCall(p, r) => StartCircle(s, p, r)
    case StadiumCall(a, b, r) => StartStadium(s, a, b, r)
    case TextCall(m) => StartText(s, m)
    case PositionCall(p) => SetPosition(s, p)
    case ColorsCall(cs) => SetColors(s, cs)
    case StyleCall(st) => SetStyle(s, st)
    case IdCall(id) => SetId(s, id)
    case ClassesCall(cl) => SetClasses(s, cl)
    case StreamCall(id) => Step(s.(streamId := Some(id)), Pass)
  }

  /** A chain of calls; it stops at the first call that raises. */
  function Run(s: State, calls: seq<Call>): Step
    decreases |calls|
  {
    if calls == [] then Step(s, Pass)
    else
      var st := Apply(s, calls[0]);
      if st.outcome.Fail? then st else Run(st.state, calls[1..])
  }

  /** get_data: flush what is pending, then None for an empty collection. */
  function Collect(s: State): (d: DataStep)
    ensures s.slot.kind.None? ==> d.state == s
    ensures s.slot.kind.Some? ==> d.state == FlushStep(s).state
    ensures d.data.Err? <==> s.slot.kind.Some? && FlushStep(s).outcome.Fail?
    ensures d.data.Err? ==> d.data.error == FlushStep(s).outcome.error
    ensures d.data.Ok? ==> d.state.slot.kind.None?
    ensures d.data.Ok? ==> (d.data.value.None? <==> |d.state.primitives| == 0)
    ensures d.data.Ok? && d.data.value.Some? ==> d.data.value.value == d.state.primitives
  {
    var f := FlushIfPending(s);
    if f.outcome.Fail? then DataStep(f.state, Err(f.outcome.error))
    else if |f.state.primitives| == 0 then DataStep(f.state, Ok(None))
    else DataStep(f.state, Ok(Some(f.state.primitives)))
  }
}
