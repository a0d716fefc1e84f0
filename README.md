# xviz.py builders in Dafny

A model of the builder core of xviz.py. Two classes are modelled:

- `XVIZPrimitiveBuilder`, a fluent builder with one pending-primitive slot.
  - Shape starters: `image`, `polygon`, `polyline`, `points`, `circle`, `stadium` and `text`.
  - Set-once modifiers: `position`, `colors`, `style`, `id` and `classes`.
  - A shape starter called while a primitive is pending implicitly flushes it. The flush validates the primitive (warnings only), formats it into a kind-shaped record with an optional `base`, appends the record to `primitives[stream_id][kind + "s"]` and resets the slot.
  - `get_data` performs a final flush and returns the nested collection, or None when nothing was collected.
- `XVIZBuilder`, the orchestrator. It owns a pose, a variable and a primitive builder. Its selectors switch one of them to a stream and hand it out. `get_message` requires a pose on `/vehicle_pose` and wraps one encoded update in a `SNAPSHOT` message.

Files:

- `wrappers.dfy`: `Option`, `Outcome` (a call completed or raised) and `Result`.
- `validation.dfy`: the primitive type table, the set-once fields, the fatal errors and the non-fatal warnings.
- `primitive_model.dfy` (`PrimitiveModel`): the primitive builder as a state machine on values.
  - `State`: the pending slot, the attribute `style()` writes to, the stream id, the collection and the warning log.
  - One transition function per builder call, collected in `Apply`.
  - `Run` for chains of calls, and `Collect` for `get_data`.
  - `Format` for `_format_primitives`; `Commit` and `FlushStep` for `_flush_primitives` and `_flush`.
- `primitive_builder.dfy` (`PrimitiveBuilding`): the class `PrimitiveBuilder`.
  - It has the source's fields, and each method updates them in place.
  - Each method is proved to perform exactly the transition `Apply` gives for its call, outcome included. So every property proved about the transitions holds for the class.
- `primitive_properties.dfy` (`PrimitiveProperties`): properties of the transitions.
  - The implicit flush, and append-only records in call order.
  - The guards as written.
  - `get_data`.
  - An invariant of every state reachable from a fresh builder.
- `xviz_builder.dfy` (`XvizBuilding`): the pose and variable builder interfaces, `Assemble` (the message `get_message` builds) and the class `XvizBuilder`.
- `scenarios.dfy` (`Scenarios`): chains of calls on fresh builders, as a client writes them, with the results they return.

How a raised validation error is modelled: the call returns `Fail(error)` at the point where the source raises. Effects made earlier in the same call stay. For example, the implicit flush at the top of `stadium` is committed even when the arity check that follows fails. A warning is appended to the builder's warning log and does not change control flow.

## Where the code differs from its evident intent

The model follows the code as written. In three places the source itself shows that the code does not do what its authors meant: the error message, or the field that is read later, shows the intent.

- `_validate_prerequisite` (xviz/builder/primitive.py:180-182) raises when a shape IS pending. Its message at line 182, "Start from a primitive first", shows that it was meant to raise when none is pending. As written, `style`, `id` and `classes` fail after a shape starter and pass before one. An id set before a shape attaches to that shape (`IdBeforeShapeAttachesToIt`); `stadium(...).id(...)` raises (`StadiumThenIdRaises`).
- The image type test at xviz/builder/primitive.py:28 is `not ndarray or not str`. Its message at line 30 says the data "must be a string or numpy array", so `and` was meant. As written, no value is both, so `image()` always raises (`ImageAlwaysRaises`), and lines 31-33 are never reached.
- `style()` stores its argument in `_stype` (xviz/builder/primitive.py:139). It checks `_style` for set-once just before (line 138), and formatting reads `_style` (lines 232-234), so `_style` was meant. As written, `_style` is never set: its set-once check never fires and no committed record has `base.style` (`StyleIsNotSetOnce`, `NoImageNoStyleEver`).

Behaviour of the code as written that a caller may not expect:

- `text()` sets no vertices (xviz/builder/primitive.py:109-119). Formatting reads `vertices[0]` (line 210), so committing a text without `position()` raises. This is modelled as the failure `VertexMissing(Text)` (`TextNeedsPosition`, `TextAfterPosition`).
- A failing call is not undone. A failing shape starter has already flushed the previous primitive (`StadiumArityCommitsNothing`, `FlushedFirst`).
- Formatting can fail after `_flush_primitives` has already created the stream map and the list (xviz/builder/primitive.py:185-194). The empty containers stay and the primitive stays pending (`PrimitiveModel.Commit`).

## Model

| member | source | states |
|---|---|---|
| PrimitiveModel.BaseOf | xviz/builder/primitive.py:225-240 | a base is present iff the id, style or classes is truthy, and it carries exactly the truthy ones with their values |
| PrimitiveModel.Format | xviz/builder/primitive.py:199-242 | formatting fails iff the kind indexes more vertices than are set, or an image has vertices but no record. Otherwise the base is BaseOf and the shape follows the per-kind table: vertices; points with colours only when truthy; text and circle at vertices[0]; stadium from vertices[0] to vertices[1]; image with position from vertices[0] |
| PrimitiveModel.WithList | xviz/builder/primitive.py:185-192 | the stream map and the list exist afterwards, no other stream map changes, and no list changes its contents |
| PrimitiveModel.Append | xviz/builder/primitive.py:184-195 | the record is appended at the end of exactly one list; every other list and stream is unchanged |
| PrimitiveModel.FlushWarnings | xviz/builder/primitive.py:157-165 | an image without a record or data, or another kind without vertices, yields exactly one warning for the stream; otherwise none |
| PrimitiveModel.Commit | xviz/builder/primitive.py:184-197 | passes iff a stream is selected and formatting succeeds. On success exactly one record is appended and the slot is reset. On a format failure the containers are created and the slot is kept. Stream id, style and warnings unchanged |
| PrimitiveModel.FlushStep | xviz/builder/primitive.py:167-169 | the warning is logged and the commit still happens; on failure the slot and the contents of every list are unchanged |
| PrimitiveModel.StartPath | xviz/builder/primitive.py:49-77 | polygon, polyline and points flush a pending primitive first; a failing flush is their result |
| PrimitiveModel.StartImage | xviz/builder/primitive.py:21-35 | image flushes a pending primitive first; a failing flush is its result |
| PrimitiveModel.SetPosition | xviz/builder/primitive.py:121-128 | passes iff vertices are unset and the point has three coordinates; then sets exactly one vertex; on failure the state is unchanged and the error names which check failed |
| PrimitiveModel.StartCircle | xviz/builder/primitive.py:79-89 | circle flushes a pending primitive first; a failing flush is its result |
| PrimitiveModel.StartStadium | xviz/builder/primitive.py:91-107 | stadium flushes a pending primitive first; a failing flush is its result |
| PrimitiveModel.StartText | xviz/builder/primitive.py:109-119 | text flushes a pending primitive first; a failing flush is its result |
| PrimitiveModel.SetDimensions | xviz/builder/primitive.py:37-47 | passes iff an image record is pending, then sets both pixel sizes; otherwise fails with the state unchanged |
| PrimitiveModel.SetColors | xviz/builder/primitive.py:130-134 | passes iff colours are unset, then sets them; otherwise fails with the state unchanged |
| PrimitiveModel.Prerequisite | xviz/builder/primitive.py:180-182 | fails iff a kind is pending |
| PrimitiveModel.SetStyle | xviz/builder/primitive.py:136-141 | passes iff no kind is pending and `_style` is unset; it then writes only `stype`; on failure nothing changes |
| PrimitiveModel.SetId | xviz/builder/primitive.py:143-148 | passes iff no kind is pending and no id is set; it then sets only the id; on failure nothing changes |
| PrimitiveModel.SetClasses | xviz/builder/primitive.py:150-155 | passes iff no kind is pending and no classes are set; it then sets only the classes; on failure nothing changes |
| PrimitiveModel.Apply | xviz/builder/primitive.py:21-155 | only shape starters touch the collection and the warnings, and they flush first; only stream selection changes the stream id |
| PrimitiveModel.Collect | xviz/builder/primitive.py:171-178 | flushes only when a kind is pending; fails iff that flush fails; otherwise nothing is pending afterwards, and the result is None iff the collection has no streams, else the collection itself |
| PrimitiveBuilding.PrimitiveBuilder.constructor | xviz/builder/primitive.py:15-19 | a fresh builder is the initial state: nothing pending, no stream, empty collection |
| PrimitiveBuilding.PrimitiveBuilder.Reset | xviz/builder/primitive.py:247-258 | every pending field is None; `stype`, stream id, collection and warnings are kept |
| PrimitiveBuilding.PrimitiveBuilder.Stream | xviz/builder/xviz_builder.py:38-40 | the base builder's `stream()`, which the `primitive()` selector calls; its behaviour is assumed, since the base builder is not part of this model. It returns the builder itself, with only the stream id changed |
| PrimitiveBuilding.PrimitiveBuilder.Validate | xviz/builder/primitive.py:157-165 | appends exactly the warnings of FlushWarnings; nothing else changes |
| PrimitiveBuilding.PrimitiveBuilder.FlushPrimitives | xviz/builder/primitive.py:184-197 | performs Commit on the builder's fields, outcome included |
| PrimitiveBuilding.PrimitiveBuilder.Flush | xviz/builder/primitive.py:167-169 | performs FlushStep, outcome included |
| PrimitiveBuilding.PrimitiveBuilder.Image | xviz/builder/primitive.py:21-35 | performs the image transition: flush, then the type test fails |
| PrimitiveBuilding.PrimitiveBuilder.Dimensions | xviz/builder/primitive.py:37-47 | performs SetDimensions; both sizes default to None |
| PrimitiveBuilding.PrimitiveBuilder.Polygon | xviz/builder/primitive.py:49-57 | performs StartPath for a polygon |
| PrimitiveBuilding.PrimitiveBuilder.Polyline | xviz/builder/primitive.py:59-67 | performs StartPath for a polyline |
| PrimitiveBuilding.PrimitiveBuilder.Points | xviz/builder/primitive.py:69-77 | performs StartPath for a point cloud |
| PrimitiveBuilding.PrimitiveBuilder.Circle | xviz/builder/primitive.py:79-89 | performs StartCircle, setting its centre through Position |
| PrimitiveBuilding.PrimitiveBuilder.Stadium | xviz/builder/primitive.py:91-107 | performs StartStadium |
| PrimitiveBuilding.PrimitiveBuilder.Text | xviz/builder/primitive.py:109-119 | performs StartText |
| PrimitiveBuilding.PrimitiveBuilder.Position | xviz/builder/primitive.py:121-128 | performs SetPosition |
| PrimitiveBuilding.PrimitiveBuilder.Colors | xviz/builder/primitive.py:130-134 | performs SetColors |
| PrimitiveBuilding.PrimitiveBuilder.ValidatePrerequisite | xviz/builder/primitive.py:180-182 | fails iff a kind is pending, and changes nothing |
| PrimitiveBuilding.PrimitiveBuilder.Style | xviz/builder/primitive.py:136-141 | performs SetStyle |
| PrimitiveBuilding.PrimitiveBuilder.Id | xviz/builder/primitive.py:143-148 | performs SetId |
| PrimitiveBuilding.PrimitiveBuilder.Classes | xviz/builder/primitive.py:150-155 | performs SetClasses |
| PrimitiveBuilding.PrimitiveBuilder.GetData | xviz/builder/primitive.py:171-178 | performs Collect: returns what it returns and leaves the state it leaves |
| PrimitiveProperties.ListKeyValues | xviz/builder/primitive.py:189 | the list keys are images, polygons, polylines, points, circles, stadiums and texts |
| PrimitiveProperties.ListKeyRoundTrip | xviz/builder/primitive.py:189 | the kind can be recovered from its list key |
| PrimitiveProperties.ListKeyInjective | xviz/builder/primitive.py:189 | primitives of different kinds never share a list |
| PrimitiveProperties.ImplicitFlushCommitsOne | xviz/builder/primitive.py:25-26 | a shape starter called while a formattable primitive is pending appends exactly that record to its list; no other list changes |
| PrimitiveProperties.WarningStillCommits | xviz/builder/primitive.py:157-169 | a flush that warns still passes, logs one warning and commits the record. Such a state is reachable: polygon(None) leaves one (PolygonWithoutVerticesWarnsAndCommits) |
| PrimitiveProperties.FlushGrows | xviz/builder/primitive.py:184-197 | a flush keeps every existing list as a prefix and drops no stream |
| PrimitiveProperties.ApplyGrows | xviz/builder/primitive.py:21-155 | no call removes or reorders a committed record |
| PrimitiveProperties.RunGrows | xviz/builder/primitive.py:184-197 | over any chain of calls the collection only grows at the ends of its lists |
| PrimitiveProperties.PolygonAfterPolygon | xviz/builder/primitive.py:49-57 | polygon(v) with polygon(prev) pending commits prev under polygons and leaves v pending |
| PrimitiveProperties.PolygonOnIdleSlot | xviz/builder/primitive.py:49-57 | polygon with nothing pending passes and sets exactly the vertices and the kind |
| PrimitiveProperties.CollectPendingPolygon | xviz/builder/primitive.py:171-178 | get_data with a polygon pending returns the collection, whose polygons list gains exactly that record |
| PrimitiveProperties.TextOnEmptySlot | xviz/builder/primitive.py:109-119 | text on an empty slot passes and sets exactly the text and the kind, with no vertices |
| PrimitiveProperties.PositionOnFreeSlot | xviz/builder/primitive.py:121-128 | position of a three-coordinate point with no vertices set passes and sets exactly one vertex |
| PrimitiveProperties.IdOnIdleSlot | xviz/builder/primitive.py:143-148 | id with nothing pending and no id set passes and sets exactly the id |
| PrimitiveProperties.PendingPolygonsInOrder | xviz/builder/primitive.py:49-57 | with a polygon pending, a chain of polygons commits every earlier one in call order, and the last one stays pending |
| PrimitiveProperties.PolygonsKeepCallOrder | xviz/builder/primitive.py:171-195 | n polygons on one stream followed by get_data leave exactly those n records, in call order, after the existing polygons of that stream |
| PrimitiveProperties.ModifiersAreSetOnce | xviz/builder/primitive.py:121-155 | after position, colors, id or classes passes, any second call of the same kind, whatever its argument, fails and changes nothing |
| PrimitiveProperties.StyleIsNotSetOnce | xviz/builder/primitive.py:136-141 | style can be called twice with nothing pending; only `stype` changes, to the second value |
| PrimitiveProperties.MetadataRequiresNoPendingShape | xviz/builder/primitive.py:136-155 | style, id and classes fail with the prerequisite error, changing nothing, exactly when a kind is pending |
| PrimitiveProperties.ImageAlwaysRaises | xviz/builder/primitive.py:21-30 | the type test rejects every payload; image fails, after flushing any pending primitive |
| PrimitiveProperties.StadiumArityCommitsNothing | xviz/builder/primitive.py:91-100 | a short start or end always fails. The state is the one the implicit flush left, so no primitive is started. When the flush passed and no radius is pending, the error names the point that failed |
| PrimitiveProperties.TextNeedsPosition | xviz/builder/primitive.py:109-119 | text without position fails at get_data with the missing-vertex error; the text stays pending and the texts list is unchanged |
| PrimitiveProperties.CollectCommitsPending | xviz/builder/primitive.py:171-173 | get_data with a formattable primitive pending commits exactly that record |
| PrimitiveProperties.TextAfterPosition | xviz/builder/primitive.py:209-211 | text then position commits a text record at that position |
| PrimitiveProperties.IdBeforeShapeAttachesToIt | xviz/builder/primitive.py:143-148 | id before polygon passes, and the committed polygon carries a base with just that id |
| PrimitiveProperties.CircleCommitsWithoutBase | xviz/builder/primitive.py:79-89 | circle then get_data commits a record with that centre and radius, and no base |
| PrimitiveProperties.StadiumThenIdRaises | xviz/builder/primitive.py:143-148 | id right after a stadium fails the prerequisite, and the stadium stays pending |
| PrimitiveProperties.PathOnIdleSlot | xviz/builder/primitive.py:49-77 | polygon, polyline or points with nothing pending and no vertices set passes, and sets exactly its kind and the vertices as given, None included |
| PrimitiveProperties.VerticesSetOnce | xviz/builder/primitive.py:49-89 | with nothing pending but vertices set, polygon, polyline, points and circle fail the `_vertices` check and change nothing. For a circle, a pending radius fails the `_radius` check first |
| PrimitiveProperties.PositionThenPolygonRaises | xviz/builder/primitive.py:53 | position(p).polygon(v) fails with the `_vertices` set-once error, and the position stays set |
| PrimitiveProperties.CircleNeedsThreeCoordinates | xviz/builder/primitive.py:79-89 | a circle whose centre does not have three coordinates fails inside position(), after the implicit flush, and starts no primitive; with nothing left set it is the position-arity error |
| PrimitiveProperties.PolygonWithoutVerticesWarnsAndCommits | xviz/builder/primitive.py:157-169 | polygon(None) then get_data passes: exactly one vertices-missing warning for the stream is logged, and a polygon without vertices is appended |
| PrimitiveProperties.StarterAfterFlush | xviz/builder/primitive.py:25-26 | when the implicit flush of a shape starter passes, nothing is pending afterwards (an empty slot after a commit, or the state unchanged when nothing was pending), and the call behaves exactly as the same call on that flushed state |
| PrimitiveProperties.CircleOnIdleSlot | xviz/builder/primitive.py:79-89 | circle with nothing pending, no radius and no vertices set, and a three-coordinate centre, passes and sets exactly the centre vertex, the radius and the kind |
| PrimitiveProperties.StadiumOnIdleSlot | xviz/builder/primitive.py:91-107 | stadium with nothing pending, no radius and two three-coordinate points passes and sets exactly the two vertices (overwriting any), the radius and the kind |
| PrimitiveProperties.TextOnIdleSlot | xviz/builder/primitive.py:109-119 | text with nothing pending and no text set passes and sets exactly the text and the kind |
| PrimitiveProperties.CollectIdempotent | xviz/builder/primitive.py:171-178 | a second get_data after a successful one returns the same result and changes nothing |
| PrimitiveProperties.CollectAfterCommitIsSome | xviz/builder/primitive.py:171-178 | after a successful final flush, get_data never returns None |
| PrimitiveProperties.InitialReachable | xviz/builder/primitive.py:15-19 | a fresh builder satisfies the reachable-state invariant |
| PrimitiveProperties.CommitKeepsReachable | xviz/builder/primitive.py:184-197 | a flush preserves the invariant: no image list, no styled record |
| PrimitiveProperties.ApplyKeepsReachable | xviz/builder/primitive.py:21-155 | every call preserves the invariant |
| PrimitiveProperties.RunKeepsReachable | xviz/builder/primitive.py:21-155 | every chain of calls preserves the invariant |
| PrimitiveProperties.NoImageNoStyleEver | xviz/builder/primitive.py:28-47 | from a fresh builder, whatever the calls: no stream has an images list, no record has base.style, and dimensions always fails |
| PrimitiveProperties.FlushLeavesNoSetOnceField | xviz/builder/primitive.py:167-169 | from a reachable slot, the implicit flush fails only for a missing stream, vertex or image, and on success leaves radius and text unset |
| PrimitiveProperties.UnreachableSetOnceGuards | xviz/builder/primitive.py:83-114 | from a reachable slot, no call ever fails the set-once check of `_radius`, `_text` or `_style` |
| XvizBuilding.PoseBuilder.constructor | xviz/builder/xviz_builder.py:23 | a fresh pose builder has no stream and no poses |
| XvizBuilding.PoseBuilder.Stream | xviz/builder/xviz_builder.py:31 | returns itself with only the stream id changed |
| XvizBuilding.PoseBuilder.Data | xviz/builder/xviz_builder.py:55 | None iff no poses were collected, else the poses |
| XvizBuilding.PoseBuilder.GetData | xviz/builder/xviz_builder.py:55 | returns Data |
| XvizBuilding.VariableBuilder.constructor | xviz/builder/xviz_builder.py:24 | a fresh variable builder has no stream and no variables |
| XvizBuilding.VariableBuilder.Stream | xviz/builder/xviz_builder.py:35 | returns itself with only the stream id changed |
| XvizBuilding.VariableBuilder.Data | xviz/builder/xviz_builder.py:64 | None iff no variables were collected, else the variables |
| XvizBuilding.VariableBuilder.GetData | xviz/builder/xviz_builder.py:64 | returns Data |
| XvizBuilding.PrimaryTimestamp | xviz/builder/xviz_builder.py:55-60 | succeeds iff the poses exist and contain `/vehicle_pose`, and then yields that pose's timestamp |
| XvizBuilding.Assemble | xviz/builder/xviz_builder.py:54-74 | fails iff the pose check or the primitive data fails, with the missing-pose error first. Otherwise the message is SNAPSHOT with exactly one update: the encoding of the primary timestamp, the poses, the primitives and the variables |
| XvizBuilding.XvizBuilder.constructor | xviz/builder/xviz_builder.py:16-25 | three fresh sub-builders and no selected builder |
| XvizBuilding.XvizBuilder.Pose | xviz/builder/xviz_builder.py:30-32 | selects `/vehicle_pose` by default; switches only the pose builder, remembers it and returns it |
| XvizBuilding.XvizBuilder.Variable | xviz/builder/xviz_builder.py:34-36 | switches only the variable builder, remembers it and returns it |
| XvizBuilding.XvizBuilder.Primitive | xviz/builder/xviz_builder.py:38-40 | switches only the primitive builder's stream, keeps its pending primitive, remembers it and returns it |
| XvizBuilding.XvizBuilder.FutureInstance | xviz/builder/xviz_builder.py:42-43 | returns None and changes nothing |
| XvizBuilding.XvizBuilder.UiPrimitives | xviz/builder/xviz_builder.py:45-46 | returns None and changes nothing |
| XvizBuilding.XvizBuilder.TimeSeries | xviz/builder/xviz_builder.py:48-49 | returns None and changes nothing |
| XvizBuilding.XvizBuilder.Reset | xviz/builder/xviz_builder.py:51-52 | forgets only the selected sub-builder |
| XvizBuilding.XvizBuilder.GetMessage | xviz/builder/xviz_builder.py:54-74 | returns Assemble of the three builders' data. The primitive builder performs get_data only when the pose check passes; otherwise it is unchanged |
| Scenarios.TwoPolygonsInOrder | xviz/builder/primitive.py:49-57 | two polygons on one stream come back from get_data as a two-record list, in call order |
| Scenarios.CircleHasNoBase | xviz/builder/primitive.py:212-214 | circle([1, 2, 3], 5) then get_data yields one record with that centre and radius and no base |
| Scenarios.StadiumThenId | xviz/builder/primitive.py:180-182 | stadium(...) passes and the id that follows fails the prerequisite |
| Scenarios.ShortStadiumStart | xviz/builder/primitive.py:97-98 | a two-coordinate start fails with the start error, and get_data then returns None |
| Scenarios.StyleBeforeShape | xviz/builder/primitive.py:136-141 | style on a fresh builder passes |
| Scenarios.PolygonWithoutVertices | xviz/builder/primitive.py:49-57 | polygon(None) on a fresh builder, then get_data, returns one polygon without vertices and leaves exactly one warning |
| Scenarios.CollectOnePolygon | xviz/builder/primitive.py:171-178 | get_data on a fresh builder with one polygon pending returns the one-stream, one-list collection holding just that polygon |
| Scenarios.SnapshotOfOnePolygon | xviz/builder/xviz_builder.py:54-74 | with a primary pose at ts and that polygon, the message is a SNAPSHOT whose single update encodes ts, the poses and that collection |
| Scenarios.MessageWithoutPose | xviz/builder/xviz_builder.py:55-57 | get_message with no pose collected fails with the missing-pose error |

## Left out

- Protobuf encoding (`StreamSet`, `XVIZData(...).to_object()`, `MessageToDict`) is a foreign library. It is the parameter `encode` of GetMessage, applied to the assembled record.
- Logging, the logger, `metadata` and `disable_streams` are stored by the orchestrator but never used; they are not modelled.
- Runtime types: numpy arrays and `isinstance` are replaced by a tag on the image payload (`ImageData`). Coordinates, radii, colours, pixels and pose timestamps (`PoseRecord.timestamp`) are opaque integers; only the three-coordinate length checks are modelled. Floating-point values such as 5.0 appear as integers.
- `_validate_style` (xviz/builder/primitive.py:244-245) calls a validator method that is not part of this model, and nothing calls it.
- The base builder, the validator and the pose and variable builders are not part of this model. Their behaviour is assumed:
  - `stream(id)` sets only the stream id and returns the builder;
  - `validate_prop_set_once(f)` raises when `f` already holds a value;
  - `validate_error` raises;
  - `validate_warn` appends a warning.
  - The pose and variable builders keep only a stream id and a map. How they collect their data is not modelled. No modelled method adds a pose, so no XvizBuilder here reaches the success path of GetMessage. That path is stated on Assemble (XvizBuilding.Assemble, Scenarios.SnapshotOfOnePolygon).
- PrimitiveBuilding.PrimitiveBuilder.Validate: does not model the base builder's `super()._validate()` (xviz/builder/primitive.py:158), which is not part of this model.
- The validator is shared by the three sub-builders in the source. Here each primitive builder keeps its own warning log, and the orchestrator holds no validator.
- Method chaining: `return self` is modelled by the caller calling the next method on the same object. Each method returns its `Outcome` instead of the builder; the selectors and `Stream` return the builder itself.
- Flushing with no stream selected is modelled as the failure `StreamNotSelected`. It relies on an assumption: the source indexes the EasyDict with a `None` key (xviz/builder/primitive.py:186), and the model assumes this raises.
- Lines 31-33 of xviz/builder/primitive.py are unreachable, because the type test before them always raises. The model has no branch for them.
- `get_data` returns the builder's own `_primitives` object (xviz/builder/primitive.py:178), so a caller's reference sees later flushes. The model returns the collection as a value at the time of the call, so this aliasing is not captured. In the same way, the source stores the caller's vertex, colour and class lists by reference (xviz/builder/primitive.py:54, 64, 74, 127, 132, 154). A caller that mutates such a list before the flush changes the committed record; the model stores values.
- The type names `image`, `polygon`, `polyline`, `point`, `circle`, `stadium` and `text` (`Validation.KindName`, and so the list keys of `ListKeyValues`) are assumed. They come from `PRIMITIVE_TYPES` in xviz/builder/validator.py, which is not part of this model; primitive.py:189 only appends `s` to them.
- Line 221 writes the position into the pending image record in place. The model puts it in the committed record only. The slot is reset right after, and no image can be pending, so the difference cannot be observed.
- PrimitiveModel.StartPath: its own contract states only that the implicit flush comes first. StarterAfterFlush reduces a call after a passing flush to the same call on the flushed state, which has nothing pending (the empty slot after a commit, or the slot as it was). So the lemmas named next, about a slot with nothing pending, cover every state whose flush passes. What the call sets is stated by the lemmas PathOnIdleSlot, PolygonAfterPolygon and PolygonWithoutVerticesWarnsAndCommits in PrimitiveProperties. The `_vertices` set-once failure is stated by VerticesSetOnce and PositionThenPolygonRaises.
- PrimitiveModel.StartImage: its own contract states only that the implicit flush comes first. What the call sets is stated by the lemma ImageAlwaysRaises in PrimitiveProperties.
- PrimitiveModel.StartCircle: its own contract states only that the implicit flush comes first. StarterAfterFlush reduces a call after a passing flush to the same call on the flushed state, which has nothing pending (the empty slot after a commit, or the slot as it was). So the lemmas named next, about a slot with nothing pending, cover every state whose flush passes. What the call sets is stated by the lemmas CircleOnIdleSlot and CircleCommitsWithoutBase in PrimitiveProperties. Its failures inside position() are stated by VerticesSetOnce (vertices already set) and CircleNeedsThreeCoordinates (a short centre).
- PrimitiveModel.StartStadium: its own contract states only that the implicit flush comes first. StarterAfterFlush reduces a call after a passing flush to the same call on the flushed state, which has nothing pending (the empty slot after a commit, or the slot as it was). So the lemmas named next, about a slot with nothing pending, cover every state whose flush passes. What the call sets is stated by the lemmas StadiumOnIdleSlot, StadiumArityCommitsNothing and StadiumThenIdRaises in PrimitiveProperties.
- PrimitiveModel.StartText: its own contract states only that the implicit flush comes first. StarterAfterFlush reduces a call after a passing flush to the same call on the flushed state, which has nothing pending (the empty slot after a commit, or the slot as it was). So the lemmas named next, about a slot with nothing pending, cover every state whose flush passes. What the call sets is stated by the lemmas TextOnIdleSlot, TextOnEmptySlot and TextNeedsPosition in PrimitiveProperties.
