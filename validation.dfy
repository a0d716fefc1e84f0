/**
 * What the builders share with the validator: the primitive type table, the
 * names of the set-once properties, and the fatal errors and non-fatal
 * warnings the builders raise.
 */
module Validation {
  import opened Wrappers

  /** The closed table of primitive types (PRIMITIVE_TYPES). */
  datatype Kind = Image | Polygon | Polyline | Point | Circle | Stadium | Text

  /** The string value of each primitive type. */
  function KindName(k: Kind): string
  {
    match k
    case Image => "image"
    case Polygon => "polygon"
    case Polyline => "polyline"
    case Point => "point"
    case Circle => "circle"
    case Stadium => "stadium"
    case Text => "text"
  }

  /**
   * The pending properties guarded by a reachable set-once check.  image()
   * has one too, but it sits after a type test that always raises.
   */
  datatype Field = VerticesField | RadiusField | TextField | ColorsField
                 | IdField | StyleField | ClassesField

  /** Fatal validation errors; each aborts the call that raised it. */
  datatype Error =
    | AlreadySet(field: Field)   // a set-once property was already set
    | UnsupportedImageData       // the image payload type test failed
    | ImageNotStarted            // dimensions() before an image
    | MalformedPosition          // a position without exactly three coordinates
    | MalformedStart             // a stadium start without exactly three coordinates
    | MalformedEnd               // a stadium end without exactly three coordinates
    | ShapeAlreadyPending        // the prerequisite check of style/id/classes
    | VertexMissing(kind: Kind)  // formatting indexed vertices that are absent or too few
    | ImageMissing               // formatting set a position on an absent image record
    | StreamNotSelected          // committing with no stream id selected
    | MissingPrimaryPose         // a message without the primary pose stream

  /** Non-fatal warnings, recorded at flush time with the stream they concern. */
  datatype Warning =
    | ImageDataMissing(stream: Option<string>)
    | VerticesMissing(stream: Option<string>)
}
