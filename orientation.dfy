/**
  MetaverseCompetition/ARView/ClassifyRealObject/CGImagePropertyOrientation.swift:
  the conversion from a UIKit image orientation to the Core Graphics image
  property orientation that Vision expects.
*/
module ImageOrientation {

  /** `UIImage.Orientation`; `Future` stands for any case added after the eight known ones. */
  datatype UIImageOrientation =
    | Up | Down | Left | Right
    | UpMirrored | DownMirrored | LeftMirrored | RightMirrored
    | Future(rawValue: int)

  /** `CGImagePropertyOrientation`. */
  datatype CGImagePropertyOrientation =
    | Up | Down | Left | Right
    | UpMirrored | DownMirrored | LeftMirrored | RightMirrored

  predicate IsKnown(o: UIImageOrientation) {
    !o.Future?
  }

  /** The case name, shared by the two enumerations. */
  function UIName(o: UIImageOrientation): string {
    match o
    case Up => "up"
    case Down => "down"
    case Left => "left"
    case Right => "right"
    case UpMirrored => "upMirrored"
    case DownMirrored => "downMirrored"
    case LeftMirrored => "leftMirrored"
    case RightMirrored => "rightMirrored"
    case Future(_) => "unknown"
  }

  function CGName(c: CGImagePropertyOrientation): string {
    match c
    case Up => "up"
    case Down => "down"
    case Left => "left"
    case Right => "right"
    case UpMirrored => "upMirrored"
    case DownMirrored => "downMirrored"
    case LeftMirrored => "leftMirrored"
    case RightMirrored => "rightMirrored"
  }

  predicate UIIsMirrored(o: UIImageOrientation) {
    o.UpMirrored? || o.DownMirrored? || o.LeftMirrored? || o.RightMirrored?
  }

  predicate CGIsMirrored(c: CGImagePropertyOrientation) {
    c.UpMirrored? || c.DownMirrored? || c.LeftMirrored? || c.RightMirrored?
  }

  /** `CGImagePropertyOrientation.init(_:)`: total, name-preserving, `.up` for an unknown case. */
  function FromUIImageOrientation(o: UIImageOrientation): (c: CGImagePropertyOrientation)
    ensures IsKnown(o) ==> CGName(c) == UIName(o)
    ensures IsKnown(o) ==> (CGIsMirrored(c) <==> UIIsMirrored(o))
    ensures !IsKnown(o) ==> c == CGImagePropertyOrientation.Up
  {
    match o
    case Up => CGImagePropertyOrientation.Up
    case Down => CGImagePropertyOrientation.Down
    case Left => CGImagePropertyOrientation.Left
    case Right => CGImagePropertyOrientation.Right
    case UpMirrored => CGImagePropertyOrientation.UpMirrored
    case DownMirrored => CGImagePropertyOrientation.DownMirrored
    case LeftMirrored => CGImagePropertyOrientation.LeftMirrored
    case RightMirrored => CGImagePropertyOrientation.RightMirrored
    case Future(_) => CGImagePropertyOrientation.Up
  }

  /** The independent inverse: the known UIKit case of the same name. */
  function ToUIImageOrientation(c: CGImagePropertyOrientation): (o: UIImageOrientation)
    ensures IsKnown(o) && UIName(o) == CGName(c)
  {
    match c
    case Up => UIImageOrientation.Up
    case Down => UIImageOrientation.Down
    case Left => UIImageOrientation.Left
    case Right => UIImageOrientation.Right
    case UpMirrored => UIImageOrientation.UpMirrored
    case DownMirrored => UIImageOrientation.DownMirrored
    case LeftMirrored => UIImageOrientation.LeftMirrored
    case RightMirrored => UIImageOrientation.RightMirrored
  }

  /** Known cases survive the round trip in both directions. */
  lemma RoundTrip(o: UIImageOrientation, c: CGImagePropertyOrientation)
    ensures IsKnown(o) ==> ToUIImageOrientation(FromUIImageOrientation(o)) == o
    ensures FromUIImageOrientation(ToUIImageOrientation(c)) == c
  {
  }

  /** No two known cases map to the same orientation. */
  lemma KnownCasesMapInjectively(a: UIImageOrientation, b: UIImageOrientation)
    requires IsKnown(a) && IsKnown(b) && FromUIImageOrientation(a) == FromUIImageOrientation(b)
    ensures a == b
  {
    RoundTrip(a, CGImagePropertyOrientation.Up);
    RoundTrip(b, CGImagePropertyOrientation.Up);
  }

  /** Every Core Graphics orientation is reached by a known case. */
  lemma EveryOrientationReached(c: CGImagePropertyOrientation)
    ensures exists o :: IsKnown(o) && FromUIImageOrientation(o) == c
  {
    RoundTrip(ToUIImageOrientation(c), c);
  }
}
