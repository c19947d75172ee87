/** The collision boundaries of the screen and their string identifiers.
    A boundary is registered with the physics engine under its identifier,
    and a contact report hands back an untyped identifier that `From` parses. */
module Boundaries {
  import opened Optionals

  datatype Boundary = Top | Left | Bottom | Right

  /** What a contact report can carry as identifier (an `NSCopying` object):
      a string, or some other copyable object. A missing identifier is `None`. */
  datatype CopyingValue = NSString(text: string) | OtherObject

  /** The enum's raw value: each case's fixed tag. */
  function RawValue(b: Boundary): string
  {
    match b
    case Top => "top"
    case Left => "left"
    case Bottom => "bottom"
    case Right => "right"
  }

  /** `identifier`: the raw value, bridged to a string object. */
  function Identifier(b: Boundary): CopyingValue
  {
    NSString(RawValue(b))
  }

  /** `Boundary(rawValue:)`: the case whose tag is exactly `s`, if any. */
  function FromRawValue(s: string): (r: Option<Boundary>)
    ensures forall b :: r == Some(b) <==> RawValue(b) == s
  {
    if s == "top" then Some(Top)
    else if s == "left" then Some(Left)
    else if s == "bottom" then Some(Bottom)
    else if s == "right" then Some(Right)
    else None
  }

  /** `from(_:)`: parse an untyped identifier. Anything but a string is
      rejected, and so is every string that is not one of the four tags. */
  function From(id: Option<CopyingValue>): (r: Option<Boundary>)
    ensures r.Some? ==> id == Some(Identifier(r.value))
    ensures forall b :: id == Some(Identifier(b)) ==> r == Some(b)
    ensures id.None? || id.value.OtherObject? ==> r.None?
  {
    match id
    case None => None
    case Some(OtherObject) => None
    case Some(NSString(s)) => FromRawValue(s)
  }

  /** The four fixed tags. */
  lemma IdentifierTags()
    ensures Identifier(Top) == NSString("top")
    ensures Identifier(Left) == NSString("left")
    ensures Identifier(Bottom) == NSString("bottom")
    ensures Identifier(Right) == NSString("right")
  {
  }

  /** Distinct cases have distinct identifiers. */
  lemma IdentifierInjective(a: Boundary, b: Boundary)
    requires Identifier(a) == Identifier(b)
    ensures a == b
  {
  }

  /** Parsing an identifier gives back the boundary it was made from. */
  lemma RoundTrip(b: Boundary)
    ensures From(Some(Identifier(b))) == Some(b)
  {
  }

  /** A parsed boundary's identifier is the input: `from` never yields a
      case for a value that is not exactly its tag. */
  lemma FromSound(id: Option<CopyingValue>, b: Boundary)
    requires From(id) == Some(b)
    ensures Identifier(b) == id.value
  {
  }

  /** Rejections: no identifier, a non-string, and any string but the four
      tags (matching is exact, so a capitalised tag is rejected). */
  lemma FromRejects(s: string)
    requires s != "top" && s != "left" && s != "bottom" && s != "right"
    ensures From(None) == None
    ensures From(Some(OtherObject)) == None
    ensures From(Some(NSString(s))) == None
    ensures From(Some(NSString("Top"))) == None
  {
  }
}
