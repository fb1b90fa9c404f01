/** The two enumerations of the widget and their decoders from the raw
    integers found in layout attributes. A decoder is total: every
    integer it does not know yields the exception instead of a case. */
module Enums {
  import opened KotlinTypes

  /** The edge from which progress grows. */
  datatype Direction = FromLeft | FromRight {
    /** The raw attribute value of the case. */
    function Value(): (v: int)
      ensures 0 <= v <= 1
    {
      match this
      case FromLeft => 0
      case FromRight => 1
    }
  }

  /** The drawn figure: a horizontal bar, a half arc or a full circle. */
  datatype Shape = Line | Arc | Circle {
    /** The raw attribute value of the case. */
    function Value(): (v: int)
      ensures 0 <= v <= 2
    {
      match this
      case Line => 0
      case Arc => 1
      case Circle => 2
    }
  }

  /** `Direction.getByValue`: the case whose value is `v`, or the exception. */
  function DirectionByValue(v: int): (r: Result<Direction>)
    ensures r.Ok? <==> v == 0 || v == 1
    ensures r.Ok? ==> r.value.Value() == v
    ensures r.Err? ==> r.error == IllegalArgumentException
  {
    if v == FromLeft.Value() then Ok(FromLeft)
    else if v == FromRight.Value() then Ok(FromRight)
    else Err(IllegalArgumentException)
  }

  /** `Shape.getByValue`: the case whose value is `v`, or the exception. */
  function ShapeByValue(v: int): (r: Result<Shape>)
    ensures r.Ok? <==> 0 <= v <= 2
    ensures r.Ok? ==> r.value.Value() == v
    ensures r.Err? ==> r.error == IllegalArgumentException
  {
    if v == Line.Value() then Ok(Line)
    else if v == Arc.Value() then Ok(Arc)
    else if v == Circle.Value() then Ok(Circle)
    else Err(IllegalArgumentException)
  }

  /** Decoding a case's own value gives the case back, and that case is the
      only one whose value decodes to it. */
  lemma DirectionRoundTrip(d: Direction, v: int)
    ensures DirectionByValue(d.Value()) == Ok(d)
    ensures DirectionByValue(v) == Ok(d) <==> d.Value() == v
  {
  }

  lemma ShapeRoundTrip(s: Shape, v: int)
    ensures ShapeByValue(s.Value()) == Ok(s)
    ensures ShapeByValue(v) == Ok(s) <==> s.Value() == v
  {
  }

  /** The part of the view's initialisation that can fail: the direction
      attribute is decoded first, then the shape attribute; either one
      out of range makes construction throw. */
  function DecodeAttributes(directionValue: int, shapeValue: int): (r: Result<(Direction, Shape)>)
    ensures r.Ok? <==> (directionValue == 0 || directionValue == 1) && 0 <= shapeValue <= 2
    ensures r.Ok? ==> r.value.0.Value() == directionValue && r.value.1.Value() == shapeValue
  {
    match DirectionByValue(directionValue)
    case Err(e) => Err(e)
    case Ok(d) =>
      match ShapeByValue(shapeValue)
      case Err(e) => Err(e)
      case Ok(s) => Ok((d, s))
  }

  /** With no attributes given, the view is drawn as an arc growing from the left. */
  lemma DefaultAttributes()
    ensures DecodeAttributes(FromLeft.Value(), Arc.Value()) == Ok((FromLeft, Arc))
  {
  }
}
