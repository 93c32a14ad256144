/** The brush of the Hexalib drawing window: a colour together with a painting
    style, opaque (shapes are filled) or not (only outlines are drawn). The
    opaque counterpart of a brush is computed on demand and cached in the brush
    itself; an opaque brush is its own counterpart. */
module MainWindow {
  import JavaStrings

  /** `java.awt.Color`, reduced to the three components a brush is made of. */
  datatype Color = Color(red: int, green: int, blue: int)

  /** The exception the brush constructors throw, with its message. */
  datatype IllegalArgumentException = IllegalArgumentException(message: string)

  /** The outcome of a Java call that either returns a value or throws. */
  datatype Result<+T> = Ok(value: T) | Thrown(exception: IllegalArgumentException)

  /** A colour component the brush accepts. */
  predicate InRange(component: int) {
    0 <= component <= 255
  }

  predicate IsValidColor(c: Color) {
    InRange(c.red) && InRange(c.green) && InRange(c.blue)
  }

  const BadComponentPrefix: string := "bad component value "

  /** The brushes the class predefines as constants. */
  datatype Predefined =
    | Red | Green | Blue | LightGray | Gray | DarkGray
    | Black | Pink | Orange | Yellow | Magenta | Cyan

  /** The colour of each predefined brush. Blue is (0, 0, 244), not (0, 0, 255). */
  function PredefinedColor(p: Predefined): (c: Color)
    ensures IsValidColor(c)
  {
    match p
    case Red => Color(255, 0, 0)
    case Green => Color(0, 255, 0)
    case Blue => Color(0, 0, 244)
    case LightGray => Color(192, 192, 192)
    case Gray => Color(128, 128, 128)
    case DarkGray => Color(64, 64, 64)
    case Black => Color(0, 0, 0)
    case Pink => Color(255, 175, 175)
    case Orange => Color(255, 200, 0)
    case Yellow => Color(255, 255, 0)
    case Magenta => Color(255, 0, 255)
    case Cyan => Color(0, 255, 255)
  }

  class Brush {
    const color: Color
    /** The opaque counterpart of this brush: `this` when the brush is opaque,
        null while the counterpart has not been computed yet. */
    var opaqueBrush: Brush?

    /** The cache is empty, or points back to this brush, or holds another
        brush of the same colour that is its own counterpart. */
    ghost predicate Valid()
      reads this, opaqueBrush
    {
      opaqueBrush == null || opaqueBrush == this ||
      (opaqueBrush.color == color && opaqueBrush.opaqueBrush == opaqueBrush)
    }

    /** A brush is opaque exactly when it is its own opaque counterpart (a
        reference comparison, not a flag). An opaque brush therefore never has
        an empty cache, and it satisfies the invariant by itself. */
    predicate IsOpaque()
      reads this
      ensures IsOpaque() ==> opaqueBrush != null && Valid()
    {
      opaqueBrush == this
    }

    /** The private constructor from a colour and a style. */
    constructor (color: Color, opaqueStyle: bool)
      ensures this.color == color
      ensures opaqueBrush == (if opaqueStyle then this else null)
      ensures Valid() && IsOpaque() == opaqueStyle
    {
      this.color := color;
      this.opaqueBrush := null;
      new;
      if opaqueStyle {
        opaqueBrush := this;
      }
    }

    /** Returns a component in 0..255 unchanged and throws for any other,
        naming the offending value in the message. */
    static function CheckColorComponent(component: int): (r: Result<int>)
      ensures r.Ok? <==> InRange(component)
      ensures r.Ok? ==> r.value == component
      ensures r.Thrown? ==> r.exception.message == BadComponentPrefix + JavaStrings.IntToString(component)
    {
      if component < 0 || component > 255 then
        Thrown(IllegalArgumentException(BadComponentPrefix + JavaStrings.IntToString(component)))
      else
        Ok(component)
    }

    /** The colour `new Color(check(red), check(green), check(blue))` yields:
        the components are checked left to right and the first one out of
        range throws. */
    static function CheckedColor(red: int, green: int, blue: int): (r: Result<Color>)
      ensures r.Ok? <==> IsValidColor(Color(red, green, blue))
      ensures r.Ok? ==> r.value == Color(red, green, blue)
      ensures !InRange(red) ==> r.Thrown? && r.exception == CheckColorComponent(red).exception
      ensures InRange(red) && !InRange(green) ==>
        r.Thrown? && r.exception == CheckColorComponent(green).exception
      ensures InRange(red) && InRange(green) && !InRange(blue) ==>
        r.Thrown? && r.exception == CheckColorComponent(blue).exception
    {
      match CheckColorComponent(red)
      case Thrown(e) => Thrown(e)
      case Ok(r) =>
        match CheckColorComponent(green)
        case Thrown(e) => Thrown(e)
        case Ok(g) =>
          match CheckColorComponent(blue)
          case Thrown(e) => Thrown(e)
          case Ok(b) => Ok(Color(r, g, b))
    }

    /** The private constructor from three components and a style. */
    static method NewWithStyle(red: int, green: int, blue: int, opaqueStyle: bool) returns (r: Result<Brush>)
      ensures r.Ok? <==> IsValidColor(Color(red, green, blue))
      ensures r.Thrown? ==> r.exception == CheckedColor(red, green, blue).exception
      ensures r.Ok? ==> fresh(r.value) && r.value.Valid()
      ensures r.Ok? ==> r.value.color == Color(red, green, blue)
      ensures r.Ok? ==> r.value.opaqueBrush == (if opaqueStyle then r.value else null)
    {
      match CheckedColor(red, green, blue)
      case Thrown(e) =>
        r := Thrown(e);
      case Ok(c) =>
        var b := new Brush(c, opaqueStyle);
        r := Ok(b);
    }

    /** The public constructor: a brush that is not opaque and whose cache is
        still empty; throws when a component is outside 0..255. */
    static method New(red: int, green: int, blue: int) returns (r: Result<Brush>)
      ensures r.Ok? <==> IsValidColor(Color(red, green, blue))
      ensures r.Thrown? ==> r.exception == CheckedColor(red, green, blue).exception
      ensures r.Ok? ==> fresh(r.value) && r.value.Valid()
      ensures r.Ok? ==> r.value.color == Color(red, green, blue)
      ensures r.Ok? ==> r.value.opaqueBrush == null && !r.value.IsOpaque()
    {
      r := NewWithStyle(red, green, blue, false);
    }

    /** One of the predefined brush constants, built by the public constructor. */
    static method NewPredefined(p: Predefined) returns (b: Brush)
      ensures fresh(b) && b.Valid()
      ensures b.color == PredefinedColor(p)
      ensures b.opaqueBrush == null && !b.IsOpaque()
    {
      var c := PredefinedColor(p);
      var r := New(c.red, c.green, c.blue);
      b := r.value;
    }

    /** The brush with this colour and the opaque style. The first call on a
        brush that is not opaque creates it and caches it; every later call,
        and every call on an opaque brush, returns the cached brush and changes
        nothing. */
    method AsOpaque() returns (b: Brush)
      requires Valid()
      modifies this
      ensures Valid() && b.Valid()
      ensures b.IsOpaque() && b.color == color
      ensures opaqueBrush == b
      ensures old(opaqueBrush) != null ==> b == old(opaqueBrush) && unchanged(this)
      ensures old(opaqueBrush) == null ==> fresh(b)
      ensures IsOpaque() == old(IsOpaque())
      ensures old(IsOpaque()) ==> b == this
      ensures forall x: Brush :: old(allocated(x)) && old(x.Valid()) ==> x.Valid()
    {
      if opaqueBrush != null {
        return opaqueBrush;
      }
      b := new Brush(color, true);
      opaqueBrush := b;
    }
  }

  /** Calling `asOpaque` twice on a brush returns the same object both times;
      the second call allocates nothing and changes nothing. */
  method AsOpaqueTwice(brush: Brush) returns (first: Brush, second: Brush)
    requires brush.Valid()
    modifies brush
    ensures first == second && first.IsOpaque() && first.color == brush.color
    ensures brush.opaqueBrush == first && brush.Valid()
  {
    first := brush.AsOpaque();
    label between:
    second := brush.AsOpaque();
    assert unchanged@between(brush);
  }

  /** The message of the exception a rejected component raises names that
      component: two rejected components with the same message are equal. */
  lemma MessageIdentifiesComponent(a: int, b: int)
    requires Brush.CheckColorComponent(a).Thrown? && Brush.CheckColorComponent(b).Thrown?
    requires Brush.CheckColorComponent(a).exception == Brush.CheckColorComponent(b).exception
    ensures a == b
  {
    var ta, tb := JavaStrings.IntToString(a), JavaStrings.IntToString(b);
    assert (BadComponentPrefix + ta)[|BadComponentPrefix|..] == ta;
    assert (BadComponentPrefix + tb)[|BadComponentPrefix|..] == tb;
    JavaStrings.IntToStringInjective(a, b);
  }
}
