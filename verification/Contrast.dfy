/** scripts/check-book-contrast.py: stacking a surface's layers, and the contrast
    of two colours. Figures are reals; `power` is the 2.4th power. */
module Contrast {
  import opened Values
  import opened Palette

  /** What is seen of `bottom` through `top`; the result is opaque. */
  function Over(top: Colour, bottom: Colour): Colour {
    var a := top.a;
    Colour(a * top.r + (1.0 - a) * bottom.r, a * top.g + (1.0 - a) * bottom.g, a * top.b + (1.0 - a) * bottom.b, 1.0)
  }

  predicate Between(x: real, a: real, b: real) { a <= x <= b || b <= x <= a }

  lemma Mix(a: real, t: real, u: real)
    requires 0.0 <= a <= 1.0
    ensures Between(a * t + (1.0 - a) * u, t, u)
  {
    var x := a * t + (1.0 - a) * u;
    assert x - u == a * (t - u) && t - x == (1.0 - a) * (t - u);
    var d := if t >= u then t - u else u - t;
    NotNegative(a, d);
    NotNegative(1.0 - a, d);
    if t < u {
      assert a * (t - u) == -(a * d) && (1.0 - a) * (t - u) == -((1.0 - a) * d);
    }
  }

  lemma NotNegative(a: real, d: real)
    requires a >= 0.0 && d >= 0.0
    ensures a * d >= 0.0
  {
  }

  /** Each channel of a composite lies between the two colours', and it is the
      top at alpha 1 and the bottom at alpha 0. */
  lemma CompositeIsBetween(top: Colour, bottom: Colour)
    requires 0.0 <= top.a <= 1.0
    ensures
      var c := Over(top, bottom);
      && Between(c.r, top.r, bottom.r) && Between(c.g, top.g, bottom.g) && Between(c.b, top.b, bottom.b) && c.a == 1.0
      && (top.a == 1.0 ==> c == top) && (top.a == 0.0 ==> c == bottom.(a := 1.0))
  {
    Mix(top.a, top.r, bottom.r);
    Mix(top.a, top.g, bottom.g);
    Mix(top.a, top.b, bottom.b);
  }

  // ----------------------------------------------------------------- surfaces

  /** A layer: a palette reference, or one tinted by a number or by what another
      reference resolves to. */
  datatype Alpha = Literal(x: real) | Token(value: string)
  datatype Layer = Whole(value: string) | Tint(value: string, alpha: Alpha)

  function AlphaOf(palette: Names, layer: Layer, float: string -> Option<real>): Reading {
    match layer
    case Whole(_) => Number(1.0)
    case Tint(_, Literal(x)) => Number(x)
    case Tint(_, Token(value)) => Resolve(palette, value, [], float)
  }

  /** A colour read and its tint, made one. */
  function Tinted(colour: Reading, alpha: Reading): Reading {
    if !(alpha.Read? || alpha.Number?) then alpha
    else if colour.Number? || alpha.Read? then TypeError
    else if colour.Read? then Read(colour.colour.(a := colour.colour.a * alpha.x))
    else colour
  }

  function LayerOf(whole: bool, colour: Reading, alpha: Reading): (r: Reading)
    ensures !r.Number?
  {
    if !(colour.Read? || colour.Number?) then colour
    else if whole then if colour.Number? then TypeError else colour
    else Tinted(colour, alpha)
  }

  /** A layer's colour, or why it has none. */
  function LayerColour(palette: Names, layer: Layer, float: string -> Option<real>): (r: Reading)
    ensures !r.Number?
  {
    LayerOf(layer.Whole?, Resolve(palette, layer.value, [], float), AlphaOf(palette, layer, float))
  }

  /** What a stack of layers gives: nothing for none, a colour, or what stops it. */
  datatype Stack = NoSurface | Surface(colour: Colour) | Translucent(layer: Layer) | Stopped(why: Reading)

  function Stacked(palette: Names, layers: seq<Layer>, float: string -> Option<real>): Stack {
    if layers == [] then NoSurface
    else
      var n := |layers| - 1;
      var below := Stacked(palette, layers[..n], float);
      if below.Translucent? || below.Stopped? then below
      else match LayerColour(palette, layers[n], float)
        case Read(c) =>
          if below.Surface? then Surface(Over(c, below.colour)) else if c.a < 1.0 then Translucent(layers[n]) else Surface(c)
        case why => Stopped(why)
  }

  /** surface */
  method SurfaceOf(palette: Names, layers: seq<Layer>, float: string -> Option<real>) returns (r: Stack)
    ensures r == Stacked(palette, layers, float)
  {
    r := NoSurface;
    for i := 0 to |layers|
      invariant r == Stacked(palette, layers[..i], float) && (r.NoSurface? || r.Surface?)
    {
      assert layers[..i + 1][..i] == layers[..i];
      var colour := LayerColour(palette, layers[i], float);
      if !colour.Read? {
        StopsThere(palette, layers, i, float);
        return Stopped(colour);
      }
      if r.NoSurface? {
        if colour.colour.a < 1.0 {
          StopsThere(palette, layers, i, float);
          return Translucent(layers[i]);
        }
        r := Surface(colour.colour);
      } else {
        r := Surface(Over(colour.colour, r.colour));
      }
    }
    assert layers[..|layers|] == layers;
  }

  predicate Halts(s: Stack) { s.Translucent? || s.Stopped? }

  /** A layer that stops the stack decides it, whatever is above. */
  lemma StopsThere(palette: Names, layers: seq<Layer>, i: nat, float: string -> Option<real>)
    requires i < |layers|
    ensures Halts(Stacked(palette, layers[..i + 1], float)) ==> Stacked(palette, layers, float) == Stacked(palette, layers[..i + 1], float)
  {
    var upTo := (k: nat) => if k <= |layers| then Stacked(palette, layers[..k], float) else NoSurface;
    forall k: nat | 0 < k <= |layers| && Halts(upTo(k - 1)) ensures upTo(k) == upTo(k - 1) {
      StaysStopped(palette, layers, k, float);
    }
    HaltsOn(upTo, i + 1, |layers|);
    assert layers[..|layers|] == layers;
  }

  lemma {:induction false} HaltsOn(upTo: nat -> Stack, i: nat, j: nat)
    requires i <= j && forall k: nat | 0 < k <= j && Halts(upTo(k - 1)) :: upTo(k) == upTo(k - 1)
    ensures Halts(upTo(i)) ==> upTo(j) == upTo(i)
  {
    if i < j { HaltsOn(upTo, i, j - 1); }
  }

  lemma StaysStopped(palette: Names, layers: seq<Layer>, j: nat, float: string -> Option<real>)
    requires 0 < j <= |layers|
    ensures
      var below := Stacked(palette, layers[..j - 1], float);
      Halts(below) ==> Stacked(palette, layers[..j], float) == below
  {
    assert layers[..j][..j - 1] == layers[..j - 1];
  }

  /** Layers with channels in 0..255 and alphas in 0..1 stack into an opaque
      surface with channels in 0..255; only a translucent bottom layer stops them. */
  lemma {:induction false} SurfaceIsOpaque(palette: Names, layers: seq<Layer>, float: string -> Option<real>)
    requires layers != []
    requires forall layer | layer in layers :: LayerColour(palette, layer, float).Read? && InRange(LayerColour(palette, layer, float).colour)
    ensures
      var r := Stacked(palette, layers, float);
      if LayerColour(palette, layers[0], float).colour.a < 1.0 then r == Translucent(layers[0])
      else r.Surface? && InRange(r.colour) && r.colour.a == 1.0
    decreases |layers|
  {
    var n := |layers| - 1;
    assert layers[n] in layers;
    if n > 0 {
      forall layer | layer in layers[..n] ensures layer in layers {}
      SurfaceIsOpaque(palette, layers[..n], float);
      var below := Stacked(palette, layers[..n], float);
      if below.Surface? {
        CompositeIsBetween(LayerColour(palette, layers[n], float).colour, below.colour);
      }
    }
  }

  ghost predicate HasColour(whole: bool, colour: Reading, alpha: Reading, c: Colour) {
    if whole then colour == Read(c)
    else exists base, x :: colour == Read(base) && alpha == Number(x) && c == base.(a := base.a * x)
  }

  lemma LayerOfIs(whole: bool, colour: Reading, alpha: Reading, c: Colour)
    ensures LayerOf(whole, colour, alpha) == Read(c) <==> HasColour(whole, colour, alpha, c)
  {
    if LayerOf(whole, colour, alpha).Read? && !whole { assert colour == Read(colour.colour) && alpha == Number(alpha.x); }
  }

  /** A plain layer has the colour its reference resolves to, and a tinted one
      that colour with its alpha times the tint's; nothing else has a colour, and
      then the first thing that could not be read says why. */
  lemma LayerColourIs(palette: Names, layer: Layer, float: string -> Option<real>, c: Colour)
    ensures
      var colour, alpha := Resolve(palette, layer.value, [], float), AlphaOf(palette, layer, float);
      && (LayerColour(palette, layer, float) == Read(c) <==> HasColour(layer.Whole?, colour, alpha, c))
      && (!LayerColour(palette, layer, float).Read? ==>
            LayerColour(palette, layer, float) ==
              if !colour.Read? && !colour.Number? then colour
              else if layer.Tint? && !alpha.Read? && !alpha.Number? then alpha
              else TypeError)
  {
    LayerOfIs(layer.Whole?, Resolve(palette, layer.value, [], float), AlphaOf(palette, layer, float), c);
  }

  // ----------------------------------------------------------------- contrast

  function Channel(c: real, power: real -> real): real {
    var x := c / 255.0;
    if x <= 0.04045 then x / 12.92 else power((x + 0.055) / 1.055)
  }

  function Luminance(c: Colour, power: real -> real): real {
    0.2126 * Channel(c.r, power) + 0.7152 * Channel(c.g, power) + 0.0722 * Channel(c.b, power)
  }

  function Ratio(fg: Colour, bg: Colour, power: real -> real): real
    requires Luminance(fg, power) > -0.05 && Luminance(bg, power) > -0.05
  {
    var a, b := Luminance(fg, power), Luminance(bg, power);
    if a < b then (b + 0.05) / (a + 0.05) else (a + 0.05) / (b + 0.05)
  }

  /** The power keeps 0..1. */
  ghost predicate KeepsUnit(power: real -> real) {
    forall x | 0.0 <= x <= 1.0 :: 0.0 <= power(x) <= 1.0
  }

  lemma ChannelInUnit(c: real, power: real -> real)
    requires KeepsUnit(power) && 0.0 <= c <= 255.0
    ensures 0.0 <= Channel(c, power) <= 1.0
  {
    var x := c / 255.0;
    assert 0.0 <= x <= 1.0;
    if x > 0.04045 {
      assert 0.0 <= (x + 0.055) / 1.055 <= 1.0;
    }
  }

  lemma LuminanceInUnit(c: Colour, power: real -> real)
    requires KeepsUnit(power) && InRange(c)
    ensures 0.0 <= Luminance(c, power) <= 1.0
  {
    ChannelInUnit(c.r, power);
    ChannelInUnit(c.g, power);
    ChannelInUnit(c.b, power);
  }

  lemma TimesGrows(x: real, y: real, k: real)
    requires k > 0.0
    ensures x < y ==> x * k < y * k
  {
  }

  lemma QuotientBounds(hi: real, lo: real)
    requires 0.05 <= lo <= hi <= 1.05
    ensures 1.0 <= hi / lo <= 21.0
  {
    var q := hi / lo;
    assert q * lo == hi;
    TimesGrows(q, 1.0, lo);
    TimesGrows(21.0, q, lo);
  }

  /** Contrast is the same both ways round and lies in 1..21. */
  lemma RatioBounds(fg: Colour, bg: Colour, power: real -> real)
    requires KeepsUnit(power) && InRange(fg) && InRange(bg)
    ensures 0.0 <= Luminance(fg, power) <= 1.0 && 0.0 <= Luminance(bg, power) <= 1.0
    ensures Ratio(fg, bg, power) == Ratio(bg, fg, power)
    ensures 1.0 <= Ratio(fg, bg, power) <= 21.0
  {
    LuminanceInUnit(fg, power);
    LuminanceInUnit(bg, power);
    var a, b := Luminance(fg, power) + 0.05, Luminance(bg, power) + 0.05;
    if a < b { QuotientBounds(b, a); } else { QuotientBounds(a, b); }
  }

  /** The channel curve: linear up to 10.31475 of 255, and the power beyond. */
  lemma ChannelCurve(c: real, power: real -> real)
    ensures c <= 10.31475 ==> Channel(c, power) == c / 3294.6
    ensures c > 10.31475 ==> Channel(c, power) == power((c / 255.0 + 0.055) / 1.055)
  {
    var x := c / 255.0;
    assert x * 255.0 == c;
    if c <= 10.31475 { assert x <= 0.04045; } else { assert x > 0.04045; }
  }

  /** Red, green and blue weigh what WCAG gives them, so black on white has the
      contrast of 21 and nothing more. */
  lemma Weights(power: real -> real, a: real)
    requires power(1.0) == 1.0
    ensures Luminance(Colour(255.0, 0.0, 0.0, a), power) == 0.2126
    ensures Luminance(Colour(0.0, 255.0, 0.0, a), power) == 0.7152
    ensures Luminance(Colour(0.0, 0.0, 255.0, a), power) == 0.0722
    ensures
      var white, black := Colour(255.0, 255.0, 255.0, a), Colour(0.0, 0.0, 0.0, a);
      Luminance(white, power) == 1.0 && Luminance(black, power) == 0.0 && Ratio(white, black, power) == 21.0
  {
    FullChannel(power);
  }

  lemma FullChannel(power: real -> real)
    requires power(1.0) == 1.0
    ensures Channel(255.0, power) == 1.0 && Channel(0.0, power) == 0.0
  {
    assert (1.0 + 0.055) / 1.055 == 1.0;
  }

  /** The ratio is of the lighter to the darker, each raised by 0.05. */
  lemma RatioIs(fg: Colour, bg: Colour, power: real -> real)
    requires Luminance(fg, power) > -0.05 && Luminance(bg, power) > -0.05
    ensures
      var a, b := Luminance(fg, power), Luminance(bg, power);
      Ratio(fg, bg, power) * (if a < b then a + 0.05 else b + 0.05) == if a < b then b + 0.05 else a + 0.05
  {
  }
}
