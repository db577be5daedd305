/** scripts/check-book-contrast.py: reading a palette value through its
    references, which may go round in circles. */
module Palette {
  import opened Values

  datatype Colour = Colour(r: real, g: real, b: real, a: real)

  /** Why a value cannot be read: a ValueError, which names the token it came
      through, a KeyError, or a TypeError from using a number as a colour. */
  datatype Fault = Loop(name: string) | NotHex | NotRead
  datatype Reading =
    | Read(colour: Colour)
    | Number(x: real)
    | ValueError(fault: Fault, token: Option<string>)
    | KeyError(name: string)
    | TypeError

  type Names = map<string, string>

  // ----------------------------------------------------------------- the text

  /** str.isspace */
  predicate IsSpace(c: char) {
    var n := c as int;
    9 <= n <= 13 || 28 <= n <= 32 || n == 0x85 || n == 0xA0 || n == 0x1680 || 0x2000 <= n <= 0x200A
    || n == 0x2028 || n == 0x2029 || n == 0x202F || n == 0x205F || n == 0x3000
  }

  function LStrip(s: string): (r: string)
    ensures |r| <= |s|
  {
    if s != [] && IsSpace(s[0]) then LStrip(s[1..]) else s
  }

  function RStrip(s: string): (r: string)
    ensures |r| <= |s|
  {
    if s != [] && IsSpace(s[|s| - 1]) then RStrip(s[..|s| - 1]) else s
  }

  function Strip(s: string): (r: string)
    ensures |r| <= |s|
  {
    RStrip(LStrip(s))
  }

  /** str.split(",") */
  function SplitCommas(s: string): (parts: seq<string>)
    ensures |parts| >= 1 && forall p | p in parts :: |p| <= |s|
  {
    if s == [] then [[]]
    else
      var rest := SplitCommas(s[1..]);
      if s[0] == ',' then [[]] + rest else [[s[0]] + rest[0]] + rest[1..]
  }

  predicate StartsWith(s: string, prefix: string) { |prefix| <= |s| && s[..|prefix|] == prefix }

  /** What is in the parentheses of `rgb(...)` or `rgba(...)`. */
  function RgbArguments(s: string): (r: Option<seq<string>>)
    ensures r.Some? ==> |r.value| >= 1 && forall p | p in r.value :: |p| < |s|
  {
    var n := if StartsWith(s, "rgba(") then 5 else if StartsWith(s, "rgb(") then 4 else 0;
    if n > 0 && |s| > n && s[|s| - 1] == ')' && forall i | n <= i < |s| - 1 :: s[i] != '\n' then
      Some(SplitCommas(s[n..|s| - 1]))
    else None
  }

  predicate IsHexDigit(c: char) { '0' <= c <= '9' || 'a' <= c <= 'f' || 'A' <= c <= 'F' }

  function HexDigit(c: char): (n: int)
    requires IsHexDigit(c)
    ensures 0 <= n < 16
  {
    if c <= '9' then c as int - '0' as int else if c <= 'F' then c as int - 'A' as int + 10 else c as int - 'a' as int + 10
  }

  function LStripHash(s: string): string {
    if s != [] && s[0] == '#' then LStripHash(s[1..]) else s
  }

  /** Three digits each twice, and any other number of them as they are. */
  function Doubled(h: string): string {
    if |h| == 3 then [h[0], h[0], h[1], h[1], h[2], h[2]] else h
  }

  function ParseHex(value: string): (r: Reading)
    ensures r.Read? || r == ValueError(NotHex, None)
    ensures r.Read? ==> InRange(r.colour) && r.colour.a == 1.0
  {
    var h := Doubled(LStripHash(value));
    if |h| == 6 && forall i | 0 <= i < 6 :: IsHexDigit(h[i]) then
      Read(Colour(Octet(h[0], h[1]), Octet(h[2], h[3]), Octet(h[4], h[5]), 1.0))
    else ValueError(NotHex, None)
  }

  function Octet(hi: char, lo: char): (x: real)
    requires IsHexDigit(hi) && IsHexDigit(lo)
    ensures 0.0 <= x <= 255.0
  {
    (HexDigit(hi) * 16 + HexDigit(lo)) as real
  }

  predicate InRange(c: Colour) {
    0.0 <= c.r <= 255.0 && 0.0 <= c.g <= 255.0 && 0.0 <= c.b <= 255.0 && 0.0 <= c.a <= 1.0
  }

  // ---------------------------------------------------------------- resolving

  /** A value as its text shows it. */
  datatype Form =
    | Reference(name: string)
    | Hex(text: string)
    | Faded(inner: string, alpha: string)
    | Rgb(arguments: seq<string>)
    | Plain(text: string)

  function FormOf(value: string): (f: Form)
    ensures f.Faded? ==> |f.inner| < |value|
  {
    var s := Strip(value);
    if s != [] && s[0] == '$' then Reference(s[1..])
    else if s != [] && s[0] == '#' then Hex(s)
    else match RgbArguments(s)
      case Some(args) => if |args| == 2 then Faded(args[0], args[1]) else Rgb(args)
      case None => Plain(s)
  }

  /** The name a value leads to: its own, or its first argument's when it is a
      colour with an alpha. */
  function Leads(value: string): Option<string>
    decreases |value|
  {
    match FormOf(value)
    case Reference(name) => Some(name)
    case Faded(inner, _) => Leads(inner)
    case _ => None
  }

  function Unseen(palette: Names, seen: seq<string>): set<string> {
    set n | n in palette.Keys && n !in seen
  }

  /** Three or more arguments, each a number. */
  function Channels(args: seq<string>, float: string -> Option<real>): Reading {
    if |args| < 3 || exists i | 0 <= i < (if |args| > 3 then 4 else 3) :: float(Strip(args[i])).None? then ValueError(NotRead, None)
    else
      var c := (i: int) requires 0 <= i < |args| => float(Strip(args[i]));
      Read(Colour(c(0).value, c(1).value, c(2).value, if |args| > 3 then c(3).value else 1.0))
  }

  function WithAlpha(inner: Reading, alpha: Option<real>): Reading {
    match inner
    case Read(c) => if alpha.Some? then Read(c.(a := c.a * alpha.value)) else ValueError(NotRead, None)
    case Number(_) => TypeError
    case _ => inner
  }

  function NameToken(inner: Reading, name: string): Reading {
    if inner.ValueError? && inner.token.None? then inner.(token := Some(name)) else inner
  }

  /** `float` is Python's, on a stripped text. No palette makes it run on: each
      reference is to a name not seen yet, and each argument is shorter. */
  function Resolve(palette: Names, value: string, seen: seq<string>, float: string -> Option<real>): Reading
    decreases |Unseen(palette, seen)|, |value|
  {
    match FormOf(value)
    case Reference(name) =>
      if name in seen then ValueError(Loop(name), None)
      else if name !in palette then KeyError(name)
      else
        FewerUnseen(palette, seen, name);
        NameToken(Resolve(palette, palette[name], seen + [name], float), name)
    case Hex(text) => ParseHex(text)
    case Faded(inner, alpha) => WithAlpha(Resolve(palette, inner, seen, float), float(Strip(alpha)))
    case Rgb(args) => Channels(args, float)
    case Plain(text) => match float(text) case Some(x) => Number(x) case None => ValueError(NotRead, None)
  }

  lemma FewerUnseen(palette: Names, seen: seq<string>, name: string)
    requires name in palette && name !in seen
    ensures |Unseen(palette, seen + [name])| < |Unseen(palette, seen)|
  {
    assert Unseen(palette, seen) == Unseen(palette, seen + [name]) + {name};
  }

  // -------------------------------------------------------------------- loops

  /** The names a value leads to, one through the other. */
  ghost predicate IsChain(palette: Names, value: string, names: seq<string>)
    decreases |names|
  {
    names != [] && Leads(value) == Some(names[0])
    && (|names| > 1 ==> names[0] in palette && IsChain(palette, palette[names[0]], names[1..]))
  }

  /** A chain that comes back to a name on it, or to one seen before it. */
  ghost predicate Returns(palette: Names, value: string, seen: seq<string>, names: seq<string>) {
    IsChain(palette, value, names) && names[|names| - 1] in seen + names[..|names| - 1]
  }

  function LoopAt(r: Reading): Option<string> {
    if r.ValueError? && r.fault.Loop? then Some(r.fault.name) else None
  }

  predicate IsLoop(r: Reading) { LoopAt(r).Some? }

  /** Naming a token and adding an alpha pass a loop on, and make none. */
  lemma LoopPasses(inner: Reading, name: string, alpha: Option<real>)
    ensures LoopAt(NameToken(inner, name)) == LoopAt(inner) == LoopAt(WithAlpha(inner, alpha))
  {
  }

  /** A loop is reported only when the chain does come back, to the name it says. */
  lemma {:induction false} LoopReturns(palette: Names, value: string, seen: seq<string>, float: string -> Option<real>, at: string)
    returns (names: seq<string>)
    requires LoopAt(Resolve(palette, value, seen, float)) == Some(at)
    ensures Returns(palette, value, seen, names) && names[|names| - 1] == at
    decreases |Unseen(palette, seen)|, |value|
  {
    match FormOf(value) {
      case Reference(name) =>
        if name in seen {
          names := [name];
        } else if name in palette {
          FewerUnseen(palette, seen, name);
          LoopPasses(Resolve(palette, palette[name], seen + [name], float), name, None);
          var rest := LoopReturns(palette, palette[name], seen + [name], float, at);
          names := [name] + rest;
          ReturnsOneOn(palette, value, seen, name, rest);
        }
      case Faded(inner, alpha) =>
        LoopPasses(Resolve(palette, inner, seen, float), [], float(Strip(alpha)));
        names := LoopReturns(palette, inner, seen, float, at);
        SameChain(palette, value, inner, names);
      case Hex(text) =>
      case Rgb(args) =>
      case Plain(text) =>
    }
  }

  lemma ReturnsOneOn(palette: Names, value: string, seen: seq<string>, name: string, rest: seq<string>)
    requires Leads(value) == Some(name) && name in palette && Returns(palette, palette[name], seen + [name], rest)
    ensures Returns(palette, value, seen, [name] + rest) && ([name] + rest)[|rest|] == rest[|rest| - 1]
  {
    var names := [name] + rest;
    assert names[1..] == rest && names[..|names| - 1] == [name] + rest[..|rest| - 1];
    assert seen + names[..|names| - 1] == (seen + [name]) + rest[..|rest| - 1];
  }

  lemma SameChain(palette: Names, v: string, w: string, names: seq<string>)
    requires Leads(v) == Leads(w)
    ensures IsChain(palette, v, names) <==> IsChain(palette, w, names)
  {
  }

  /** And it is reported whenever the chain comes back. */
  lemma {:induction false} ReturnsLoop(palette: Names, value: string, seen: seq<string>, float: string -> Option<real>, names: seq<string>)
    requires Returns(palette, value, seen, names)
    ensures IsLoop(Resolve(palette, value, seen, float))
    decreases |Unseen(palette, seen)|, |value|
  {
    var form := FormOf(value);
    if form.Reference? {
      var name := form.name;
      if name !in seen {
        assert |names| > 1;
        FewerUnseen(palette, seen, name);
        var rest := names[1..];
        assert names[..|names| - 1] == [name] + rest[..|rest| - 1];
        assert seen + names[..|names| - 1] == (seen + [name]) + rest[..|rest| - 1];
        ReturnsLoop(palette, palette[name], seen + [name], float, rest);
      }
    } else {
      SameChain(palette, value, form.inner, names);
      ReturnsLoop(palette, form.inner, seen, float, names);
    }
  }

  lemma LoopExactly(palette: Names, value: string, seen: seq<string>, float: string -> Option<real>)
    ensures IsLoop(Resolve(palette, value, seen, float)) <==> exists names :: Returns(palette, value, seen, names)
  {
    if IsLoop(Resolve(palette, value, seen, float)) {
      var names := LoopReturns(palette, value, seen, float, LoopAt(Resolve(palette, value, seen, float)).value);
    }
    if names :| Returns(palette, value, seen, names) { ReturnsLoop(palette, value, seen, float, names); }
  }

  // ------------------------------------------------------------------ the names seen

  /** No name that value leads to is among these. */
  ghost predicate Avoids(palette: Names, value: string, these: seq<string>) {
    forall names | IsChain(palette, value, names) :: names[|names| - 1] !in these
  }

  lemma AvoidsNext(palette: Names, value: string, name: string, these: seq<string>)
    requires Avoids(palette, value, these) && Leads(value) == Some(name) && name in palette
    ensures name !in these && Avoids(palette, palette[name], these)
  {
    assert IsChain(palette, value, [name]);
    forall names | IsChain(palette, palette[name], names) ensures names[|names| - 1] !in these {
      assert ([name] + names)[1..] == names;
      assert IsChain(palette, value, [name] + names);
      assert ([name] + names)[|names|] == names[|names| - 1];
    }
  }

  /** Names seen before that value does not lead to make no difference. */
  lemma {:induction false} SeenOnlyStops(palette: Names, value: string, a: seq<string>, b: seq<string>, since: seq<string>, float: string -> Option<real>)
    requires Avoids(palette, value, a) && Avoids(palette, value, b)
    ensures Resolve(palette, value, a + since, float) == Resolve(palette, value, b + since, float)
    decreases |Unseen(palette, since)|, |value|
  {
    var form := FormOf(value);
    if form.Reference? {
      var name := form.name;
      assert IsChain(palette, value, [name]);
      assert [name][|[name]| - 1] == name;
      if name in palette && name !in since {
        AvoidsNext(palette, value, name, a);
        AvoidsNext(palette, value, name, b);
        FewerUnseen(palette, since, name);
        SeenOnlyStops(palette, palette[name], a, b, since + [name], float);
        assert a + since + [name] == a + (since + [name]) && b + since + [name] == b + (since + [name]);
      }
    } else if form.Faded? {
      forall names ensures IsChain(palette, value, names) <==> IsChain(palette, form.inner, names) {
        SameChain(palette, value, form.inner, names);
      }
      SeenOnlyStops(palette, form.inner, a, b, since, float);
    }
  }

  /** No name of the palette leads back to itself. */
  ghost predicate Acyclic(palette: Names) {
    forall name, names | name in palette && IsChain(palette, palette[name], names) :: names[|names| - 1] != name
  }

  /** On an acyclic palette, resolving a name's value after any of the names that
      led to it gives what resolving it on its own does, and no loop. */
  lemma ResolvesAlike(palette: Names, value: string, seen: seq<string>, float: string -> Option<real>)
    requires Acyclic(palette)
    requires forall name | name in seen :: name in palette && LeadsTo(palette, palette[name], value)
    ensures Resolve(palette, value, seen, float) == Resolve(palette, value, [], float)
    ensures !IsLoop(Resolve(palette, value, seen, float))
  {
    forall names | IsChain(palette, value, names) ensures names[|names| - 1] !in seen {
      var last := names[|names| - 1];
      if last in seen {
        var way := BackTo(palette, palette[last], value, names);
        assert false;
      }
    }
    SeenOnlyStops(palette, value, seen, [], [], float);
    assert seen + [] == seen;
    if IsLoop(Resolve(palette, value, seen, float)) {
      var names := LoopReturns(palette, value, seen, float, LoopAt(Resolve(palette, value, seen, float)).value);
      NoReturn(palette, value, names);
    }
  }

  /** `to` is the value of a name that `from` leads to, or is `from`. */
  ghost predicate LeadsTo(palette: Names, from: string, to: string) {
    from == to || exists names :: IsChain(palette, from, names) && names[|names| - 1] in palette && palette[names[|names| - 1]] == to
  }

  lemma {:induction false} Extended(palette: Names, value: string, first: seq<string>, then_: seq<string>)
    requires IsChain(palette, value, first) && first[|first| - 1] in palette
    requires IsChain(palette, palette[first[|first| - 1]], then_)
    ensures IsChain(palette, value, first + then_)
    decreases |first|
  {
    assert (first + then_)[0] == first[0];
    if |first| == 1 {
      assert (first + then_)[1..] == then_;
    } else {
      Extended(palette, palette[first[0]], first[1..], then_);
      assert (first + then_)[1..] == first[1..] + then_;
    }
  }

  lemma BackTo(palette: Names, from: string, to: string, names: seq<string>) returns (way: seq<string>)
    requires LeadsTo(palette, from, to) && IsChain(palette, to, names)
    ensures IsChain(palette, from, way) && way[|way| - 1] == names[|names| - 1]
  {
    if from == to {
      way := names;
    } else {
      var first :| IsChain(palette, from, first) && first[|first| - 1] in palette && palette[first[|first| - 1]] == to;
      Extended(palette, from, first, names);
      way := first + names;
    }
  }

  lemma {:induction false} NoReturn(palette: Names, value: string, names: seq<string>)
    requires Acyclic(palette) && IsChain(palette, value, names)
    ensures names[|names| - 1] !in names[..|names| - 1]
    decreases |names|
  {
    if |names| > 1 {
      var name, rest := names[0], names[1..];
      NoReturn(palette, palette[name], rest);
      assert rest[|rest| - 1] != name;
      assert names[..|names| - 1] == [name] + rest[..|rest| - 1];
    }
  }
}
