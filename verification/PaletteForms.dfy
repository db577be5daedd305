/** What scripts/check-book-contrast.py reads of a palette value, form by form. */
module PaletteForms {
  import opened Values
  import opened Palette
  import Lists

  // ---------------------------------------------------------------- white space

  /** The characters str.strip takes off: Unicode's white space and the four
      separators 28 to 31. */
  ghost predicate IsWhite(c: char) {
    || 9 <= c as int <= 13 || 28 <= c as int <= 32 || c as int == 0x85 || c as int == 0xA0 || c as int == 0x1680
    || 0x2000 <= c as int <= 0x200A || c as int == 0x2028 || c as int == 0x2029 || c as int == 0x202F
    || c as int == 0x205F || c as int == 0x3000
  }

  ghost predicate AllWhite(s: string) { forall i | 0 <= i < |s| :: IsWhite(s[i]) }

  lemma {:induction false} LStripIs(s: string)
    ensures var n := |s| - |LStrip(s)|; LStrip(s) == s[n..] && AllWhite(s[..n])
    ensures LStrip(s) != [] ==> !IsWhite(LStrip(s)[0])
  {
    if s != [] && IsSpace(s[0]) {
      LStripIs(s[1..]);
      var n := |s| - |LStrip(s)|;
      assert s[..n] == [s[0]] + s[1..][..n - 1];
    }
  }

  lemma {:induction false} RStripIs(s: string)
    ensures RStrip(s) == s[..|RStrip(s)|] && AllWhite(s[|RStrip(s)|..])
    ensures RStrip(s) != [] ==> !IsWhite(RStrip(s)[|RStrip(s)| - 1])
  {
    if s != [] && IsSpace(s[|s| - 1]) {
      var n := |s| - 1;
      RStripIs(s[..n]);
      var k := |RStrip(s)|;
      assert s[k..] == s[..n][k..] + [s[n]] && s[..n][..k] == s[..k];
    }
  }

  /** Stripping takes the white space off both ends and nothing else. */
  lemma StripIs(s: string)
    ensures exists left, right :: s == left + Strip(s) + right && AllWhite(left) && AllWhite(right)
    ensures Strip(s) != [] ==> !IsWhite(Strip(s)[0]) && !IsWhite(Strip(s)[|Strip(s)| - 1])
  {
    var t := LStrip(s);
    LStripIs(s);
    RStripIs(t);
    var left, right := s[..|s| - |t|], t[|Strip(s)|..];
    assert t == Strip(s) + right && s == left + Strip(s) + right;
  }

  // ------------------------------------------------------------------ arguments

  function JoinCommas(parts: seq<string>): string
    requires parts != []
  {
    if |parts| == 1 then parts[0] else parts[0] + "," + JoinCommas(parts[1..])
  }

  ghost predicate NoComma(s: string) { forall i | 0 <= i < |s| :: s[i] != ',' }

  /** The arguments are the texts between the commas. */
  lemma {:induction false} SplitIs(s: string)
    ensures JoinCommas(SplitCommas(s)) == s && forall p | p in SplitCommas(s) :: NoComma(p)
  {
    if s != [] {
      var c, rest := s[0], SplitCommas(s[1..]);
      SplitIs(s[1..]);
      assert s == [c] + s[1..];
      if c == ',' { CommaFirst(rest); } else { LongerFirst(c, rest); }
    }
  }

  lemma CommaFirst(rest: seq<string>)
    requires rest != [] && forall p | p in rest :: NoComma(p)
    ensures JoinCommas([[]] + rest) == "," + JoinCommas(rest) && forall p | p in [[]] + rest :: NoComma(p)
  {
    assert ([[]] + rest)[1..] == rest && [] + "," + JoinCommas(rest) == "," + JoinCommas(rest);
  }

  lemma LongerFirst(c: char, rest: seq<string>)
    requires rest != [] && c != ',' && forall p | p in rest :: NoComma(p)
    ensures
      var parts := [[c] + rest[0]] + rest[1..];
      JoinCommas(parts) == [c] + JoinCommas(rest) && forall p | p in parts :: NoComma(p)
  {
    var first, others := rest[0], rest[1..];
    assert ([[c] + first] + others)[1..] == others && first in rest;
    NoCommaLonger(c, first);
    if others != [] {
      Lists.Regroup([c], first, "," + JoinCommas(others));
      Lists.Regroup(first, ",", JoinCommas(others));
      Lists.Regroup([c] + first, ",", JoinCommas(others));
    }
    forall p | p in [[c] + first] + others ensures NoComma(p) {
      if p != [c] + first { assert p in rest; }
    }
  }

  lemma NoCommaLonger(c: char, s: string)
    requires c != ',' && NoComma(s)
    ensures NoComma([c] + s)
  {
  }

  // ---------------------------------------------------------------------- forms

  ghost predicate IsRgb(s: string, body: string) {
    (s == "rgb(" + body + ")" || s == "rgba(" + body + ")") && forall i | 0 <= i < |body| :: body[i] != '\n'
  }

  lemma RgbIs(s: string)
    ensures RgbArguments(s).Some? ==> exists body :: IsRgb(s, body) && RgbArguments(s) == Some(SplitCommas(body))
    ensures forall body :: IsRgb(s, body) ==> RgbArguments(s) == Some(SplitCommas(body))
  {
    if RgbArguments(s).Some? { RgbHasBody(s); }
    forall body | IsRgb(s, body) ensures RgbArguments(s) == Some(SplitCommas(body)) {
      BodyIsRgb(s, body);
    }
  }

  lemma RgbHasBody(s: string)
    requires RgbArguments(s).Some?
    ensures exists body :: IsRgb(s, body) && RgbArguments(s) == Some(SplitCommas(body))
  {
    var n := if StartsWith(s, "rgba(") then 5 else 4;
    var body := s[n..|s| - 1];
    assert s == s[..n] + body + ")";
    assert IsRgb(s, body);
  }

  lemma BodyIsRgb(s: string, body: string)
    requires IsRgb(s, body)
    ensures RgbArguments(s) == Some(SplitCommas(body))
  {
    if s == "rgba(" + body + ")" {
      RgbWord(s, "rgba(", body);
    } else {
      RgbWord(s, "rgb(", body);
      assert s[3] == '(' && "rgba("[3] == 'a';
    }
  }

  lemma RgbWord(s: string, word: string, body: string)
    requires s == word + body + ")"
    ensures StartsWith(s, word) && s[|word|..|s| - 1] == body && s[|s| - 1] == ')'
    ensures forall i | |word| <= i < |s| - 1 :: s[i] == body[i - |word|]
  {
    assert s[..|word|] == word;
  }

  /** The five forms of a value, told by its stripped text. */
  ghost predicate HasForm(s: string, f: Form) {
    match f
    case Reference(name) => s == "$" + name
    case Hex(text) => s == text && s != "" && s[0] == '#'
    case Faded(inner, alpha) => exists body :: IsRgb(s, body) && SplitCommas(body) == [inner, alpha]
    case Rgb(args) => exists body :: IsRgb(s, body) && SplitCommas(body) == args && |args| != 2
    case Plain(text) => s == text && (s == "" || (s[0] != '$' && s[0] != '#')) && forall body :: !IsRgb(s, body)
  }

  lemma FormIs(value: string)
    ensures HasForm(Strip(value), FormOf(value))
  {
    var s := Strip(value);
    RgbIs(s);
    if s != [] && s[0] == '$' { assert s == "$" + s[1..]; }
    if RgbArguments(s).Some? && |RgbArguments(s).value| == 2 {
      var args := RgbArguments(s).value;
      assert args == [args[0], args[1]];
    }
  }

  // ------------------------------------------------------------- hex and numbers

  /** The digit's place among 0 to 9 and a to f, in either case. */
  ghost predicate IsDigitOf(c: char, n: int) {
    0 <= n < 16 && ("0123456789abcdef"[n] == c || "0123456789ABCDEF"[n] == c)
  }

  lemma DigitIs(c: char, n: int)
    ensures IsHexDigit(c) && HexDigit(c) == n <==> IsDigitOf(c, n)
  {
    if 0 <= n < 16 { Digits(n); }
  }

  lemma Digits(n: int)
    requires 0 <= n < 16
    ensures "0123456789abcdef"[n] == if n < 10 then '0' + n as char else 'a' + (n - 10) as char
    ensures "0123456789ABCDEF"[n] == if n < 10 then '0' + n as char else 'A' + (n - 10) as char
  {
  }

  ghost predicate IsOctet(hi: char, lo: char, x: real) {
    exists h, l :: IsDigitOf(hi, h) && IsDigitOf(lo, l) && x == (16 * h + l) as real
  }

  /** Six digits, two a channel, or three, each doubled; opaque. */
  ghost predicate IsHexOf(digits: string, c: Colour) {
    && c.a == 1.0
    && ((|digits| == 6 && IsOctet(digits[0], digits[1], c.r) && IsOctet(digits[2], digits[3], c.g) && IsOctet(digits[4], digits[5], c.b))
        || (|digits| == 3 && IsOctet(digits[0], digits[0], c.r) && IsOctet(digits[1], digits[1], c.g) && IsOctet(digits[2], digits[2], c.b)))
  }

  lemma OctetIs(hi: char, lo: char, x: real)
    ensures IsHexDigit(hi) && IsHexDigit(lo) && Octet(hi, lo) == x <==> IsOctet(hi, lo, x)
  {
    if IsHexDigit(hi) && IsHexDigit(lo) {
      DigitIs(hi, HexDigit(hi));
      DigitIs(lo, HexDigit(lo));
    }
    if h, l :| IsDigitOf(hi, h) && IsDigitOf(lo, l) && x == (16 * h + l) as real {
      DigitIs(hi, h);
      DigitIs(lo, l);
    }
  }

  lemma {:induction false} HashesAreStripped(s: string)
    ensures |LStripHash(s)| <= |s|
    ensures var n := |s| - |LStripHash(s)|; LStripHash(s) == s[n..] && forall i | 0 <= i < n :: s[i] == '#'
    ensures LStripHash(s) != [] ==> LStripHash(s)[0] != '#'
  {
    if s != [] && s[0] == '#' {
      HashesAreStripped(s[1..]);
      var n := |s| - |LStripHash(s)|;
      forall i | 0 <= i < n ensures s[i] == '#' { if i > 0 { assert s[i] == s[1..][i - 1]; } }
    }
  }

  lemma SixAre(h: string, c: Colour)
    requires |h| == 6
    ensures (forall i | 0 <= i < 6 :: IsHexDigit(h[i])) && c == Colour(Octet(h[0], h[1]), Octet(h[2], h[3]), Octet(h[4], h[5]), 1.0) <==>
      c.a == 1.0 && IsOctet(h[0], h[1], c.r) && IsOctet(h[2], h[3], c.g) && IsOctet(h[4], h[5], c.b)
  {
    AllSix(h);
    OctetIs(h[0], h[1], c.r);
    OctetIs(h[2], h[3], c.g);
    OctetIs(h[4], h[5], c.b);
  }

  lemma AllSix(h: string)
    requires |h| == 6
    ensures (forall i | 0 <= i < 6 :: IsHexDigit(h[i])) <==>
      IsHexDigit(h[0]) && IsHexDigit(h[1]) && IsHexDigit(h[2]) && IsHexDigit(h[3]) && IsHexDigit(h[4]) && IsHexDigit(h[5])
  {
  }

  /** A hex colour is read exactly when what follows its hashes is one. */
  lemma HexIs(text: string, c: Colour)
    ensures ParseHex(text) == Read(c) <==> IsHexOf(LStripHash(text), c)
    ensures !ParseHex(text).Read? ==> ParseHex(text) == ValueError(NotHex, None)
  {
    var d := LStripHash(text);
    if |d| == 6 || |d| == 3 { SixAre(Doubled(d), c); }
  }

  /** Three arguments that read as numbers, and a fourth for the alpha. */
  lemma ChannelsAre(args: seq<string>, float: string -> Option<real>, c: Colour)
    ensures Channels(args, float) == Read(c) <==>
      && |args| >= 3 && float(Strip(args[0])) == Some(c.r) && float(Strip(args[1])) == Some(c.g) && float(Strip(args[2])) == Some(c.b)
      && (if |args| == 3 then c.a == 1.0 else float(Strip(args[3])) == Some(c.a))
    ensures !Channels(args, float).Read? ==> Channels(args, float) == ValueError(NotRead, None)
  {
    if |args| >= 3 {
      var n := if |args| > 3 then 4 else 3;
      assert (exists i | 0 <= i < n :: float(Strip(args[i])).None?) <==>
        float(Strip(args[0])).None? || float(Strip(args[1])).None? || float(Strip(args[2])).None? || (n == 4 && float(Strip(args[3])).None?);
    }
  }

  // ------------------------------------------------------------------ resolving

  /** An alpha makes a colour that much of its own; any other reading stays, and
      a number is a type error. */
  lemma FadingIs(inner: Reading, alpha: Option<real>)
    ensures WithAlpha(inner, alpha) ==
      if inner.Number? then TypeError
      else if !inner.Read? then inner
      else if alpha.None? then ValueError(NotRead, None)
      else Read(Colour(inner.colour.r, inner.colour.g, inner.colour.b, inner.colour.a * alpha.value))
  {
  }

  /** A reference is what its name's value is; a value error first names the
      token nearest to it. */
  lemma ReferenceIs(palette: Names, value: string, seen: seq<string>, float: string -> Option<real>)
    requires FormOf(value).Reference?
    ensures
      var name := FormOf(value).name;
      if name in seen then Resolve(palette, value, seen, float) == ValueError(Loop(name), None)
      else if name !in palette then Resolve(palette, value, seen, float) == KeyError(name)
      else
        var inner := Resolve(palette, palette[name], seen + [name], float);
        if inner.ValueError? && inner.token == None then Resolve(palette, value, seen, float) == ValueError(inner.fault, Some(name))
        else Resolve(palette, value, seen, float) == inner
  {
  }
}
