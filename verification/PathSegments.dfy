/** cli/client/client.go: pathf, which keeps each value a caller gives inside
    one segment of the request path (RFC 3986, sections 2.1, 3.3, 5.2.4 and
    6.2.2.2). Text is octets, as Go strings are. */
module PathSegments {
  import opened Values

  type Octet = b: int | 0 <= b < 256
  type Text = seq<Octet>

  const PERCENT: Octet := 37
  const DOT: Octet := 46
  const SLASH: Octet := 47

  predicate IsDigit(b: Octet) { 48 <= b <= 57 }
  predicate IsLetter(b: Octet) { 65 <= b <= 90 || 97 <= b <= 122 }

  /** unreserved of RFC 3986, section 2.3: letters, digits, - . _ ~ */
  predicate Unreserved(b: Octet) { IsLetter(b) || IsDigit(b) || b == 45 || b == DOT || b == 95 || b == 126 }

  /** What Go's url.PathEscape leaves as it is: unreserved and $ & + : = @ */
  predicate Plain(b: Octet) {
    Unreserved(b) || b == 36 || b == 38 || b == 43 || b == 58 || b == 61 || b == 64
  }

  function HexDigit(n: int): (d: Octet)
    requires 0 <= n < 16
  {
    if n < 10 then 48 + n else 55 + n
  }

  predicate IsHex(b: Octet) { IsDigit(b) || 65 <= b <= 70 || 97 <= b <= 102 }

  function HexValue(b: Octet): (n: int)
    requires IsHex(b)
    ensures 0 <= n < 16
  {
    if IsDigit(b) then b - 48 else if b <= 70 then b - 55 else b - 87
  }

  /** RFC 3986, section 2.3, by its characters. */
  lemma UnreservedIs(b: Octet)
    ensures Unreserved(b) <==>
      || 'A' as int <= b <= 'Z' as int || 'a' as int <= b <= 'z' as int || '0' as int <= b <= '9' as int
      || b == '-' as int || b == '.' as int || b == '_' as int || b == '~' as int
    ensures Plain(b) <==>
      || Unreserved(b) || b == '$' as int || b == '&' as int || b == '+' as int || b == ':' as int || b == '=' as int || b == '@' as int
  {
  }

  /** A hex digit and its value, in either case; what is written is upper-case. */
  lemma HexIs(b: Octet, n: int)
    ensures IsHex(b) && HexValue(b) == n <==> 0 <= n < 16 && ("0123456789abcdef"[n] as int == b || "0123456789ABCDEF"[n] as int == b)
    ensures 0 <= n < 16 ==> HexDigit(n) == "0123456789ABCDEF"[n] as int
  {
  }

  /** url.PathEscape */
  function Escape(s: Text): Text {
    if s == [] then []
    else (if Plain(s[0]) then [s[0]] else [PERCENT, HexDigit(s[0] / 16), HexDigit(s[0] % 16)]) + Escape(s[1..])
  }

  /** Whether s opens with a percent-encoded octet, and which. */
  predicate Encoded(s: Text) { |s| >= 3 && s[0] == PERCENT && IsHex(s[1]) && IsHex(s[2]) }

  function OctetOf(s: Text): Octet
    requires Encoded(s)
  {
    HexValue(s[1]) * 16 + HexValue(s[2])
  }

  /** Percent-decoding of section 2.1. */
  function Decode(s: Text): Text {
    if s == [] then []
    else if Encoded(s) then [OctetOf(s)] + Decode(s[3..])
    else [s[0]] + Decode(s[1..])
  }

  /** Section 6.2.2.2: percent-encoded unreserved characters are decoded. */
  function Normalize(s: Text): Text {
    if s == [] then []
    else if Encoded(s) then (if Unreserved(OctetOf(s)) then [OctetOf(s)] else s[..3]) + Normalize(s[3..])
    else [s[0]] + Normalize(s[1..])
  }

  // ------------------------------------------------------- paths as segments

  function Join(segments: seq<Text>): Text
    requires segments != []
  {
    if |segments| == 1 then segments[0] else segments[0] + [SLASH] + Join(segments[1..])
  }

  function Split(path: Text): (segments: seq<Text>)
    ensures segments != []
  {
    if path == [] then [[]]
    else
      var rest := Split(path[1..]);
      if path[0] == SLASH then [[]] + rest else [[path[0]] + rest[0]] + rest[1..]
  }

  lemma {:induction false} SplitJoined(segments: seq<Text>)
    requires segments != [] && forall s | s in segments :: SLASH !in s
    ensures Split(Join(segments)) == segments
  {
    var first, rest := segments[0], segments[1..];
    if |segments| == 1 {
      SplitPlain(first);
    } else {
      SplitJoined(rest);
      SplitAfter(first, Join(rest));
      assert first + [SLASH] + Join(rest) == first + ([SLASH] + Join(rest));
    }
  }

  lemma {:induction false} SplitPlain(s: Text)
    requires SLASH !in s
    ensures Split(s) == [s]
  {
    if s != [] {
      SplitPlain(s[1..]);
      assert s[0] in s && [s[0]] + s[1..] == s;
    }
  }

  lemma {:induction false} SplitAfter(s: Text, rest: Text)
    requires SLASH !in s
    ensures Split(s + ([SLASH] + rest)) == [s] + Split(rest)
  {
    var path := s + ([SLASH] + rest);
    if s == [] {
      assert path == [SLASH] + rest && path[1..] == rest;
    } else {
      assert path[0] == s[0] && path[1..] == s[1..] + ([SLASH] + rest);
      SplitAfter(s[1..], rest);
      assert s[0] in s && [s[0]] + s[1..] == s;
      assert ([s[1..]] + Split(rest))[1..] == Split(rest);
    }
  }

  // ---------------------------------------------------------------- escaping

  /** Escaping one octet more. */
  lemma EscapedHead(s: Text)
    requires s != []
    ensures Plain(s[0]) ==> Escape(s)[0] == s[0] && Escape(s)[1..] == Escape(s[1..]) && !Encoded(Escape(s))
    ensures !Plain(s[0]) ==> |Escape(s)| >= 3 && Encoded(Escape(s)) && OctetOf(Escape(s)) == s[0] && Escape(s)[3..] == Escape(s[1..])
  {
    if !Plain(s[0]) {
      var head := [PERCENT, HexDigit(s[0] / 16), HexDigit(s[0] % 16)];
      assert Escape(s) == head + Escape(s[1..]);
      assert s[0] == s[0] / 16 * 16 + s[0] % 16;
    }
  }

  /** Percent-decoding gives the caller's value back. */
  lemma {:induction false} DecodeEscaped(s: Text)
    ensures Decode(Escape(s)) == s
  {
    if s != [] {
      EscapedHead(s);
      DecodeEscaped(s[1..]);
    }
  }

  /** Escape leaves nothing for normalisation to undo: it never encodes an
      unreserved character. */
  lemma {:induction false} NormalizeEscaped(s: Text)
    ensures Normalize(Escape(s)) == Escape(s)
  {
    if s != [] {
      EscapedHead(s);
      NormalizeEscaped(s[1..]);
      if Plain(s[0]) {
        assert [Escape(s)[0]] + Escape(s)[1..] == Escape(s);
      } else {
        assert Escape(s)[..3] + Escape(s)[3..] == Escape(s);
      }
    }
  }

  /** An escaped value stays in its segment, and is a dot segment or empty only
      when the value is. */
  lemma {:induction false} EscapedSegment(s: Text)
    ensures forall b | b in Escape(s) :: b != SLASH && (Plain(b) || b == PERCENT)
    ensures |s| <= |Escape(s)|
    ensures Escape(s) in DOT_SEGMENTS ==> s == Escape(s)
  {
    if s != [] {
      EscapedSegment(s[1..]);
      EscapedHead(s);
    }
  }

  const DOT_SEGMENTS: set<Text> := {[DOT], [DOT, DOT]}

  // --------------------------------------------------------------- the format

  /** A request path before its values: literal segments, and one `%s` for
      each value. */
  datatype Part = Fixed(text: Text) | Hole

  /** An absolute path of such parts; its literals are plain names. */
  predicate IsTemplate(t: seq<Part>) {
    && |t| >= 2 && t[0] == Fixed([])
    && forall part | part in t[1..] && part.Fixed? :: IsName(part.text)
  }

  predicate IsName(s: Text) {
    s != [] && s !in DOT_SEGMENTS && forall b | b in s :: Plain(b)
  }

  function Holes(t: seq<Part>): nat {
    if t == [] then 0 else (if t[0].Hole? then 1 else 0) + Holes(t[1..])
  }

  /** The template with its holes filled in order. */
  function Fill(t: seq<Part>, values: seq<Text>): (segments: seq<Text>)
    requires Holes(t) == |values|
    ensures |segments| == |t|
    decreases t
  {
    if t == [] then []
    else match t[0]
      case Fixed(text) => [text] + Fill(t[1..], values)
      case Hole => [values[0]] + Fill(t[1..], values[1..])
  }

  const VERB: Text := [PERCENT, 115]

  function TextOf(part: Part): Text {
    match part
    case Fixed(text) => text
    case Hole => VERB
  }

  function FormatOf(t: seq<Part>): Text
    requires t != []
  {
    if |t| == 1 then TextOf(t[0]) else TextOf(t[0]) + [SLASH] + FormatOf(t[1..])
  }

  /** fmt.Sprintf for a format whose only verbs are as many `%s` as there are
      arguments. */
  function Sprintf(format: Text, args: seq<Text>): Text {
    if format == [] then []
    else if |format| >= 2 && format[..2] == VERB && args != [] then args[0] + Sprintf(format[2..], args[1..])
    else [format[0]] + Sprintf(format[1..], args)
  }

  lemma {:induction false} SprintfLiteral(s: Text, rest: Text, args: seq<Text>)
    requires PERCENT !in s
    ensures Sprintf(s + rest, args) == s + Sprintf(rest, args)
  {
    if s == [] {
      assert s + rest == rest;
    } else {
      var whole := s + rest;
      assert whole[0] == s[0] && whole[1..] == s[1..] + rest;
      if |whole| >= 2 { assert whole[..2][0] != PERCENT; }
      SprintfLiteral(s[1..], rest, args);
      assert [s[0]] + (s[1..] + Sprintf(rest, args)) == s + Sprintf(rest, args);
    }
  }

  lemma SprintfVerb(rest: Text, args: seq<Text>)
    requires args != []
    ensures Sprintf(VERB + rest, args) == args[0] + Sprintf(rest, args[1..])
  {
    assert (VERB + rest)[..2] == VERB && (VERB + rest)[2..] == rest;
  }

  /** One part of the format takes one argument, or none. */
  lemma SprintfPart(part: Part, rest: Text, args: seq<Text>)
    requires part.Hole? ==> args != []
    requires part.Fixed? ==> PERCENT !in part.text
    ensures Sprintf(TextOf(part) + rest, args)
         == if part.Hole? then args[0] + Sprintf(rest, args[1..]) else part.text + Sprintf(rest, args)
  {
    if part.Hole? { SprintfVerb(rest, args); } else { SprintfLiteral(part.text, rest, args); }
  }

  /** Formatting fills the holes, in order. */
  lemma {:induction false} SprintfFills(t: seq<Part>, args: seq<Text>)
    requires t != [] && Holes(t) == |args|
    requires forall part | part in t && part.Fixed? :: PERCENT !in part.text
    ensures Sprintf(FormatOf(t), args) == Join(Fill(t, args))
  {
    assert t[0] in t;
    var left := if t[0].Hole? then args[1..] else args;
    var first := if t[0].Hole? then args[0] else t[0].text;
    if |t| == 1 {
      SprintfPart(t[0], [], args);
      assert TextOf(t[0]) + [] == TextOf(t[0]) && first + [] == first;
      assert Fill(t, args) == [first];
    } else {
      var rest := FormatOf(t[1..]);
      SprintfPart(t[0], [SLASH] + rest, args);
      SprintfLiteral([SLASH], rest, left);
      SprintfFills(t[1..], left);
      JoinedHead(first, Fill(t[1..], left));
      assert TextOf(t[0]) + [SLASH] + rest == TextOf(t[0]) + ([SLASH] + rest);
      assert Fill(t, args) == [first] + Fill(t[1..], left);
    }
  }

  lemma JoinedHead(first: Text, rest: seq<Text>)
    requires rest != []
    ensures Join([first] + rest) == first + ([SLASH] + Join(rest))
  {
    assert ([first] + rest)[1..] == rest;
    assert first + [SLASH] + Join(rest) == first + ([SLASH] + Join(rest));
  }
}
