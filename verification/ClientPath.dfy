/** cli/client/client.go: what every path pathf accepts has kept, and why it
    refuses exactly the three values it refuses. */
module ClientPath {
  import opened Lists
  import opened Values
  import opened PathSegments

  predicate Refused(s: Text) { s == [] || s in DOT_SEGMENTS }

  function EscapeAll(values: seq<Text>): (r: seq<Text>)
    ensures |r| == |values|
  {
    if values == [] then [] else [Escape(values[0])] + EscapeAll(values[1..])
  }

  lemma {:induction false} EscapeAllSnoc(values: seq<Text>, s: Text)
    ensures EscapeAll(values + [s]) == EscapeAll(values) + [Escape(s)]
  {
    if values == [] {
      assert [] + [s] == [s] && [s][1..] == [];
    } else {
      assert (values + [s])[1..] == values[1..] + [s];
      EscapeAllSnoc(values[1..], s);
    }
  }

  /** The path of a template for values that need no refusing. */
  function PathOf(t: seq<Part>, values: seq<Text>): Text
    requires IsTemplate(t) && Holes(t) == |values|
  {
    Join(Fill(t, EscapeAll(values)))
  }

  method PathF(t: seq<Part>, segments: seq<Text>) returns (path: Option<Text>)
    requires IsTemplate(t) && Holes(t) == |segments|
    ensures path == if exists s :: s in segments && Refused(s) then None else Some(PathOf(t, segments))
  {
    var args: seq<Text> := [];
    var i := 0;
    while i < |segments|
      invariant 0 <= i <= |segments|
      invariant forall s | s in segments[..i] :: !Refused(s)
      invariant args == EscapeAll(segments[..i])
    {
      if Refused(segments[i]) {
        return None;
      }
      EscapeAllSnoc(segments[..i], segments[i]);
      assert segments[..i + 1] == segments[..i] + [segments[i]];
      args := args + [Escape(segments[i])];
      i := i + 1;
    }
    assert segments[..i] == segments;
    forall part | part in t && part.Fixed?
      ensures PERCENT !in part.text
    {
      assert t == [t[0]] + t[1..];
    }
    SprintfFills(t, args);
    return Some(Sprintf(FormatOf(t), args));
  }

  // ----------------------------------------------- the template's own segments

  lemma {:induction false} FilledWell(t: seq<Part>, values: seq<Text>, good: Text -> bool)
    requires Holes(t) == |values|
    requires forall part | part in t && part.Fixed? :: good(part.text)
    requires forall v | v in values :: good(v)
    ensures forall s | s in Fill(t, values) :: good(s)
  {
    if t != [] {
      assert t[0] in t;
      FilledWell(t[1..], if t[0].Hole? then values[1..] else values, good);
    }
  }

  lemma {:induction false} Escaped(values: seq<Text>)
    ensures forall i | 0 <= i < |values| :: EscapeAll(values)[i] == Escape(values[i])
  {
    if values != [] { Escaped(values[1..]); }
  }

  /** What holds of each segment of an accepted path. */
  predicate Settled(s: Text) {
    SLASH !in s && s !in DOT_SEGMENTS && Normalize(s) == s
  }

  lemma {:induction false} PlainIsSettled(s: Text)
    requires forall b | b in s :: Plain(b)
    ensures Normalize(s) == s && Decode(s) == s && SLASH !in s
  {
    if s != [] {
      PlainIsSettled(s[1..]);
      assert s[0] in s && [s[0]] + s[1..] == s;
    }
  }

  lemma FixedSettled(t: seq<Part>)
    requires IsTemplate(t)
    ensures forall part | part in t && part.Fixed? :: Settled(part.text) && Decode(part.text) == part.text
  {
    forall part | part in t && part.Fixed? ensures Settled(part.text) && Decode(part.text) == part.text {
      if part in t[1..] { PlainIsSettled(part.text); } else { assert part == t[0]; }
    }
  }

  lemma EscapedSettled(values: seq<Text>)
    requires forall s | s in values :: !Refused(s)
    ensures forall e | e in EscapeAll(values) :: Settled(e)
  {
    Escaped(values);
    forall i | 0 <= i < |values| ensures Settled(EscapeAll(values)[i]) {
      assert values[i] in values;
      EscapedSegment(values[i]);
      NormalizeEscaped(values[i]);
    }
  }

  lemma SegmentsSettled(t: seq<Part>, values: seq<Text>)
    requires IsTemplate(t) && Holes(t) == |values|
    requires forall s | s in values :: !Refused(s)
    ensures forall s | s in Fill(t, EscapeAll(values)) :: Settled(s)
  {
    FixedSettled(t);
    EscapedSettled(values);
    FilledWell(t, EscapeAll(values), (s: Text) => Settled(s));
  }

  function DecodeAll(segments: seq<Text>): seq<Text> {
    if segments == [] then [] else [Decode(segments[0])] + DecodeAll(segments[1..])
  }

  lemma {:induction false} DecodeFilled(t: seq<Part>, values: seq<Text>)
    requires Holes(t) == |values|
    requires forall part | part in t && part.Fixed? :: Decode(part.text) == part.text
    ensures DecodeAll(Fill(t, EscapeAll(values))) == Fill(t, values)
  {
    if t != [] {
      assert t[0] in t;
      if t[0].Hole? {
        DecodeEscaped(values[0]);
        DecodeFilled(t[1..], values[1..]);
      } else {
        DecodeFilled(t[1..], values);
      }
    }
  }

  /** The path has the template's segments and no others, and percent-decoding
      them gives the caller's values in the template's places. */
  lemma SegmentsDecode(t: seq<Part>, values: seq<Text>)
    requires IsTemplate(t) && Holes(t) == |values|
    requires forall s | s in values :: !Refused(s)
    ensures |Split(PathOf(t, values))| == |t|
    ensures DecodeAll(Split(PathOf(t, values))) == Fill(t, values)
  {
    SegmentsSettled(t, values);
    SplitJoined(Fill(t, EscapeAll(values)));
    FixedSettled(t);
    DecodeFilled(t, values);
  }

  lemma {:induction false} FillInjective(t: seq<Part>, a: seq<Text>, b: seq<Text>)
    requires Holes(t) == |a| == |b| && Fill(t, a) == Fill(t, b)
    ensures a == b
  {
    if t != [] {
      assert Fill(t, a)[0] == Fill(t, b)[0] && Fill(t, a)[1..] == Fill(t, b)[1..];
      if t[0].Hole? {
        FillInjective(t[1..], a[1..], b[1..]);
        assert a == [a[0]] + a[1..] && b == [b[0]] + b[1..];
      } else {
        FillInjective(t[1..], a, b);
      }
    }
  }

  /** Different values give different paths. */
  lemma PathsDiffer(t: seq<Part>, a: seq<Text>, b: seq<Text>)
    requires IsTemplate(t) && Holes(t) == |a| == |b|
    requires forall s | s in a + b :: !Refused(s)
    requires PathOf(t, a) == PathOf(t, b)
    ensures a == b
  {
    assert (forall s | s in a :: s in a + b) && (forall s | s in b :: s in a + b);
    SegmentsDecode(t, a);
    SegmentsDecode(t, b);
    FillInjective(t, a, b);
  }

  // ---------------------------------------------------- removing dot segments

  /** The length of the first segment, with the slash before it. */
  function FirstSegment(input: Text): (n: nat)
    requires input != []
    ensures 1 <= n <= |input|
    ensures forall i | 1 <= i < n :: input[i] != SLASH
    ensures n < |input| ==> input[n] == SLASH
  {
    if |input| == 1 || input[1] == SLASH then 1 else 1 + FirstSegment(input[1..])
  }

  /** The output buffer without its last segment and the slash before it. */
  function DropLast(out: Text): (r: Text)
    ensures |r| <= |out|
  {
    if out == [] then [] else if out[|out| - 1] == SLASH then out[..|out| - 1] else DropLast(out[..|out| - 1])
  }

  /** s opens with a slash, n dots and the end of a segment. */
  predicate OpensWithDots(s: Text, n: nat) {
    |s| > n && s[0] == SLASH && (forall i | 1 <= i <= n :: s[i] == DOT) && (|s| == n + 1 || s[n + 1] == SLASH)
  }

  /** s opens with n dots and a slash. */
  predicate OpensRelative(s: Text, n: nat) {
    |s| > n && (forall i | 0 <= i < n :: s[i] == DOT) && s[n] == SLASH
  }

  /** Section 5.2.4, with the input buffer and the output buffer. */
  function RemoveDots(input: Text, out: Text): Text
    decreases |input|
  {
    if input == [] then out
    else if OpensRelative(input, 2) then RemoveDots(input[3..], out)
    else if OpensRelative(input, 1) then RemoveDots(input[2..], out)
    else if OpensWithDots(input, 1) then RemoveDots([SLASH] + (if |input| == 2 then [] else input[3..]), out)
    else if OpensWithDots(input, 2) then RemoveDots([SLASH] + (if |input| == 3 then [] else input[4..]), DropLast(out))
    else if input in DOT_SEGMENTS then out
    else
      var n := FirstSegment(input);
      RemoveDots(input[n..], out + input[..n])
  }

  /** An absolute path of the segments, each after its slash. */
  function Absolute(segments: seq<Text>): Text {
    if segments == [] then [] else [SLASH] + segments[0] + Absolute(segments[1..])
  }

  lemma {:induction false} AbsoluteIsJoin(segments: seq<Text>)
    requires segments != []
    ensures Absolute(segments) == [SLASH] + Join(segments)
  {
    if |segments| == 1 {
      assert Absolute(segments[1..]) == [];
    } else {
      AbsoluteIsJoin(segments[1..]);
      assert [SLASH] + segments[0] + ([SLASH] + Join(segments[1..])) == [SLASH] + (segments[0] + [SLASH] + Join(segments[1..]));
    }
  }

  lemma {:induction false} RemovingNeverGrows(input: Text, out: Text)
    ensures |RemoveDots(input, out)| <= |input| + |out|
    decreases |input|
  {
    if input == [] {
    } else if OpensRelative(input, 2) {
      RemovingNeverGrows(input[3..], out);
    } else if OpensRelative(input, 1) {
      RemovingNeverGrows(input[2..], out);
    } else if OpensWithDots(input, 1) {
      RemovingNeverGrows([SLASH] + (if |input| == 2 then [] else input[3..]), out);
    } else if OpensWithDots(input, 2) {
      RemovingNeverGrows([SLASH] + (if |input| == 3 then [] else input[4..]), DropLast(out));
    } else if input in DOT_SEGMENTS {
    } else {
      RemovingNeverGrows(input[FirstSegment(input)..], out + input[..FirstSegment(input)]);
    }
  }

  /** One step on an absolute path: a dot segment makes it shorter, any other
      segment moves to the output as it is. */
  lemma FirstStep(s: Text, rest: seq<Text>, out: Text)
    requires SLASH !in s
    ensures s in DOT_SEGMENTS ==> |RemoveDots(Absolute([s] + rest), out)| < |Absolute([s] + rest)| + |out|
    ensures s !in DOT_SEGMENTS ==> RemoveDots(Absolute([s] + rest), out) == RemoveDots(Absolute(rest), out + ([SLASH] + s))
  {
    var input := Absolute([s] + rest);
    assert ([s] + rest)[1..] == rest;
    assert input == [SLASH] + s + Absolute(rest);
    assert rest != [] ==> Absolute(rest)[0] == SLASH;
    assert input[0] == SLASH && input !in DOT_SEGMENTS;
    assert forall i | 1 <= i < 1 + |s| :: input[i] == s[i - 1] && s[i - 1] in s;
    DotsAreTheSegment(s, rest);
    if s == [DOT] {
      RemovingNeverGrows([SLASH] + (if |input| == 2 then [] else input[3..]), out);
    } else if s == [DOT, DOT] {
      RemovingNeverGrows([SLASH] + (if |input| == 3 then [] else input[4..]), DropLast(out));
    } else {
      var n := FirstSegment(input);
      assert rest != [] ==> input[1 + |s|] == SLASH;
      assert input[..n] == [SLASH] + s && input[n..] == Absolute(rest);
    }
  }

  /** An absolute path opens with dots exactly when its first segment is dots. */
  lemma DotsAreTheSegment(s: Text, rest: seq<Text>)
    requires SLASH !in s
    ensures OpensWithDots([SLASH] + s + Absolute(rest), 1) <==> s == [DOT]
    ensures OpensWithDots([SLASH] + s + Absolute(rest), 2) <==> s == [DOT, DOT]
  {
    var input := [SLASH] + s + Absolute(rest);
    assert input[0] == SLASH;
    assert forall i | 0 <= i < |s| :: input[i + 1] == s[i] && s[i] in s;
    assert rest != [] ==> input[1 + |s|] == SLASH;
    if |s| > 1 { assert input[1 + 1] == s[1]; }
    if |s| > 2 { assert input[2 + 1] == s[2]; }
    if OpensWithDots(input, 1) {
      assert |s| == 1 && s[0] == input[0 + 1] && s == [DOT];
    }
    if OpensWithDots(input, 2) {
      assert |s| == 2 && s[0] == input[0 + 1] && s[1] == input[1 + 1] && s == [DOT, DOT];
    }
  }

  predicate NoDots(segments: seq<Text>) {
    forall s | s in segments :: s !in DOT_SEGMENTS
  }

  lemma NoDotsFrom(s: Text, rest: seq<Text>)
    ensures NoDots([s] + rest) <==> s !in DOT_SEGMENTS && NoDots(rest)
  {
    assert s in [s] + rest;
  }

  lemma AbsoluteFrom(s: Text, rest: seq<Text>, out: Text)
    ensures out + ([SLASH] + s) + Absolute(rest) == out + Absolute([s] + rest)
  {
    assert ([s] + rest)[1..] == rest;
  }

  /** Removing dot segments leaves an absolute path alone exactly when it has no
      dot segment. */
  lemma DotsRemoved(segments: seq<Text>, out: Text)
    requires forall s | s in segments :: SLASH !in s
    ensures RemoveDots(Absolute(segments), out) == out + Absolute(segments) <==> NoDots(segments)
    ensures !NoDots(segments) ==> |RemoveDots(Absolute(segments), out)| < |out| + |Absolute(segments)|
  {
    RemovalGoesThrough(segments, out);
  }

  lemma {:induction false} RemovalGoesThrough(segments: seq<Text>, out: Text)
    requires forall s | s in segments :: SLASH !in s
    ensures
      if NoDots(segments) then RemoveDots(Absolute(segments), out) == out + Absolute(segments)
      else |RemoveDots(Absolute(segments), out)| < |out| + |Absolute(segments)|
  {
    if segments == [] {
      assert out + [] == out;
    } else {
      var s, rest := segments[0], segments[1..];
      assert segments == [s] + rest;
      NoDotsFrom(s, rest);
      FirstStep(s, rest, out);
      if s !in DOT_SEGMENTS {
        RemovalGoesThrough(rest, out + ([SLASH] + s));
        AbsoluteFrom(s, rest, out);
      }
    }
  }

  // ------------------------------------------------- dot segments as a stack

  /** The segments that stay: a dot is dropped, two take the last one back, and
      at the end either leaves the path open with an empty one. */
  function Resolved(out: seq<Text>, segments: seq<Text>): seq<Text>
    decreases |segments|
  {
    if segments == [] then out
    else if segments[0] == [DOT] then if |segments| == 1 then out + [[]] else Resolved(out, segments[1..])
    else if segments[0] == [DOT, DOT] then if |segments| == 1 then Popped(out) + [[]] else Resolved(Popped(out), segments[1..])
    else Resolved(out + [segments[0]], segments[1..])
  }

  function Popped(out: seq<Text>): seq<Text> { if out == [] then [] else out[..|out| - 1] }

  lemma {:induction false} AbsoluteSnoc(out: seq<Text>, s: Text)
    ensures Absolute(out + [s]) == Absolute(out) + ([SLASH] + s)
  {
    if out == [] {
      assert [] + [s] == [s] && [s][1..] == [] && Absolute([s]) == [SLASH] + s + [];
    } else {
      assert (out + [s])[0] == out[0] && (out + [s])[1..] == out[1..] + [s];
      AbsoluteSnoc(out[1..], s);
      assert [SLASH] + out[0] + (Absolute(out[1..]) + ([SLASH] + s)) == ([SLASH] + out[0] + Absolute(out[1..])) + ([SLASH] + s);
    }
  }

  lemma {:induction false} DropsTo(before: Text, s: Text)
    requires SLASH !in s
    ensures DropLast(before + ([SLASH] + s)) == before
  {
    var whole := before + ([SLASH] + s);
    if s == [] {
      assert whole[|whole| - 1] == SLASH && whole[..|whole| - 1] == before;
    } else {
      var n := |s| - 1;
      assert whole[|whole| - 1] == s[n] && s[n] in s && whole[..|whole| - 1] == before + ([SLASH] + s[..n]);
      DropsTo(before, s[..n]);
    }
  }

  lemma DropLastPops(out: seq<Text>)
    requires forall s | s in out :: SLASH !in s
    ensures DropLast(Absolute(out)) == Absolute(Popped(out))
  {
    if out != [] {
      var n := |out| - 1;
      assert out == out[..n] + [out[n]] && out[n] in out;
      AbsoluteSnoc(out[..n], out[n]);
      DropsTo(Absolute(out[..n]), out[n]);
    }
  }

  /** What follows a dot segment: the rest of the path, or the slash alone. */
  lemma AfterDots(s: Text, rest: seq<Text>, out: Text)
    requires s in DOT_SEGMENTS
    ensures
      var next := if rest == [] then [SLASH] else Absolute(rest);
      RemoveDots(Absolute([s] + rest), out) == RemoveDots(next, if s == [DOT] then out else DropLast(out))
  {
    var input := Absolute([s] + rest);
    assert ([s] + rest)[1..] == rest;
    assert input == [SLASH] + s + Absolute(rest) && input[0] == SLASH;
    DotsAreTheSegment(s, rest);
    if rest != [] { assert Absolute(rest)[0] == SLASH; }
    assert [SLASH] + [] == [SLASH];
    if s == [DOT] {
      assert |input| == 2 <==> rest == [];
      if rest != [] { assert [SLASH] + input[3..] == Absolute(rest); }
    } else {
      assert |input| == 3 <==> rest == [];
      if rest != [] { assert [SLASH] + input[4..] == Absolute(rest); }
    }
  }

  lemma SlashIsKept(out: seq<Text>)
    ensures RemoveDots([SLASH], Absolute(out)) == Absolute(out + [[]])
  {
    AbsoluteSnoc(out, []);
    assert [SLASH][1..] == [] && [SLASH][..1] == [SLASH] && [SLASH] + [] == [SLASH];
    assert FirstSegment([SLASH]) == 1;
  }

  /** Section 5.2.4 on an absolute path works on its segments as on a stack. */
  lemma {:induction false} RemovalIsAStack(segments: seq<Text>, out: seq<Text>)
    requires (forall s | s in segments :: SLASH !in s) && forall s | s in out :: SLASH !in s
    ensures RemoveDots(Absolute(segments), Absolute(out)) == Absolute(Resolved(out, segments))
    decreases |segments|
  {
    if segments != [] {
      var s, rest := segments[0], segments[1..];
      assert segments == [s] + rest;
      if s in DOT_SEGMENTS {
        var kept := if s == [DOT] then out else Popped(out);
        AfterDots(s, rest, Absolute(out));
        DropLastPops(out);
        if rest == [] { SlashIsKept(kept); } else { RemovalIsAStack(rest, kept); }
      } else {
        FirstStep(s, rest, Absolute(out));
        AbsoluteSnoc(out, s);
        RemovalIsAStack(rest, out + [s]);
      }
    }
  }

  /** A path that opens with a dot and a slash loses them. */
  lemma OneDotOpening(rest: Text, out: Text)
    ensures RemoveDots([DOT, SLASH] + rest, out) == RemoveDots(rest, out)
  {
    var input := [DOT, SLASH] + rest;
    assert input[0] == DOT && input[1] == SLASH && input[2..] == rest;
    assert !OpensRelative(input, 2) && OpensRelative(input, 1);
  }

  /** So does one that opens with two dots and a slash. */
  lemma TwoDotsOpening(rest: Text, out: Text)
    ensures RemoveDots([DOT, DOT, SLASH] + rest, out) == RemoveDots(rest, out)
  {
    var input := [DOT, DOT, SLASH] + rest;
    assert input[0] == DOT && input[1] == DOT && input[2] == SLASH && input[3..] == rest;
    assert OpensRelative(input, 2);
  }

  /** And one that is dots alone is lost. */
  lemma DotsAlone(input: Text, out: Text)
    requires input in DOT_SEGMENTS
    ensures RemoveDots(input, out) == out
  {
    assert input[0] == DOT && forall i | 0 <= i < |input| :: input[i] == DOT;
    assert !OpensRelative(input, 2) && !OpensRelative(input, 1) && !OpensWithDots(input, 1) && !OpensWithDots(input, 2);
  }

  // -------------------------------------------------------------- normal forms

  function NormalizeAll(segments: seq<Text>): (r: seq<Text>)
    ensures |r| == |segments|
  {
    if segments == [] then [] else [Normalize(segments[0])] + NormalizeAll(segments[1..])
  }

  /** Normalising works segment by segment: no escape crosses a slash. */
  lemma {:induction false} NormalizeAfter(s: Text, rest: Text)
    requires SLASH !in s
    ensures Normalize(s + ([SLASH] + rest)) == Normalize(s) + ([SLASH] + Normalize(rest))
    decreases |s|
  {
    var whole := s + ([SLASH] + rest);
    if s == [] {
      assert whole == [SLASH] + rest && whole[1..] == rest;
    } else {
      assert s[0] in s;
      assert Encoded(whole) <==> Encoded(s);
      var n := if Encoded(s) then 3 else 1;
      assert whole[n..] == s[n..] + ([SLASH] + rest) && whole[..n] == s[..n];
      NormalizeAfter(s[n..], rest);
      NormalizeHead(s);
      NormalizeHead(whole);
      Regroup(Head(s), Normalize(s[n..]), [SLASH] + Normalize(rest));
    }
  }

  /** What the first character or escape of s becomes. */
  function Head(s: Text): Text
    requires s != []
  {
    if Encoded(s) then (if Unreserved(OctetOf(s)) then [OctetOf(s)] else s[..3]) else [s[0]]
  }

  lemma NormalizeHead(s: Text)
    requires s != []
    ensures Normalize(s) == Head(s) + Normalize(s[if Encoded(s) then 3 else 1..])
  {
  }

  lemma NormalizeSlash(t: Text)
    ensures Normalize([SLASH] + t) == [SLASH] + Normalize(t)
  {
    assert [] + ([SLASH] + t) == [SLASH] + t && [] + ([SLASH] + Normalize(t)) == [SLASH] + Normalize(t);
    NormalizeAfter([], t);
  }

  lemma NormalizePair(s: Text, after: Text)
    requires SLASH !in s && (after == [] || after[0] == SLASH)
    ensures Normalize(s + after) == Normalize(s) + Normalize(after)
  {
    if after == [] {
      assert s + [] == s && Normalize(s) + [] == Normalize(s);
    } else {
      var tail := after[1..];
      assert after == [SLASH] + tail;
      NormalizeSlash(tail);
      NormalizeAfter(s, tail);
    }
  }

  lemma NormalizeBefore(s: Text, rest: seq<Text>)
    requires SLASH !in s
    ensures Normalize([SLASH] + s + Absolute(rest)) == [SLASH] + Normalize(s) + Normalize(Absolute(rest))
  {
    var after := Absolute(rest);
    NormalizePair(s, after);
    NormalizeSlash(s + after);
    Regroup([SLASH], s, after);
    Regroup([SLASH], Normalize(s), Normalize(after));
  }

  lemma {:induction false} NormalizeAbsolute(segments: seq<Text>)
    requires forall s | s in segments :: SLASH !in s
    ensures Normalize(Absolute(segments)) == Absolute(NormalizeAll(segments))
  {
    if segments != [] {
      NormalizeAbsolute(segments[1..]);
      NormalizeBefore(segments[0], segments[1..]);
    }
  }

  lemma {:induction false} AlreadyNormal(segments: seq<Text>)
    requires forall s | s in segments :: Normalize(s) == s
    ensures NormalizeAll(segments) == segments
  {
    if segments != [] { AlreadyNormal(segments[1..]); }
  }

  /** No accepted path means another place to a server that normalises it:
      neither decoding unreserved characters nor removing dot segments changes
      it, in either order. */
  lemma PathIsNormal(t: seq<Part>, values: seq<Text>)
    requires IsTemplate(t) && Holes(t) == |values|
    requires forall s | s in values :: !Refused(s)
    ensures
      var path := PathOf(t, values);
      Normalize(path) == path && RemoveDots(path, []) == path && RemoveDots(Normalize(path), []) == path
  {
    var segments := Fill(t, EscapeAll(values));
    SegmentsSettled(t, values);
    var rest := segments[1..];
    assert segments[0] == [] && segments == [segments[0]] + rest;
    AbsoluteIsJoin(rest);
    assert PathOf(t, values) == Absolute(rest) by {
      assert [] + [SLASH] + Join(rest) == [SLASH] + Join(rest);
    }
    assert forall s | s in rest :: Settled(s);
    NormalizeAbsolute(rest);
    AlreadyNormal(rest);
    DotsRemoved(rest, []);
    assert [] + Absolute(rest) == Absolute(rest);
  }

  // ------------------------------------------------------- why three are refused

  /** Encoding cannot hide characters that are unreserved. */
  lemma {:induction false} UnreservedShowThrough(e: Text)
    requires forall b | b in Decode(e) :: Unreserved(b)
    ensures Normalize(e) == Decode(e)
    decreases |e|
  {
    if e != [] {
      var tail := if Encoded(e) then e[3..] else e[1..];
      assert Decode(e)[1..] == Decode(tail) && Decode(e)[0] in Decode(e);
      UnreservedShowThrough(tail);
    }
  }

  lemma {:induction false} NormalizeAddsNoSlash(e: Text)
    requires SLASH !in e
    ensures SLASH !in Normalize(e)
    decreases |e|
  {
    if e != [] { NormalizeAddsNoSlash(if Encoded(e) then e[3..] else e[1..]); }
  }

  lemma {:induction false} AllNormal(segments: seq<Text>)
    requires forall s | s in segments :: SLASH !in s
    ensures forall n | n in NormalizeAll(segments) :: SLASH !in n
    ensures forall s | s in segments :: Normalize(s) in NormalizeAll(segments)
  {
    if segments != [] {
      NormalizeAddsNoSlash(segments[0]);
      AllNormal(segments[1..]);
    }
  }

  /** However it is percent-encoded, a segment that stands for a dot segment is
      resolved away, and one that stands for nothing is empty. */
  lemma NoEncodingHelps(segments: seq<Text>, e: Text)
    requires e in segments && forall s | s in segments :: SLASH !in s
    requires Refused(Decode(e))
    ensures
      var path := Normalize(Absolute(segments));
      e == [] || RemoveDots(path, []) != path
  {
    if e != [] {
      assert Decode(e) in DOT_SEGMENTS;
      UnreservedShowThrough(e);
      NormalizeAbsolute(segments);
      AllNormal(segments);
      assert Normalize(e) in NormalizeAll(segments);
      DotsRemoved(NormalizeAll(segments), []);
      assert [] + Absolute(NormalizeAll(segments)) == Absolute(NormalizeAll(segments));
    }
  }
}
