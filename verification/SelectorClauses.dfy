/** cli/cmd/chaos_lint.go: splitting a label selector at its top-level commas. */
module SelectorClauses {
  import opened Values

  datatype SplitError = UnbalancedClose | UnclosedOpen
  datatype Split = Clauses(clauses: seq<string>) | Failed(error: SplitError)

  function Delta(c: char): int { if c == '(' then 1 else if c == ')' then -1 else 0 }

  /** How deep in parentheses s ends. */
  function Level(s: string): int {
    if s == [] then 0 else Level(s[..|s| - 1]) + Delta(s[|s| - 1])
  }

  predicate NeverBelow(s: string) { forall i | 0 <= i <= |s| :: Level(s[..i]) >= 0 }
  predicate Balanced(s: string) { NeverBelow(s) && Level(s) == 0 }

  predicate TopComma(s: string, i: nat)
    requires i < |s|
  {
    s[i] == ',' && Level(s[..i]) == 0
  }

  /** A clause: balanced, and no comma outside parentheses. */
  predicate Whole(s: string) {
    Balanced(s) && forall i | 0 <= i < |s| :: !TopComma(s, i)
  }

  function Join(parts: seq<string>): string
    requires parts != []
  {
    if |parts| == 1 then parts[0] else parts[0] + "," + Join(parts[1..])
  }

  /** The clauses closed so far, and the one still open. */
  function Cut(s: string): (seq<string>, string) {
    if s == [] then ([], [])
    else
      var before := s[..|s| - 1];
      var cut := Cut(before);
      if TopComma(s, |s| - 1) then (cut.0 + [cut.1], []) else (cut.0, cut.1 + [s[|s| - 1]])
  }

  method SplitSelectorClauses(s: string) returns (r: Split)
    ensures r.Clauses? <==> Balanced(s)
    ensures r.Clauses? ==> r.clauses == Cut(s).0 + [Cut(s).1]
    ensures r.Failed? ==> r.error == if NeverBelow(s) then UnclosedOpen else UnbalancedClose
  {
    var clauses: seq<string> := [];
    var depth, start := 0, 0;
    for i := 0 to |s|
      invariant 0 <= start <= i
      invariant depth == Level(s[..i])
      invariant forall j | 0 <= j <= i :: Level(s[..j]) >= 0
      invariant clauses == Cut(s[..i]).0 && s[start..i] == Cut(s[..i]).1
    {
      assert s[..i + 1][..i] == s[..i];
      match s[i] {
        case '(' => depth := depth + 1;
        case ')' =>
          depth := depth - 1;
          if depth < 0 {
            assert Level(s[..i + 1]) < 0;
            return Failed(UnbalancedClose);
          }
        case ',' =>
          if depth == 0 {
            clauses := clauses + [s[start..i]];
            start := i + 1;
          }
        case _ =>
      }
    }
    assert s[..|s|] == s;
    if depth != 0 {
      return Failed(UnclosedOpen);
    }
    clauses := clauses + [s[start..]];
    r := Clauses(clauses);
  }

  // ------------------------------------------------------------------- levels

  lemma {:induction false} LevelAdds(a: string, b: string)
    ensures Level(a + b) == Level(a) + Level(b)
  {
    if b == [] {
      assert a + b == a;
    } else {
      var n := |b| - 1;
      assert (a + b)[..|a + b| - 1] == a + b[..n];
      LevelAdds(a, b[..n]);
    }
  }

  lemma PrefixLevel(a: string, b: string, i: nat)
    requires i <= |b|
    ensures (a + b)[..|a| + i] == a + b[..i]
    ensures Level((a + b)[..|a| + i]) == Level(a) + Level(b[..i])
  {
    assert (a + b)[..|a| + i] == a + b[..i];
    LevelAdds(a, b[..i]);
  }

  // ------------------------------------------------------------ what cutting does

  /** The text of closed clauses, each with its comma. */
  function Closed(cs: seq<string>): string {
    if cs == [] then [] else Closed(cs[..|cs| - 1]) + cs[|cs| - 1] + ","
  }

  predicate Open(s: string) { NeverBelow(s) && forall i | 0 <= i < |s| :: !TopComma(s, i) }

  /** One more character: what holds of a text up to it. */
  lemma OneMore(s: string, c: char)
    requires NeverBelow(s) && Level(s) + Delta(c) >= 0
    ensures NeverBelow(s + [c]) && Level(s + [c]) == Level(s) + Delta(c)
    ensures Open(s) && !(c == ',' && Level(s) == 0) ==> Open(s + [c])
  {
    var more := s + [c];
    assert more[..|more| - 1] == s && more[|more| - 1] == c;
    forall i | 0 <= i <= |more| ensures Level(more[..i]) >= 0 {
      if i <= |s| { assert more[..i] == s[..i]; } else { assert more[..i] == more; }
    }
    forall i | 0 <= i < |more| && Open(s) && !(c == ',' && Level(s) == 0) ensures !TopComma(more, i) {
      if i < |s| {
        assert more[..i] == s[..i] && !TopComma(s, i);
      } else {
        assert more[..i] == s;
      }
    }
  }

  lemma {:induction false} CutKeepsText(s: string)
    ensures Closed(Cut(s).0) + Cut(s).1 == s
  {
    if s != [] {
      var n := |s| - 1;
      CutKeepsText(s[..n]);
      var closed, open := Cut(s[..n]).0, Cut(s[..n]).1;
      assert (closed + [open])[..|closed|] == closed;
      assert s == s[..n] + [s[n]];
    }
  }

  lemma {:induction false} CutIsWhole(s: string)
    requires NeverBelow(s)
    ensures Level(Cut(s).1) == Level(s) && Open(Cut(s).1)
    ensures forall c | c in Cut(s).0 :: Whole(c)
  {
    if s != [] {
      var n := |s| - 1;
      assert forall i | 0 <= i <= n :: s[..n][..i] == s[..i];
      assert s[..|s|] == s;
      CutIsWhole(s[..n]);
      if !TopComma(s, n) { OneMore(Cut(s[..n]).1, s[n]); }
    }
  }

  lemma {:induction false} JoinClosed(cs: seq<string>, last: string)
    ensures Join(cs + [last]) == Closed(cs) + last
    decreases |cs|
  {
    if cs == [] {
      assert Join([last]) == last;
    } else {
      var n := |cs| - 1;
      JoinMore(cs[..n], cs[n], last);
      JoinClosed(cs[..n], cs[n] + "," + last);
      assert cs[..n] + [cs[n], last] == cs + [last];
      assert Closed(cs[..n]) + (cs[n] + "," + last) == Closed(cs) + last;
    }
  }

  lemma {:induction false} JoinMore(cs: seq<string>, a: string, b: string)
    ensures Join(cs + [a, b]) == Join(cs + [a + "," + b])
  {
    if cs == [] {
      assert [a, b][1..] == [b];
      assert Join([a, b]) == a + "," + b;
    } else {
      assert (cs + [a, b])[1..] == cs[1..] + [a, b];
      assert (cs + [a + "," + b])[1..] == cs[1..] + [a + "," + b];
      JoinMore(cs[1..], a, b);
    }
  }

  /** What the splitter promises of a split. */
  ghost predicate IsSplit(s: string, clauses: seq<string>) {
    clauses != [] && Join(clauses) == s && forall c | c in clauses :: Whole(c)
  }

  lemma SplitIsRight(s: string)
    requires Balanced(s)
    ensures IsSplit(s, Cut(s).0 + [Cut(s).1])
  {
    CutKeepsText(s);
    CutIsWhole(s);
    JoinClosed(Cut(s).0, Cut(s).1);
  }

  // --------------------------------------------------------------- uniqueness

  /** Where a clause ends inside a longer opening of the same text, that opening
      has a comma at the top. */
  lemma LongerHasComma(a: string, x: string, b: string, y: string)
    requires Level(a) == 0 && a + x == b + y
    requires x == [] || x[0] == ','
    ensures |a| < |b| ==> TopComma(b, |a|)
  {
    var s := a + x;
    if |a| < |b| {
      assert s[|a|] == x[0] && s[|a|] == b[|a|];
      assert b[..|a|] == s[..|a|] == a;
    }
  }

  lemma SameFirst(a: string, x: string, b: string, y: string)
    requires Whole(a) && Whole(b) && a + x == b + y
    requires x == [] || x[0] == ','
    requires y == [] || y[0] == ','
    ensures a == b && x == y
  {
    LongerHasComma(a, x, b, y);
    LongerHasComma(b, y, a, x);
    var s := a + x;
    assert s[..|a|] == a && s[..|b|] == b && s[|a|..] == x && s[|b|..] == y;
  }

  function After(parts: seq<string>): string
    requires parts != []
  {
    if |parts| == 1 then [] else "," + Join(parts[1..])
  }

  lemma JoinIs(c: seq<string>)
    requires c != []
    ensures Join(c) == c[0] + After(c) && (After(c) == [] || After(c)[0] == ',')
  {
    if |c| == 1 { assert c[0] + [] == c[0]; } else { assert c[0] + "," + Join(c[1..]) == c[0] + After(c); }
  }

  lemma AfterSame(c: seq<string>, d: seq<string>)
    requires c != [] && d != [] && After(c) == After(d)
    ensures (|c| == 1 <==> |d| == 1) && (|c| > 1 ==> Join(c[1..]) == Join(d[1..]))
  {
    if |c| > 1 && |d| > 1 { assert After(c)[1..] == Join(c[1..]) && After(d)[1..] == Join(d[1..]); }
  }

  lemma FirstsAgree(c: seq<string>, d: seq<string>)
    requires c != [] && d != [] && Join(c) == Join(d) && Whole(c[0]) && Whole(d[0])
    ensures c[0] == d[0] && After(c) == After(d)
  {
    JoinIs(c);
    JoinIs(d);
    SameFirst(c[0], After(c), d[0], After(d));
  }

  lemma {:induction false} JoinIsInjective(c: seq<string>, d: seq<string>, whole: string -> bool)
    requires c != [] && d != [] && Join(c) == Join(d)
    requires forall s :: whole(s) ==> Whole(s)
    requires forall i | 0 <= i < |c| :: whole(c[i])
    requires forall i | 0 <= i < |d| :: whole(d[i])
    ensures c == d
    decreases |c|
  {
    FirstsAgree(c, d);
    AfterSame(c, d);
    if |c| > 1 { JoinIsInjective(c[1..], d[1..], whole); }
    assert c == [c[0]] + c[1..] && d == [d[0]] + d[1..];
  }

  /** A text has one split. */
  lemma SplitIsUnique(s: string, c: seq<string>, d: seq<string>)
    requires IsSplit(s, c) && IsSplit(s, d)
    ensures c == d
  {
    forall i | 0 <= i < |c| ensures Whole(c[i]) { assert c[i] in c; }
    forall i | 0 <= i < |d| ensures Whole(d[i]) { assert d[i] in d; }
    JoinIsInjective(c, d, Whole);
  }

  lemma {:induction false} JoinBalanced(cs: seq<string>)
    requires cs != [] && forall c | c in cs :: Balanced(c)
    ensures Balanced(Join(cs))
  {
    if |cs| > 1 {
      JoinBalanced(cs[1..]);
      var rest := Join(cs[1..]);
      assert Balanced(",") by {
        assert forall i | 0 <= i <= 1 :: (if i == 0 then "," [..i] == [] else ","[..i] == ",");
      }
      BalancedAdds(",", rest);
      BalancedAdds(cs[0], "," + rest);
      assert cs[0] + ("," + rest) == cs[0] + "," + rest;
    }
  }

  lemma BalancedAdds(a: string, b: string)
    requires Balanced(a) && Balanced(b)
    ensures Balanced(a + b)
  {
    var s := a + b;
    LevelAdds(a, b);
    forall i | 0 <= i <= |s| ensures Level(s[..i]) >= 0 {
      if i <= |a| { assert s[..i] == a[..i]; } else { PrefixLevel(a, b, i - |a|); }
    }
  }

  /** A text splits exactly when it is balanced, and then into the one list of
      clauses that joins back to it. */
  lemma SplitsExactly(s: string, clauses: seq<string>)
    ensures IsSplit(s, clauses) <==> Balanced(s) && clauses == Cut(s).0 + [Cut(s).1]
  {
    if IsSplit(s, clauses) {
      JoinBalanced(clauses);
      SplitIsRight(s);
      SplitIsUnique(s, clauses, Cut(s).0 + [Cut(s).1]);
    }
    if Balanced(s) { SplitIsRight(s); }
  }
}
