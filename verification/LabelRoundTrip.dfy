/** Printing requirements as a label selector and reading them back. */
module LabelRoundTrip {
  import opened Values
  import opened SelectorClauses
  import opened LabelSelector

  predicate Valid(r: Requirement) {
    && IsKey(r.key)
    && match r
       case Exists(_) | NotExists(_) => true
       case Equals(_, v) => IsValue(v)
       case NotEquals(_, v) => IsValue(v)
       case In(_, vs) => vs != [] && forall v | v in vs :: IsName(v)
       case NotIn(_, vs) => vs != [] && forall v | v in vs :: IsName(v)
  }

  function SetText(key: string, op: string, values: seq<string>): string
    requires values != []
  {
    key + " " + op + " (" + Join(values) + ")"
  }

  function Print(r: Requirement): string
    requires Valid(r)
  {
    match r
    case Exists(k) => k
    case NotExists(k) => "!" + k
    case Equals(k, v) => k + "=" + v
    case NotEquals(k, v) => k + "!=" + v
    case In(k, vs) => SetText(k, "in", vs)
    case NotIn(k, vs) => SetText(k, "notin", vs)
  }

  function PrintAll(rs: seq<Requirement>): (clauses: seq<string>)
    requires forall r | r in rs :: Valid(r)
    ensures |clauses| == |rs|
  {
    if rs == [] then [] else [Print(rs[0])] + PrintAll(rs[1..])
  }

  // ------------------------------------------------------ what keys are made of

  /** The characters of keys and values. */
  predicate Plain(c: char) { NameChar(c) || c == '/' }

  /** A text that trimming leaves alone, and that has no character of the
      selector syntax. */
  predicate Token(s: string) { All(s, Plain) && (s != [] ==> Alnum(s[0]) && Alnum(s[|s| - 1])) }

  lemma KeyIsToken(k: string)
    requires IsKey(k)
    ensures k != [] && Token(k)
  {
    var slash := Span(k, NotSlash);
    if slash < |k| {
      var p, n := k[..slash], k[slash + 1..];
      assert k[slash] == '/' && k[0] == p[0] && k[|k| - 1] == n[|n| - 1];
      forall i | 0 <= i < |k| ensures Plain(k[i]) {
        if i < slash { assert PrefixChar(p[i]); } else if i > slash { assert NameChar(n[i - slash - 1]); }
      }
    } else {
      forall i | 0 <= i < |k| ensures Plain(k[i]) { assert NameChar(k[i]); }
    }
  }

  lemma ValueIsToken(v: string)
    requires IsValue(v)
    ensures Token(v)
  {
    forall i | 0 <= i < |v| ensures Plain(v[i]) { assert NameChar(v[i]); }
  }

  lemma TrimKeeps(s: string)
    requires s != [] ==> !TrimSpace(s[0]) && !TrimSpace(s[|s| - 1])
    ensures Trim(s) == s
  {
  }

  lemma {:induction false} SpanAll(s: string, t: string, p: char -> bool)
    requires All(s, p)
    ensures Span(s + t, p) == |s| + Span(t, p)
  {
    if s == [] {
      assert s + t == t;
    } else {
      assert (s + t)[0] == s[0] && (s + t)[1..] == s[1..] + t;
      SpanAll(s[1..], t, p);
    }
  }

  // ---------------------------------------------------- clauses without a set

  lemma WithoutEqual(c: string)
    requires All(c, NotEqual)
    ensures ReadPlain(c) == ReadExists(c)
  {
    assert forall i | 0 <= i < |c| :: NotEqual(c[i]);
    assert IndexPair(c, '!', '=').None? && IndexPair(c, '=', '=').None?;
  }

  lemma WithOneEqual(c: string, n: nat)
    requires n < |c| && c[n] == '=' && forall i | 0 <= i < |c| :: c[i] != '!' && (c[i] == '=' ==> i == n)
    ensures ReadPlain(c) == ReadEquality(Trim(c[..n]), Trim(c[n + 1..]), false)
  {
    assert IndexPair(c, '!', '=').None? && IndexPair(c, '=', '=').None?;
    var one := Span(c, NotEqual);
    assert !NotEqual(c[n]);
    assert one == n;
  }

  lemma TokenHasNoSyntax(s: string)
    requires Token(s)
    ensures forall i | 0 <= i < |s| :: s[i] != '!' && s[i] != '=' && NotEqual(s[i])
    ensures !Has(s, Equal) && Trim(s) == s && All(s, NotEqual)
  {
    assert forall i | 0 <= i < |s| :: Plain(s[i]);
    TrimKeeps(s);
  }

  lemma ReadsExists(k: string)
    requires IsKey(k)
    ensures ReadPlain(k) == Ok(Exists(k))
  {
    KeyIsToken(k);
    TokenHasNoSyntax(k);
    WithoutEqual(k);
  }

  lemma ReadsNotExists(k: string, c: string)
    requires IsKey(k) && c == "!" + k
    ensures ReadPlain(c) == Ok(NotExists(k))
  {
    KeyIsToken(k);
    TokenHasNoSyntax(k);
    assert c[1..] == k && c[0] == '!';
    assert All(c, NotEqual) by {
      forall i | 0 <= i < |c| ensures NotEqual(c[i]) { if i > 0 { assert c[i] == k[i - 1]; } }
    }
    WithoutEqual(c);
  }

  lemma ReadsEquals(k: string, v: string)
    requires IsKey(k) && IsValue(v)
    ensures ReadPlain(k + "=" + v) == Ok(Equals(k, v))
  {
    KeyIsToken(k);
    ValueIsToken(v);
    TokenHasNoSyntax(k);
    TokenHasNoSyntax(v);
    var c, n := k + "=" + v, |k|;
    assert c[n] == '=' && c[..n] == k && c[n + 1..] == v;
    forall i | 0 <= i < |c| ensures c[i] != '!' && (c[i] == '=' ==> i == n) {
      if i < n { assert c[i] == k[i]; }
      if i > n { assert c[i] == v[i - n - 1]; }
    }
    WithOneEqual(c, n);
  }

  /** A doubled equal sign reads like a single one. */
  lemma ReadsDoubleEquals(k: string, v: string)
    requires IsKey(k) && IsValue(v)
    ensures ReadPlain(k + "==" + v) == Ok(Equals(k, v))
  {
    KeyIsToken(k);
    ValueIsToken(v);
    TokenHasNoSyntax(k);
    TokenHasNoSyntax(v);
    var c, n := k + "==" + v, |k|;
    assert c[n] == '=' && c[n + 1] == '=' && c[..n] == k && c[n + 2..] == v;
    forall i | 0 <= i < |c| ensures c[i] != '!' && (i < n ==> c[i] != '=') {
      if i < n { assert c[i] == k[i]; }
      if i > n + 1 { assert c[i] == v[i - n - 2]; }
    }
    WithTwoEquals(c, n);
  }

  lemma WithTwoEquals(c: string, n: nat)
    requires n + 1 < |c| && c[n] == '=' && c[n + 1] == '='
    requires forall i | 0 <= i < |c| :: c[i] != '!' && (i < n ==> c[i] != '=')
    ensures ReadPlain(c) == ReadEquality(Trim(c[..n]), Trim(c[n + 2..]), false)
  {
    assert IndexPair(c, '!', '=').None?;
    assert IndexPair(c, '=', '=') == Some(n);
  }

  lemma ReadsNotEquals(k: string, v: string)
    requires IsKey(k) && IsValue(v)
    ensures ReadPlain(k + "!=" + v) == Ok(NotEquals(k, v))
  {
    KeyIsToken(k);
    ValueIsToken(v);
    TokenHasNoSyntax(k);
    TokenHasNoSyntax(v);
    var c, n := k + "!=" + v, |k|;
    assert c[n] == '!' && c[n + 1] == '=' && c[..n] == k && c[n + 2..] == v;
    forall i | 0 <= i < n ensures c[i] != '!' { assert c[i] == k[i]; }
    WithNotEqual(c, n);
  }

  lemma WithNotEqual(c: string, n: nat)
    requires n + 1 < |c| && c[n] == '!' && c[n + 1] == '=' && forall i | 0 <= i < n :: c[i] != '!'
    ensures ReadPlain(c) == ReadEquality(Trim(c[..n]), Trim(c[n + 2..]), true)
  {
    assert IndexPair(c, '!', '=') == Some(n);
  }

  // ------------------------------------------------------- clauses with a set

  predicate NotParen(c: char) { !Paren(c) }
  predicate IsComma(c: char) { c == ',' }

  lemma {:induction false} NoParensLevel(s: string)
    requires All(s, NotParen)
    ensures Level(s) == 0
  {
    if s != [] {
      var before := s[..|s| - 1];
      assert All(before, NotParen) by { assert forall i | 0 <= i < |before| :: before[i] == s[i] && NotParen(s[i]); }
      assert NotParen(s[|s| - 1]);
      NoParensLevel(before);
    }
  }

  lemma NoParensPrefix(s: string)
    requires All(s, NotParen)
    ensures forall i | 0 <= i <= |s| :: Level(s[..i]) == 0
  {
    forall i | 0 <= i <= |s| ensures Level(s[..i]) == 0 {
      assert forall j | 0 <= j < i :: NotParen(s[j]) && s[..i][j] == s[j];
      NoParensLevel(s[..i]);
    }
  }

  lemma FlatIsWhole(s: string)
    requires All(s, NotParen) && !Has(s, IsComma)
    ensures Whole(s)
  {
    NoParensPrefix(s);
    assert s[..|s|] == s;
    assert forall i | 0 <= i < |s| :: !IsComma(s[i]);
  }

  lemma {:induction false} PiecesAreClauses(s: string)
    requires All(s, NotParen)
    ensures Pieces(s) == Cut(s)
  {
    if s != [] {
      var n := |s| - 1;
      assert forall i | 0 <= i < n :: NotParen(s[i]) && s[..n][i] == s[i];
      PiecesAreClauses(s[..n]);
      NoParensLevel(s[..n]);
    }
  }

  lemma {:induction false} JoinedChars(vs: seq<string>, p: char -> bool)
    requires vs != [] && p(',') && forall v | v in vs :: All(v, p)
    ensures All(Join(vs), p)
  {
    if |vs| > 1 {
      JoinedChars(vs[1..], p);
      assert All(vs[0], p);
      var joined := Join(vs);
      forall i | 0 <= i < |joined| ensures p(joined[i]) {
        if i < |vs[0]| { assert joined[i] == vs[0][i]; }
        else if i > |vs[0]| { assert joined[i] == Join(vs[1..])[i - |vs[0]| - 1]; }
      }
    } else {
      assert vs[0] in vs;
    }
  }

  /** A list of names, joined and split again. */
  lemma JoinedValues(vs: seq<string>)
    requires vs != [] && forall v | v in vs :: IsName(v)
    ensures All(Join(vs), NotParen)
    ensures Pieces(Join(vs)).0 + [Pieces(Join(vs)).1] == vs
  {
    forall v | v in vs ensures All(v, NotParen) && Whole(v) {
      ValueIsToken(v);
      assert forall i | 0 <= i < |v| :: Plain(v[i]) && NotParen(v[i]);
      FlatIsWhole(v);
    }
    JoinedChars(vs, NotParen);
    PiecesAreClauses(Join(vs));
    SplitsExactly(Join(vs), vs);
  }

  lemma {:induction false} ReadsValues(vs: seq<string>)
    requires forall v | v in vs :: IsName(v)
    ensures ReadValues(vs) == Ok(vs)
  {
    if vs != [] {
      ValueIsToken(vs[0]);
      TrimKeeps(vs[0]);
      ReadsValues(vs[1..]);
      assert [vs[0]] + vs[1..] == vs;
    }
  }

  lemma ReadsInParens(j: string)
    requires All(j, NotParen)
    ensures InParens(" (" + j + ")") == Some(j)
  {
    var s := " (" + j + ")";
    assert s == " " + ("(" + j + ")");
    SpanAll(" ", "(" + j + ")", ReSpace);
    assert s[1] == '(' && s[|s| - 1] == ')' && s[1 + 1..|s| - 1] == j;
    assert forall i | 0 <= i < |j| :: NotParen(j[i]);
    assert !Has(j, Close);
  }

  function OpText(op: SetOp): string { if op == OpIn then "in" else "notin" }

  lemma ReadsOp(key: string, op: SetOp, j: string)
    requires All(j, NotParen)
    ensures AfterKey(key, OpText(op) + (" (" + j + ")")) == Some(SetMatch(key, op, j))
  {
    var rest := OpText(op) + (" (" + j + ")");
    ReadsInParens(j);
    if op == OpIn {
      assert rest[..2] == "in" && rest[2..] == " (" + j + ")";
    } else {
      assert rest[0] == 'n' && rest[..2][0] == 'n';
      assert rest[..5] == "notin" && rest[5..] == " (" + j + ")";
    }
  }

  lemma KeyThenSpace(key: string, rest: string)
    requires key != [] && All(key, KeyEnd) && rest != [] && !ReSpace(rest[0])
    ensures SetExpr(key + " " + rest) == AfterKey(key, rest)
  {
    var c := key + (" " + rest);
    assert c == key + " " + rest;
    SpanAll(key, " " + rest, KeyEnd);
    assert All(" ", ReSpace);
    SpanAll(" ", rest, ReSpace);
    assert c[|key|..] == " " + rest && c[..|key|] == key && c[|key| + 1..] == rest;
  }

  lemma ReadsSetExpr(key: string, op: SetOp, j: string)
    requires IsKey(key) && All(j, NotParen)
    ensures SetExpr(key + " " + OpText(op) + " (" + j + ")") == Some(SetMatch(key, op, j))
  {
    var rest := OpText(op) + (" (" + j + ")");
    assert key + " " + OpText(op) + " (" + j + ")" == key + " " + rest;
    KeyIsToken(key);
    assert All(key, KeyEnd) by { assert forall i | 0 <= i < |key| :: Plain(key[i]); }
    assert rest[0] == OpText(op)[0];
    KeyThenSpace(key, rest);
    ReadsOp(key, op, j);
  }

  lemma ReadsMatch(key: string, op: SetOp, vs: seq<string>)
    requires IsKey(key) && vs != [] && forall v | v in vs :: IsName(v)
    ensures ReadSet(SetMatch(key, op, Join(vs))) == Ok(if op == OpIn then In(key, vs) else NotIn(key, vs))
  {
    JoinedValues(vs);
    ReadsValues(vs);
  }

  lemma ReadsSet(key: string, op: SetOp, vs: seq<string>)
    requires IsKey(key) && vs != [] && forall v | v in vs :: IsName(v)
    ensures ReadClause(SetText(key, OpText(op), vs)) == Ok(if op == OpIn then In(key, vs) else NotIn(key, vs))
  {
    var j := Join(vs);
    JoinedValues(vs);
    ReadsMatch(key, op, vs);
    ReadsMatched(key, op, j, SetText(key, OpText(op), vs));
  }

  lemma ReadsMatched(key: string, op: SetOp, j: string, c: string)
    requires IsKey(key) && All(j, NotParen) && c == key + " " + OpText(op) + " (" + j + ")"
    ensures ReadClause(c) == ReadSet(SetMatch(key, op, j))
  {
    ReadsSetExpr(key, op, j);
    TrimKeepsSet(key, OpText(op), j, c);
    ReadAsSet(c, SetMatch(key, op, j));
  }

  lemma TrimKeepsSet(key: string, op: string, j: string, c: string)
    requires IsKey(key) && c == key + " " + op + " (" + j + ")"
    ensures c != [] && Trim(c) == c
  {
    KeyIsToken(key);
    assert c[0] == key[0] && c[|c| - 1] == ')';
    TrimKeeps(c);
  }

  lemma ReadAsSet(c: string, m: SetMatch)
    requires c != [] && Trim(c) == c && SetExpr(c) == Some(m)
    ensures ReadClause(c) == ReadSet(m)
  {
  }

  /** A text without parentheses, then one in parentheses: the commas of the
      second are not at the top. */
  lemma WrappedIsWhole(a: string, j: string)
    requires All(a, NotParen) && !Has(a, IsComma) && All(j, NotParen)
    ensures Whole(a + "(" + j + ")")
  {
    var prefix := a + "(";
    var s := prefix + j + ")";
    NoParensPrefix(a);
    NoParensPrefix(j);
    assert a[..|a|] == a && j[..|j|] == j && prefix[..|a|] == a;
    assert Level(prefix) == 1;
    forall i | 0 <= i <= |s|
      ensures Level(s[..i]) == if i <= |a| || i == |s| then 0 else 1
    {
      if i <= |a| {
        assert s[..i] == a[..i];
      } else if i < |s| {
        PrefixLevel(prefix, j, i - |prefix|);
        assert s[..i] == (prefix + j)[..i];
      } else {
        LevelAdds(prefix, j);
        assert s[..i] == s && s[..|s| - 1] == prefix + j;
      }
    }
    assert s[..|s|] == s;
    forall i | 0 <= i < |s| ensures !TopComma(s, i) {
      if i < |a| { assert s[i] == a[i] && !IsComma(a[i]); }
    }
  }

  /** What each printed clause brings to the selector. */
  predicate Tidy(c: string) {
    && Whole(c) && c != [] && !TrimSpace(c[0]) && !TrimSpace(c[|c| - 1]) && All(c, NotAngle)
  }

  predicate NotAngle(c: char) { !Angle(c) }

  /** A text of a clause without a set: no spaces at its ends, no parentheses,
      commas or angle brackets in it. */
  predicate Compact(c: string) {
    && c != [] && !TrimSpace(c[0]) && !TrimSpace(c[|c| - 1])
    && forall i | 0 <= i < |c| :: Plain(c[i]) || c[i] == '!' || c[i] == '='
  }

  lemma PlainClause(c: string)
    requires Compact(c)
    ensures Tidy(c) && ReadClause(c) == ReadPlain(c)
  {
    assert forall i | 0 <= i < |c| :: NotParen(c[i]) && NotAngle(c[i]) && !IsComma(c[i]);
    FlatIsWhole(c);
    TrimKeeps(c);
    assert !Has(c, Paren);
    NoSetWithoutParens(c);
  }

  lemma NoSetWithoutParens(c: string)
    requires All(c, NotParen)
    ensures SetExpr(c).None?
  {
    var i := Span(c, KeyEnd);
    if 0 < i < |c| && ReSpace(c[i]) {
      var n := i + Span(c[i..], ReSpace);
      var rest := c[n..];
      assert forall k | 0 <= k < |rest| :: rest[k] == c[n + k] && NotParen(c[n + k]);
      NoOpWithoutParens(c[..i], rest);
    }
  }

  lemma NoOpWithoutParens(key: string, rest: string)
    requires forall k | 0 <= k < |rest| :: NotParen(rest[k])
    ensures AfterKey(key, rest).None?
  {
    if |rest| >= 2 { NoParensInside(rest, 2); }
    if |rest| >= 5 { NoParensInside(rest, 5); }
  }

  lemma NoParensInside(rest: string, n: nat)
    requires n <= |rest| && forall k | 0 <= k < |rest| :: NotParen(rest[k])
    ensures InParens(rest[n..]).None?
  {
    var t := rest[n..];
    assert forall k | 0 <= k < |t| :: t[k] == rest[n + k] && NotParen(rest[n + k]);
  }

  lemma PrintsExists(k: string)
    requires IsKey(k)
    ensures Tidy(k) && ReadClause(k) == Ok(Exists(k))
  {
    ReadsExists(k);
    KeyIsPlain(k);
    ReadsAsPlain(k, Exists(k));
  }

  lemma KeyIsPlain(k: string)
    requires IsKey(k)
    ensures Compact(k)
  {
    KeyIsToken(k);
  }

  lemma PrintsNotExists(k: string, c: string)
    requires IsKey(k) && c == "!" + k
    ensures Tidy(c) && ReadClause(c) == Ok(NotExists(k))
  {
    ReadsNotExists(k, c);
    BangIsPlain(k, c);
    ReadsAsPlain(c, NotExists(k));
  }

  lemma BangIsPlain(k: string, c: string)
    requires IsKey(k) && c == "!" + k
    ensures Compact(c)
  {
    KeyIsToken(k);
    forall i | 0 <= i < |c| ensures Plain(c[i]) || c[i] == '!' || c[i] == '=' {
      if i > 0 { assert c[i] == k[i - 1] && Plain(k[i - 1]); }
    }
    assert c[0] == '!' && c[|c| - 1] == k[|k| - 1];
  }

  lemma ReadsAsPlain(c: string, r: Requirement)
    requires Compact(c) && ReadPlain(c) == Ok(r)
    ensures Tidy(c) && ReadClause(c) == Ok(r)
  {
    PlainClause(c);
  }

  lemma PrintsSet(k: string, op: SetOp, vs: seq<string>)
    requires IsKey(k) && vs != [] && forall v | v in vs :: IsName(v)
    ensures Tidy(SetText(k, OpText(op), vs))
    ensures ReadClause(SetText(k, OpText(op), vs)) == Ok(if op == OpIn then In(k, vs) else NotIn(k, vs))
  {
    ReadsSet(k, op, vs);
    SetIsTidy(k, op, vs);
  }

  lemma PrintsEquality(k: string, v: string)
    requires IsKey(k) && IsValue(v)
    ensures Tidy(k + "=" + v) && ReadClause(k + "=" + v) == Ok(Equals(k, v))
    ensures Tidy(k + "!=" + v) && ReadClause(k + "!=" + v) == Ok(NotEquals(k, v))
  {
    ReadsEquals(k, v);
    EqualityIsPlain(k, "=", v);
    ReadsNotEquals(k, v);
    EqualityIsPlain(k, "!=", v);
  }

  /** Every printed requirement is a tidy clause that reads as itself. */
  lemma ReadsPrinted(r: Requirement)
    requires Valid(r)
    ensures Tidy(Print(r)) && ReadClause(Print(r)) == Ok(r)
  {
    match r {
      case Exists(k) => PrintsExists(k);
      case NotExists(k) => PrintsNotExists(k, "!" + k);
      case Equals(k, v) => PrintsEquality(k, v);
      case NotEquals(k, v) => PrintsEquality(k, v);
      case In(k, vs) => PrintsSet(k, OpIn, vs);
      case NotIn(k, vs) => PrintsSet(k, OpNotIn, vs);
    }
  }

  lemma EqualityIsPlain(k: string, op: string, v: string)
    requires IsKey(k) && IsValue(v) && (op == "=" || op == "!=")
    ensures Tidy(k + op + v) && ReadClause(k + op + v) == ReadPlain(k + op + v)
  {
    KeyIsToken(k);
    ValueIsToken(v);
    var c := k + op + v;
    forall i | 0 <= i < |c| ensures Plain(c[i]) || c[i] == '!' || c[i] == '=' {
      if i < |k| { assert c[i] == k[i] && Plain(k[i]); }
      else if i < |k| + |op| { assert c[i] == op[i - |k|]; }
      else { assert c[i] == v[i - |k| - |op|] && Plain(v[i - |k| - |op|]); }
    }
    assert c[0] == k[0] && c[|c| - 1] == if v == [] then op[|op| - 1] else v[|v| - 1];
    PlainClause(c);
  }

  lemma BeforeParens(k: string, op: string)
    requires IsKey(k) && All(op, Plain)
    ensures var a := k + " " + op + " "; All(a, NotParen) && !Has(a, IsComma) && All(a, NotAngle) && a[0] == k[0] && Alnum(k[0])
  {
    KeyIsToken(k);
    var a := k + " " + op + " ";
    forall i | 0 <= i < |a| ensures Plain(a[i]) || a[i] == ' ' {
      if i < |k| { assert a[i] == k[i] && Plain(k[i]); }
      else if |k| < i <= |k| + |op| { assert a[i] == op[i - |k| - 1] && Plain(op[i - |k| - 1]); }
    }
    assert forall i | 0 <= i < |a| :: NotParen(a[i]) && NotAngle(a[i]) && !IsComma(a[i]);
  }

  lemma WrappedIsTidy(a: string, j: string)
    requires a != [] && !TrimSpace(a[0]) && All(a, NotParen) && !Has(a, IsComma) && All(a, NotAngle)
    requires All(j, NotParen) && All(j, NotAngle)
    ensures Tidy(a + "(" + j + ")")
  {
    var c := a + "(" + j + ")";
    WrappedIsWhole(a, j);
    forall i | 0 <= i < |c| ensures NotAngle(c[i]) {
      if i < |a| { assert c[i] == a[i]; }
      else if |a| < i < |c| - 1 { assert c[i] == j[i - |a| - 1]; }
    }
    assert c[0] == a[0] && c[|c| - 1] == ')';
  }

  lemma JoinedNames(vs: seq<string>)
    requires vs != [] && forall v | v in vs :: IsName(v)
    ensures All(Join(vs), NotParen) && All(Join(vs), NotAngle)
  {
    JoinedValues(vs);
    forall v | v in vs ensures All(v, NotAngle) {
      ValueIsToken(v);
      assert forall i | 0 <= i < |v| :: Plain(v[i]);
    }
    JoinedChars(vs, NotAngle);
  }

  lemma SetIsTidy(k: string, op: SetOp, vs: seq<string>)
    requires IsKey(k) && vs != [] && forall v | v in vs :: IsName(v)
    ensures Tidy(SetText(k, OpText(op), vs))
  {
    JoinedNames(vs);
    var o, j := OpText(op), Join(vs);
    assert All(o, Plain);
    BeforeParens(k, o);
    WrappedIsTidy(k + " " + o + " ", j);
    assert k + " " + o + " (" + j + ")" == k + " " + o + " " + "(" + j + ")";
  }

  // -------------------------------------------------------------- the selector

  lemma {:induction false} JoinedEnds(cs: seq<string>)
    requires cs != [] && forall c | c in cs :: Tidy(c)
    ensures var s := Join(cs); s != [] && !TrimSpace(s[0]) && !TrimSpace(s[|s| - 1])
  {
    assert Tidy(cs[0]);
    if |cs| > 1 {
      JoinedEnds(cs[1..]);
      var s, rest := Join(cs), Join(cs[1..]);
      assert s[0] == cs[0][0] && s[|s| - 1] == rest[|rest| - 1];
    }
  }

  lemma {:induction false} ReadsAll(rs: seq<Requirement>, read: string -> Result<Requirement>)
    requires forall r | r in rs :: Valid(r) && read(Print(r)) == Ok(r)
    ensures ReadAll(PrintAll(rs), read) == Ok(rs)
  {
    if rs != [] {
      ReadsAll(rs[1..], read);
      assert [rs[0]] + rs[1..] == rs;
    }
  }

  lemma {:induction false} PrintedOf(rs: seq<Requirement>)
    requires forall r | r in rs :: Valid(r)
    ensures forall c | c in PrintAll(rs) :: exists r :: r in rs && c == Print(r)
  {
    if rs != [] {
      PrintedOf(rs[1..]);
      assert rs == [rs[0]] + rs[1..];
      forall c | c in PrintAll(rs) ensures exists r :: r in rs && c == Print(r) {
        if c == Print(rs[0]) { assert rs[0] in rs; } else { assert c in PrintAll(rs[1..]); }
      }
    }
  }

  /** Every list of valid requirements, printed, is accepted and read back as the
      same list. */
  lemma PrintedIsReadBack(rs: seq<Requirement>)
    requires rs != [] && forall r | r in rs :: Valid(r)
    ensures ReadSelector(Join(PrintAll(rs))) == Ok(rs)
  {
    var cs := PrintAll(rs);
    var s := Join(cs);
    forall r | r in rs ensures Tidy(Print(r)) && ReadClause(Print(r)) == Ok(r) { ReadsPrinted(r); }
    PrintedOf(rs);
    forall c | c in cs ensures Tidy(c) {
      var r :| r in rs && c == Print(r);
    }
    SelectorOf(cs);
    ReadsAll(rs, ReadClause);
  }

  /** A selector of tidy clauses is read clause by clause. */
  lemma SelectorOf(cs: seq<string>)
    requires cs != [] && forall c | c in cs :: Tidy(c)
    ensures ReadSelector(Join(cs)) == ReadAll(cs, ReadClause)
  {
    var s := Join(cs);
    JoinedEnds(cs);
    TrimKeeps(s);
    forall c | c in cs ensures All(c, NotAngle) && Whole(c) { assert Tidy(c); }
    JoinedChars(cs, NotAngle);
    assert forall i | 0 <= i < |s| :: NotAngle(s[i]);
    assert !Has(s, Angle);
    SplitsExactly(s, cs);
  }

  /** Whatever is accepted was read as valid requirements: printing them gives a
      selector that means the same. */
  lemma AcceptedIsValid(sel: string, rs: seq<Requirement>)
    requires ReadSelector(sel) == Ok(rs)
    ensures rs != [] && (forall r | r in rs :: Valid(r)) && ReadSelector(Join(PrintAll(rs))) == Ok(rs)
  {
    var s := Trim(sel);
    forall c, r | ReadClause(c) == Ok(r) ensures Valid(r) { ReadIsValid(c, r); }
    AllReadValid(Cut(s).0 + [Cut(s).1], ReadClause, rs);
    PrintedIsReadBack(rs);
  }

  lemma {:induction false} AllReadValid(cs: seq<string>, read: string -> Result<Requirement>, rs: seq<Requirement>)
    requires ReadAll(cs, read) == Ok(rs)
    requires forall c, r | read(c) == Ok(r) :: Valid(r)
    ensures |rs| == |cs| && forall r | r in rs :: Valid(r)
  {
    if cs != [] {
      AllReadValid(cs[1..], read, rs[1..]);
      assert rs == [rs[0]] + rs[1..];
    }
  }

  lemma ReadIsValid(c: string, r: Requirement)
    requires ReadClause(c) == Ok(r)
    ensures Valid(r)
  {
    var m := SetExpr(Trim(c));
    if m.Some? { SetIsValid(m.value, r); } else { PlainIsValid(Trim(c), r); }
  }

  lemma PlainIsValid(c: string, r: Requirement)
    requires ReadPlain(c) == Ok(r)
    ensures Valid(r)
  {
    match IndexPair(c, '!', '=')
    case Some(i) => EqualityIsValid(Trim(c[..i]), Trim(c[i + 2..]), true, r);
    case None =>
      match IndexPair(c, '=', '=')
      case Some(i) => EqualityIsValid(Trim(c[..i]), Trim(c[i + 2..]), false, r);
      case None =>
        var i := Span(c, NotEqual);
        if i < |c| { EqualityIsValid(Trim(c[..i]), Trim(c[i + 1..]), false, r); } else { ExistsIsValid(c, r); }
  }

  lemma EqualityIsValid(key: string, value: string, negated: bool, r: Requirement)
    requires ReadEquality(key, value, negated) == Ok(r)
    ensures Valid(r)
  {
  }

  lemma ExistsIsValid(c: string, r: Requirement)
    requires ReadExists(c) == Ok(r)
    ensures Valid(r)
  {
  }

  lemma SetIsValid(m: SetMatch, r: Requirement)
    requires ReadSet(m) == Ok(r)
    ensures Valid(r)
  {
    var parts := Pieces(m.values).0 + [Pieces(m.values).1];
    ValuesAreNames(parts, r.values);
    assert r.values != [];
  }

  lemma {:induction false} ValuesAreNames(parts: seq<string>, vs: seq<string>)
    requires ReadValues(parts) == Ok(vs)
    ensures |vs| == |parts| && forall v | v in vs :: IsName(v)
  {
    if parts != [] {
      ValuesAreNames(parts[1..], vs[1..]);
      assert vs == [vs[0]] + vs[1..];
    }
  }
}
