/** The grammar of Kubernetes labels that cli/cmd/chaos_lint.go keeps in regular
    expressions, written out as texts. */
module LabelForms {
  import opened Values
  import opened SelectorClauses
  import opened LabelSelector
  import opened LabelRoundTrip

  // -------------------------------------------------------------- names and keys

  ghost predicate IsLowerOrDigit(c: char) { 'a' <= c <= 'z' || '0' <= c <= '9' }
  ghost predicate IsAlphanumeric(c: char) { IsLowerOrDigit(c) || 'A' <= c <= 'Z' }

  /** One to 63 alphanumerics, dashes, underscores and dots, that begin and end
      with an alphanumeric. */
  ghost predicate NameForm(s: string) {
    && 1 <= |s| <= 63
    && (forall i | 0 <= i < |s| :: IsAlphanumeric(s[i]) || (0 < i < |s| - 1 && (s[i] == '-' || s[i] == '_' || s[i] == '.')))
  }

  /** A text of lower-case alphanumerics, dashes and dots, that begins and ends
      with an alphanumeric. */
  ghost predicate PrefixForm(s: string) {
    && |s| >= 1
    && (forall i | 0 <= i < |s| :: IsLowerOrDigit(s[i]) || (0 < i < |s| - 1 && (s[i] == '-' || s[i] == '.')))
  }

  /** A name, or a prefix, a slash and a name. */
  ghost predicate KeyForm(s: string) {
    NameForm(s) || exists prefix, name :: s == prefix + "/" + name && PrefixForm(prefix) && NameForm(name)
  }

  lemma NameIs(s: string)
    ensures IsName(s) <==> NameForm(s)
  {
  }

  lemma PrefixIs(s: string)
    ensures IsPrefix(s) <==> PrefixForm(s)
  {
  }

  lemma KeyIs(s: string)
    ensures IsKey(s) <==> KeyForm(s)
  {
    var slash := Span(s, NotSlash);
    NameIs(s);
    if slash < |s| {
      var prefix, name := s[..slash], s[slash + 1..];
      assert s == prefix + "/" + name && !NameForm(s);
      PrefixIs(prefix);
      NameIs(name);
      if p, n :| s == p + "/" + n && PrefixForm(p) && NameForm(n) {
        SlashIsAt(s, p, n);
      }
    } else if p, n :| s == p + "/" + n && PrefixForm(p) && NameForm(n) {
      SlashIsAt(s, p, n);
    }
  }

  lemma SlashIsAt(s: string, p: string, n: string)
    requires s == p + "/" + n && PrefixForm(p)
    ensures Span(s, NotSlash) == |p| && s[..|p|] == p && s[|p| + 1..] == n
  {
    assert s[|p|] == '/';
    forall i | 0 <= i < |p| ensures NotSlash(s[i]) { assert s[i] == p[i]; }
  }

  /** A compared value is a name or empty, and a set holds names and is not. */
  ghost predicate ValuesForm(r: Requirement) {
    match r
    case Exists(_) => true
    case NotExists(_) => true
    case Equals(_, v) => v == "" || NameForm(v)
    case NotEquals(_, v) => v == "" || NameForm(v)
    case In(_, vs) => vs != [] && forall v | v in vs :: NameForm(v)
    case NotIn(_, vs) => vs != [] && forall v | v in vs :: NameForm(v)
  }

  lemma ValidIs(r: Requirement)
    ensures Valid(r) <==> KeyForm(r.key) && ValuesForm(r)
  {
    KeyIs(r.key);
    forall v { NameIs(v); }
  }

  // ------------------------------------------------------------------- trimming

  /** The 25 characters Unicode calls white space. */
  ghost predicate IsWhite(c: char) {
    || 9 <= c as int <= 13 || c == ' ' || c as int == 0x85 || c as int == 0xA0 || c as int == 0x1680
    || 0x2000 <= c as int <= 0x200A || c as int == 0x2028 || c as int == 0x2029 || c as int == 0x202F
    || c as int == 0x205F || c as int == 0x3000
  }

  ghost predicate AllWhite(s: string) { forall i | 0 <= i < |s| :: IsWhite(s[i]) }

  lemma {:induction false} TrimLeftIs(s: string)
    ensures |TrimLeft(s)| <= |s|
    ensures var n := |s| - |TrimLeft(s)|; TrimLeft(s) == s[n..] && AllWhite(s[..n])
    ensures TrimLeft(s) != [] ==> !IsWhite(TrimLeft(s)[0])
  {
    if s != [] && TrimSpace(s[0]) {
      TrimLeftIs(s[1..]);
      var n := |s| - |TrimLeft(s)|;
      assert s[..n] == [s[0]] + s[1..][..n - 1];
    }
  }

  lemma {:induction false} TrimRightIs(s: string)
    ensures |TrimRight(s)| <= |s|
    ensures TrimRight(s) == s[..|TrimRight(s)|] && AllWhite(s[|TrimRight(s)|..])
    ensures TrimRight(s) != [] ==> !IsWhite(TrimRight(s)[|TrimRight(s)| - 1])
  {
    if s != [] && TrimSpace(s[|s| - 1]) {
      var n := |s| - 1;
      TrimRightIs(s[..n]);
      var k := |TrimRight(s)|;
      assert s[k..] == s[..n][k..] + [s[n]] && s[..n][..k] == s[..k];
    }
  }

  /** Trimming takes the white space off both ends and nothing else. */
  lemma TrimIs(s: string)
    ensures exists left, right :: s == left + Trim(s) + right && AllWhite(left) && AllWhite(right)
    ensures Trim(s) != [] ==> !IsWhite(Trim(s)[0]) && !IsWhite(Trim(s)[|Trim(s)| - 1])
  {
    var t := TrimLeft(s);
    TrimLeftIs(s);
    TrimRightIs(t);
    var left, right := s[..|s| - |t|], t[|Trim(s)|..];
    assert t == Trim(s) + right && s == left + Trim(s) + right;
  }

  // ---------------------------------------------------------- set expressions

  /** The five characters a regular expression calls space. */
  ghost predicate IsReSpace(c: char) {
    c == ' ' || c == '\t' || c == '\n' || c == '\r' || c as int == 12
  }

  ghost predicate AllReSpace(s: string) { forall i | 0 <= i < |s| :: IsReSpace(s[i]) }

  function Word(op: SetOp): string { if op == OpIn then "in" else "notin" }

  /** A key of no space or parenthesis, space, the operator, perhaps space, and
      the values in parentheses. */
  ghost predicate SetForm(c: string, m: SetMatch, gap: string, after: string) {
    && c == m.key + gap + Word(m.op) + after + "(" + m.values + ")"
    && m.key != "" && (forall i | 0 <= i < |m.key| :: !IsReSpace(m.key[i]) && m.key[i] != '(' && m.key[i] != ')')
    && gap != "" && AllReSpace(gap) && AllReSpace(after)
    && forall i | 0 <= i < |m.values| :: m.values[i] != ')'
  }

  /** A text cut where a run of such characters ends. */
  lemma CutAtSpan(s: string, p: char -> bool) returns (front: string, back: string)
    ensures s == front + back && |front| == Span(s, p) && All(front, p) && (back != [] ==> !p(back[0]))
    ensures s[..Span(s, p)] == front && s[Span(s, p)..] == back
  {
    front, back := s[..Span(s, p)], s[Span(s, p)..];
  }

  lemma TailOf(a: string, b: string)
    ensures (a + b)[..|a|] == a && (a + b)[|a|..] == b
  {
  }

  lemma AllIsReSpace(s: string)
    ensures All(s, ReSpace) <==> AllReSpace(s)
  {
  }

  /** `(values)` after space. */
  lemma InParensIs(after: string, values: string)
    requires AllReSpace(after) && forall i | 0 <= i < |values| :: values[i] != ')'
    ensures InParens(after + "(" + values + ")") == Some(values)
  {
    var tail := "(" + values + ")";
    var s := after + tail;
    AllIsReSpace(after);
    SpanAll(after, tail, ReSpace);
    assert after + "(" + values + ")" == s;
    var k := |after|;
    assert s[k] == '(' && s[|s| - 1] == ')';
    assert s[k + 1..|s| - 1] == values;
  }

  lemma InParensHas(s: string) returns (after: string)
    requires InParens(s).Some?
    ensures s == after + "(" + InParens(s).value + ")" && AllReSpace(after)
    ensures forall i | 0 <= i < |InParens(s).value| :: InParens(s).value[i] != ')'
  {
    var back: string;
    after, back := CutAtSpan(s, ReSpace);
    AllIsReSpace(after);
    var v, k := InParens(s).value, |after|;
    assert s[k] == '(' && s[|s| - 1] == ')' && v == s[k + 1..|s| - 1];
    NoneClose(v);
  }

  lemma NoneClose(v: string)
    requires !Has(v, Close)
    ensures forall i | 0 <= i < |v| :: v[i] != ')'
  {
    forall i | 0 <= i < |v| ensures v[i] != ')' { assert !Close(v[i]); }
  }

  lemma WordsApart(op: SetOp, tail: string)
    ensures StartsWith(Word(op) + tail, "in") <==> op == OpIn
    ensures StartsWith(Word(op) + tail, Word(op)) && (Word(op) + tail)[|Word(op)|..] == tail
  {
    TailOf(Word(op), tail);
    if op == OpNotIn { assert (Word(op) + tail)[0] == 'n' && "in"[0] == 'i'; }
  }

  lemma AfterKeyIs(m: SetMatch, after: string)
    requires AllReSpace(after) && forall i | 0 <= i < |m.values| :: m.values[i] != ')'
    ensures AfterKey(m.key, Word(m.op) + (after + "(" + m.values + ")")) == Some(m)
  {
    WordsApart(m.op, after + "(" + m.values + ")");
    InParensIs(after, m.values);
  }

  lemma WordIsRead(key: string, rest: string) returns (after: string)
    requires AfterKey(key, rest).Some?
    ensures
      var m := AfterKey(key, rest).value;
      && m.key == key && rest == Word(m.op) + (after + "(" + m.values + ")") && AllReSpace(after)
      && forall i | 0 <= i < |m.values| :: m.values[i] != ')'
  {
    var m := AfterKey(key, rest).value;
    var tail := rest[|Word(m.op)|..];
    assert rest == Word(m.op) + tail && InParens(tail) == Some(m.values);
    after := InParensHas(tail);
  }

  lemma Cuts(key: string, gap: string, rest: string)
    ensures
      var c := key + (gap + rest);
      c[..|key|] == key && c[|key|..] == gap + rest && c[|key| + |gap|..] == rest && (gap != "" ==> c[|key|] == gap[0])
  {
    TailOf(key, gap + rest);
    TailOf(gap, rest);
  }

  /** Key, gap and rest of a text: where the reading cuts it. */
  lemma KeyAndGap(key: string, gap: string, rest: string)
    requires key != "" && gap != "" && AllReSpace(gap) && rest != [] && !IsReSpace(rest[0])
    requires forall i | 0 <= i < |key| :: !IsReSpace(key[i]) && key[i] != '(' && key[i] != ')'
    ensures KeyAndRest(key + (gap + rest)) == Some((key, rest))
  {
    Cuts(key, gap, rest);
    KeySpan(key, gap, rest);
  }

  lemma KeySpan(key: string, gap: string, rest: string)
    requires gap != "" && AllReSpace(gap) && rest != [] && !IsReSpace(rest[0])
    requires forall i | 0 <= i < |key| :: !IsReSpace(key[i]) && key[i] != '(' && key[i] != ')'
    ensures Span(key + (gap + rest), KeyEnd) == |key| && Span(gap + rest, ReSpace) == |gap| && ReSpace(gap[0])
  {
    AllIsReSpace(gap);
    assert (gap + rest)[0] == gap[0];
    SpanAll(key, gap + rest, KeyEnd);
    SpanAll(gap, rest, ReSpace);
  }

  lemma SetFormIsRead(c: string, m: SetMatch, gap: string, after: string)
    requires SetForm(c, m, gap, after)
    ensures SetExpr(c) == Some(m)
  {
    var rest := Word(m.op) + (after + "(" + m.values + ")");
    Assembled(m.key, gap, Word(m.op), after, m.values);
    assert rest[0] == Word(m.op)[0];
    KeyAndGap(m.key, gap, rest);
    AfterKeyIs(m, after);
  }

  lemma GapIsRead(c: string) returns (key: string, gap: string, rest: string)
    requires KeyAndRest(c).Some?
    ensures KeyAndRest(c) == Some((key, rest)) && c == key + (gap + rest) && key != "" && gap != "" && AllReSpace(gap)
    ensures forall i | 0 <= i < |key| :: !IsReSpace(key[i]) && key[i] != '(' && key[i] != ')'
  {
    var back: string;
    key, back := CutAtSpan(c, KeyEnd);
    gap, rest := CutAtSpan(back, ReSpace);
    AllIsReSpace(gap);
    Cuts(key, gap, rest);
    KeyIsPlain(key);
  }

  lemma KeyIsPlain(key: string)
    requires All(key, KeyEnd)
    ensures forall i | 0 <= i < |key| :: !IsReSpace(key[i]) && key[i] != '(' && key[i] != ')'
  {
  }

  lemma Assembled(key: string, gap: string, word: string, after: string, values: string)
    ensures key + (gap + (word + (after + "(" + values + ")"))) == key + gap + word + after + "(" + values + ")"
  {
    var tail := after + "(" + values + ")";
    assert key + (gap + (word + tail)) == key + gap + word + tail;
    assert key + gap + word + tail == key + gap + word + after + "(" + values + ")";
  }

  lemma ReadHasSetForm(c: string)
    requires SetExpr(c).Some?
    ensures exists gap, after :: SetForm(c, SetExpr(c).value, gap, after)
  {
    var m := SetExpr(c).value;
    var key, gap, rest := GapIsRead(c);
    var after := WordIsRead(key, rest);
    Assembled(key, gap, Word(m.op), after, m.values);
    assert SetForm(c, m, gap, after);
  }

  /** A clause is read as a set expression exactly when it has that form. */
  lemma SetExprIs(c: string, m: SetMatch)
    ensures SetExpr(c) == Some(m) <==> exists gap, after :: SetForm(c, m, gap, after)
  {
    if SetExpr(c) == Some(m) { ReadHasSetForm(c); }
    if gap, after :| SetForm(c, m, gap, after) { SetFormIsRead(c, m, gap, after); }
  }

  // ------------------------------------------------------- what an error says

  ghost predicate HasOne(s: string, c: char) { exists i :: 0 <= i < |s| && s[i] == c }

  /** The error of a clause says what is wrong with it. */
  ghost predicate ClauseErrorIsTrue(clause: string, e: Error) {
    match e
    case EmptyClause => Trim(clause) == ""
    case BadKey(key) => !KeyForm(key)
    case BadValue(value) => value != "" && !NameForm(value)
    case EmptyValue => exists m :: SetExpr(Trim(clause)) == Some(m)
    case MalformedSet => (forall m :: SetExpr(Trim(clause)) != Some(m)) && (HasOne(clause, '(') || HasOne(clause, ')'))
    case _ => false
  }

  lemma {:induction false} ValuesErrorIsTrue(parts: seq<string>, e: Error)
    requires ReadValues(parts) == Bad(e)
    ensures e == EmptyValue || (e.BadValue? && e.value != "" && !NameForm(e.value))
    ensures e == EmptyValue ==> exists part :: part in parts && Trim(part) == ""
    ensures e.BadValue? ==> exists part :: part in parts && Trim(part) == e.value
  {
    var p := Trim(parts[0]);
    NameIs(p);
    if p != [] && IsValue(p) {
      ValuesErrorIsTrue(parts[1..], e);
    } else {
      assert parts[0] in parts;
    }
  }

  lemma TrimsParen(clause: string)
    requires Has(Trim(clause), Paren)
    ensures HasOne(clause, '(') || HasOne(clause, ')')
  {
    TrimIs(clause);
    var left, right :| clause == left + Trim(clause) + right && AllWhite(left) && AllWhite(right);
    var i :| 0 <= i < |Trim(clause)| && Paren(Trim(clause)[i]);
    assert clause[|left| + i] == Trim(clause)[i];
  }

  lemma PlainErrorIsTrue(c: string, e: Error)
    requires ReadPlain(c) == Bad(e)
    ensures (e.BadKey? && !KeyForm(e.key)) || (e.BadValue? && e.value != "" && !NameForm(e.value))
  {
    match IndexPair(c, '!', '=')
    case Some(i) => EqualityErrorIsTrue(Trim(c[..i]), Trim(c[i + 2..]), true, e);
    case None =>
      match IndexPair(c, '=', '=')
      case Some(i) => EqualityErrorIsTrue(Trim(c[..i]), Trim(c[i + 2..]), false, e);
      case None =>
        var i := Span(c, NotEqual);
        if i < |c| {
          EqualityErrorIsTrue(Trim(c[..i]), Trim(c[i + 1..]), false, e);
        } else {
          KeyIs(Trim(if c != [] && c[0] == '!' then c[1..] else c));
        }
  }

  lemma EqualityErrorIsTrue(key: string, value: string, negated: bool, e: Error)
    requires ReadEquality(key, value, negated) == Bad(e)
    ensures (e.BadKey? && !KeyForm(e.key)) || (e.BadValue? && e.value != "" && !NameForm(e.value))
  {
    KeyIs(key);
    NameIs(value);
  }

  lemma ClauseErrors(clause: string, e: Error)
    requires ReadClause(clause) == Bad(e)
    ensures ClauseErrorIsTrue(clause, e)
  {
    var c := Trim(clause);
    if c != [] {
      match SetExpr(c)
      case Some(m) =>
        KeyIs(m.key);
        if IsKey(m.key) { ValuesErrorIsTrue(Pieces(m.values).0 + [Pieces(m.values).1], e); }
      case None =>
        if Has(c, Paren) { TrimsParen(clause); } else { PlainErrorIsTrue(c, e); }
    }
  }

  /** The error of a selector says what is wrong with it, or with a clause of its
      split. */
  lemma {:induction false} FirstErrorIsTrue(clauses: seq<string>, read: string -> Result<Requirement>, e: Error)
    requires ReadAll(clauses, read) == Bad(e)
    ensures exists k :: 0 <= k < |clauses| && read(clauses[k]) == Bad(e) && forall j | 0 <= j < k :: read(clauses[j]).Ok?
  {
    if read(clauses[0]).Ok? {
      FirstErrorIsTrue(clauses[1..], read, e);
      var k :| 0 <= k < |clauses| - 1 && read(clauses[1..][k]) == Bad(e) && forall j | 0 <= j < k :: read(clauses[1..][j]).Ok?;
      assert clauses[k + 1] == clauses[1..][k];
      forall j | 0 <= j < k + 1 ensures read(clauses[j]).Ok? { if j > 0 { assert clauses[j] == clauses[1..][j - 1]; } }
    }
  }

  lemma SelectorErrors(sel: string, e: Error)
    requires ReadSelector(sel) == Bad(e)
    ensures match e
            case EmptySelector => Trim(sel) == ""
            case AngleBracket => HasOne(sel, '<') || HasOne(sel, '>')
            case Unbalanced(_) => !Balanced(Trim(sel))
            case _ => exists clause :: clause in Cut(Trim(sel)).0 + [Cut(Trim(sel)).1] && ClauseErrorIsTrue(clause, e)
  {
    var s := Trim(sel);
    if s == [] {
    } else if Has(s, Angle) {
      TrimIs(sel);
      var left, right :| sel == left + s + right && AllWhite(left) && AllWhite(right);
      var i :| 0 <= i < |s| && Angle(s[i]);
      assert sel[|left| + i] == s[i];
    } else if Balanced(s) {
      var clauses := Cut(s).0 + [Cut(s).1];
      FirstErrorIsTrue(clauses, ReadClause, e);
      var k :| 0 <= k < |clauses| && ReadClause(clauses[k]) == Bad(e);
      ClauseErrors(clauses[k], e);
    }
  }
}
