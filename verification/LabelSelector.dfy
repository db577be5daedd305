/** cli/cmd/chaos_lint.go: the label selector check, clause by clause, with its
    three regular expressions as predicates. */
module LabelSelector {
  import opened Values
  import opened SelectorClauses

  // --------------------------------------------------------------- characters

  predicate Digit(c: char) { '0' <= c <= '9' }
  predicate Lower(c: char) { 'a' <= c <= 'z' }
  predicate Alnum(c: char) { Digit(c) || Lower(c) || 'A' <= c <= 'Z' }
  predicate NameChar(c: char) { Alnum(c) || c == '-' || c == '_' || c == '.' }
  predicate PrefixChar(c: char) { Digit(c) || Lower(c) || c == '-' || c == '.' }
  predicate Paren(c: char) { c == '(' || c == ')' }
  predicate Close(c: char) { c == ')' }
  predicate Angle(c: char) { c == '<' || c == '>' }
  predicate Equal(c: char) { c == '=' }
  predicate NotEqual(c: char) { c != '=' }
  predicate NotSlash(c: char) { c != '/' }

  /** \s of a Go regular expression. */
  predicate ReSpace(c: char) { c == ' ' || c as int in {9, 10, 12, 13} }

  predicate KeyEnd(c: char) { !ReSpace(c) && !Paren(c) }

  /** unicode.IsSpace, which strings.TrimSpace goes by. */
  predicate TrimSpace(c: char) {
    ReSpace(c) || c as int in {11, 0x85, 0xA0, 0x1680, 0x2028, 0x2029, 0x202F, 0x205F, 0x3000} || 0x2000 <= c as int <= 0x200A
  }

  function TrimLeft(s: string): string {
    if s != [] && TrimSpace(s[0]) then TrimLeft(s[1..]) else s
  }

  function TrimRight(s: string): string {
    if s != [] && TrimSpace(s[|s| - 1]) then TrimRight(s[..|s| - 1]) else s
  }

  function Trim(s: string): string { TrimRight(TrimLeft(s)) }

  predicate Has(s: string, p: char -> bool) { exists i :: 0 <= i < |s| && p(s[i]) }
  predicate All(s: string, p: char -> bool) { forall i | 0 <= i < |s| :: p(s[i]) }

  /** How many characters at the front satisfy p. */
  function Span(s: string, p: char -> bool): (n: nat)
    ensures n <= |s| && (forall i | 0 <= i < n :: p(s[i])) && (n < |s| ==> !p(s[n]))
  {
    if s == [] || !p(s[0]) then 0 else 1 + Span(s[1..], p)
  }

  /** The first place where a stands, followed by b. */
  function IndexPair(s: string, a: char, b: char): (r: Option<nat>)
    ensures r.Some? ==> r.value + 1 < |s| && s[r.value] == a && s[r.value + 1] == b
    ensures r.Some? ==> forall i | 0 <= i < r.value :: !(s[i] == a && s[i + 1] == b)
    ensures r.None? ==> forall i | 0 <= i < |s| - 1 :: !(s[i] == a && s[i + 1] == b)
  {
    if |s| < 2 then None
    else if s[0] == a && s[1] == b then Some(0)
    else match IndexPair(s[1..], a, b)
      case Some(i) => Some(i + 1)
      case None => None
  }

  // ------------------------------------------------- the regular expressions

  /** [A-Za-z0-9]([-A-Za-z0-9_.]{0,61}[A-Za-z0-9])? */
  predicate IsName(s: string) {
    1 <= |s| <= 63 && Alnum(s[0]) && Alnum(s[|s| - 1]) && All(s, NameChar)
  }

  /** [a-z0-9]([-a-z0-9.]*[a-z0-9])? */
  predicate IsPrefix(s: string) {
    && |s| >= 1 && All(s, PrefixChar)
    && (Digit(s[0]) || Lower(s[0])) && (Digit(s[|s| - 1]) || Lower(s[|s| - 1]))
  }

  /** k8sLabelKeyRE: neither part has a slash, so the first one parts them. */
  predicate IsKey(s: string) {
    var slash := Span(s, NotSlash);
    if slash < |s| then IsPrefix(s[..slash]) && IsName(s[slash + 1..]) else IsName(s)
  }

  /** k8sLabelValRE */
  predicate IsValue(s: string) { s == [] || IsName(s) }

  datatype SetOp = OpIn | OpNotIn
  datatype SetMatch = SetMatch(key: string, op: SetOp, values: string)

  /** \s*\(([^)]*)\)$ */
  function InParens(s: string): Option<string> {
    var k := Span(s, ReSpace);
    if k + 2 <= |s| && s[k] == '(' && s[|s| - 1] == ')' && !Has(s[k + 1..|s| - 1], Close) then Some(s[k + 1..|s| - 1])
    else None
  }

  predicate StartsWith(s: string, prefix: string) { |prefix| <= |s| && s[..|prefix|] == prefix }

  /** The text up to the first space or parenthesis, where space follows, and
      what comes after that. */
  function KeyAndRest(c: string): Option<(string, string)> {
    var i := Span(c, KeyEnd);
    if i == 0 || i == |c| || !ReSpace(c[i]) then None else Some((c[..i], c[i + Span(c[i..], ReSpace)..]))
  }

  /** k8sSetExprRE: the key runs to the first space, the operator follows. */
  function SetExpr(c: string): Option<SetMatch> {
    match KeyAndRest(c) case None => None case Some((key, rest)) => AfterKey(key, rest)
  }

  function AfterKey(key: string, rest: string): Option<SetMatch> {
    if StartsWith(rest, "in") then
      (match InParens(rest[2..]) case Some(v) => Some(SetMatch(key, OpIn, v)) case None => None)
    else if StartsWith(rest, "notin") then
      (match InParens(rest[5..]) case Some(v) => Some(SetMatch(key, OpNotIn, v)) case None => None)
    else None
  }

  // ------------------------------------------------------------------ clauses

  datatype Error =
    | EmptySelector
    | AngleBracket
    | Unbalanced(error: SplitError)
    | EmptyClause
    | BadKey(key: string)
    | EmptyValue
    | BadValue(value: string)
    | MalformedSet

  /** What a clause of a selector requires of an object's labels. */
  datatype Requirement =
    | Exists(key: string)
    | NotExists(key: string)
    | Equals(key: string, value: string)
    | NotEquals(key: string, value: string)
    | In(key: string, values: seq<string>)
    | NotIn(key: string, values: seq<string>)

  datatype Result<T> = Ok(value: T) | Bad(error: Error)

  /** strings.Split(s, ","), as the pieces closed and the one still open. */
  function Pieces(s: string): (seq<string>, string) {
    if s == [] then ([], [])
    else
      var before := Pieces(s[..|s| - 1]);
      if s[|s| - 1] == ',' then (before.0 + [before.1], []) else (before.0, before.1 + [s[|s| - 1]])
  }

  function ReadValues(parts: seq<string>): Result<seq<string>> {
    if parts == [] then Ok([])
    else
      var p := Trim(parts[0]);
      if p == [] then Bad(EmptyValue)
      else if !IsValue(p) then Bad(BadValue(p))
      else match ReadValues(parts[1..])
        case Ok(rest) => Ok([p] + rest)
        case Bad(e) => Bad(e)
  }

  function ReadSet(m: SetMatch): Result<Requirement> {
    if !IsKey(m.key) then Bad(BadKey(m.key))
    else match ReadValues(Pieces(m.values).0 + [Pieces(m.values).1])
      case Ok(vs) => Ok(if m.op == OpIn then In(m.key, vs) else NotIn(m.key, vs))
      case Bad(e) => Bad(e)
  }

  function ReadEquality(key: string, value: string, negated: bool): Result<Requirement> {
    if !IsKey(key) then Bad(BadKey(key))
    else if Has(value, Equal) || !IsValue(value) then Bad(BadValue(value))
    else Ok(if negated then NotEquals(key, value) else Equals(key, value))
  }

  function ReadExists(c: string): Result<Requirement> {
    var negated := c != [] && c[0] == '!';
    var key := Trim(if negated then c[1..] else c);
    if !IsKey(key) then Bad(BadKey(key)) else Ok(if negated then NotExists(key) else Exists(key))
  }

  /** A clause without parentheses. */
  function ReadPlain(c: string): Result<Requirement> {
    match IndexPair(c, '!', '=')
    case Some(i) => ReadEquality(Trim(c[..i]), Trim(c[i + 2..]), true)
    case None =>
      match IndexPair(c, '=', '=')
      case Some(i) => ReadEquality(Trim(c[..i]), Trim(c[i + 2..]), false)
      case None =>
        var i := Span(c, NotEqual);
        if i < |c| then ReadEquality(Trim(c[..i]), Trim(c[i + 1..]), false) else ReadExists(c)
  }

  function ReadClause(clause: string): Result<Requirement> {
    var c := Trim(clause);
    if c == [] then Bad(EmptyClause)
    else match SetExpr(c)
      case Some(m) => ReadSet(m)
      case None => if Has(c, Paren) then Bad(MalformedSet) else ReadPlain(c)
  }

  /** Reading each clause, up to the first that cannot be read. */
  function ReadAll(clauses: seq<string>, read: string -> Result<Requirement>): Result<seq<Requirement>> {
    if clauses == [] then Ok([])
    else match read(clauses[0])
      case Bad(e) => Bad(e)
      case Ok(r) =>
        match ReadAll(clauses[1..], read)
        case Bad(e) => Bad(e)
        case Ok(rest) => Ok([r] + rest)
  }

  function ReadSelector(sel: string): Result<seq<Requirement>> {
    var s := Trim(sel);
    if s == [] then Bad(EmptySelector)
    else if Has(s, Angle) then Bad(AngleBracket)
    else if !Balanced(s) then Bad(Unbalanced(if NeverBelow(s) then UnclosedOpen else UnbalancedClose))
    else ReadAll(Cut(s).0 + [Cut(s).1], ReadClause)
  }

  // ------------------------------------------------------------- the validator

  method CheckValues(parts: seq<string>) returns (err: Option<Error>, ghost values: seq<string>)
    ensures ReadValues(parts) == match err case None => Ok(values) case Some(e) => Bad(e)
  {
    values := [];
    assert parts[0..] == parts && (ReadValues(parts).Ok? ==> [] + ReadValues(parts).value == ReadValues(parts).value);
    for k := 0 to |parts|
      invariant ReadValues(parts) == match ReadValues(parts[k..]) case Ok(rest) => Ok(values + rest) case Bad(e) => Bad(e)
    {
      var p := Trim(parts[k]);
      assert parts[k..][0] == parts[k] && parts[k..][1..] == parts[k + 1..];
      if p == [] {
        return Some(EmptyValue), values;
      }
      if !IsValue(p) {
        return Some(BadValue(p)), values;
      }
      ghost var rest := ReadValues(parts[k + 1..]);
      assert rest.Ok? ==> values + ([p] + rest.value) == (values + [p]) + rest.value;
      values := values + [p];
    }
    assert parts[|parts|..] == [] && values + [] == values;
    err := None;
  }

  method CheckPlain(c: string) returns (err: Option<Error>, ghost found: Requirement)
    requires c != []
    ensures ReadPlain(c) == match err case None => Ok(found) case Some(e) => Bad(e)
  {
    var key, val, hasEq := [], [], false;
    var ne, eq, one := IndexPair(c, '!', '='), IndexPair(c, '=', '='), Span(c, NotEqual);
    if ne.Some? {
      key, val, hasEq := Trim(c[..ne.value]), Trim(c[ne.value + 2..]), true;
    } else if eq.Some? {
      key, val, hasEq := Trim(c[..eq.value]), Trim(c[eq.value + 2..]), true;
    } else if one < |c| {
      key, val, hasEq := Trim(c[..one]), Trim(c[one + 1..]), true;
    } else {
      key := Trim(if c[0] == '!' then c[1..] else c);
    }
    found := if hasEq then (if ne.Some? then NotEquals(key, val) else Equals(key, val))
             else if c[0] == '!' then NotExists(key) else Exists(key);
    if !IsKey(key) {
      return Some(BadKey(key)), found;
    }
    if hasEq && (Has(val, Equal) || !IsValue(val)) {
      return Some(BadValue(val)), found;
    }
    err := None;
  }

  /** One clause: what is wrong with it, if anything, and what it was read as. */
  method CheckClause(clause: string) returns (err: Option<Error>, ghost found: Requirement)
    ensures ReadClause(clause) == match err case None => Ok(found) case Some(e) => Bad(e)
  {
    found := Exists([]);
    var c := Trim(clause);
    if c == [] {
      return Some(EmptyClause), found;
    }
    var m := SetExpr(c);
    if m.Some? {
      if !IsKey(m.value.key) {
        return Some(BadKey(m.value.key)), found;
      }
      var parts := Pieces(m.value.values);
      ghost var values: seq<string>;
      err, values := CheckValues(parts.0 + [parts.1]);
      found := if m.value.op == OpIn then In(m.value.key, values) else NotIn(m.value.key, values);
      return;
    }
    if Has(c, Paren) {
      return Some(MalformedSet), found;
    }
    err, found := CheckPlain(c);
  }

  function Onto(found: seq<Requirement>, rest: Result<seq<Requirement>>): Result<seq<Requirement>> {
    match rest
    case Bad(e) => Bad(e)
    case Ok(rs) => Ok(found + rs)
  }

  lemma ReadNext(clauses: seq<string>, k: nat, found: seq<Requirement>, read: string -> Result<Requirement>)
    requires k < |clauses|
    ensures Onto(found, ReadAll(clauses[k..], read)) ==
      match read(clauses[k])
      case Bad(e) => Bad(e)
      case Ok(r) => Onto(found + [r], ReadAll(clauses[k + 1..], read))
  {
    assert clauses[k..][0] == clauses[k] && clauses[k..][1..] == clauses[k + 1..];
    var rest := ReadAll(clauses[k + 1..], read);
    match read(clauses[k]) {
      case Bad(e) =>
      case Ok(r) => assert rest.Ok? ==> found + ([r] + rest.value) == (found + [r]) + rest.value;
    }
  }

  lemma OntoNothing(rest: Result<seq<Requirement>>)
    ensures Onto([], rest) == rest
  {
    assert rest.Ok? ==> [] + rest.value == rest.value;
  }

  method CheckClauses(clauses: seq<string>, ghost read: string -> Result<Requirement>)
    returns (err: Option<Error>, ghost found: seq<Requirement>)
    requires forall c :: read(c) == ReadClause(c)
    ensures ReadAll(clauses, read) == match err case None => Ok(found) case Some(e) => Bad(e)
  {
    found := [];
    assert clauses[0..] == clauses;
    OntoNothing(ReadAll(clauses, read));
    for k := 0 to |clauses|
      invariant ReadAll(clauses, read) == Onto(found, ReadAll(clauses[k..], read))
    {
      ghost var one: Requirement;
      err, one := CheckClause(clauses[k]);
      ReadNext(clauses, k, found, read);
      if err.Some? {
        return;
      }
      found := found + [one];
    }
    assert clauses[|clauses|..] == [] && found + [] == found;
    err := None;
  }

  /** The selector is refused exactly where reading it fails, with the same
      error; otherwise `found` is what its clauses were read as. */
  method ValidateLabelSelector(sel: string) returns (err: Option<Error>, ghost found: seq<Requirement>)
    ensures ReadSelector(sel) == match err case None => Ok(found) case Some(e) => Bad(e)
  {
    found := [];
    var trimmed := Trim(sel);
    if trimmed == [] {
      return Some(EmptySelector), [];
    }
    if Has(trimmed, Angle) {
      return Some(AngleBracket), [];
    }
    var split := SplitSelectorClauses(trimmed);
    if split.Failed? {
      return Some(Unbalanced(split.error)), [];
    }
    err, found := CheckClauses(split.clauses, ReadClause);
  }
}
