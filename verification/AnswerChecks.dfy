/** agents/run-analyst/verdict.py, `problems`, and agents/run-analyst/analyst.py,
    `analyze`: the checks between a model's answer and a post. */
module AnswerChecks {
  import opened Values
  import opened AnswerShape
  import opened Verdict
  import opened Lists

  // ------------------------------------------------------------ the figures

  function TwoTo(n: nat): (p: int)
    ensures p >= 1
  {
    if n == 0 then 1 else 2 * TwoTo(n - 1)
  }

  lemma {:induction false} PowersOfTwo(a: nat, b: nat)
    ensures TwoTo(0) == 1 && TwoTo(1) == 2 && TwoTo(a + b) == TwoTo(a) * TwoTo(b)
  {
    if a > 0 {
      PowersOfTwo(a - 1, b);
      assert 2 * (TwoTo(a - 1) * TwoTo(b)) == (2 * TwoTo(a - 1)) * TwoTo(b);
    }
  }

  /** Whether `float(n)` gives a number: n rounds to a double of at most 1024
      bits. Beyond that it raises. */
  predicate IsFloat(n: int) {
    var limit := TwoTo(1024) - TwoTo(970);
    -limit < n < limit
  }

  /** Somewhere in the value, at any depth, stands an integer `float` refuses. */
  predicate Overflows(v: Value)
    decreases v
  {
    match v
    case Int(n) => !IsFloat(n)
    case List(items) => exists item | item in items :: Overflows(item)
    case Dict(fields) => exists f | f in fields :: Overflows(f.value)
    case _ => false
  }

  /** The figures a value holds, in the order they are read, up to the first
      integer that is no float. */
  function Figures(v: Value, lex: Lexer): seq<real>
    decreases v
  {
    match v
    case Int(n) => if IsFloat(n) then [n as real] else []
    case Float(r) => [r]
    case Str(t) => Shown(lex.numerals(t))
    case List(items) => ItemFigures(items, lex)
    case Dict(fields) => FieldFigures(fields, lex)
    case _ => []
  }

  function Shown(numerals: seq<Numeral>): (r: seq<real>)
    ensures |r| == |numerals|
    ensures forall i | 0 <= i < |r| :: r[i] == numerals[i].value
  {
    seq(|numerals|, i requires 0 <= i < |numerals| => numerals[i].value)
  }

  function ItemFigures(items: seq<Value>, lex: Lexer): seq<real>
    decreases items
  {
    if items == [] then []
    else Figures(items[0], lex) + if Overflows(items[0]) then [] else ItemFigures(items[1..], lex)
  }

  function FieldFigures(fields: seq<Field>, lex: Lexer): seq<real>
    decreases fields
  {
    if fields == [] then []
    else Figures(fields[0].value, lex) + if Overflows(fields[0].value) then [] else FieldFigures(fields[1..], lex)
  }

  /** The list `_field_numbers` appends to. */
  class FigureList {
    var out: seq<real>

    constructor ()
      ensures out == []
    {
      out := [];
    }
  }

  /** `_field_numbers`; `raised` says that a conversion did, which ends it there. */
  method CollectFigures(v: Value, lex: Lexer, list: FigureList) returns (raised: bool)
    modifies list
    ensures raised == Overflows(v)
    ensures list.out == old(list.out) + Figures(v, lex)
    decreases v
  {
    raised := false;
    match v
    case Int(n) =>
      if !IsFloat(n) { return true; }
      list.out := list.out + [n as real];
    case Float(r) => list.out := list.out + [r];
    case Str(t) => list.out := list.out + Shown(lex.numerals(t));
    case List(items) => raised := CollectItems(items, lex, list);
    case Dict(fields) => raised := CollectFields(fields, lex, list);
    case _ =>
  }

  function ItemFiguresAfter(items: seq<Value>, i: nat, lex: Lexer): seq<real>
    requires i < |items|
  {
    if Overflows(items[i]) then [] else ItemFigures(items[i + 1..], lex)
  }

  lemma ItemFiguresFrom(items: seq<Value>, i: nat, lex: Lexer)
    requires i < |items|
    ensures ItemFigures(items[i..], lex) == Figures(items[i], lex) + ItemFiguresAfter(items, i, lex)
    ensures items[|items|..] == []
  {
    assert items[i..][0] == items[i] && items[i..][1..] == items[i + 1..];
  }

  method CollectItems(items: seq<Value>, lex: Lexer, list: FigureList) returns (raised: bool)
    modifies list
    ensures raised <==> exists item | item in items :: Overflows(item)
    ensures list.out == old(list.out) + ItemFigures(items, lex)
    decreases items
  {
    ghost var all := list.out + ItemFigures(items, lex);
    assert items[0..] == items;
    var i := 0;
    while i < |items|
      invariant 0 <= i <= |items|
      invariant forall k | 0 <= k < i :: !Overflows(items[k])
      invariant list.out + ItemFigures(items[i..], lex) == all
    {
      ItemFiguresFrom(items, i, lex);
      Regroup(list.out, Figures(items[i], lex), ItemFiguresAfter(items, i, lex));
      raised := CollectFigures(items[i], lex, list);
      if raised { return; }
      i := i + 1;
    }
    return false;
  }

  function FieldFiguresAfter(fields: seq<Field>, i: nat, lex: Lexer): seq<real>
    requires i < |fields|
  {
    if Overflows(fields[i].value) then [] else FieldFigures(fields[i + 1..], lex)
  }

  lemma FieldFiguresFrom(fields: seq<Field>, i: nat, lex: Lexer)
    requires i < |fields|
    ensures FieldFigures(fields[i..], lex) == Figures(fields[i].value, lex) + FieldFiguresAfter(fields, i, lex)
    ensures fields[|fields|..] == []
  {
    assert fields[i..][0] == fields[i] && fields[i..][1..] == fields[i + 1..];
  }

  method CollectFields(fields: seq<Field>, lex: Lexer, list: FigureList) returns (raised: bool)
    modifies list
    ensures raised <==> exists f | f in fields :: Overflows(f.value)
    ensures list.out == old(list.out) + FieldFigures(fields, lex)
    decreases fields
  {
    ghost var all := list.out + FieldFigures(fields, lex);
    assert fields[0..] == fields;
    var i := 0;
    while i < |fields|
      invariant 0 <= i <= |fields|
      invariant forall k | 0 <= k < i :: !Overflows(fields[k].value)
      invariant list.out + FieldFigures(fields[i..], lex) == all
    {
      FieldFiguresFrom(fields, i, lex);
      Regroup(list.out, Figures(fields[i].value, lex), FieldFiguresAfter(fields, i, lex));
      raised := CollectFigures(fields[i].value, lex, list);
      if raised { return; }
      i := i + 1;
    }
    return false;
  }

  /** Somewhere in the value, at any depth, stands the figure x. */
  ghost predicate Holds(v: Value, x: real, lex: Lexer)
    decreases v
  {
    match v
    case Int(n) => x == n as real
    case Float(r) => x == r
    case Str(t) => exists n | n in lex.numerals(t) :: n.value == x
    case List(items) => exists item | item in items :: Holds(item, x, lex)
    case Dict(fields) => exists f | f in fields :: Holds(f.value, x, lex)
    case _ => false
  }

  lemma {:induction false} FiguresAreHeld(v: Value, x: real, lex: Lexer)
    requires !Overflows(v)
    ensures x in Figures(v, lex) <==> Holds(v, x, lex)
    decreases v
  {
    match v
    case List(items) => ItemFiguresAreHeld(items, x, lex);
    case Dict(fields) => FieldFiguresAreHeld(fields, x, lex);
    case Str(t) =>
      var ns := lex.numerals(t);
      assert x in Shown(ns) ==> exists i :: 0 <= i < |ns| && ns[i].value == x && ns[i] in ns;
      assert forall i | 0 <= i < |ns| :: Shown(ns)[i] in Shown(ns);
    case _ =>
  }

  lemma {:induction false} ItemFiguresAreHeld(items: seq<Value>, x: real, lex: Lexer)
    requires forall item | item in items :: !Overflows(item)
    ensures x in ItemFigures(items, lex) <==> exists item | item in items :: Holds(item, x, lex)
    decreases items
  {
    if items != [] {
      FiguresAreHeld(items[0], x, lex);
      ItemFiguresAreHeld(items[1..], x, lex);
      assert items == [items[0]] + items[1..];
    }
  }

  lemma {:induction false} FieldFiguresAreHeld(fields: seq<Field>, x: real, lex: Lexer)
    requires forall f | f in fields :: !Overflows(f.value)
    ensures x in FieldFigures(fields, lex) <==> exists f | f in fields :: Holds(f.value, x, lex)
    decreases fields
  {
    if fields != [] {
      FiguresAreHeld(fields[0].value, x, lex);
      FieldFiguresAreHeld(fields[1..], x, lex);
      assert fields == [fields[0]] + fields[1..];
    }
  }

  // ------------------------------------------------------------- grounding

  function Pow10(d: nat): (p: real)
    ensures p >= 1.0
  {
    if d == 0 then 1.0 else 10.0 * Pow10(d - 1)
  }

  lemma {:induction false} PowersOfTen(a: nat, b: nat)
    ensures Pow10(0) == 1.0 && Pow10(1) == 10.0 && Pow10(a + b) == Pow10(a) * Pow10(b)
  {
    if a > 0 {
      PowersOfTen(a - 1, b);
      assert 10.0 * (Pow10(a - 1) * Pow10(b)) == (10.0 * Pow10(a - 1)) * Pow10(b);
    }
  }

  /** Python's `round` to a whole number: halves go to the even neighbour. */
  function RoundHalfEven(x: real): int {
    var low := x.Floor;
    var rest := x - low as real;
    if rest < 0.5 || (rest == 0.5 && low % 2 == 0) then low else low + 1
  }

  /** The rounding is to the nearest whole number, and of two to the even one. */
  lemma RoundsToNearest(x: real, k: int)
    ensures RoundHalfEven(x) == k <==> -0.5 < x - k as real < 0.5 || (k % 2 == 0 && (x - k as real == 0.5 || x - k as real == -0.5))
  {
  }

  /** x rounded to the nearest multiple of 1/p. */
  function RoundAt(x: real, p: real): real
    requires p > 0.0
  {
    RoundHalfEven(x * p) as real / p
  }

  predicate GroundedBy(n: Numeral, f: real) {
    RoundAt(f, Pow10(n.decimals)) == n.value || -0.000000001 < f - n.value < 0.000000001
  }

  predicate Grounded(n: Numeral, fields: seq<real>) {
    exists f | f in fields :: GroundedBy(n, f)
  }

  /** Half a unit of the last place a numeral shows. */
  function HalfUnit(n: Numeral): real {
    0.5 / Pow10(n.decimals)
  }

  lemma RoundNearest(x: real, k: int)
    ensures RoundHalfEven(x) == k ==> -0.5 <= x - k as real <= 0.5
    ensures -0.5 < x - k as real < 0.5 ==> RoundHalfEven(x) == k
  {
  }

  lemma OrderScales(a: real, b: real, p: real)
    requires p > 0.0
    ensures a < b <==> a * p < b * p
  {
    if a < b {
      assert (b - a) * p > 0.0;
    } else {
      assert (a - b) * p >= 0.0;
    }
  }

  lemma Unscale(k: real, p: real)
    requires p > 0.0
    ensures k / p * p == k
  {
  }

  lemma SameQuotient(a: real, b: real, p: real)
    requires p > 0.0 && a / p == b / p
    ensures a == b
  {
    Unscale(a, p);
    Unscale(b, p);
  }

  lemma BetweenScales(d: real, h: real, p: real)
    requires p > 0.0
    ensures -h < d < h <==> -(h * p) < d * p < h * p
    ensures -h <= d <= h <==> -(h * p) <= d * p <= h * p
  {
    assert (-h) * p == -(h * p);
    OrderScales(d, h, p);
    OrderScales(h, d, p);
    OrderScales(-h, d, p);
    OrderScales(d, -h, p);
  }

  lemma Distance(f: real, q: real, p: real)
    ensures (f - q) * p == f * p - q * p
  {
  }

  /** A distance from q = k/p against h = 0.5/p, measured in units of 1/p. */
  lemma Scaled(f: real, k: real, p: real, q: real, h: real)
    requires p > 0.0 && q * p == k && h * p == 0.5
    ensures -h < f - q < h <==> -0.5 < f * p - k < 0.5
    ensures -h <= f - q <= h <==> -0.5 <= f * p - k <= 0.5
  {
    var d := f - q;
    Distance(f, q, p);
    assert d * p == f * p - k;
    BetweenScales(d, h, p);
  }

  lemma NearestAt(f: real, v: real, k: int, p: real)
    requires p > 0.0 && v == k as real / p
    ensures RoundAt(f, p) == v ==> -(0.5 / p) <= f - v <= 0.5 / p
    ensures -(0.5 / p) < f - v < 0.5 / p ==> RoundAt(f, p) == v
  {
    RoundedTo(f, k, p);
    Unscale(k as real, p);
    Unscale(0.5, p);
    Scaled(f, k as real, p, v, 0.5 / p);
  }

  /** A figure grounds a numeral only within half a unit of its last place, or
      within a billionth; and every figure closer than half a unit does. */
  lemma GroundingIsNearest(n: Numeral, f: real, k: int)
    requires n.value == k as real / Pow10(n.decimals)
    ensures GroundedBy(n, f) ==>
      -HalfUnit(n) <= f - n.value <= HalfUnit(n) || -0.000000001 < f - n.value < 0.000000001
    ensures -HalfUnit(n) < f - n.value < HalfUnit(n) ==> GroundedBy(n, f)
  {
    NearestAt(f, n.value, k, Pow10(n.decimals));
  }

  lemma RoundedTo(f: real, k: int, p: real)
    requires p > 0.0
    ensures
      var rounded := RoundHalfEven(f * p) as real / p;
      && (rounded == k as real / p ==> -0.5 <= f * p - k as real <= 0.5)
      && (-0.5 < f * p - k as real < 0.5 ==> rounded == k as real / p)
  {
    RoundNearest(f * p, k);
    if RoundHalfEven(f * p) as real / p == k as real / p {
      SameQuotient(RoundHalfEven(f * p) as real, k as real, p);
    }
  }

  // ---------------------------------------------------------- the problems

  const UNGROUNDING := {"headline", "next", "evidence", "caveats"}

  /** The fields whose figures may ground a number: none the model writes freely. */
  function Structured(fields: seq<Field>): seq<Field> {
    if fields == [] then []
    else (if fields[0].key in UNGROUNDING then [] else [fields[0]]) + Structured(fields[1..])
  }

  lemma {:induction false} StructuredFields(fields: seq<Field>, f: Field)
    ensures f in Structured(fields) <==> f in fields && f.key !in UNGROUNDING
  {
    if fields != [] {
      StructuredFields(fields[1..], f);
      assert fields == [fields[0]] + fields[1..];
    }
  }

  /** `text or ""`, as a text. */
  function AsText(v: Value): Py<string> {
    if !Truthy(v) then Ok("")
    else if v.Str? then Ok(v.s)
    else Raise(TypeError)
  }

  function UngroundedIn(name: string, numerals: seq<Numeral>, fields: seq<real>): seq<Problem> {
    if numerals == [] then []
    else (if Grounded(numerals[0], fields) then [] else [Ungrounded(name, numerals[0])])
         + UngroundedIn(name, numerals[1..], fields)
  }

  function MutatingIn(next: Value, lex: Lexer): Py<seq<Problem>> {
    if next.Null? then Ok([])
    else if !next.Str? then Raise(AttributeError)
    else Ok(if lex.words(next.s) !! MUTATING_WORDS then [] else [Mutating])
  }

  /** The reasons against posting an answer, or the exception that reading it raises. */
  function Problems(a: Value, lex: Lexer): Py<seq<Problem>> {
    var shape := ShapeProblems(a, SCHEMA, ["answer"], lex);
    if shape != [] then Ok(shape)
    else if !a.Dict? then Raise(TypeError)
    else
      var expected :- Derive(a);
      var verdict :- At(a, "verdict");
      var fields :- GroundingFigures(a.fields, lex);
      var headline :- At(a, "headline");
      var next :- At(a, "next");
      TextProblems(expected, verdict, headline, next, fields, lex)
  }

  /** What `_field_numbers` gathers of the structured fields. */
  function GroundingFigures(fields: seq<Field>, lex: Lexer): Py<seq<real>> {
    if exists f | f in Structured(fields) :: Overflows(f.value) then Raise(OverflowError)
    else Ok(FieldFigures(Structured(fields), lex))
  }

  function TextProblems(expected: Verdict, verdict: Value, headline: Value, next: Value, fields: seq<real>, lex: Lexer): Py<seq<Problem>> {
    var wrong := if verdict == Str(expected.Name()) then [] else [WrongVerdict(expected.Name())];
    var head :- AsText(headline);
    var after :- AsText(next);
    var mutating :- MutatingIn(next, lex);
    Ok(wrong + UngroundedIn("headline", lex.numerals(head), fields)
             + UngroundedIn("next", lex.numerals(after), fields) + mutating)
  }

  lemma {:induction false} AllGrounded(name: string, numerals: seq<Numeral>, fields: seq<real>)
    ensures UngroundedIn(name, numerals, fields) == [] <==> forall n | n in numerals :: Grounded(n, fields)
  {
    if numerals != [] {
      AllGrounded(name, numerals[1..], fields);
      assert numerals == [numerals[0]] + numerals[1..];
    }
  }

  /** The figure stands in one of the answer's structured fields. */
  ghost predicate Carries(a: Value, x: real, lex: Lexer)
    requires a.Dict?
  {
    exists f | f in a.fields :: MayGround(f.key) && Holds(f.value, x, lex)
  }

  /** The model writes four of the fields freely: those ground nothing. */
  ghost predicate MayGround(key: string) {
    key != "headline" && key != "next" && key != "evidence" && key != "caveats"
  }

  /** One of the answer's structured fields holds an integer `float` refuses. */
  ghost predicate CarriesTooBig(a: Value)
    requires a.Dict?
  {
    exists f, n | f in a.fields :: MayGround(f.key) && HoldsInt(f.value, n) && PastTheFloats(n)
  }

  /** The integer stands somewhere in the value, at any depth. */
  ghost predicate HoldsInt(v: Value, n: int)
    decreases v
  {
    match v
    case Int(m) => n == m
    case List(items) => exists item | item in items :: HoldsInt(item, n)
    case Dict(fields) => exists f | f in fields :: HoldsInt(f.value, n)
    case _ => false
  }

  /** The integer rounds to 2^1024 or beyond, which is past the largest double:
      doubles of that size are 2^971 apart. */
  ghost predicate PastTheFloats(n: int) {
    n + TwoTo(970) >= TwoTo(1024) || -n + TwoTo(970) >= TwoTo(1024)
  }

  lemma {:induction false} OverflowsIsHeld(v: Value)
    ensures Overflows(v) <==> exists n :: HoldsInt(v, n) && PastTheFloats(n)
    decreases v
  {
    match v
    case Int(n) => if !IsFloat(n) { assert HoldsInt(v, n) && PastTheFloats(n); }
    case List(items) =>
      forall item | item in items ensures Overflows(item) <==> exists n :: HoldsInt(item, n) && PastTheFloats(n) {
        OverflowsIsHeld(item);
      }
    case Dict(fields) =>
      forall f | f in fields ensures Overflows(f.value) <==> exists n :: HoldsInt(f.value, n) && PastTheFloats(n) {
        OverflowsIsHeld(f.value);
      }
    case _ =>
  }

  lemma TooBigIsOverflow(a: Value)
    requires a.Dict?
    ensures CarriesTooBig(a) <==> exists f | f in a.fields :: f.key !in UNGROUNDING && Overflows(f.value)
  {
    forall f | f in a.fields ensures Overflows(f.value) <==> exists n :: HoldsInt(f.value, n) && PastTheFloats(n) {
      OverflowsIsHeld(f.value);
    }
  }

  lemma RaisesIffTooBig(a: Value, lex: Lexer)
    requires a.Dict?
    ensures GroundingFigures(a.fields, lex)
         == if CarriesTooBig(a) then Raise(OverflowError) else Ok(FieldFigures(Structured(a.fields), lex))
  {
    TooBigIsOverflow(a);
    forall f {
      StructuredFields(a.fields, f);
    }
  }

  lemma StructuredFigures(a: Value, x: real, lex: Lexer)
    requires a.Dict? && !CarriesTooBig(a)
    ensures x in FieldFigures(Structured(a.fields), lex) <==> Carries(a, x, lex)
  {
    TooBigIsOverflow(a);
    forall f {
      StructuredFields(a.fields, f);
    }
    FieldFiguresAreHeld(Structured(a.fields), x, lex);
  }

  /** What a text says is backed: each number in it rounds from a figure some
      structured field carries. */
  ghost predicate Backed(text: string, a: Value, lex: Lexer)
    requires a.Dict?
  {
    forall n | n in lex.numerals(text) :: exists x | Carries(a, x, lex) :: GroundedBy(n, x)
  }

  lemma BackedIffGrounded(text: string, a: Value, lex: Lexer)
    requires a.Dict? && !CarriesTooBig(a)
    ensures Backed(text, a, lex) <==> forall n | n in lex.numerals(text) :: Grounded(n, FieldFigures(Structured(a.fields), lex))
  {
    var fields := FieldFigures(Structured(a.fields), lex);
    forall x {
      StructuredFigures(a, x, lex);
    }
    forall n | n in lex.numerals(text)
      ensures Grounded(n, fields) <==> exists x | Carries(a, x, lex) :: GroundedBy(n, x)
    {
    }
  }

  /** What may be posted. */
  ghost predicate Postable(a: Value, lex: Lexer) {
    && Conforms(a, SCHEMA, lex)
    && a.Dict? && !CarriesTooBig(a)
    && Derive(a).Ok?
    && Under(a, "verdict") == Str(Derive(a).value.Name())
    && Warrants(a, Derive(a).value)
    && Backed(Text(Under(a, "headline")), a, lex)
    && Backed(Text(Under(a, "next")), a, lex)
    && (Under(a, "next").Str? ==> ReadsOnly(lex.words(Under(a, "next").s)))
  }

  /** None of the nine words that ask for more than reading. */
  ghost predicate ReadsOnly(words: set<string>) {
    forall word | word in words ::
      && word != "create" && word != "run" && word != "apply" && word != "delete" && word != "cancel"
      && word != "start" && word != "stop" && word != "approve" && word != "inject"
  }

  lemma ReadsOnlyIs(words: set<string>)
    ensures ReadsOnly(words) <==> words !! MUTATING_WORDS
  {
  }

  lemma TextFields(a: Value, lex: Lexer)
    requires Conforms(a, SCHEMA, lex)
    ensures a.Dict?
    ensures At(a, "verdict") == Ok(Under(a, "verdict"))
    ensures At(a, "headline") == Ok(Under(a, "headline")) && Under(a, "headline").Str?
    ensures At(a, "next") == Ok(Under(a, "next")) && (Under(a, "next").Str? || Under(a, "next").Null?)
  {
    TypeOf(a, TObject, lex, SCHEMA);
    VerdictField(a, lex);
    HeadlineField(a, lex);
    NextField(a, lex);
  }

  /** The answer passes the schema, and checking it further raises. */
  ghost predicate Raises(a: Value, lex: Lexer) {
    Conforms(a, SCHEMA, lex) && a.Dict? && CarriesTooBig(a)
  }

  /** Checking an answer raises exactly when it passes the schema and one of its
      structured fields holds an integer too big for a float; the exception is
      then OverflowError. Otherwise the check finds nothing exactly when the
      answer may be posted. */
  lemma ProblemsRaiseOnOverflow(a: Value, lex: Lexer)
    ensures Problems(a, lex) == Raise(OverflowError) <==> Raises(a, lex)
    ensures Problems(a, lex).Raise? ==> Problems(a, lex).error == OverflowError
    ensures Problems(a, lex) == Ok([]) <==> Postable(a, lex)
  {
    SilentIffConforms(a, SCHEMA, ["answer"], lex);
    if Conforms(a, SCHEMA, lex) {
      TextFields(a, lex);
      DeriveIsTotal(a, lex);
      RaisesIffTooBig(a, lex);
      if !CarriesTooBig(a) {
        TextProblemsAreTotal(a, Derive(a).value, Under(a, "verdict"), Under(a, "headline"), Under(a, "next"), lex);
      }
    }
  }

  lemma TextProblemsAreTotal(a: Value, expected: Verdict, verdict: Value, headline: Value, next: Value, lex: Lexer)
    requires a.Dict? && !CarriesTooBig(a) && headline.Str? && (next.Str? || next.Null?)
    ensures
      var r := TextProblems(expected, verdict, headline, next, FieldFigures(Structured(a.fields), lex), lex);
      r.Ok? &&
      (r.value == [] <==>
        && verdict == Str(expected.Name())
        && Backed(Text(headline), a, lex)
        && Backed(Text(next), a, lex)
        && (next.Str? ==> ReadsOnly(lex.words(next.s))))
  {
    if next.Str? { ReadsOnlyIs(lex.words(next.s)); }
    var fields := FieldFigures(Structured(a.fields), lex);
    AllGrounded("headline", lex.numerals(Text(headline)), fields);
    AllGrounded("next", lex.numerals(Text(next)), fields);
    BackedIffGrounded(Text(headline), a, lex);
    BackedIffGrounded(Text(next), a, lex);
  }

  /** What each problem of an answer of the right shape says. */
  ghost predicate IsSo(p: Problem, a: Value, expected: Verdict, lex: Lexer)
    requires a.Dict?
  {
    match p
    case WrongVerdict(name) => name == expected.Name() && Under(a, "verdict") != Str(name)
    case Ungrounded(name, n) =>
      && ((name == "headline" && n in lex.numerals(Text(Under(a, "headline"))))
          || (name == "next" && n in lex.numerals(Text(Under(a, "next")))))
      && !exists x | Carries(a, x, lex) :: GroundedBy(n, x)
    case Mutating => Under(a, "next").Str? && !ReadsOnly(lex.words(Under(a, "next").s))
    case _ => false
  }

  lemma {:induction false} UngroundedAre(name: string, numerals: seq<Numeral>, fields: seq<real>, p: Problem)
    ensures p in UngroundedIn(name, numerals, fields) <==> p.Ungrounded? && p.name == name && p.shown in numerals && !Grounded(p.shown, fields)
  {
    if numerals != [] {
      UngroundedAre(name, numerals[1..], fields, p);
      assert numerals == [numerals[0]] + numerals[1..];
    }
  }

  lemma NotCarried(a: Value, n: Numeral, lex: Lexer)
    requires a.Dict? && !CarriesTooBig(a)
    ensures Grounded(n, FieldFigures(Structured(a.fields), lex)) <==> exists x | Carries(a, x, lex) :: GroundedBy(n, x)
  {
    forall x { StructuredFigures(a, x, lex); }
  }

  /** Past the shape, the problems named are exactly the ones there are. */
  lemma ProblemsAreSo(a: Value, lex: Lexer, p: Problem)
    requires Conforms(a, SCHEMA, lex) && a.Dict? && !CarriesTooBig(a)
    ensures Derive(a).Ok? && Problems(a, lex).Ok?
    ensures p in Problems(a, lex).value <==> IsSo(p, a, Derive(a).value, lex)
  {
    SilentIffConforms(a, SCHEMA, ["answer"], lex);
    TextFields(a, lex);
    DeriveIsTotal(a, lex);
    RaisesIffTooBig(a, lex);
    TextProblemsAreSo(a, Derive(a).value, Under(a, "verdict"), Under(a, "headline"), Under(a, "next"), lex, p);
  }

  lemma TextProblemsAreSo(a: Value, expected: Verdict, verdict: Value, headline: Value, next: Value, lex: Lexer, p: Problem)
    requires a.Dict? && !CarriesTooBig(a) && headline.Str? && (next.Str? || next.Null?)
    requires verdict == Under(a, "verdict") && headline == Under(a, "headline") && next == Under(a, "next")
    ensures
      var r := TextProblems(expected, verdict, headline, next, FieldFigures(Structured(a.fields), lex), lex);
      r.Ok? && (p in r.value <==> IsSo(p, a, expected, lex))
  {
    var fields := FieldFigures(Structured(a.fields), lex);
    var head, after := UngroundedIn("headline", lex.numerals(Text(headline)), fields), UngroundedIn("next", lex.numerals(Text(next)), fields);
    PartsOfText(expected, verdict, headline, next, fields, lex, p, head, after);
    UngroundedAre("headline", lex.numerals(Text(headline)), fields, p);
    UngroundedAre("next", lex.numerals(Text(next)), fields, p);
    match p
    case Ungrounded(_, n) => NotCarried(a, n, lex);
    case _ =>
  }

  lemma PartsOfText(expected: Verdict, verdict: Value, headline: Value, next: Value, fields: seq<real>, lex: Lexer, p: Problem,
                    head: seq<Problem>, after: seq<Problem>)
    requires headline.Str? && (next.Str? || next.Null?)
    requires head == UngroundedIn("headline", lex.numerals(Text(headline)), fields)
    requires after == UngroundedIn("next", lex.numerals(Text(next)), fields)
    ensures
      var r := TextProblems(expected, verdict, headline, next, fields, lex);
      && r.Ok?
      && (p in r.value <==>
            || (verdict != Str(expected.Name()) && p == WrongVerdict(expected.Name()))
            || p in head || p in after
            || (next.Str? && !ReadsOnly(lex.words(next.s)) && p == Mutating))
  {
    if next.Str? { ReadsOnlyIs(lex.words(next.s)); }
  }

  // -------------------------------------------------- ask, check, one retry

  /** What one model session gives: a structured answer, none, or an exception. */
  datatype Reply = Answer(a: Value) | NoAnswer | Raised

  datatype Analysis = Accepted(answer: Value, asks: nat) | Refused(asks: nat)

  function AnswerProblems(runId: string, a: Value, lex: Lexer): Py<seq<Problem>> {
    var out :- Problems(a, lex);
    Ok(if a.Dict? && Get(a.fields, "runId") != Some(Str(runId)) then out + [OtherRun] else out)
  }

  /** One analysis. `first` answers the first prompt, `second` the retry; an
      exception anywhere ends it without an answer, as the worker sees it. */
  function Analyze(runId: string, first: Reply, second: Reply, lex: Lexer): Analysis {
    if !first.Answer? then Refused(1)
    else
      match AnswerProblems(runId, first.a, lex)
      case Raise(_) => Refused(1)
      case Ok(problems) =>
        if problems == [] then Accepted(first.a, 1)
        else if !second.Answer? then Refused(2)
        else
          match AnswerProblems(runId, second.a, lex)
          case Raise(_) => Refused(2)
          case Ok(again) => if again == [] then Accepted(second.a, 2) else Refused(2)
  }

  /** The answer is about this run and may be posted. */
  ghost predicate Good(runId: string, reply: Reply, lex: Lexer) {
    reply.Answer? && Postable(reply.a, lex) && Under(reply.a, "runId") == Str(runId)
  }

  lemma GoodIffNoProblems(runId: string, a: Value, lex: Lexer)
    ensures AnswerProblems(runId, a, lex).Raise? <==> Raises(a, lex)
    ensures AnswerProblems(runId, a, lex) == Ok([]) <==> Good(runId, Answer(a), lex)
  {
    ProblemsRaiseOnOverflow(a, lex);
  }

  /** Refused for reasons the retry is told: neither good nor ended by an exception. */
  ghost predicate SentBack(runId: string, reply: Reply, lex: Lexer) {
    reply.Answer? && !Raises(reply.a, lex) && !Good(runId, reply, lex)
  }

  /** An analysis asks at most twice, asks again only when the first answer was
      sent back, and accepts exactly a good first answer or, after one sent
      back, a good second. */
  lemma AnalysisAccepts(runId: string, first: Reply, second: Reply, lex: Lexer)
    ensures
      var r := Analyze(runId, first, second, lex);
      && r.asks == (if SentBack(runId, first, lex) then 2 else 1)
      && (r.Accepted? <==> Good(runId, first, lex) || (SentBack(runId, first, lex) && Good(runId, second, lex)))
      && (r.Accepted? ==> Good(runId, Answer(r.answer), lex) && r.answer == if Good(runId, first, lex) then first.a else second.a)
  {
    if first.Answer? { GoodIffNoProblems(runId, first.a, lex); }
    if second.Answer? { GoodIffNoProblems(runId, second.a, lex); }
  }
}
