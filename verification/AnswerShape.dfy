/** agents/run-analyst/verdict.py, `_shape_problems` and `SCHEMA`: the shape an
    answer must have. */
module AnswerShape {
  import opened Values
  import opened Lists

  // ----------------------------------------------------------- the shapes

  datatype TypeName = TObject | TArray | TString | TInteger | TNumber | TBoolean | TNull

  datatype Items = AnyItems | Items(shape: Shape)

  /** A JSON Schema of the subset the checker reads. Every object schema is
      closed: a key it does not list is refused. */
  datatype Shape = Shape(
    types: seq<TypeName>,
    enum: Option<seq<string>>,
    pattern: Option<string>,
    required: seq<string>,
    props: map<string, Shape>,
    items: Items)

  /** The text tools a check calls, left to the caller: `re.match`, the
      number regex, and the lower-case words of a text. */
  datatype Lexer = Lexer(
    matches: (string, string) -> bool,
    numerals: string -> seq<Numeral>,
    words: string -> set<string>)

  /** A number as a text shows it: its value and how many decimals it shows. */
  datatype Numeral = Numeral(value: real, decimals: nat)

  type Path = seq<string>

  datatype Problem =
    | MustBe(at: Path)
    | MustBeOneOf(at: Path)
    | MustMatch(at: Path)
    | IsMissing(at: Path, key: string)
    | NotAField(at: Path, key: string)
    | WrongVerdict(expected: string)
    | Ungrounded(name: string, shown: Numeral)
    | Mutating
    | OtherRun

  predicate HasType(v: Value, t: TypeName) {
    match t
    case TObject => v.Dict?
    case TArray => v.List?
    case TString => v.Str?
    case TInteger => v.Int?
    case TNumber => v.Int? || v.Float?
    case TBoolean => v.Bool?
    case TNull => v.Null?
  }

  function ShapeProblems(a: Value, s: Shape, at: Path, lex: Lexer): seq<Problem>
    decreases a
  {
    if !exists t | t in s.types :: HasType(a, t) then [MustBe(at)]
    else if s.enum.Some? && !(a.Str? && a.s in s.enum.value) then [MustBeOneOf(at)]
    else if s.pattern.Some? && a.Str? && !lex.matches(s.pattern.value, a.s) then [MustMatch(at)]
    else if a.Dict? then MissingKeys(s.required, a.fields, at) + FieldProblems(a.fields, s, at, lex)
    else if a.List? && s.items.Items? then ItemProblems(a.items, s.items.shape, at, lex)
    else []
  }

  function MissingKeys(required: seq<string>, fields: seq<Field>, at: Path): seq<Problem> {
    if required == [] then []
    else (if HasKey(fields, required[0]) then [] else [IsMissing(at, required[0])]) + MissingKeys(required[1..], fields, at)
  }

  function FieldProblem(f: Field, s: Shape, at: Path, lex: Lexer): seq<Problem>
    decreases f
  {
    if f.key !in s.props then [NotAField(at, f.key)]
    else ShapeProblems(f.value, s.props[f.key], at + [f.key], lex)
  }

  function FieldProblems(fields: seq<Field>, s: Shape, at: Path, lex: Lexer): seq<Problem>
    decreases fields
  {
    if fields == [] then [] else FieldProblem(fields[0], s, at, lex) + FieldProblems(fields[1..], s, at, lex)
  }

  function ItemProblems(items: seq<Value>, s: Shape, at: Path, lex: Lexer): seq<Problem>
    decreases items
  {
    if items == [] then [] else ShapeProblems(items[0], s, at + ["[]"], lex) + ItemProblems(items[1..], s, at, lex)
  }

  /** The loops of the checker, in its own form: each appends to one list. */
  method CheckShape(a: Value, s: Shape, at: Path, lex: Lexer) returns (out: seq<Problem>)
    ensures out == ShapeProblems(a, s, at, lex)
    decreases a
  {
    if !exists t | t in s.types :: HasType(a, t) {
      return [MustBe(at)];
    }
    if s.enum.Some? && !(a.Str? && a.s in s.enum.value) {
      return [MustBeOneOf(at)];
    }
    if s.pattern.Some? && a.Str? && !lex.matches(s.pattern.value, a.s) {
      return [MustMatch(at)];
    }
    out := [];
    if a.Dict? {
      var missing := CheckKeys(s.required, a.fields, at);
      var sub := CheckFields(a.fields, s, at, lex);
      out := missing + sub;
    } else if a.List? && s.items.Items? {
      out := CheckItems(a.items, s.items.shape, at, lex);
    }
  }

  method CheckFields(fields: seq<Field>, s: Shape, at: Path, lex: Lexer) returns (out: seq<Problem>)
    ensures out == FieldProblems(fields, s, at, lex)
    decreases fields
  {
    out := [];
    var i := 0;
    while i < |fields|
      invariant 0 <= i <= |fields|
      invariant out + FieldProblems(fields[i..], s, at, lex) == FieldProblems(fields, s, at, lex)
    {
      var f := fields[i];
      assert fields[i..][0] == f && fields[i..][1..] == fields[i + 1..];
      Regroup(out, FieldProblem(f, s, at, lex), FieldProblems(fields[i + 1..], s, at, lex));
      if f.key !in s.props {
        out := out + [NotAField(at, f.key)];
      } else {
        var sub := CheckShape(f.value, s.props[f.key], at + [f.key], lex);
        out := out + sub;
      }
      i := i + 1;
    }
    assert fields[i..] == [];
  }

  method CheckItems(items: seq<Value>, s: Shape, at: Path, lex: Lexer) returns (out: seq<Problem>)
    ensures out == ItemProblems(items, s, at, lex)
    decreases items
  {
    out := [];
    var i := 0;
    while i < |items|
      invariant 0 <= i <= |items|
      invariant out + ItemProblems(items[i..], s, at, lex) == ItemProblems(items, s, at, lex)
    {
      assert items[i..][0] == items[i] && items[i..][1..] == items[i + 1..];
      var sub := CheckShape(items[i], s, at + ["[]"], lex);
      out := out + sub;
      i := i + 1;
    }
    assert items[i..] == [];
  }

  method CheckKeys(required: seq<string>, fields: seq<Field>, at: Path) returns (out: seq<Problem>)
    ensures out == MissingKeys(required, fields, at)
  {
    out := [];
    var i := 0;
    while i < |required|
      invariant 0 <= i <= |required|
      invariant out + MissingKeys(required[i..], fields, at) == MissingKeys(required, fields, at)
    {
      assert required[i..][0] == required[i] && required[i..][1..] == required[i + 1..];
      if !HasKey(fields, required[i]) {
        out := out + [IsMissing(at, required[i])];
      }
      i := i + 1;
    }
    assert required[i..] == [];
  }

  /** The keywords of JSON Schema Validation 2020-12, one by one: `type`
      (section 6.1.1), `enum` (6.1.2), `pattern` (6.3.3), `required` (6.5.3),
      with every object closed and `items` for each element. */
  ghost predicate Conforms(a: Value, s: Shape, lex: Lexer)
    decreases a
  {
    && (exists t | t in s.types :: IsOfType(a, t))
    && (s.enum.Some? ==> exists e | e in s.enum.value :: a == Str(e))
    && (s.pattern.Some? ==> a.Str? ==> lex.matches(s.pattern.value, a.s))
    && (a.Dict? ==>
          && (forall k | k in s.required :: HasKey(a.fields, k))
          && (forall f | f in a.fields :: f.key in s.props && Conforms(f.value, s.props[f.key], lex)))
    && (a.List? && s.items.Items? ==> forall item | item in a.items :: Conforms(item, s.items.shape, lex))
  }

  /** What each type name admits: a boolean is no number, though Python's
      booleans are integers. */
  ghost predicate IsOfType(v: Value, t: TypeName) {
    match v
    case Null => t == TNull
    case Bool(_) => t == TBoolean
    case Int(_) => t == TInteger || t == TNumber
    case Float(_) => t == TNumber
    case Str(_) => t == TString
    case List(_) => t == TArray
    case Dict(_) => t == TObject
  }

  lemma TypesAreSpelled(v: Value, types: seq<TypeName>)
    ensures (exists t | t in types :: HasType(v, t)) <==> exists t | t in types :: IsOfType(v, t)
  {
    forall t ensures HasType(v, t) <==> IsOfType(v, t) {
      match v case _ =>
    }
  }

  /** The checker is silent exactly when the answer conforms, for every schema
      of the subset. */
  lemma {:induction false} SilentIffConforms(a: Value, s: Shape, at: Path, lex: Lexer)
    ensures ShapeProblems(a, s, at, lex) == [] <==> Conforms(a, s, lex)
    decreases a
  {
    TypesAreSpelled(a, s.types);
    if a.Dict? {
      SilentKeys(s.required, a.fields, at);
      SilentFields(a.fields, s, at, lex);
    } else if a.List? && s.items.Items? {
      SilentItems(a.items, s.items.shape, at, lex);
    }
  }

  lemma {:induction false} SilentKeys(required: seq<string>, fields: seq<Field>, at: Path)
    ensures MissingKeys(required, fields, at) == [] <==> forall k | k in required :: HasKey(fields, k)
  {
    if required != [] {
      SilentKeys(required[1..], fields, at);
      assert required == [required[0]] + required[1..];
    }
  }

  lemma {:induction false} SilentFields(fields: seq<Field>, s: Shape, at: Path, lex: Lexer)
    ensures FieldProblems(fields, s, at, lex) == []
       <==> forall f | f in fields :: f.key in s.props && Conforms(f.value, s.props[f.key], lex)
    decreases fields
  {
    if fields != [] {
      if fields[0].key in s.props { SilentIffConforms(fields[0].value, s.props[fields[0].key], at + [fields[0].key], lex); }
      SilentFields(fields[1..], s, at, lex);
      assert fields == [fields[0]] + fields[1..];
    }
  }

  lemma {:induction false} SilentItems(items: seq<Value>, s: Shape, at: Path, lex: Lexer)
    ensures ItemProblems(items, s, at, lex) == [] <==> forall item | item in items :: Conforms(item, s, lex)
    decreases items
  {
    if items != [] {
      SilentIffConforms(items[0], s, at + ["[]"], lex);
      SilentItems(items[1..], s, at, lex);
      assert items == [items[0]] + items[1..];
    }
  }

  // ------------------------------------------------ what each problem means

  /** The value passed the tests that end its check early. */
  ghost predicate LooksFurther(a: Value, s: Shape, lex: Lexer) {
    && (exists t | t in s.types :: IsOfType(a, t))
    && (s.enum.Some? ==> exists e | e in s.enum.value :: a == Str(e))
    && (s.pattern.Some? && a.Str? ==> lex.matches(s.pattern.value, a.s))
  }

  /** What is wrong with the value itself, named with its own path. */
  ghost predicate FaultHere(p: Problem, a: Value, s: Shape, at: Path, lex: Lexer) {
    match p
    case MustBe(place) => place == at && !exists t | t in s.types :: IsOfType(a, t)
    case MustBeOneOf(place) =>
      && place == at && (exists t | t in s.types :: IsOfType(a, t))
      && s.enum.Some? && !exists e | e in s.enum.value :: a == Str(e)
    case MustMatch(place) =>
      && place == at && (exists t | t in s.types :: IsOfType(a, t)) && (s.enum.Some? ==> exists e | e in s.enum.value :: a == Str(e))
      && s.pattern.Some? && a.Str? && !lex.matches(s.pattern.value, a.s)
    case IsMissing(place, key) =>
      place == at && LooksFurther(a, s, lex) && a.Dict? && key in s.required && !exists f :: f in a.fields && f.key == key
    case NotAField(place, key) =>
      place == at && LooksFurther(a, s, lex) && a.Dict? && key !in s.props && exists f :: f in a.fields && f.key == key
    case _ => false
  }

  /** What is wrong with the value or with a part of it. */
  ghost predicate Fault(p: Problem, a: Value, s: Shape, at: Path, lex: Lexer)
    decreases a
  {
    || FaultHere(p, a, s, at, lex)
    || (LooksFurther(a, s, lex) && a.Dict?
        && exists f :: f in a.fields && f.key in s.props && Fault(p, f.value, s.props[f.key], at + [f.key], lex))
    || (LooksFurther(a, s, lex) && a.List? && s.items.Items?
        && exists item :: item in a.items && Fault(p, item, s.items.shape, at + ["[]"], lex))
  }

  /** The checker names exactly the faults there are. */
  lemma {:induction false} ProblemsAreFaults(p: Problem, a: Value, s: Shape, at: Path, lex: Lexer)
    ensures p in ShapeProblems(a, s, at, lex) <==> Fault(p, a, s, at, lex)
    decreases a
  {
    TypesAreSpelled(a, s.types);
    if a.Dict? {
      KeysAreFaults(p, s.required, a.fields, at);
      FieldsAreFaults(p, a.fields, s, at, lex);
    } else if a.List? && s.items.Items? {
      ItemsAreFaults(p, a.items, s.items.shape, at, lex);
    }
  }

  lemma {:induction false} KeysAreFaults(p: Problem, required: seq<string>, fields: seq<Field>, at: Path)
    ensures p in MissingKeys(required, fields, at) <==>
      p.IsMissing? && p.at == at && p.key in required && !exists f :: f in fields && f.key == p.key
  {
    if required != [] {
      KeysAreFaults(p, required[1..], fields, at);
      assert required == [required[0]] + required[1..];
    }
  }

  lemma {:induction false} FieldsAreFaults(p: Problem, fields: seq<Field>, s: Shape, at: Path, lex: Lexer)
    ensures p in FieldProblems(fields, s, at, lex) <==>
      || (p.NotAField? && p.at == at && p.key !in s.props && exists f :: f in fields && f.key == p.key)
      || exists f :: f in fields && f.key in s.props && Fault(p, f.value, s.props[f.key], at + [f.key], lex)
    decreases fields
  {
    if fields != [] {
      var f := fields[0];
      if f.key in s.props { ProblemsAreFaults(p, f.value, s.props[f.key], at + [f.key], lex); }
      FieldsAreFaults(p, fields[1..], s, at, lex);
      assert fields == [f] + fields[1..];
    }
  }

  lemma {:induction false} ItemsAreFaults(p: Problem, items: seq<Value>, s: Shape, at: Path, lex: Lexer)
    ensures p in ItemProblems(items, s, at, lex) <==> exists item :: item in items && Fault(p, item, s, at + ["[]"], lex)
    decreases items
  {
    if items != [] {
      ProblemsAreFaults(p, items[0], s, at + ["[]"], lex);
      ItemsAreFaults(p, items[1..], s, at, lex);
      assert items == [items[0]] + items[1..];
    }
  }

  // ----------------------------------------------------- the answer's shape

  function Simple(types: seq<TypeName>): Shape {
    Shape(types, None, None, [], map[], AnyItems)
  }

  function OneOf(names: seq<string>): Shape {
    Simple([TString]).(enum := Some(names))
  }

  function Object(types: seq<TypeName>, required: seq<string>, props: map<string, Shape>): Shape {
    Shape(types, None, None, required, props, AnyItems)
  }

  function ArrayOf(item: Shape): Shape {
    Simple([TArray]).(items := Items(item))
  }

  const VERDICTS := ["INVALID_RUN", "CONTAMINATED", "NOT_COMPARABLE", "REGRESSED", "IMPROVED", "NORMAL"]
  const POSITIONS := ["below", "within", "above"]
  const KINDS := ["latency", "throughput", "other"]
  const CAVEAT_ID := "^[a-z0-9]+(-[a-z0-9]+)*$"
  const MUTATING_WORDS := {"create", "run", "apply", "delete", "cancel", "start", "stop", "approve", "inject"}

  const BASELINE := Object([TObject, TNull], ["runId", "sameSpec", "regressionFlagged"], map[
    "runId" := Simple([TString, TNull]),
    "sameSpec" := Simple([TBoolean]),
    "regressionFlagged" := Simple([TBoolean])])

  const METRIC := Object([TObject], ["name", "kind", "value", "min", "max", "position"], map[
    "name" := Simple([TString]),
    "kind" := OneOf(KINDS),
    "value" := Simple([TNumber]),
    "min" := Simple([TNumber]),
    "max" := Simple([TNumber]),
    "position" := OneOf(POSITIONS)])

  const BAND := Object([TObject], ["runs", "metrics"], map[
    "runs" := Simple([TInteger]),
    "metrics" := ArrayOf(METRIC)])

  const OVERLAP := Object([TObject], ["kind", "id"], map[
    "kind" := OneOf(["run", "disruption"]),
    "id" := Simple([TString])])

  const EVIDENCE := Object([TObject], ["claim", "tool", "field"], map[
    "claim" := Simple([TString]),
    "tool" := Simple([TString]),
    "field" := Simple([TString])])

  const SCHEMA := Object([TObject],
    ["runId", "testType", "status", "verdict", "headline", "taskErrors", "recordsLost",
     "baseline", "band", "overlaps", "brokerSkew", "caveats", "evidence", "next"],
    map[
      "runId" := Simple([TString]),
      "testType" := Simple([TString]),
      "status" := OneOf(["DONE", "FAILED"]),
      "verdict" := OneOf(VERDICTS),
      "headline" := Simple([TString]),
      "taskErrors" := ArrayOf(Simple([TString])),
      "recordsLost" := Simple([TInteger, TNull]),
      "baseline" := BASELINE,
      "band" := BAND,
      "overlaps" := ArrayOf(OVERLAP),
      "brokerSkew" := Simple([TString, TNull]),
      "caveats" := ArrayOf(Simple([TString]).(pattern := Some(CAVEAT_ID))),
      "evidence" := ArrayOf(EVIDENCE),
      "next" := Simple([TString, TNull])])
}
