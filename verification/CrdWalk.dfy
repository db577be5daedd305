/** scripts/check-strimzi-crs.py: a custom resource walked against the schema
    of its CRD, beside what the API server keeps of it. */
module CrdWalk {
  import opened Lists
  import opened Values

  // ---------------------------------------------------------------- schemas

  /** `additionalProperties`: absent, a boolean, or a schema. */
  datatype Extra = NoExtra | ExtraBool(allowed: bool) | ExtraSchema(schema: Schema)

  datatype Props = NoProps | Props(byName: map<string, Schema>)

  /** The keywords `walk` reads. `Empty` is a schema Python calls false: absent
      or without any keyword. */
  datatype Schema =
    | Empty
    | Schema(
        nullable: bool,
        intOrString: bool,
        kind: Option<string>,
        enum: Option<seq<Value>>,
        pattern: Option<string>,
        preserve: bool,
        props: Props,
        extra: Extra,
        required: seq<string>,
        items: Schema)

  datatype PathStep = Key(name: string) | Index(i: nat)
  type Path = seq<PathStep>

  datatype Finding =
    | NullValue(path: Path)
    | WrongType(path: Path, expected: string)
    | NotInEnum(path: Path)
    | NoMatch(path: Path)
    | MissingRequired(path: Path, key: string)
    | UnknownField(path: Path, key: string)

  /** `re.search(pattern, text)`: the regular-expression engine is a parameter. */
  type Search = (string, string) -> bool

  predicate TypeOk(kind: string, v: Value) {
    match kind
    case "string" => v.Str?
    case "integer" => v.Int?
    case "number" => v.Int? || v.Float?
    case "boolean" => v.Bool?
    case "object" => v.Dict?
    case "array" => v.List?
    case _ => true
  }

  /** Where the walk takes the value under `key` of a mapping. */
  datatype Route = Into(schema: Schema) | Free | Unknown

  function RouteOf(s: Schema, key: string): Route
    requires s.Schema?
  {
    if s.props.Props? && key in s.props.byName then Into(s.props.byName[key])
    else if s.extra.ExtraSchema? then Into(s.extra.schema)
    else if s.props.Props? && s.extra != ExtraBool(true) then Unknown
    else Free
  }

  /** The walk looks inside the value: nothing before the enum test ended it. */
  predicate Descends(v: Value, s: Schema) {
    s.Schema? && !v.Null? && !s.intOrString && (s.kind.Some? ==> TypeOk(s.kind.value, v))
  }

  predicate InEnum(v: Value, enum: seq<Value>) {
    exists e | e in enum :: PyEq(v, e)
  }

  // --------------------------------------------- the findings of one walk

  function Findings(v: Value, s: Schema, path: Path, search: Search): seq<Finding>
    decreases v
  {
    if s.Empty? then []
    else if v.Null? then (if s.nullable then [] else [NullValue(path)])
    else if s.intOrString then (if v.Int? || v.Str? then [] else [WrongType(path, "int-or-string")])
    else if !Descends(v, s) then [WrongType(path, s.kind.value)]
    else
      OwnFindings(v, s, path, search) +
      match v
      case Dict(fields) =>
        if s.preserve then [] else Missing(s.required, fields, path) + FieldFindings(fields, s, path, search)
      case List(items) => ItemFindings(items, 0, s.items, path, search)
      case _ => []
  }

  function OwnFindings(v: Value, s: Schema, path: Path, search: Search): seq<Finding>
    requires s.Schema?
  {
    EnumFindings(v, s, path) + PatternFindings(v, s, path, search)
  }

  function EnumFindings(v: Value, s: Schema, path: Path): seq<Finding>
    requires s.Schema?
  {
    if s.enum.Some? && !InEnum(v, s.enum.value) then [NotInEnum(path)] else []
  }

  function PatternFindings(v: Value, s: Schema, path: Path, search: Search): seq<Finding>
    requires s.Schema?
  {
    if v.Str? && s.pattern.Some? && s.pattern.value != "" && !search(s.pattern.value, v.s) then [NoMatch(path)] else []
  }

  function Missing(required: seq<string>, fields: seq<Field>, path: Path): seq<Finding> {
    if required == [] then []
    else (if HasKey(fields, required[0]) then [] else [MissingRequired(path, required[0])])
         + Missing(required[1..], fields, path)
  }

  function FieldFinding(f: Field, s: Schema, path: Path, search: Search): seq<Finding>
    requires s.Schema?
    decreases f
  {
    match RouteOf(s, f.key)
    case Into(sub) => Findings(f.value, sub, path + [Key(f.key)], search)
    case Unknown => [UnknownField(path, f.key)]
    case Free => []
  }

  function FieldFindings(fields: seq<Field>, s: Schema, path: Path, search: Search): seq<Finding>
    requires s.Schema?
    decreases fields
  {
    if fields == [] then []
    else FieldFinding(fields[0], s, path, search) + FieldFindings(fields[1..], s, path, search)
  }

  function ItemFindings(items: seq<Value>, from: nat, s: Schema, path: Path, search: Search): seq<Finding>
    decreases items
  {
    if items == [] then []
    else Findings(items[0], s, path + [Index(from)], search) + ItemFindings(items[1..], from + 1, s, path, search)
  }

  // ------------------------------------------------------- what is kept

  /** What a structural schema keeps of a value: exactly the fields it does not
      know are dropped, at every depth the schema describes. */
  function Prune(v: Value, s: Schema): Value
    decreases v
  {
    if !Descends(v, s) then v
    else
      match v
      case Dict(fields) => if s.preserve then v else Dict(PruneFields(fields, s))
      case List(items) => List(PruneItems(items, s.items))
      case _ => v
  }

  function PruneField(f: Field, s: Schema): seq<Field>
    requires s.Schema?
    decreases f
  {
    match RouteOf(s, f.key)
    case Into(sub) => [Field(f.key, Prune(f.value, sub))]
    case Unknown => []
    case Free => [f]
  }

  function PruneFields(fields: seq<Field>, s: Schema): seq<Field>
    requires s.Schema?
    decreases fields
  {
    if fields == [] then [] else PruneField(fields[0], s) + PruneFields(fields[1..], s)
  }

  function PruneItems(items: seq<Value>, s: Schema): seq<Value>
    decreases items
  {
    if items == [] then [] else [Prune(items[0], s)] + PruneItems(items[1..], s)
  }

  // ------------------------------------------------------ the walk itself

  /** The list of findings one walk appends to. */
  class Report {
    var errors: seq<Finding>

    constructor ()
      ensures errors == []
    {
      errors := [];
    }
  }

  method Walk(v: Value, s: Schema, path: Path, search: Search, report: Report)
    modifies report
    ensures report.errors == old(report.errors) + Findings(v, s, path, search)
    decreases v, 1
  {
    if s.Empty? {
      return;
    }
    if v.Null? {
      if !s.nullable {
        report.errors := report.errors + [NullValue(path)];
      }
      return;
    }
    if s.intOrString {
      if !(v.Int? || v.Str?) {
        report.errors := report.errors + [WrongType(path, "int-or-string")];
      }
      return;
    }
    if s.kind.Some? && !TypeOk(s.kind.value, v) {
      report.errors := report.errors + [WrongType(path, s.kind.value)];
      return;
    }
    ghost var before := report.errors;
    CheckOwn(v, s, path, search, report);
    WalkInside(v, s, path, search, report);
    Regroup(before, OwnFindings(v, s, path, search), InsideFindings(v, s, path, search));
  }

  /** What is found below a node the walk looks inside. */
  function InsideFindings(v: Value, s: Schema, path: Path, search: Search): seq<Finding>
    requires Descends(v, s)
  {
    match v
    case Dict(fields) =>
      if s.preserve then [] else Missing(s.required, fields, path) + FieldFindings(fields, s, path, search)
    case List(items) => ItemFindings(items, 0, s.items, path, search)
    case _ => []
  }

  method WalkInside(v: Value, s: Schema, path: Path, search: Search, report: Report)
    requires Descends(v, s)
    modifies report
    ensures report.errors == old(report.errors) + InsideFindings(v, s, path, search)
    decreases v, 0
  {
    if v.Dict? {
      if s.preserve {
        return;
      }
      ghost var before := report.errors;
      CheckRequired(v.fields, s, path, report);
      WalkFields(v.fields, s, path, search, report);
      Regroup(before, Missing(s.required, v.fields, path), FieldFindings(v.fields, s, path, search));
    } else if v.List? {
      WalkItems(v.items, s.items, path, search, report);
    }
  }

  /** The enum and the pattern of one node. */
  method CheckOwn(v: Value, s: Schema, path: Path, search: Search, report: Report)
    requires s.Schema?
    modifies report
    ensures report.errors == old(report.errors) + OwnFindings(v, s, path, search)
  {
    if s.enum.Some? && !InEnum(v, s.enum.value) {
      report.errors := report.errors + [NotInEnum(path)];
    }
    if v.Str? && s.pattern.Some? && s.pattern.value != "" && !search(s.pattern.value, v.s) {
      report.errors := report.errors + [NoMatch(path)];
    }
  }

  method CheckRequired(fields: seq<Field>, s: Schema, path: Path, report: Report)
    requires s.Schema?
    modifies report
    ensures report.errors == old(report.errors) + Missing(s.required, fields, path)
  {
    var i := 0;
    while i < |s.required|
      invariant 0 <= i <= |s.required|
      invariant report.errors + Missing(s.required[i..], fields, path)
             == old(report.errors) + Missing(s.required, fields, path)
    {
      if !HasKey(fields, s.required[i]) {
        report.errors := report.errors + [MissingRequired(path, s.required[i])];
      }
      assert s.required[i..][0] == s.required[i] && s.required[i..][1..] == s.required[i + 1..];
      i := i + 1;
    }
    assert s.required[i..] == [];
  }

  method WalkFields(fields: seq<Field>, s: Schema, path: Path, search: Search, report: Report)
    requires s.Schema?
    modifies report
    ensures report.errors == old(report.errors) + FieldFindings(fields, s, path, search)
    decreases fields
  {
    var i := 0;
    while i < |fields|
      invariant 0 <= i <= |fields|
      invariant report.errors + FieldFindings(fields[i..], s, path, search)
             == old(report.errors) + FieldFindings(fields, s, path, search)
    {
      ghost var before := report.errors;
      WalkField(fields[i], s, path, search, report);
      assert fields[i..][0] == fields[i] && fields[i..][1..] == fields[i + 1..];
      Regroup(before, FieldFinding(fields[i], s, path, search), FieldFindings(fields[i + 1..], s, path, search));
      i := i + 1;
    }
    assert fields[i..] == [];
  }

  method WalkField(f: Field, s: Schema, path: Path, search: Search, report: Report)
    requires s.Schema?
    modifies report
    ensures report.errors == old(report.errors) + FieldFinding(f, s, path, search)
    decreases f
  {
    if s.props.Props? && f.key in s.props.byName {
      Walk(f.value, s.props.byName[f.key], path + [Key(f.key)], search, report);
    } else if s.extra.ExtraSchema? {
      Walk(f.value, s.extra.schema, path + [Key(f.key)], search, report);
    } else if s.props.Props? && s.extra != ExtraBool(true) {
      report.errors := report.errors + [UnknownField(path, f.key)];
    }
  }

  method WalkItems(items: seq<Value>, s: Schema, path: Path, search: Search, report: Report)
    modifies report
    ensures report.errors == old(report.errors) + ItemFindings(items, 0, s, path, search)
    decreases items
  {
    var i := 0;
    while i < |items|
      invariant 0 <= i <= |items|
      invariant report.errors + ItemFindings(items[i..], i, s, path, search)
             == old(report.errors) + ItemFindings(items, 0, s, path, search)
    {
      ghost var before := report.errors;
      Walk(items[i], s, path + [Index(i)], search, report);
      assert items[i..][0] == items[i] && items[i..][1..] == items[i + 1..];
      Regroup(before, Findings(items[i], s, path + [Index(i)], search), ItemFindings(items[i + 1..], i + 1, s, path, search));
      i := i + 1;
    }
    assert items[i..] == [];
  }

  /** The findings left when the unknown-field ones are taken out, in order. */
  function Known(fs: seq<Finding>): seq<Finding> {
    if fs == [] then []
    else KnownOne(fs[0]) + Known(fs[1..])
  }

  function KnownOne(f: Finding): seq<Finding> { if f.UnknownField? then [] else [f] }

  lemma {:induction false} KnownConcat(a: seq<Finding>, b: seq<Finding>)
    ensures Known(a + b) == Known(a) + Known(b)
  {
    if a == [] {
      assert a + b == b;
    } else {
      KnownConcat(a[1..], b);
      assert (a + b)[0] == a[0] && (a + b)[1..] == a[1..] + b;
      Regroup(KnownOne(a[0]), Known(a[1..]), Known(b));
    }
  }

  // ------------------------------------------ pruning and the findings

  /** No enum of the schema lists a list or a mapping. */
  ghost predicate ScalarEnums(s: Schema)
    decreases s
  {
    s.Schema? ==>
      && (s.enum.Some? ==> forall e | e in s.enum.value :: IsScalar(e))
      && (s.props.Props? ==> forall k | k in s.props.byName :: ScalarEnums(s.props.byName[k]))
      && (s.extra.ExtraSchema? ==> ScalarEnums(s.extra.schema))
      && ScalarEnums(s.items)
  }

  /** Every required key is one the schema does not prune. */
  ghost predicate RequiredDeclared(s: Schema)
    decreases s
  {
    s.Schema? ==>
      && (forall k | k in s.required :: RouteOf(s, k) != Unknown)
      && (s.props.Props? ==> forall k | k in s.props.byName :: RequiredDeclared(s.props.byName[k]))
      && (s.extra.ExtraSchema? ==> RequiredDeclared(s.extra.schema))
      && RequiredDeclared(s.items)
  }

  /** How many required keys of one mapping it has and pruning takes away. */
  function LostKeys(required: seq<string>, fields: seq<Field>, s: Schema): nat
    requires s.Schema?
  {
    if required == [] then 0
    else (if HasKey(fields, required[0]) && RouteOf(s, required[0]).Unknown? then 1 else 0)
         + LostKeys(required[1..], fields, s)
  }

  /** How many required keys pruning takes away, at every depth it reaches. */
  function Lost(v: Value, s: Schema): nat
    decreases v
  {
    if !Descends(v, s) then 0
    else if v.Dict? then (if s.preserve then 0 else LostKeys(s.required, v.fields, s) + LostInFields(v.fields, s))
    else if v.List? then LostInItems(v.items, s.items)
    else 0
  }

  function LostInField(f: Field, s: Schema): nat
    requires s.Schema?
    decreases f
  {
    match RouteOf(s, f.key)
    case Into(sub) => Lost(f.value, sub)
    case _ => 0
  }

  function LostInFields(fields: seq<Field>, s: Schema): nat
    requires s.Schema?
    decreases fields
  {
    if fields == [] then 0 else LostInField(fields[0], s) + LostInFields(fields[1..], s)
  }

  function LostInItems(items: seq<Value>, s: Schema): nat
    decreases items
  {
    if items == [] then 0 else Lost(items[0], s) + LostInItems(items[1..], s)
  }

  lemma {:induction false} PrunedKeys(fields: seq<Field>, s: Schema, key: string)
    requires s.Schema?
    ensures HasKey(PruneFields(fields, s), key) <==> HasKey(fields, key) && !RouteOf(s, key).Unknown?
  {
    if fields != [] {
      PrunedKeys(fields[1..], s, key);
      var head, rest := PruneField(fields[0], s), PruneFields(fields[1..], s);
      assert PruneFields(fields, s) == head + rest;
      assert fields == [fields[0]] + fields[1..];
      assert RouteOf(s, fields[0].key).Into? ==> head[0].key == fields[0].key;
      if HasKey(fields, key) && !RouteOf(s, key).Unknown? {
        var f :| f in fields && f.key == key;
        if f == fields[0] {
          assert head[0] in head + rest;
        } else {
          assert HasKey(fields[1..], key);
          var g :| g in rest && g.key == key;
          assert g in head + rest;
        }
      }
    }
  }

  /** A pruned mapping misses the required keys it missed before, and one more
      for each key pruning took. */
  lemma {:induction false} PrunedMissing(required: seq<string>, fields: seq<Field>, s: Schema, path: Path)
    requires s.Schema?
    ensures |Missing(required, PruneFields(fields, s), path)| == |Missing(required, fields, path)| + LostKeys(required, fields, s)
    ensures LostKeys(required, fields, s) == 0 ==> Missing(required, PruneFields(fields, s), path) == Missing(required, fields, path)
    ensures Known(Missing(required, fields, path)) == Missing(required, fields, path)
  {
    if required != [] {
      PrunedKeys(fields, s, required[0]);
      PrunedMissing(required[1..], fields, s, path);
      KnownConcat(if HasKey(fields, required[0]) then [] else [MissingRequired(path, required[0])],
                  Missing(required[1..], fields, path));
    }
  }

  lemma PrunedEnum(v: Value, s: Schema)
    requires s.Schema? && s.enum.Some? && forall e | e in s.enum.value :: IsScalar(e)
    ensures InEnum(Prune(v, s), s.enum.value) <==> InEnum(v, s.enum.value)
  {
    if v.List? || v.Dict? {
      forall e | e in s.enum.value
        ensures !PyEq(v, e) && !PyEq(Prune(v, s), e)
      {
      }
    }
  }

  lemma OwnIsKnown(v: Value, s: Schema, path: Path, search: Search)
    requires s.Schema?
    ensures Known(OwnFindings(v, s, path, search)) == OwnFindings(v, s, path, search)
  {
    KnownConcat(EnumFindings(v, s, path), PatternFindings(v, s, path, search));
  }

  /** Pruning leaves the value's own type, enum and pattern as they were judged. */
  lemma OwnOfPruned(v: Value, s: Schema, path: Path, search: Search)
    requires Descends(v, s) && ScalarEnums(s)
    ensures Descends(Prune(v, s), s) && OwnFindings(Prune(v, s), s, path, search) == OwnFindings(v, s, path, search)
  {
    if s.enum.Some? { PrunedEnum(v, s); }
  }

  lemma OwnThenInside(v: Value, s: Schema, path: Path, search: Search)
    requires Descends(v, s)
    ensures Findings(v, s, path, search) == OwnFindings(v, s, path, search) + InsideFindings(v, s, path, search)
    ensures Known(Findings(v, s, path, search)) == OwnFindings(v, s, path, search) + Known(InsideFindings(v, s, path, search))
  {
    OwnIsKnown(v, s, path, search);
    KnownConcat(OwnFindings(v, s, path, search), InsideFindings(v, s, path, search));
  }

  /** What a walk of the pruned value finds is what a walk of the value found
      less the unknown fields, plus one missing key per required key pruned. */
  lemma {:induction false} PruneCount(v: Value, s: Schema, path: Path, search: Search)
    requires ScalarEnums(s)
    ensures |Findings(Prune(v, s), s, path, search)| == |Known(Findings(v, s, path, search))| + Lost(v, s)
    ensures Lost(v, s) == 0 ==> Findings(Prune(v, s), s, path, search) == Known(Findings(v, s, path, search))
    decreases v, 1
  {
    if Descends(v, s) {
      OwnOfPruned(v, s, path, search);
      OwnThenInside(v, s, path, search);
      OwnThenInside(Prune(v, s), s, path, search);
      PruneInside(v, s, path, search);
    }
  }

  lemma {:induction false} PruneInside(v: Value, s: Schema, path: Path, search: Search)
    requires ScalarEnums(s) && Descends(v, s)
    ensures |InsideFindings(Prune(v, s), s, path, search)| == |Known(InsideFindings(v, s, path, search))| + Lost(v, s)
    ensures Lost(v, s) == 0 ==> InsideFindings(Prune(v, s), s, path, search) == Known(InsideFindings(v, s, path, search))
    decreases v, 0
  {
    match v
    case Dict(fields) =>
      if !s.preserve {
        PrunedMissing(s.required, fields, s, path);
        PruneFieldsCount(fields, s, path, search);
        KnownConcat(Missing(s.required, fields, path), FieldFindings(fields, s, path, search));
      }
    case List(items) => PruneItemsCount(items, 0, s.items, path, search);
    case _ =>
  }

  lemma {:induction false} PruneFieldsCount(fields: seq<Field>, s: Schema, path: Path, search: Search)
    requires s.Schema? && ScalarEnums(s)
    ensures |FieldFindings(PruneFields(fields, s), s, path, search)|
         == |Known(FieldFindings(fields, s, path, search))| + LostInFields(fields, s)
    ensures LostInFields(fields, s) == 0 ==>
      FieldFindings(PruneFields(fields, s), s, path, search) == Known(FieldFindings(fields, s, path, search))
    decreases fields
  {
    if fields != [] {
      var f := fields[0];
      PruneFieldsCount(fields[1..], s, path, search);
      KnownConcat(FieldFinding(f, s, path, search), FieldFindings(fields[1..], s, path, search));
      FindingsOfPruned(f, PruneFields(fields[1..], s), s, path, search);
      PruneFieldCount(f, s, path, search);
    }
  }

  /** The findings of a field pruned and the rest. */
  lemma FindingsOfPruned(f: Field, rest: seq<Field>, s: Schema, path: Path, search: Search)
    requires s.Schema?
    ensures FieldFindings(PruneField(f, s) + rest, s, path, search)
         == FieldFindings(PruneField(f, s), s, path, search) + FieldFindings(rest, s, path, search)
  {
    var kept := PruneField(f, s);
    if kept != [] {
      assert (kept + rest)[0] == kept[0] && (kept + rest)[1..] == rest && kept[1..] == [];
    } else {
      assert kept + rest == rest;
    }
  }

  lemma {:induction false} PruneFieldCount(f: Field, s: Schema, path: Path, search: Search)
    requires s.Schema? && ScalarEnums(s)
    ensures |FieldFindings(PruneField(f, s), s, path, search)| == |Known(FieldFinding(f, s, path, search))| + LostInField(f, s)
    ensures LostInField(f, s) == 0 ==> FieldFindings(PruneField(f, s), s, path, search) == Known(FieldFinding(f, s, path, search))
    decreases f
  {
    var kept := PruneField(f, s);
    if kept != [] { assert kept[1..] == []; }
    match RouteOf(s, f.key)
    case Into(sub) => PruneCount(f.value, sub, path + [Key(f.key)], search);
    case _ =>
  }

  lemma {:induction false} PruneItemsCount(items: seq<Value>, from: nat, s: Schema, path: Path, search: Search)
    requires ScalarEnums(s)
    ensures |ItemFindings(PruneItems(items, s), from, s, path, search)|
         == |Known(ItemFindings(items, from, s, path, search))| + LostInItems(items, s)
    ensures LostInItems(items, s) == 0 ==>
      ItemFindings(PruneItems(items, s), from, s, path, search) == Known(ItemFindings(items, from, s, path, search))
    decreases items
  {
    if items != [] {
      PruneCount(items[0], s, path + [Index(from)], search);
      PruneItemsCount(items[1..], from + 1, s, path, search);
      KnownConcat(Findings(items[0], s, path + [Index(from)], search), ItemFindings(items[1..], from + 1, s, path, search));
      assert ([Prune(items[0], s)] + PruneItems(items[1..], s))[1..] == PruneItems(items[1..], s);
    }
  }

  /** With scalar enums, the walk agrees with what the API server stores exactly
      when pruning takes no required key the value has. */
  lemma WalkOfPruned(v: Value, s: Schema, path: Path, search: Search)
    requires ScalarEnums(s)
    ensures Findings(Prune(v, s), s, path, search) == Known(Findings(v, s, path, search)) <==> Lost(v, s) == 0
  {
    PruneCount(v, s, path, search);
  }

  /** A schema whose required keys it declares loses none of them, so the walk
      agrees with pruning for every value. */
  lemma WalkAgreesWithPruning(v: Value, s: Schema, path: Path, search: Search)
    requires ScalarEnums(s) && RequiredDeclared(s)
    ensures Findings(Prune(v, s), s, path, search) == Known(Findings(v, s, path, search))
  {
    DeclaredLosesNothing(v, s);
    PruneCount(v, s, path, search);
  }

  lemma {:induction false} DeclaredLosesNothing(v: Value, s: Schema)
    requires RequiredDeclared(s)
    ensures Lost(v, s) == 0
    decreases v, 1
  {
    if Descends(v, s) {
      match v
      case Dict(fields) =>
        if !s.preserve {
          NoKeyLost(s.required, fields, s);
          DeclaredFields(fields, s);
        }
      case List(items) => DeclaredItems(items, s.items);
      case _ =>
    }
  }

  lemma {:induction false} NoKeyLost(required: seq<string>, fields: seq<Field>, s: Schema)
    requires s.Schema? && forall k | k in required :: RouteOf(s, k) != Unknown
    ensures LostKeys(required, fields, s) == 0
  {
    if required != [] { NoKeyLost(required[1..], fields, s); }
  }

  lemma {:induction false} DeclaredFields(fields: seq<Field>, s: Schema)
    requires s.Schema? && RequiredDeclared(s)
    ensures LostInFields(fields, s) == 0
    decreases fields
  {
    if fields != [] {
      DeclaredFields(fields[1..], s);
      match RouteOf(s, fields[0].key)
      case Into(sub) => DeclaredLosesNothing(fields[0].value, sub);
      case _ =>
    }
  }

  lemma {:induction false} DeclaredItems(items: seq<Value>, s: Schema)
    requires RequiredDeclared(s)
    ensures LostInItems(items, s) == 0
    decreases items
  {
    if items != [] {
      DeclaredLosesNothing(items[0], s);
      DeclaredItems(items[1..], s);
    }
  }

  // ------------------------------------------------- what pruning changes

  ghost predicate NoUnknown(fs: seq<Finding>) {
    forall f | f in fs :: !f.UnknownField?
  }

  /** Pruning leaves nothing to prune. */
  lemma {:induction false} PrunedHasNoUnknown(v: Value, s: Schema, path: Path, search: Search)
    ensures NoUnknown(Findings(Prune(v, s), s, path, search))
    decreases v
  {
    if Descends(v, s) {
      match v
      case Dict(fields) =>
        if !s.preserve {
          MissingIsKnown(s.required, PruneFields(fields, s), path);
          PrunedFieldsHaveNoUnknown(fields, s, path, search);
        }
      case List(items) => PrunedItemsHaveNoUnknown(items, 0, s.items, path, search);
      case _ =>
    }
  }

  lemma {:induction false} MissingIsKnown(required: seq<string>, fields: seq<Field>, path: Path)
    ensures NoUnknown(Missing(required, fields, path))
  {
    if required != [] { MissingIsKnown(required[1..], fields, path); }
  }

  lemma {:induction false} PrunedFieldsHaveNoUnknown(fields: seq<Field>, s: Schema, path: Path, search: Search)
    requires s.Schema?
    ensures NoUnknown(FieldFindings(PruneFields(fields, s), s, path, search))
    decreases fields
  {
    if fields != [] {
      var f, kept, rest := fields[0], PruneField(fields[0], s), PruneFields(fields[1..], s);
      PrunedFieldsHaveNoUnknown(fields[1..], s, path, search);
      if kept != [] {
        assert (kept + rest)[0] == kept[0] && (kept + rest)[1..] == rest;
      } else {
        assert kept + rest == rest;
      }
      match RouteOf(s, f.key)
      case Into(sub) => PrunedHasNoUnknown(f.value, sub, path + [Key(f.key)], search);
      case _ =>
    }
  }

  lemma {:induction false} PrunedItemsHaveNoUnknown(items: seq<Value>, from: nat, s: Schema, path: Path, search: Search)
    ensures NoUnknown(ItemFindings(PruneItems(items, s), from, s, path, search))
    decreases items
  {
    if items != [] {
      PrunedHasNoUnknown(items[0], s, path + [Index(from)], search);
      PrunedItemsHaveNoUnknown(items[1..], from + 1, s, path, search);
      assert ([Prune(items[0], s)] + PruneItems(items[1..], s))[1..] == PruneItems(items[1..], s);
    }
  }

  /** Pruning changes a value exactly when the walk reports an unknown field. */
  lemma {:induction false} PruneIsIdentity(v: Value, s: Schema, path: Path, search: Search)
    ensures Prune(v, s) == v <==> NoUnknown(Findings(v, s, path, search))
    decreases v
  {
    if Descends(v, s) {
      var own := OwnFindings(v, s, path, search);
      assert NoUnknown(own);
      match v
      case Dict(fields) =>
        if !s.preserve {
          var missing, sub := Missing(s.required, fields, path), FieldFindings(fields, s, path, search);
          MissingIsKnown(s.required, fields, path);
          PruneFieldsIsIdentity(fields, s, path, search);
          NoUnknownConcat(missing, sub);
          NoUnknownConcat(own, missing + sub);
        } else {
          NoUnknownConcat(own, []);
        }
      case List(items) =>
        PruneItemsIsIdentity(items, 0, s.items, path, search);
        NoUnknownConcat(own, ItemFindings(items, 0, s.items, path, search));
      case _ =>
        NoUnknownConcat(own, []);
    }
  }

  lemma NoUnknownConcat(a: seq<Finding>, b: seq<Finding>)
    ensures NoUnknown(a + b) <==> NoUnknown(a) && NoUnknown(b)
  {
    assert forall f | f in a :: f in a + b;
    assert forall f | f in b :: f in a + b;
  }

  lemma {:induction false} PruneFieldsIsIdentity(fields: seq<Field>, s: Schema, path: Path, search: Search)
    requires s.Schema?
    ensures |PruneFields(fields, s)| <= |fields|
    ensures PruneFields(fields, s) == fields <==> NoUnknown(FieldFindings(fields, s, path, search))
    decreases fields
  {
    if fields != [] {
      var f, kept, rest := fields[0], PruneField(fields[0], s), PruneFields(fields[1..], s);
      PruneFieldsIsIdentity(fields[1..], s, path, search);
      NoUnknownConcat(FieldFinding(f, s, path, search), FieldFindings(fields[1..], s, path, search));
      assert fields == [f] + fields[1..];
      match RouteOf(s, f.key)
      case Into(sub) =>
        PruneIsIdentity(f.value, sub, path + [Key(f.key)], search);
        assert (kept + rest)[0] == kept[0] && (kept + rest)[1..] == rest;
      case Unknown =>
        assert UnknownField(path, f.key) in FieldFinding(f, s, path, search);
      case Free =>
        assert (kept + rest)[0] == kept[0] && (kept + rest)[1..] == rest;
    }
  }

  lemma {:induction false} PruneItemsIsIdentity(items: seq<Value>, from: nat, s: Schema, path: Path, search: Search)
    ensures PruneItems(items, s) == items <==> NoUnknown(ItemFindings(items, from, s, path, search))
    decreases items
  {
    if items != [] {
      PruneIsIdentity(items[0], s, path + [Index(from)], search);
      PruneItemsIsIdentity(items[1..], from + 1, s, path, search);
      NoUnknownConcat(Findings(items[0], s, path + [Index(from)], search), ItemFindings(items[1..], from + 1, s, path, search));
      var pruned := [Prune(items[0], s)] + PruneItems(items[1..], s);
      assert pruned[0] == Prune(items[0], s) && pruned[1..] == PruneItems(items[1..], s);
      assert items == [items[0]] + items[1..];
    }
  }

  lemma PruneIsIdempotent(v: Value, s: Schema)
    ensures Prune(Prune(v, s), s) == Prune(v, s)
  {
    var anySearch: Search := (_, _) => true;
    PrunedHasNoUnknown(v, s, [], anySearch);
    PruneIsIdentity(Prune(v, s), s, [], anySearch);
  }

  // ----------------------------------------------------- what a clean walk means

  /** The value fits the schema: the reading a schema author has in mind, with
      no walk in it. */
  ghost predicate Fits(v: Value, s: Schema, search: Search)
    decreases v, 1
  {
    s.Schema? ==>
      && (v.Null? ==> s.nullable)
      && (!v.Null? && s.intOrString ==> v.Int? || v.Str?)
      && (!v.Null? && !s.intOrString ==>
            (s.kind.Some? ==> IsOfType(s.kind.value, v)) && OwnFits(v, s, search) && InsideFits(v, s, search))
  }

  /** What each of the six type names admits; a boolean is no number here, though
      Python's booleans are integers. Any other name admits everything. */
  ghost predicate IsOfType(kind: string, v: Value) {
    && (kind == "string" ==> exists s :: v == Str(s))
    && (kind == "integer" ==> exists n :: v == Int(n))
    && (kind == "number" ==> (exists n :: v == Int(n)) || exists r :: v == Float(r))
    && (kind == "boolean" ==> exists b :: v == Bool(b))
    && (kind == "object" ==> exists fields :: v == Dict(fields))
    && (kind == "array" ==> exists items :: v == List(items))
  }

  lemma TypeIsSpelled(kind: string, v: Value)
    ensures TypeOk(kind, v) <==> IsOfType(kind, v)
  {
    match v
    case Null =>
    case Bool(b) => assert v == Bool(b);
    case Int(n) => assert v == Int(n);
    case Float(r) => assert v == Float(r);
    case Str(s) => assert v == Str(s);
    case List(items) => assert v == List(items);
    case Dict(fields) => assert v == Dict(fields);
  }

  ghost predicate OwnFits(v: Value, s: Schema, search: Search)
    requires s.Schema?
  {
    && (s.enum.Some? ==> exists e | e in s.enum.value :: PyEq(v, e))
    && (v.Str? && s.pattern.Some? && s.pattern.value != "" ==> search(s.pattern.value, v.s))
  }

  ghost predicate InsideFits(v: Value, s: Schema, search: Search)
    requires s.Schema?
    decreases v, 0
  {
    && (v.Dict? && !s.preserve ==>
          && (forall k | k in s.required :: HasKey(v.fields, k))
          && (forall f | f in v.fields :: FieldFits(f, s, search)))
    && (v.List? ==> forall item | item in v.items :: Fits(item, s.items, search))
  }

  ghost predicate FieldFits(f: Field, s: Schema, search: Search)
    requires s.Schema?
    decreases f
  {
    if s.props.Props? && f.key in s.props.byName then Fits(f.value, s.props.byName[f.key], search)
    else if s.extra.ExtraSchema? then Fits(f.value, s.extra.schema, search)
    else s.props.NoProps? || s.extra == ExtraBool(true)
  }

  /** The walk reports nothing exactly when the value fits the schema. */
  lemma {:induction false} CleanWalk(v: Value, s: Schema, path: Path, search: Search)
    ensures Findings(v, s, path, search) == [] <==> Fits(v, s, search)
    decreases v, 1
  {
    if s.Schema? && s.kind.Some? { TypeIsSpelled(s.kind.value, v); }
    if Descends(v, s) {
      CleanInside(v, s, path, search);
      assert OwnFindings(v, s, path, search) == [] <==> OwnFits(v, s, search);
      assert Findings(v, s, path, search) == OwnFindings(v, s, path, search) + InsideFindings(v, s, path, search);
    }
  }

  lemma {:induction false} CleanInside(v: Value, s: Schema, path: Path, search: Search)
    requires Descends(v, s)
    ensures InsideFindings(v, s, path, search) == [] <==> InsideFits(v, s, search)
    decreases v, 0
  {
    match v
    case Dict(fields) =>
      if !s.preserve {
        NothingMissing(s.required, fields, path);
        CleanFields(fields, s, path, search);
      }
    case List(items) => CleanItems(items, 0, s.items, path, search);
    case _ =>
  }

  lemma {:induction false} NothingMissing(required: seq<string>, fields: seq<Field>, path: Path)
    ensures Missing(required, fields, path) == [] <==> forall k | k in required :: HasKey(fields, k)
  {
    if required != [] {
      NothingMissing(required[1..], fields, path);
      assert required == [required[0]] + required[1..];
    }
  }

  lemma {:induction false} CleanFields(fields: seq<Field>, s: Schema, path: Path, search: Search)
    requires s.Schema?
    ensures FieldFindings(fields, s, path, search) == [] <==> forall f | f in fields :: FieldFits(f, s, search)
    decreases fields
  {
    if fields != [] {
      CleanField(fields[0], s, path, search);
      CleanFields(fields[1..], s, path, search);
      assert fields == [fields[0]] + fields[1..];
    }
  }

  lemma {:induction false} CleanField(f: Field, s: Schema, path: Path, search: Search)
    requires s.Schema?
    ensures FieldFinding(f, s, path, search) == [] <==> FieldFits(f, s, search)
    decreases f
  {
    match RouteOf(s, f.key)
    case Into(sub) => CleanWalk(f.value, sub, path + [Key(f.key)], search);
    case _ =>
  }

  lemma {:induction false} CleanItems(items: seq<Value>, from: nat, s: Schema, path: Path, search: Search)
    ensures ItemFindings(items, from, s, path, search) == [] <==> forall item | item in items :: Fits(item, s, search)
    decreases items
  {
    if items != [] {
      CleanWalk(items[0], s, path + [Index(from)], search);
      CleanItems(items[1..], from + 1, s, path, search);
      assert items == [items[0]] + items[1..];
    }
  }

  // ----------------------------------------------- what each finding means

  /** The value is of a kind the schema looks into further. */
  ghost predicate LooksFurther(v: Value, s: Schema) {
    s.Schema? && !v.Null? && !s.intOrString && (s.kind.Some? ==> IsOfType(s.kind.value, v))
  }

  /** What is wrong with the value itself, named with its own path. */
  ghost predicate FaultHere(f: Finding, v: Value, s: Schema, path: Path, search: Search)
    requires s.Schema?
  {
    match f
    case NullValue(at) => at == path && v.Null? && !s.nullable
    case WrongType(at, expected) =>
      at == path && !v.Null? &&
      if s.intOrString then expected == "int-or-string" && !v.Int? && !v.Str?
      else s.kind == Some(expected) && !IsOfType(expected, v)
    case NotInEnum(at) => at == path && LooksFurther(v, s) && s.enum.Some? && !exists e :: e in s.enum.value && PyEq(v, e)
    case NoMatch(at) => at == path && LooksFurther(v, s) && v.Str? && s.pattern.Some? && s.pattern.value != "" && !search(s.pattern.value, v.s)
    case MissingRequired(at, key) =>
      at == path && LooksFurther(v, s) && v.Dict? && !s.preserve && key in s.required && !exists field :: field in v.fields && field.key == key
    case UnknownField(at, key) =>
      at == path && LooksFurther(v, s) && v.Dict? && !s.preserve
      && (exists field :: field in v.fields && field.key == key)
      && s.props.Props? && key !in s.props.byName && !s.extra.ExtraSchema? && s.extra != ExtraBool(true)
  }

  /** What is wrong with the value or, under its key or index, with a part. */
  ghost predicate Fault(f: Finding, v: Value, s: Schema, path: Path, search: Search)
    decreases v, 1
  {
    s.Schema? && (FaultHere(f, v, s, path, search) || (LooksFurther(v, s) && FaultInside(f, v, s, path, search)))
  }

  ghost predicate FaultInside(f: Finding, v: Value, s: Schema, path: Path, search: Search)
    requires s.Schema?
    decreases v, 0
  {
    || (v.Dict? && !s.preserve && exists field :: field in v.fields && FaultInField(f, field, s, path, search))
    || (v.List? && exists i :: 0 <= i < |v.items| && Fault(f, v.items[i], s.items, path + [Index(i)], search))
  }

  ghost predicate FaultInField(f: Finding, field: Field, s: Schema, path: Path, search: Search)
    requires s.Schema?
    decreases field
  {
    if s.props.Props? && field.key in s.props.byName then Fault(f, field.value, s.props.byName[field.key], path + [Key(field.key)], search)
    else s.extra.ExtraSchema? && Fault(f, field.value, s.extra.schema, path + [Key(field.key)], search)
  }

  /** The walk finds exactly the faults there are, each with its path and kind. */
  lemma {:induction false} FindingsAreFaults(f: Finding, v: Value, s: Schema, path: Path, search: Search)
    ensures f in Findings(v, s, path, search) <==> Fault(f, v, s, path, search)
    decreases v, 1
  {
    if s.Schema? {
      if s.kind.Some? { TypeIsSpelled(s.kind.value, v); }
      if Descends(v, s) {
        OwnFaults(f, v, s, path, search);
        InsideFaults(f, v, s, path, search);
        assert Findings(v, s, path, search) == OwnFindings(v, s, path, search) + InsideFindings(v, s, path, search);
      }
    }
  }

  lemma OwnFaults(f: Finding, v: Value, s: Schema, path: Path, search: Search)
    requires Descends(v, s) && LooksFurther(v, s)
    ensures f in OwnFindings(v, s, path, search) <==> (f.NotInEnum? || f.NoMatch?) && FaultHere(f, v, s, path, search)
  {
  }

  lemma {:induction false} InsideFaults(f: Finding, v: Value, s: Schema, path: Path, search: Search)
    requires Descends(v, s) && LooksFurther(v, s)
    ensures f in InsideFindings(v, s, path, search) <==>
      ((f.MissingRequired? || f.UnknownField?) && FaultHere(f, v, s, path, search)) || FaultInside(f, v, s, path, search)
    decreases v, 0
  {
    match v
    case Dict(fields) =>
      if !s.preserve {
        MissingFaults(f, s.required, fields, path);
        FieldsFaults(f, fields, s, path, search);
      }
    case List(items) =>
      ItemsFaults(f, items, 0, s.items, path, search);
      FromZero(f, items, s.items, path, search);
    case _ =>
  }

  lemma {:induction false} MissingFaults(f: Finding, required: seq<string>, fields: seq<Field>, path: Path)
    ensures f in Missing(required, fields, path) <==>
      f.MissingRequired? && f.path == path && f.key in required && !exists field :: field in fields && field.key == f.key
  {
    if required != [] {
      MissingFaults(f, required[1..], fields, path);
      assert required == [required[0]] + required[1..];
    }
  }

  ghost predicate UnknownHere(f: Finding, field: Field, s: Schema, path: Path)
    requires s.Schema?
  {
    && f == UnknownField(path, field.key)
    && s.props.Props? && field.key !in s.props.byName && !s.extra.ExtraSchema? && s.extra != ExtraBool(true)
  }

  lemma {:induction false} FieldsFaults(f: Finding, fields: seq<Field>, s: Schema, path: Path, search: Search)
    requires s.Schema?
    ensures f in FieldFindings(fields, s, path, search) <==>
      exists field :: field in fields && (UnknownHere(f, field, s, path) || FaultInField(f, field, s, path, search))
    decreases fields
  {
    if fields != [] {
      var field := fields[0];
      FieldFaults(f, field, s, path, search);
      FieldsFaults(f, fields[1..], s, path, search);
      assert fields == [field] + fields[1..];
    }
  }

  lemma {:induction false} FieldFaults(f: Finding, field: Field, s: Schema, path: Path, search: Search)
    requires s.Schema?
    ensures f in FieldFinding(field, s, path, search) <==> UnknownHere(f, field, s, path) || FaultInField(f, field, s, path, search)
    decreases field
  {
    match RouteOf(s, field.key)
    case Into(sub) => FindingsAreFaults(f, field.value, sub, path + [Key(field.key)], search);
    case _ =>
  }

  /** The i-th of some items, of which the first has the index `from`. */
  ghost predicate FaultAt(f: Finding, items: seq<Value>, from: nat, i: int, s: Schema, path: Path, search: Search) {
    0 <= i < |items| && Fault(f, items[i], s, path + [Index(from + i)], search)
  }

  lemma FromZero(f: Finding, items: seq<Value>, s: Schema, path: Path, search: Search)
    ensures (exists i :: FaultAt(f, items, 0, i, s, path, search)) <==>
      exists i :: 0 <= i < |items| && Fault(f, items[i], s, path + [Index(i)], search)
  {
    if i :| FaultAt(f, items, 0, i, s, path, search) {
      assert Fault(f, items[i], s, path + [Index(i)], search);
    }
    if i :| 0 <= i < |items| && Fault(f, items[i], s, path + [Index(i)], search) {
      assert FaultAt(f, items, 0, i, s, path, search);
    }
  }

  lemma FirstOrLater(f: Finding, items: seq<Value>, rest: seq<Value>, from: nat, next: nat, s: Schema, path: Path, search: Search)
    requires items != [] && rest == items[1..] && next == from + 1
    ensures (exists i :: FaultAt(f, items, from, i, s, path, search)) <==>
      Fault(f, items[0], s, path + [Index(from)], search) || exists i :: FaultAt(f, rest, next, i, s, path, search)
  {
    if i :| FaultAt(f, items, from, i, s, path, search) {
      if i > 0 {
        assert next + (i - 1) == from + i && rest[i - 1] == items[i];
        assert FaultAt(f, rest, next, i - 1, s, path, search);
      }
    }
    if Fault(f, items[0], s, path + [Index(from)], search) { assert FaultAt(f, items, from, 0, s, path, search); }
    if i :| FaultAt(f, rest, next, i, s, path, search) {
      assert next + i == from + (i + 1) && rest[i] == items[i + 1];
      assert FaultAt(f, items, from, i + 1, s, path, search);
    }
  }

  lemma {:induction false} ItemsFaults(f: Finding, items: seq<Value>, from: nat, s: Schema, path: Path, search: Search)
    ensures f in ItemFindings(items, from, s, path, search) <==> exists i :: FaultAt(f, items, from, i, s, path, search)
    decreases items
  {
    if items != [] {
      var rest, next := items[1..], from + 1;
      FindingsAreFaults(f, items[0], s, path + [Index(from)], search);
      ItemsFaults(f, rest, next, s, path, search);
      FirstOrLater(f, items, rest, from, next, s, path, search);
    }
  }

  // ------------------------------------------ where the agreement ends

  const BARE := Schema(false, false, None, None, None, false, NoProps, NoExtra, [], Empty)

  /** A required key the schema does not declare: pruning takes it, and only
      the walk of what is left misses it. */
  lemma UndeclaredRequiredKey(search: Search)
    ensures
      var s := BARE.(props := Props(map["a" := BARE]), required := ["b"]);
      var v := Dict([Field("b", Int(1))]);
      && ScalarEnums(s)
      && Known(Findings(v, s, [], search)) == []
      && Findings(Prune(v, s), s, [], search) == [MissingRequired([], "b")]
  {
    var s := BARE.(props := Props(map["a" := BARE]), required := ["b"]);
    var f := Field("b", Int(1));
    assert f in [f];
    assert Missing(["b"], [f], []) == [];
    assert FieldFindings([f], s, [], search) == [UnknownField([], "b")];
    assert PruneFields([f], s) == [];
  }

  /** An enum of mappings: pruning makes the value equal to a listed one. */
  lemma MappingInEnum(search: Search)
    ensures
      var s := BARE.(props := Props(map[]), enum := Some([Dict([])]));
      var v := Dict([Field("b", Int(1))]);
      && RequiredDeclared(s)
      && Known(Findings(v, s, [], search)) == [NotInEnum([])]
      && Findings(Prune(v, s), s, [], search) == []
  {
    var s := BARE.(props := Props(map[]), enum := Some([Dict([])]));
    var f := Field("b", Int(1));
    assert FieldFindings([f], s, [], search) == [UnknownField([], "b")];
    assert !PyEq(Dict([f]), Dict([]));
    assert PyEq(Dict([]), Dict([]));
    assert Dict([]) in [Dict([])];
    assert PruneFields([f], s) == [];
    assert Findings(Dict([f]), s, [], search) == [NotInEnum([]), UnknownField([], "b")];
    assert Known([UnknownField([], "b")]) == [];
  }
}
