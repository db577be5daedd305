/** agents/run-analyst/verdict.py, `derive`: the verdict an answer's own
    evidence gives. Every read of the answer may raise; for an answer of the
    right shape none does. */
module Verdict {
  import opened Values
  import opened AnswerShape

  // ----------------------------------------------------------- the verdict

  /** What a Python expression gives: a value, or the exception it raises. */
  datatype PyError = KeyError | TypeError | AttributeError | OverflowError

  datatype Py<+T> = Ok(value: T) | Raise(error: PyError) {
    predicate IsFailure() { Raise? }
    function PropagateFailure<U>(): Py<U> requires Raise? { Raise(error) }
    function Extract(): T requires Ok? { value }
  }

  /** `v[key]` with a string key. */
  function At(v: Value, key: string): Py<Value> {
    if !v.Dict? then Raise(TypeError)
    else match Get(v.fields, key) case Some(x) => Ok(x) case None => Raise(KeyError)
  }

  function Truthy(v: Value): bool {
    match v
    case Null => false
    case Bool(b) => b
    case Int(n) => n != 0
    case Float(r) => r != 0.0
    case Str(t) => t != ""
    case List(xs) => xs != []
    case Dict(fs) => fs != []
  }

  /** A value an ordering against a number accepts. */
  function AsNumber(v: Value): Py<real> {
    match Number(v) case Some(r) => Ok(r) case None => Raise(TypeError)
  }

  /** `any(m["kind"] == kind and m["position"] == position for m in metrics)`. */
  function AnyMetric(metrics: Value, kind: string, position: string): Py<bool> {
    match metrics
    case List(items) => AnyItem(items, kind, position)
    case Str(t) => if t == "" then Ok(false) else Raise(TypeError)
    case Dict(fs) => if fs == [] then Ok(false) else Raise(TypeError)
    case _ => Raise(TypeError)
  }

  function AnyItem(items: seq<Value>, kind: string, position: string): Py<bool> {
    if items == [] then Ok(false)
    else
      var k :- At(items[0], "kind");
      if k != Str(kind) then AnyItem(items[1..], kind, position)
      else
        var p :- At(items[0], "position");
        if p == Str(position) then Ok(true) else AnyItem(items[1..], kind, position)
  }

  /** `(lost or 0) > 0`. */
  function LostRecords(lost: Py<Value>): Py<bool> {
    var v :- lost;
    if !Truthy(v) then Ok(false)
    else
      var n :- AsNumber(v);
      Ok(n > 0.0)
  }

  /** Whether the answer says the run itself did not hold. What a branch does
      not reach it does not read, so a missing key there raises nothing. */
  function Invalid(status: Py<Value>, taskErrors: Py<Value>, lost: Py<Value>): Py<bool> {
    var v :- status;
    if v == Str("FAILED") then Ok(true)
    else
      var errors :- taskErrors;
      if Truthy(errors) then Ok(true) else LostRecords(lost)
  }

  /** `b.get(key)` where b is `a["baseline"] or {}`: none for a missing key. */
  function OfBaseline(baseline: Py<Value>, key: string): Py<Value> {
    var b :- baseline;
    if !Truthy(b) then Ok(Null)
    else if !b.Dict? then Raise(AttributeError)
    else match Get(b.fields, key) case Some(x) => Ok(x) case None => Ok(Null)
  }

  /** `bool(first) and second`, as the truth of it. */
  function Both(first: Py<Value>, second: Py<Value>): Py<bool> {
    var v :- first;
    if !Truthy(v) then Ok(false)
    else
      var w :- second;
      Ok(Truthy(w))
  }

  datatype Verdict = InvalidRun | Contaminated | NotComparable | Regressed | Improved | Normal {
    function Name(): string {
      match this
      case InvalidRun => "INVALID_RUN"
      case Contaminated => "CONTAMINATED"
      case NotComparable => "NOT_COMPARABLE"
      case Regressed => "REGRESSED"
      case Improved => "IMPROVED"
      case Normal => "NORMAL"
    }
  }

  /** Every read `derive` makes of an answer. */
  datatype Reads = Reads(
    status: Py<Value>,
    taskErrors: Py<Value>,
    recordsLost: Py<Value>,
    overlaps: Py<Value>,
    baseline: Py<Value>,
    runId: Py<Value>,
    sameSpec: Py<Value>,
    flagged: Py<Value>,
    band: Py<Value>,
    runs: Py<Value>,
    metrics: Py<Value>)

  function ReadsOf(a: Value): Reads {
    var baseline, band := At(a, "baseline"), At(a, "band");
    Reads(
      At(a, "status"), At(a, "taskErrors"), At(a, "recordsLost"), At(a, "overlaps"),
      baseline, OfBaseline(baseline, "runId"), OfBaseline(baseline, "sameSpec"), OfBaseline(baseline, "regressionFlagged"),
      band, In(band, "runs"), In(band, "metrics"))
  }

  function In(v: Py<Value>, key: string): Py<Value> {
    var w :- v;
    At(w, key)
  }

  /** `derive`, over whatever the answer holds. */
  function Derive(a: Value): Py<Verdict> {
    DeriveFrom(ReadsOf(a))
  }

  function DeriveFrom(r: Reads): Py<Verdict> {
    var invalid :- Invalid(r.status, r.taskErrors, r.recordsLost);
    if invalid then Ok(InvalidRun)
    else
      var overlaps :- r.overlaps;
      if Truthy(overlaps) then Ok(Contaminated)
      else
        var _ :- r.baseline;
        var sameSpec :- Both(r.runId, r.sameSpec);
        var _ :- r.band;
        Compare(r.runs, r.metrics, r.flagged, sameSpec)
  }

  function Compare(runs: Py<Value>, metrics: Py<Value>, flagged: Py<Value>, sameSpec: bool): Py<Verdict> {
    var tooFew :- TooFewRuns(runs, sameSpec);
    if tooFew then Ok(NotComparable)
    else
      var ms :- metrics;
      Judge(AnyMetric(ms, "latency", "above"), AnyMetric(ms, "latency", "below"),
            AnyMetric(ms, "throughput", "below"), flagged, sameSpec)
  }

  function Judge(latencyUp: Py<bool>, latencyDown: Py<bool>, throughputDown: Py<bool>, flagged: Py<Value>, sameSpec: bool): Py<Verdict> {
    var up :- latencyUp;
    var down :- latencyDown;
    var slow :- throughputDown;
    if up || slow then Ok(Regressed)
    else
      var flag :- if sameSpec then flagged else Ok(Bool(false));
      Ok(if Truthy(flag) then Regressed else if down then Improved else Normal)
  }

  function TooFewRuns(runs: Py<Value>, sameSpec: bool): Py<bool> {
    if sameSpec then Ok(false)
    else
      var v :- runs;
      var n :- AsNumber(v);
      Ok(n < 3.0)
  }

  // ------------------------------------------- the evidence, typed

  /** What the verdict rules are about. */
  datatype Evidence = Evidence(
    failed: bool,
    taskErrors: nat,
    recordsLost: int,
    overlaps: nat,
    baselineNamed: bool,
    sameSpec: bool,
    flagged: bool,
    runs: int,
    metrics: seq<(string, string)>)

  /** The rules of the analyst's verdict, as one table. */
  ghost predicate Rule(e: Evidence, verdict: Verdict) {
    var invalid := e.failed || e.taskErrors > 0 || e.recordsLost > 0;
    var contaminated := e.overlaps > 0;
    var same := e.baselineNamed && e.sameSpec;
    var comparable := same || e.runs >= 3;
    var worse := ("latency", "above") in e.metrics || ("throughput", "below") in e.metrics || (same && e.flagged);
    var better := ("latency", "below") in e.metrics;
    match verdict
    case InvalidRun => invalid
    case Contaminated => !invalid && contaminated
    case NotComparable => !invalid && !contaminated && !comparable
    case Regressed => !invalid && !contaminated && comparable && worse
    case Improved => !invalid && !contaminated && comparable && !worse && better
    case Normal => !invalid && !contaminated && comparable && !worse && !better
  }

  /** Exactly one verdict follows from any evidence. */
  lemma OneVerdict(e: Evidence)
    ensures exists v :: Rule(e, v)
    ensures forall v, w :: Rule(e, v) && Rule(e, w) ==> v == w
  {
    assert Rule(e, InvalidRun) || Rule(e, Contaminated) || Rule(e, NotComparable)
        || Rule(e, Regressed) || Rule(e, Improved) || Rule(e, Normal);
  }

  function Length(v: Value): nat {
    if v.List? then |v.items| else 0
  }

  function Whole(v: Value): int {
    if v.Int? then v.n else 0
  }

  function Text(v: Value): string {
    if v.Str? then v.s else ""
  }

  function MetricsOf(items: seq<Value>): (r: seq<(string, string)>)
    ensures |r| == |items|
    ensures forall i | 0 <= i < |r| :: r[i] == (Text(Under(items[i], "kind")), Text(Under(items[i], "position")))
  {
    seq(|items|, i requires 0 <= i < |items| => (Text(Under(items[i], "kind")), Text(Under(items[i], "position"))))
  }

  /** The value under a key, and null without one. */
  function Under(v: Value, key: string): Value {
    OrNull(At(v, key))
  }

  function OrNull(v: Py<Value>): Value {
    match v case Ok(x) => x case Raise(_) => Null
  }

  /** The evidence an answer carries, read off its fields. */
  function EvidenceOf(a: Value): Evidence {
    EvidenceFrom(ReadsOf(a))
  }

  function EvidenceFrom(r: Reads): Evidence {
    Evidence(
      OrNull(r.status) == Str("FAILED"),
      Length(OrNull(r.taskErrors)),
      Whole(OrNull(r.recordsLost)),
      Length(OrNull(r.overlaps)),
      Text(OrNull(r.runId)) != "",
      OrNull(r.sameSpec) == Bool(true),
      OrNull(r.flagged) == Bool(true),
      Whole(OrNull(r.runs)),
      if OrNull(r.metrics).List? then MetricsOf(OrNull(r.metrics).items) else [])
  }

  /** A required field of a conforming object is there and conforms. */
  lemma RequiredField(a: Value, s: Shape, key: string, lex: Lexer)
    requires Conforms(a, s, lex) && a.Dict? && key in s.required
    ensures key in s.props && Get(a.fields, key) == Some(Under(a, key))
    ensures At(a, key) == Ok(Under(a, key)) && Conforms(Under(a, key), s.props[key], lex)
  {
    assert HasKey(a.fields, key);
    var v := Get(a.fields, key).value;
    assert Field(key, v) in a.fields;
  }

  lemma TypeOf(v: Value, t: TypeName, lex: Lexer, s: Shape)
    requires s.types == [t] && Conforms(v, s, lex)
    ensures HasType(v, t)
  {
  }

  lemma EitherType(v: Value, t: TypeName, u: TypeName, lex: Lexer, s: Shape)
    requires s.types == [t, u] && Conforms(v, s, lex)
    ensures HasType(v, t) || HasType(v, u)
  {
  }

  lemma MetricRead(m: Value, lex: Lexer)
    requires Conforms(m, METRIC, lex)
    ensures At(m, "kind") == Ok(Under(m, "kind")) && Under(m, "kind").Str?
    ensures At(m, "position") == Ok(Under(m, "position")) && Under(m, "position").Str?
  {
    TypeOf(m, TObject, lex, METRIC);
    RequiredField(m, METRIC, "kind", lex);
    RequiredField(m, METRIC, "position", lex);
    TypeOf(Under(m, "kind"), TString, lex, OneOf(KINDS));
    TypeOf(Under(m, "position"), TString, lex, OneOf(POSITIONS));
  }

  /** The band of a conforming answer yields its metrics without an exception. */
  lemma {:induction false} MetricsRead(items: seq<Value>, kind: string, position: string, lex: Lexer)
    requires forall item | item in items :: Conforms(item, METRIC, lex)
    ensures AnyItem(items, kind, position) == Ok((kind, position) in MetricsOf(items))
  {
    if items != [] {
      assert items[0] in items;
      MetricRead(items[0], lex);
      MetricsRead(items[1..], kind, position, lex);
      OneMoreMetric(items, kind, position);
    }
  }

  lemma OneMoreMetric(items: seq<Value>, kind: string, position: string)
    requires items != []
    requires At(items[0], "kind") == Ok(Under(items[0], "kind")) && Under(items[0], "kind").Str?
    requires At(items[0], "position") == Ok(Under(items[0], "position")) && Under(items[0], "position").Str?
    requires AnyItem(items[1..], kind, position) == Ok((kind, position) in MetricsOf(items[1..]))
    ensures AnyItem(items, kind, position) == Ok((kind, position) in MetricsOf(items))
  {
    var k, p := Under(items[0], "kind").s, Under(items[0], "position").s;
    FirstItem(items, kind, position, k, p);
    FirstMetric(items, k, p);
    InFirstOrRest((kind, position), (k, p), MetricsOf(items[1..]));
  }

  lemma FirstItem(items: seq<Value>, kind: string, position: string, k: string, p: string)
    requires items != [] && At(items[0], "kind") == Ok(Str(k)) && At(items[0], "position") == Ok(Str(p))
    ensures AnyItem(items, kind, position) == if (kind, position) == (k, p) then Ok(true) else AnyItem(items[1..], kind, position)
  {
  }

  lemma FirstMetric(items: seq<Value>, k: string, p: string)
    requires items != [] && Under(items[0], "kind") == Str(k) && Under(items[0], "position") == Str(p)
    ensures MetricsOf(items) == [(k, p)] + MetricsOf(items[1..])
  {
  }

  lemma InFirstOrRest<T>(x: T, first: T, rest: seq<T>)
    ensures x in [first] + rest <==> x == first || x in rest
  {
  }

  /** One required field of the answer: present, and of the type SCHEMA gives it. */
  lemma AnswerField(a: Value, key: string, shape: Shape, lex: Lexer)
    requires Conforms(a, SCHEMA, lex)
    requires key in SCHEMA.required && key in SCHEMA.props && SCHEMA.props[key] == shape
    ensures At(a, key) == Ok(Under(a, key)) && Conforms(Under(a, key), shape, lex)
  {
    TypeOf(a, TObject, lex, SCHEMA);
    RequiredField(a, SCHEMA, key, lex);
  }

  lemma StatusField(a: Value, lex: Lexer)
    requires Conforms(a, SCHEMA, lex)
    ensures At(a, "status") == Ok(Under(a, "status")) && Under(a, "status").Str?
  {
    AnswerField(a, "status", OneOf(["DONE", "FAILED"]), lex);
    TypeOf(Under(a, "status"), TString, lex, OneOf(["DONE", "FAILED"]));
  }

  lemma TaskErrorsField(a: Value, lex: Lexer)
    requires Conforms(a, SCHEMA, lex)
    ensures At(a, "taskErrors") == Ok(Under(a, "taskErrors")) && Under(a, "taskErrors").List?
  {
    AnswerField(a, "taskErrors", ArrayOf(Simple([TString])), lex);
    TypeOf(Under(a, "taskErrors"), TArray, lex, ArrayOf(Simple([TString])));
  }

  lemma RecordsLostField(a: Value, lex: Lexer)
    requires Conforms(a, SCHEMA, lex)
    ensures At(a, "recordsLost") == Ok(Under(a, "recordsLost")) && (Under(a, "recordsLost").Int? || Under(a, "recordsLost").Null?)
  {
    AnswerField(a, "recordsLost", Simple([TInteger, TNull]), lex);
    EitherType(Under(a, "recordsLost"), TInteger, TNull, lex, Simple([TInteger, TNull]));
  }

  lemma OverlapsField(a: Value, lex: Lexer)
    requires Conforms(a, SCHEMA, lex)
    ensures At(a, "overlaps") == Ok(Under(a, "overlaps")) && Under(a, "overlaps").List?
  {
    AnswerField(a, "overlaps", ArrayOf(OVERLAP), lex);
    TypeOf(Under(a, "overlaps"), TArray, lex, ArrayOf(OVERLAP));
  }

  lemma VerdictField(a: Value, lex: Lexer)
    requires Conforms(a, SCHEMA, lex)
    ensures At(a, "verdict") == Ok(Under(a, "verdict")) && Under(a, "verdict").Str?
  {
    AnswerField(a, "verdict", OneOf(VERDICTS), lex);
    TypeOf(Under(a, "verdict"), TString, lex, OneOf(VERDICTS));
  }

  lemma HeadlineField(a: Value, lex: Lexer)
    requires Conforms(a, SCHEMA, lex)
    ensures At(a, "headline") == Ok(Under(a, "headline")) && Under(a, "headline").Str?
  {
    AnswerField(a, "headline", Simple([TString]), lex);
    TypeOf(Under(a, "headline"), TString, lex, Simple([TString]));
  }

  lemma NextField(a: Value, lex: Lexer)
    requires Conforms(a, SCHEMA, lex)
    ensures At(a, "next") == Ok(Under(a, "next")) && (Under(a, "next").Str? || Under(a, "next").Null?)
  {
    AnswerField(a, "next", Simple([TString, TNull]), lex);
    EitherType(Under(a, "next"), TString, TNull, lex, Simple([TString, TNull]));
  }

  /** `baseline` is null or an object; either way a required field reads as
      null or as what the schema gives it. */
  lemma BaselineField(baseline: Value, key: string, shape: Shape, lex: Lexer)
    requires Conforms(baseline, BASELINE, lex)
    requires key in BASELINE.required && key in BASELINE.props && BASELINE.props[key] == shape
    ensures OfBaseline(Ok(baseline), key).Ok?
    ensures
      var v := OfBaseline(Ok(baseline), key).value;
      v == Null || Conforms(v, shape, lex)
  {
    EitherType(baseline, TObject, TNull, lex, BASELINE);
    if baseline.Dict? {
      RequiredField(baseline, BASELINE, key, lex);
      assert baseline.fields != [];
    }
  }

  lemma BaselineRunId(baseline: Value, lex: Lexer)
    requires Conforms(baseline, BASELINE, lex)
    ensures
      var r := OfBaseline(Ok(baseline), "runId");
      r.Ok? && (r.value.Str? || r.value.Null?)
  {
    var shape := Simple([TString, TNull]);
    BaselineField(baseline, "runId", shape, lex);
    var v := OfBaseline(Ok(baseline), "runId").value;
    if v != Null { EitherType(v, TString, TNull, lex, shape); }
  }

  lemma BaselineFlag(baseline: Value, key: string, lex: Lexer)
    requires Conforms(baseline, BASELINE, lex)
    requires key in BASELINE.required && key in BASELINE.props && BASELINE.props[key] == Simple([TBoolean])
    ensures
      var r := OfBaseline(Ok(baseline), key);
      r.Ok? && (r.value.Bool? || r.value.Null?)
  {
    BaselineField(baseline, key, Simple([TBoolean]), lex);
    var v := OfBaseline(Ok(baseline), key).value;
    if v != Null { TypeOf(v, TBoolean, lex, Simple([TBoolean])); }
  }

  lemma BandRead(band: Value, lex: Lexer)
    requires Conforms(band, BAND, lex)
    ensures In(Ok(band), "runs").Ok? && In(Ok(band), "runs").value.Int?
    ensures In(Ok(band), "metrics").Ok? && In(Ok(band), "metrics").value.List?
    ensures forall m | m in In(Ok(band), "metrics").value.items :: Conforms(m, METRIC, lex)
  {
    TypeOf(band, TObject, lex, BAND);
    RequiredField(band, BAND, "runs", lex);
    RequiredField(band, BAND, "metrics", lex);
    TypeOf(Under(band, "runs"), TInteger, lex, Simple([TInteger]));
    TypeOf(Under(band, "metrics"), TArray, lex, ArrayOf(METRIC));
  }

  /** Every read succeeds and gives a value of the type the rules expect. */
  ghost predicate Readable(r: Reads, lex: Lexer) {
    && r.status.Ok?
    && r.taskErrors.Ok? && r.taskErrors.value.List?
    && r.recordsLost.Ok? && (r.recordsLost.value.Int? || r.recordsLost.value.Null?)
    && r.overlaps.Ok? && r.overlaps.value.List?
    && r.baseline.Ok?
    && r.runId.Ok? && (r.runId.value.Str? || r.runId.value.Null?)
    && r.sameSpec.Ok? && (r.sameSpec.value.Bool? || r.sameSpec.value.Null?)
    && r.flagged.Ok? && (r.flagged.value.Bool? || r.flagged.value.Null?)
    && r.band.Ok?
    && r.runs.Ok? && r.runs.value.Int?
    && r.metrics.Ok? && r.metrics.value.List?
    && (forall m | m in r.metrics.value.items :: Conforms(m, METRIC, lex))
  }

  lemma TopReads(a: Value, lex: Lexer)
    requires Conforms(a, SCHEMA, lex)
    ensures At(a, "status").Ok?
    ensures At(a, "taskErrors").Ok? && At(a, "taskErrors").value.List?
    ensures At(a, "recordsLost").Ok? && (At(a, "recordsLost").value.Int? || At(a, "recordsLost").value.Null?)
    ensures At(a, "overlaps").Ok? && At(a, "overlaps").value.List?
  {
    StatusField(a, lex);
    TaskErrorsField(a, lex);
    RecordsLostField(a, lex);
    OverlapsField(a, lex);
  }

  lemma NestedFields(a: Value, lex: Lexer)
    requires Conforms(a, SCHEMA, lex)
    ensures At(a, "baseline").Ok? && Conforms(At(a, "baseline").value, BASELINE, lex)
    ensures At(a, "band").Ok? && Conforms(At(a, "band").value, BAND, lex)
  {
    AnswerField(a, "baseline", BASELINE, lex);
    AnswerField(a, "band", BAND, lex);
  }

  lemma NestedReads(baseline: Value, band: Value, lex: Lexer)
    requires Conforms(baseline, BASELINE, lex) && Conforms(band, BAND, lex)
    ensures
      var runId := OfBaseline(Ok(baseline), "runId");
      runId.Ok? && (runId.value.Str? || runId.value.Null?)
    ensures
      var same := OfBaseline(Ok(baseline), "sameSpec");
      same.Ok? && (same.value.Bool? || same.value.Null?)
    ensures
      var flagged := OfBaseline(Ok(baseline), "regressionFlagged");
      flagged.Ok? && (flagged.value.Bool? || flagged.value.Null?)
    ensures In(Ok(band), "runs").Ok? && In(Ok(band), "runs").value.Int?
    ensures In(Ok(band), "metrics").Ok? && In(Ok(band), "metrics").value.List?
    ensures forall m | m in In(Ok(band), "metrics").value.items :: Conforms(m, METRIC, lex)
  {
    BaselineRunId(baseline, lex);
    BaselineFlag(baseline, "sameSpec", lex);
    BaselineFlag(baseline, "regressionFlagged", lex);
    BandRead(band, lex);
  }

  lemma AnswerIsReadable(a: Value, lex: Lexer)
    requires Conforms(a, SCHEMA, lex)
    ensures Readable(ReadsOf(a), lex)
  {
    TopReads(a, lex);
    NestedFields(a, lex);
    NestedReads(At(a, "baseline").value, At(a, "band").value, lex);
  }

  lemma CompareOk(r: Reads, sameSpec: bool, lex: Lexer)
    requires Readable(r, lex)
    requires
      var e := EvidenceFrom(r);
      !e.failed && e.taskErrors == 0 && e.recordsLost <= 0 && e.overlaps == 0 && sameSpec == (e.baselineNamed && e.sameSpec)
    ensures
      var verdict := Compare(r.runs, r.metrics, r.flagged, sameSpec);
      verdict.Ok? && Rule(EvidenceFrom(r), verdict.value)
  {
    var items := r.metrics.value.items;
    MetricsRead(items, "latency", "above", lex);
    MetricsRead(items, "latency", "below", lex);
    MetricsRead(items, "throughput", "below", lex);
  }

  lemma DeriveReads(r: Reads, lex: Lexer)
    requires Readable(r, lex)
    ensures DeriveFrom(r).Ok? && Rule(EvidenceFrom(r), DeriveFrom(r).value)
  {
    var e := EvidenceFrom(r);
    if !e.failed && e.taskErrors == 0 && e.recordsLost <= 0 && e.overlaps == 0 {
      CompareOk(r, e.baselineNamed && e.sameSpec, lex);
    }
  }

  // ------------------------------------------------ an answer, key by key

  lemma RunIdField(a: Value, lex: Lexer)
    requires Conforms(a, SCHEMA, lex)
    ensures At(a, "runId") == Ok(Under(a, "runId")) && Under(a, "runId").Str?
  {
    AnswerField(a, "runId", Simple([TString]), lex);
    TypeOf(Under(a, "runId"), TString, lex, Simple([TString]));
  }

  lemma TestTypeField(a: Value, lex: Lexer)
    requires Conforms(a, SCHEMA, lex)
    ensures At(a, "testType") == Ok(Under(a, "testType")) && Under(a, "testType").Str?
  {
    AnswerField(a, "testType", Simple([TString]), lex);
    TypeOf(Under(a, "testType"), TString, lex, Simple([TString]));
  }

  lemma BrokerSkewField(a: Value, lex: Lexer)
    requires Conforms(a, SCHEMA, lex)
    ensures At(a, "brokerSkew") == Ok(Under(a, "brokerSkew")) && (Under(a, "brokerSkew").Str? || Under(a, "brokerSkew").Null?)
  {
    AnswerField(a, "brokerSkew", Simple([TString, TNull]), lex);
    EitherType(Under(a, "brokerSkew"), TString, TNull, lex, Simple([TString, TNull]));
  }

  /** Caveats are ids, lower-case words joined by dashes. */
  lemma CaveatsField(a: Value, lex: Lexer)
    requires Conforms(a, SCHEMA, lex)
    ensures At(a, "caveats") == Ok(Under(a, "caveats")) && Under(a, "caveats").List?
    ensures forall v | v in Under(a, "caveats").items :: v.Str? && lex.matches("^[a-z0-9]+(-[a-z0-9]+)*$", v.s)
  {
    var caveat := Simple([TString]).(pattern := Some(CAVEAT_ID));
    AnswerField(a, "caveats", ArrayOf(caveat), lex);
    TypeOf(Under(a, "caveats"), TArray, lex, ArrayOf(caveat));
    forall v | v in Under(a, "caveats").items ensures v.Str? && lex.matches(CAVEAT_ID, v.s) {
      TypeOf(v, TString, lex, caveat);
    }
  }

  lemma TextsOf(v: Value, shape: Shape, key: string, lex: Lexer)
    requires Conforms(v, shape, lex) && v.Dict? && key in shape.required && key in shape.props && shape.props[key] == Simple([TString])
    ensures Under(v, key).Str?
  {
    RequiredField(v, shape, key, lex);
    TypeOf(Under(v, key), TString, lex, Simple([TString]));
  }

  /** An entry of the evidence names a claim, a tool and a field. */
  lemma EvidenceEntry(v: Value, lex: Lexer)
    requires Conforms(v, EVIDENCE, lex)
    ensures v.Dict? && Under(v, "claim").Str? && Under(v, "tool").Str? && Under(v, "field").Str?
  {
    TypeOf(v, TObject, lex, EVIDENCE);
    TextsOf(v, EVIDENCE, "claim", lex);
    TextsOf(v, EVIDENCE, "tool", lex);
    TextsOf(v, EVIDENCE, "field", lex);
  }

  lemma EvidenceField(a: Value, lex: Lexer)
    requires Conforms(a, SCHEMA, lex)
    ensures At(a, "evidence") == Ok(Under(a, "evidence")) && Under(a, "evidence").List?
    ensures forall v | v in Under(a, "evidence").items :: v.Dict? && Under(v, "claim").Str? && Under(v, "tool").Str? && Under(v, "field").Str?
  {
    AnswerField(a, "evidence", ArrayOf(EVIDENCE), lex);
    TypeOf(Under(a, "evidence"), TArray, lex, ArrayOf(EVIDENCE));
    forall v | v in Under(a, "evidence").items ensures v.Dict? && Under(v, "claim").Str? && Under(v, "tool").Str? && Under(v, "field").Str? {
      EvidenceEntry(v, lex);
    }
  }

  lemma ChoiceOf(v: Value, shape: Shape, key: string, names: seq<string>, lex: Lexer)
    requires Conforms(v, shape, lex) && v.Dict? && key in shape.required && key in shape.props && shape.props[key] == OneOf(names)
    ensures exists name | name in names :: Under(v, key) == Str(name)
  {
    RequiredField(v, shape, key, lex);
  }

  /** An overlap is a run or a disruption, with its id. */
  lemma OverlapEntry(v: Value, lex: Lexer)
    requires Conforms(v, OVERLAP, lex)
    ensures v.Dict? && (Under(v, "kind") == Str("run") || Under(v, "kind") == Str("disruption")) && Under(v, "id").Str?
  {
    TypeOf(v, TObject, lex, OVERLAP);
    ChoiceOf(v, OVERLAP, "kind", ["run", "disruption"], lex);
    TextsOf(v, OVERLAP, "id", lex);
  }

  lemma FigureOf(v: Value, shape: Shape, key: string, lex: Lexer)
    requires Conforms(v, shape, lex) && v.Dict? && key in shape.required && key in shape.props && shape.props[key] == Simple([TNumber])
    ensures Under(v, key).Int? || Under(v, key).Float?
  {
    RequiredField(v, shape, key, lex);
    TypeOf(Under(v, key), TNumber, lex, Simple([TNumber]));
  }

  /** A metric has its name, its kind and position, and three figures. */
  lemma MetricEntry(m: Value, lex: Lexer)
    requires Conforms(m, METRIC, lex)
    ensures m.Dict? && Under(m, "name").Str?
    ensures Under(m, "kind") in {Str("latency"), Str("throughput"), Str("other")}
    ensures Under(m, "position") in {Str("below"), Str("within"), Str("above")}
  {
    TypeOf(m, TObject, lex, METRIC);
    TextsOf(m, METRIC, "name", lex);
    ChoiceOf(m, METRIC, "kind", KINDS, lex);
    ChoiceOf(m, METRIC, "position", POSITIONS, lex);
  }

  lemma MetricFigures(m: Value, lex: Lexer)
    requires Conforms(m, METRIC, lex)
    ensures Under(m, "value").Int? || Under(m, "value").Float?
    ensures Under(m, "min").Int? || Under(m, "min").Float?
    ensures Under(m, "max").Int? || Under(m, "max").Float?
  {
    TypeOf(m, TObject, lex, METRIC);
    FigureOf(m, METRIC, "value", lex);
    FigureOf(m, METRIC, "min", lex);
    FigureOf(m, METRIC, "max", lex);
  }

  const KEYS := ["runId", "testType", "status", "verdict", "headline", "taskErrors", "recordsLost",
    "baseline", "band", "overlaps", "brokerSkew", "caveats", "evidence", "next"]

  /** An answer has these fourteen keys and no other. */
  lemma AnswerKeys(a: Value, lex: Lexer)
    requires Conforms(a, SCHEMA, lex)
    ensures a.Dict? && forall key :: HasKey(a.fields, key) <==> key in KEYS
  {
    assert SCHEMA.required == KEYS;
    TypeOf(a, TObject, lex, SCHEMA);
    forall key | HasKey(a.fields, key) ensures key in SCHEMA.required {
      assert key in SCHEMA.props;
    }
  }

  /** The verdicts have the names an answer may give. */
  lemma NamesAreVerdicts(v: Verdict)
    ensures v.Name() in VERDICTS
    ensures forall w: Verdict :: w.Name() == v.Name() ==> w == v
    ensures v.Name() == "INVALID_RUN" <==> v == InvalidRun
    ensures v.Name() == "NORMAL" <==> v == Normal
  {
    assert VERDICTS == [InvalidRun.Name(), Contaminated.Name(), NotComparable.Name(), Regressed.Name(), Improved.Name(), Normal.Name()];
  }

  // ------------------------------------- the evidence, field by field

  /** The rules over the answer's own fields, each named by its path. */
  ghost predicate Warrants(a: Value, verdict: Verdict) {
    Rule(FieldsOf(a), verdict)
  }

  ghost function FieldsOf(a: Value): Evidence {
    var baseline, band := Under(a, "baseline"), Under(a, "band");
    Evidence(
      failed := Under(a, "status") == Str("FAILED"),
      taskErrors := Entries(Under(a, "taskErrors")),
      recordsLost := Count(Under(a, "recordsLost")),
      overlaps := Entries(Under(a, "overlaps")),
      baselineNamed := IsNamed(Under(baseline, "runId")),
      sameSpec := Under(baseline, "sameSpec") == Bool(true),
      flagged := Under(baseline, "regressionFlagged") == Bool(true),
      runs := Count(Under(band, "runs")),
      metrics := Shown(Under(band, "metrics")))
  }

  ghost function Entries(v: Value): nat {
    match v case List(items) => |items| case _ => 0
  }

  ghost function Count(v: Value): int {
    match v case Int(n) => n case _ => 0
  }

  ghost predicate IsNamed(v: Value) {
    v.Str? && v.s != ""
  }

  /** The kind and the position of each metric, in order. */
  ghost function Shown(v: Value): seq<(string, string)> {
    if v.List? then seq(|v.items|, i requires 0 <= i < |v.items| => KindAndPosition(v.items[i])) else []
  }

  ghost function KindAndPosition(m: Value): (string, string) {
    match (Under(m, "kind"), Under(m, "position"))
    case (Str(kind), Str(position)) => (kind, position)
    case _ => ("", "")
  }

  /** A key's value is the one the mapping holds under it. */
  lemma UnderIsHeld(v: Value, key: string)
    ensures v.Dict? && HasKey(v.fields, key) ==> Field(key, Under(v, key)) in v.fields
    ensures !(v.Dict? && HasKey(v.fields, key)) ==> Under(v, key) == Null
  {
  }

  lemma TopFields(a: Value)
    ensures EvidenceOf(a).failed == (Under(a, "status") == Str("FAILED"))
    ensures EvidenceOf(a).taskErrors == Entries(Under(a, "taskErrors"))
    ensures EvidenceOf(a).recordsLost == Count(Under(a, "recordsLost"))
    ensures EvidenceOf(a).overlaps == Entries(Under(a, "overlaps"))
  {
  }

  lemma BaselineIsRead(a: Value, key: string, lex: Lexer)
    requires Conforms(a, SCHEMA, lex)
    ensures OrNull(OfBaseline(At(a, "baseline"), key)) == Under(Under(a, "baseline"), key)
  {
    NestedFields(a, lex);
    BaselineIsUnder(At(a, "baseline"), key, lex);
  }

  lemma BaselineIsUnder(baseline: Py<Value>, key: string, lex: Lexer)
    requires baseline.Ok? && Conforms(baseline.value, BASELINE, lex)
    ensures OrNull(OfBaseline(baseline, key)) == Under(OrNull(baseline), key)
  {
    EitherType(baseline.value, TObject, TNull, lex, BASELINE);
    ObjectOrNull(baseline.value, key);
  }

  lemma ObjectOrNull(v: Value, key: string)
    requires v.Dict? || v.Null?
    ensures OrNull(OfBaseline(Ok(v), key)) == Under(v, key)
  {
  }

  lemma BandIsRead(a: Value, key: string, lex: Lexer)
    requires Conforms(a, SCHEMA, lex)
    ensures OrNull(In(At(a, "band"), key)) == Under(Under(a, "band"), key)
  {
    NestedFields(a, lex);
  }

  lemma MetricsAreShown(items: seq<Value>, lex: Lexer)
    requires forall m | m in items :: Conforms(m, METRIC, lex)
    ensures MetricsOf(items) == Shown(List(items))
  {
    forall i | 0 <= i < |items| ensures MetricsOf(items)[i] == Shown(List(items))[i] {
      MetricRead(items[i], lex);
    }
  }

  /** Every part of the evidence is the answer's field of its own path. */
  lemma EvidenceIsRead(a: Value, lex: Lexer)
    requires Conforms(a, SCHEMA, lex)
    ensures EvidenceOf(a) == FieldsOf(a)
  {
    TopFields(a);
    BaselineIsRead(a, "runId", lex);
    BaselineIsRead(a, "sameSpec", lex);
    BaselineIsRead(a, "regressionFlagged", lex);
    BandIsRead(a, "runs", lex);
    BandIsRead(a, "metrics", lex);
    AnswerIsReadable(a, lex);
    var metrics := Under(Under(a, "band"), "metrics");
    if metrics.List? { MetricsAreShown(metrics.items, lex); }
  }

  /** For an answer of the right shape no exception is reachable, and the
      verdict is the one the table gives for its fields. */
  lemma DeriveIsTotal(a: Value, lex: Lexer)
    requires Conforms(a, SCHEMA, lex)
    ensures Derive(a).Ok? && Warrants(a, Derive(a).value)
  {
    AnswerIsReadable(a, lex);
    DeriveReads(ReadsOf(a), lex);
    EvidenceIsRead(a, lex);
  }
}
