/** cli/cmd/apply_sla.go and apply.go: the two scopes `kates test apply` grades
    a run's gates at. Figures are reals, int64 counts wrap; what latency a run
    has as a whole is a parameter. */
module ApplySla {
  import opened Values
  import opened Lists

  /** A status in any letter case, as isFailedStatus tells them apart. */
  datatype Status = DONE | FAILED | ERROR | CANCELLED | INTERRUPTED | SUBMITTED | Other(text: string)

  predicate IsFailed(s: Status) { s == FAILED || s == ERROR || s == CANCELLED }

  /** A pointer to a figure: nil, or negative where the backend measured none. */
  datatype Integrity = Integrity(dataLoss: real, outOfOrder: int, crcFailures: int, maxRto: Option<real>, rpo: Option<real>)

  datatype Row = Row(consumer: bool, throughput: real, avg: real, p99: real, integrity: Option<Integrity>)

  datatype Run = Run(status: Status, results: seq<Row>)

  /** A validate block. */
  datatype Gates = Gates(
    maxP99: real, maxAvg: real, minThroughput: real, maxDataLoss: real,
    maxRto: real, maxRpo: real, maxOutOfOrder: int, maxCrcFailures: int, perTask: bool)

  datatype Gate = P99 | Avg | Throughput | DataLoss | Rto | Rpo | OutOfOrder | Crc

  datatype Violation = RunFailed | NotMeasured(gate: Gate) | Broken(gate: Gate, figure: real) | BrokenCount(gate: Gate, count: int)

  /** Latency over a run's rows: latencyOf and measuredLatency. */
  datatype Latency = Latency(p99: real, avg: real)
  datatype Meter = Meter(latency: seq<Row> -> Latency, measured: seq<Row> -> bool)

  function Note(vs: seq<Violation>, c: bool, x: Violation): seq<Violation> { if c then vs + [x] else vs }

  function Measured(v: Option<real>): Option<real> {
    if v.Some? && v.value < 0.0 then None else v
  }

  const WIDTH := 0x1_0000_0000_0000_0000

  /** int64 addition's result. */
  function Wrap(n: int): (w: int)
    ensures -WIDTH / 2 <= w < WIDTH / 2
    ensures -WIDTH / 2 <= n < WIDTH / 2 ==> w == n
  {
    (n + WIDTH / 2) % WIDTH - WIDTH / 2
  }

  function Max(a: real, b: real): real { if a < b then b else a }

  // ----------------------------------------------------------- the task scope

  function NoteMeasured(vs: seq<Violation>, gate: Gate, bound: real, v: Option<real>): seq<Violation> {
    if v.Some? then Note(vs, bound > 0.0 && v.value > bound, Broken(gate, v.value)) else vs
  }

  function NoteIntegrity(vs: seq<Violation>, ir: Integrity, g: Gates): seq<Violation> {
    var a := Note(vs, g.maxDataLoss >= 0.0 && ir.dataLoss > g.maxDataLoss, Broken(DataLoss, ir.dataLoss));
    var b := NoteMeasured(a, Rto, g.maxRto, Measured(ir.maxRto));
    var c := NoteMeasured(b, Rpo, g.maxRpo, Measured(ir.rpo));
    var d := Note(c, g.maxOutOfOrder >= 0 && ir.outOfOrder > g.maxOutOfOrder, BrokenCount(OutOfOrder, ir.outOfOrder));
    Note(d, g.maxCrcFailures >= 0 && ir.crcFailures > g.maxCrcFailures, BrokenCount(Crc, ir.crcFailures))
  }

  function NoteRow(vs: seq<Violation>, r: Row, g: Gates): seq<Violation> {
    var a := Note(vs, g.maxP99 > 0.0 && r.p99 > g.maxP99, Broken(P99, r.p99));
    var b := Note(a, g.maxAvg > 0.0 && r.avg > g.maxAvg, Broken(Avg, r.avg));
    var c := Note(b, g.minThroughput > 0.0 && r.throughput < g.minThroughput, Broken(Throughput, r.throughput));
    match r.integrity case Some(ir) => NoteIntegrity(c, ir, g) case None => c
  }

  function NoteRows(vs: seq<Violation>, rows: seq<Row>, g: Gates): seq<Violation> {
    if rows == [] then vs else NoteRow(NoteRows(vs, rows[..|rows| - 1], g), rows[|rows| - 1], g)
  }

  /** The violation a run gets for having failed. */
  function Opening(run: Run): seq<Violation> { Note([], IsFailed(run.status), RunFailed) }

  /** Neither does a run without latency meet a latency gate. */
  function NoteUnmeasured(vs: seq<Violation>, g: Gates): seq<Violation> {
    Note(Note(vs, g.maxP99 > 0.0, NotMeasured(P99)), g.maxAvg > 0.0, NotMeasured(Avg))
  }

  function TaskViolations(run: Run, g: Gates, m: Meter): seq<Violation> {
    NoteRows(if m.measured(run.results) then Opening(run) else NoteUnmeasured(Opening(run), g), run.results, g)
  }

  /** validateSLAs */
  method ValidateSLAs(run: Run, g: Gates, m: Meter) returns (violations: seq<Violation>)
    ensures violations == TaskViolations(run, g, m)
  {
    violations := [];
    if IsFailed(run.status) {
      violations := violations + [RunFailed];
    }
    if !m.measured(run.results) {
      if g.maxP99 > 0.0 {
        violations := violations + [NotMeasured(P99)];
      }
      if g.maxAvg > 0.0 {
        violations := violations + [NotMeasured(Avg)];
      }
    }
    ghost var before := violations;
    for i := 0 to |run.results|
      invariant violations == NoteRows(before, run.results[..i], g)
    {
      assert run.results[..i + 1][..i] == run.results[..i];
      violations := ValidateRow(violations, run.results[i], g);
    }
    assert run.results[..|run.results|] == run.results;
  }

  method ValidateRow(before: seq<Violation>, r: Row, g: Gates) returns (violations: seq<Violation>)
    ensures violations == NoteRow(before, r, g)
  {
    violations := before;
    if g.maxP99 > 0.0 && r.p99 > g.maxP99 {
      violations := violations + [Broken(P99, r.p99)];
    }
    if g.maxAvg > 0.0 && r.avg > g.maxAvg {
      violations := violations + [Broken(Avg, r.avg)];
    }
    if g.minThroughput > 0.0 && r.throughput < g.minThroughput {
      violations := violations + [Broken(Throughput, r.throughput)];
    }
    if r.integrity.Some? {
      violations := ValidateIntegrity(violations, r.integrity.value, g);
    }
  }

  method ValidateIntegrity(before: seq<Violation>, ir: Integrity, g: Gates) returns (violations: seq<Violation>)
    ensures violations == NoteIntegrity(before, ir, g)
  {
    violations := before;
    if g.maxDataLoss >= 0.0 && ir.dataLoss > g.maxDataLoss {
      violations := violations + [Broken(DataLoss, ir.dataLoss)];
    }
    var rto := Measured(ir.maxRto);
    if rto.Some? && g.maxRto > 0.0 && rto.value > g.maxRto {
      violations := violations + [Broken(Rto, rto.value)];
    }
    var rpo := Measured(ir.rpo);
    if rpo.Some? && g.maxRpo > 0.0 && rpo.value > g.maxRpo {
      violations := violations + [Broken(Rpo, rpo.value)];
    }
    if g.maxOutOfOrder >= 0 && ir.outOfOrder > g.maxOutOfOrder {
      violations := violations + [BrokenCount(OutOfOrder, ir.outOfOrder)];
    }
    if g.maxCrcFailures >= 0 && ir.crcFailures > g.maxCrcFailures {
      violations := violations + [BrokenCount(Crc, ir.crcFailures)];
    }
  }

  // --------------------------------------------------------- the report scope

  function Producers(rows: seq<Row>): seq<Row> { Filter(rows, (r: Row) => !r.consumer) }

  /** The rows whose rates add up: those of producers, or all without any. */
  function ProducerRows(rows: seq<Row>): seq<Row> {
    if Producers(rows) == [] then rows else Producers(rows)
  }

  /** The integrity part of runAggregate. */
  datatype Aggregate = Aggregate(integrity: bool, dataLoss: real, outOfOrder: int, crcFailures: int, rto: Option<real>, rpo: Option<real>)

  const NOTHING := Aggregate(false, 0.0, 0, 0, None, None)

  function Worst(a: Option<real>, b: Option<real>): Option<real> {
    if b.None? then a else Some(Max(if a.Some? then a.value else 0.0, b.value))
  }

  /** One more row. */
  function Add(a: Aggregate, r: Row): Aggregate {
    match r.integrity
    case None => a
    case Some(ir) =>
      Aggregate(true, Max(a.dataLoss, ir.dataLoss), Wrap(a.outOfOrder + ir.outOfOrder), Wrap(a.crcFailures + ir.crcFailures),
                Worst(a.rto, Measured(ir.maxRto)), Worst(a.rpo, Measured(ir.rpo)))
  }

  /** What a loop over the rows leaves, from `start`. */
  function Fold<A>(rows: seq<Row>, start: A, add: (A, Row) -> A): A {
    if rows == [] then start else add(Fold(rows[..|rows| - 1], start, add), rows[|rows| - 1])
  }

  function AddRate(total: real, r: Row): real { total + r.throughput }

  function IntegrityOf(rows: seq<Row>): Aggregate { Fold(rows, NOTHING, Add) }
  function ThroughputOf(rows: seq<Row>): real { Fold(ProducerRows(rows), 0.0, AddRate) }

  /** aggregateRun, without the latency. */
  method AggregateRun(results: seq<Row>) returns (throughput: real, a: Aggregate)
    ensures throughput == ThroughputOf(results) && a == IntegrityOf(results)
  {
    throughput, a := 0.0, NOTHING;
    var rows := ProducerRows(results);
    for i := 0 to |rows|
      invariant throughput == Fold(rows[..i], 0.0, AddRate)
    {
      assert rows[..i + 1][..i] == rows[..i];
      throughput := throughput + rows[i].throughput;
    }
    assert rows[..|rows|] == rows;
    for i := 0 to |results|
      invariant a == Fold(results[..i], NOTHING, Add)
    {
      assert results[..i + 1][..i] == results[..i];
      if results[i].integrity.None? {
        continue;
      }
      var ir := results[i].integrity.value;
      a := a.(integrity := true, dataLoss := Max(a.dataLoss, ir.dataLoss));
      a := a.(outOfOrder := Wrap(a.outOfOrder + ir.outOfOrder), crcFailures := Wrap(a.crcFailures + ir.crcFailures));
      var rto, rpo := Measured(ir.maxRto), Measured(ir.rpo);
      if rto.Some? {
        a := a.(rto := Some(Max(if a.rto.Some? then a.rto.value else 0.0, rto.value)));
      }
      if rpo.Some? {
        a := a.(rpo := Some(Max(if a.rpo.Some? then a.rpo.value else 0.0, rpo.value)));
      }
    }
    assert results[..|results|] == results;
  }

  function NoteLatency(vs: seq<Violation>, l: Latency, g: Gates): seq<Violation> {
    Note(Note(vs, g.maxP99 > 0.0 && l.p99 > g.maxP99, Broken(P99, l.p99)), g.maxAvg > 0.0 && l.avg > g.maxAvg, Broken(Avg, l.avg))
  }

  function NoteAggregate(vs: seq<Violation>, a: Aggregate, g: Gates): seq<Violation> {
    var b := Note(vs, g.maxDataLoss >= 0.0 && a.dataLoss > g.maxDataLoss, Broken(DataLoss, a.dataLoss));
    var c := NoteMeasured(b, Rto, g.maxRto, a.rto);
    var d := NoteMeasured(c, Rpo, g.maxRpo, a.rpo);
    var e := Note(d, g.maxOutOfOrder >= 0 && a.outOfOrder > g.maxOutOfOrder, BrokenCount(OutOfOrder, a.outOfOrder));
    Note(e, g.maxCrcFailures >= 0 && a.crcFailures > g.maxCrcFailures, BrokenCount(Crc, a.crcFailures))
  }

  function NoteThroughput(vs: seq<Violation>, throughput: real, g: Gates): seq<Violation> {
    Note(vs, g.minThroughput > 0.0 && throughput < g.minThroughput, Broken(Throughput, throughput))
  }

  function ReportViolations(run: Run, g: Gates, m: Meter): seq<Violation> {
    var a := IntegrityOf(run.results);
    var vs := if m.measured(run.results) then NoteLatency(Opening(run), m.latency(run.results), g) else NoteUnmeasured(Opening(run), g);
    var ws := NoteThroughput(vs, ThroughputOf(run.results), g);
    if a.integrity then NoteAggregate(ws, a, g) else ws
  }

  /** validateSLAsAggregate */
  method ValidateSLAsAggregate(run: Run, g: Gates, m: Meter) returns (violations: seq<Violation>)
    ensures violations == ReportViolations(run, g, m)
  {
    violations := [];
    if IsFailed(run.status) {
      violations := violations + [RunFailed];
    }
    var throughput, a := AggregateRun(run.results);
    if !m.measured(run.results) {
      if g.maxP99 > 0.0 {
        violations := violations + [NotMeasured(P99)];
      }
      if g.maxAvg > 0.0 {
        violations := violations + [NotMeasured(Avg)];
      }
    } else {
      var l := m.latency(run.results);
      if g.maxP99 > 0.0 && l.p99 > g.maxP99 {
        violations := violations + [Broken(P99, l.p99)];
      }
      if g.maxAvg > 0.0 && l.avg > g.maxAvg {
        violations := violations + [Broken(Avg, l.avg)];
      }
    }
    if g.minThroughput > 0.0 && throughput < g.minThroughput {
      violations := violations + [Broken(Throughput, throughput)];
    }
    if !a.integrity {
      return;
    }
    violations := ValidateAggregate(violations, a, g);
  }

  method ValidateAggregate(before: seq<Violation>, a: Aggregate, g: Gates) returns (violations: seq<Violation>)
    ensures violations == NoteAggregate(before, a, g)
  {
    violations := before;
    if g.maxDataLoss >= 0.0 && a.dataLoss > g.maxDataLoss {
      violations := violations + [Broken(DataLoss, a.dataLoss)];
    }
    if a.rto.Some? && g.maxRto > 0.0 && a.rto.value > g.maxRto {
      violations := violations + [Broken(Rto, a.rto.value)];
    }
    if a.rpo.Some? && g.maxRpo > 0.0 && a.rpo.value > g.maxRpo {
      violations := violations + [Broken(Rpo, a.rpo.value)];
    }
    if g.maxOutOfOrder >= 0 && a.outOfOrder > g.maxOutOfOrder {
      violations := violations + [BrokenCount(OutOfOrder, a.outOfOrder)];
    }
    if g.maxCrcFailures >= 0 && a.crcFailures > g.maxCrcFailures {
      violations := violations + [BrokenCount(Crc, a.crcFailures)];
    }
  }

  // ------------------------------------------------------------- the grading

  /** unevaluableSLAs: the declared gates the run measured nothing for. */
  function NotEvaluable(run: Run, g: Gates): seq<Gate> {
    (if g.maxRto > 0.0 && !(exists r | r in run.results :: r.integrity.Some? && Measured(r.integrity.value.maxRto).Some?) then [Rto] else [])
    + (if g.maxRpo > 0.0 && !(exists r | r in run.results :: r.integrity.Some? && Measured(r.integrity.value.rpo).Some?) then [Rpo] else [])
  }

  method UnevaluableSLAs(run: Run, g: Gates) returns (gates: seq<Gate>)
    ensures gates == NotEvaluable(run, g)
  {
    var rtoMeasured, rpoMeasured := false, false;
    for i := 0 to |run.results|
      invariant rtoMeasured <==> exists r | r in run.results[..i] :: r.integrity.Some? && Measured(r.integrity.value.maxRto).Some?
      invariant rpoMeasured <==> exists r | r in run.results[..i] :: r.integrity.Some? && Measured(r.integrity.value.rpo).Some?
    {
      var r := run.results[i];
      assert run.results[..i + 1] == run.results[..i] + [r];
      if r.integrity.None? {
        continue;
      }
      if Measured(r.integrity.value.maxRto).Some? {
        rtoMeasured := true;
      }
      if Measured(r.integrity.value.rpo).Some? {
        rpoMeasured := true;
      }
    }
    assert run.results[..|run.results|] == run.results;
    gates := [];
    if g.maxRto > 0.0 && !rtoMeasured {
      gates := gates + [Rto];
    }
    if g.maxRpo > 0.0 && !rpoMeasured {
      gates := gates + [Rpo];
    }
  }

  datatype Scope = Report | Task
  datatype Grade = Grade(scope: Scope, violations: seq<Violation>, notEvaluable: seq<Gate>)

  /** scenarioSLAScope; `flag` is --sla-scope, None when not given. */
  function ScenarioScope(g: Option<Gates>, flag: Option<Scope>): Scope {
    if g.Some? && g.value.perTask then Task else if flag.None? then Report else flag.value
  }

  function GradeOf(run: Run, g: Option<Gates>, scope: Scope, m: Meter): Option<Grade> {
    match g
    case None => None
    case Some(v) =>
      Some(Grade(scope, if scope == Report then ReportViolations(run, v, m) else TaskViolations(run, v, m), NotEvaluable(run, v)))
  }

  method GradeScenario(run: Run, g: Option<Gates>, scope: Scope, m: Meter) returns (r: Option<Grade>)
    ensures r == GradeOf(run, g, scope, m)
  {
    if g.None? {
      return None;
    }
    var violations := ValidateSLAs(run, g.value, m);
    if scope == Report {
      violations := ValidateSLAsAggregate(run, g.value, m);
    }
    var gates := UnevaluableSLAs(run, g.value);
    r := Some(Grade(scope, violations, gates));
  }
}
