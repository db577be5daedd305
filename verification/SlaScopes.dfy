/** How the report scope and the task scope of one grading agree. */
module SlaScopes {
  import opened Values
  import opened Lists
  import opened ApplySla

  predicate IsBreak(v: Violation, gate: Gate) { (v.Broken? || v.BrokenCount?) && v.gate == gate }

  predicate Breaks(vs: seq<Violation>, gate: Gate) { exists v | v in vs :: IsBreak(v, gate) }

  /** One row breaks the gate. */
  predicate RowBreaks(r: Row, g: Gates, gate: Gate) {
    match gate
    case P99 => g.maxP99 > 0.0 && r.p99 > g.maxP99
    case Avg => g.maxAvg > 0.0 && r.avg > g.maxAvg
    case Throughput => g.minThroughput > 0.0 && r.throughput < g.minThroughput
    case _ => r.integrity.Some? && IntegrityBreaks(r.integrity.value, g, gate)
  }

  predicate Exceeds(v: Option<real>, bound: real) { v.Some? && bound > 0.0 && v.value > bound }

  predicate IntegrityBreaks(ir: Integrity, g: Gates, gate: Gate) {
    match gate
    case DataLoss => g.maxDataLoss >= 0.0 && ir.dataLoss > g.maxDataLoss
    case Rto => Exceeds(ir.maxRto, g.maxRto)
    case Rpo => Exceeds(ir.rpo, g.maxRpo)
    case OutOfOrder => g.maxOutOfOrder >= 0 && ir.outOfOrder > g.maxOutOfOrder
    case Crc => g.maxCrcFailures >= 0 && ir.crcFailures > g.maxCrcFailures
    case _ => false
  }

  predicate AggregateBreaks(a: Aggregate, g: Gates, gate: Gate) {
    match gate
    case DataLoss => g.maxDataLoss >= 0.0 && a.dataLoss > g.maxDataLoss
    case Rto => Exceeds(a.rto, g.maxRto)
    case Rpo => Exceeds(a.rpo, g.maxRpo)
    case OutOfOrder => g.maxOutOfOrder >= 0 && a.outOfOrder > g.maxOutOfOrder
    case Crc => g.maxCrcFailures >= 0 && a.crcFailures > g.maxCrcFailures
    case _ => false
  }

  lemma NoteBreaks(vs: seq<Violation>, c: bool, x: Violation, gate: Gate)
    ensures Breaks(Note(vs, c, x), gate) <==> Breaks(vs, gate) || (c && IsBreak(x, gate))
  {
    if Breaks(vs, gate) {
      var v :| v in vs && IsBreak(v, gate);
      assert v in Note(vs, c, x);
    }
    if c { assert x in Note(vs, c, x); }
  }

  lemma MeasuredBreaks(vs: seq<Violation>, which: Gate, bound: real, v: Option<real>, gate: Gate)
    ensures Breaks(NoteMeasured(vs, which, bound, v), gate) <==> Breaks(vs, gate) || (which == gate && Exceeds(v, bound))
  {
    if v.Some? { NoteBreaks(vs, bound > 0.0 && v.value > bound, Broken(which, v.value), gate); }
  }

  lemma IntegrityNotes(vs: seq<Violation>, ir: Integrity, g: Gates, gate: Gate)
    ensures Breaks(NoteIntegrity(vs, ir, g), gate) <==> Breaks(vs, gate) || IntegrityBreaks(ir, g, gate)
  {
    var a := Note(vs, g.maxDataLoss >= 0.0 && ir.dataLoss > g.maxDataLoss, Broken(DataLoss, ir.dataLoss));
    NoteBreaks(vs, g.maxDataLoss >= 0.0 && ir.dataLoss > g.maxDataLoss, Broken(DataLoss, ir.dataLoss), gate);
    var b := NoteMeasured(a, Rto, g.maxRto, Measured(ir.maxRto));
    MeasuredBreaks(a, Rto, g.maxRto, Measured(ir.maxRto), gate);
    var c := NoteMeasured(b, Rpo, g.maxRpo, Measured(ir.rpo));
    MeasuredBreaks(b, Rpo, g.maxRpo, Measured(ir.rpo), gate);
    var d := Note(c, g.maxOutOfOrder >= 0 && ir.outOfOrder > g.maxOutOfOrder, BrokenCount(OutOfOrder, ir.outOfOrder));
    NoteBreaks(c, g.maxOutOfOrder >= 0 && ir.outOfOrder > g.maxOutOfOrder, BrokenCount(OutOfOrder, ir.outOfOrder), gate);
    NoteBreaks(d, g.maxCrcFailures >= 0 && ir.crcFailures > g.maxCrcFailures, BrokenCount(Crc, ir.crcFailures), gate);
  }

  lemma AggregateNotes(vs: seq<Violation>, a: Aggregate, g: Gates, gate: Gate)
    ensures Breaks(NoteAggregate(vs, a, g), gate) <==> Breaks(vs, gate) || AggregateBreaks(a, g, gate)
  {
    var b := Note(vs, g.maxDataLoss >= 0.0 && a.dataLoss > g.maxDataLoss, Broken(DataLoss, a.dataLoss));
    NoteBreaks(vs, g.maxDataLoss >= 0.0 && a.dataLoss > g.maxDataLoss, Broken(DataLoss, a.dataLoss), gate);
    var c := NoteMeasured(b, Rto, g.maxRto, a.rto);
    MeasuredBreaks(b, Rto, g.maxRto, a.rto, gate);
    var d := NoteMeasured(c, Rpo, g.maxRpo, a.rpo);
    MeasuredBreaks(c, Rpo, g.maxRpo, a.rpo, gate);
    var e := Note(d, g.maxOutOfOrder >= 0 && a.outOfOrder > g.maxOutOfOrder, BrokenCount(OutOfOrder, a.outOfOrder));
    NoteBreaks(d, g.maxOutOfOrder >= 0 && a.outOfOrder > g.maxOutOfOrder, BrokenCount(OutOfOrder, a.outOfOrder), gate);
    NoteBreaks(e, g.maxCrcFailures >= 0 && a.crcFailures > g.maxCrcFailures, BrokenCount(Crc, a.crcFailures), gate);
  }

  lemma RowNotes(vs: seq<Violation>, r: Row, g: Gates, gate: Gate)
    ensures Breaks(NoteRow(vs, r, g), gate) <==> Breaks(vs, gate) || RowBreaks(r, g, gate)
  {
    var a := Note(vs, g.maxP99 > 0.0 && r.p99 > g.maxP99, Broken(P99, r.p99));
    NoteBreaks(vs, g.maxP99 > 0.0 && r.p99 > g.maxP99, Broken(P99, r.p99), gate);
    var b := Note(a, g.maxAvg > 0.0 && r.avg > g.maxAvg, Broken(Avg, r.avg));
    NoteBreaks(a, g.maxAvg > 0.0 && r.avg > g.maxAvg, Broken(Avg, r.avg), gate);
    var c := Note(b, g.minThroughput > 0.0 && r.throughput < g.minThroughput, Broken(Throughput, r.throughput));
    NoteBreaks(b, g.minThroughput > 0.0 && r.throughput < g.minThroughput, Broken(Throughput, r.throughput), gate);
    if r.integrity.Some? { IntegrityNotes(c, r.integrity.value, g, gate); }
  }

  lemma {:induction false} RowsNotes(vs: seq<Violation>, rows: seq<Row>, g: Gates, gate: Gate)
    ensures Breaks(NoteRows(vs, rows, g), gate) <==> Breaks(vs, gate) || exists r :: r in rows && RowBreaks(r, g, gate)
  {
    if rows != [] {
      var n := |rows| - 1;
      RowsNotes(vs, rows[..n], g, gate);
      RowNotes(NoteRows(vs, rows[..n], g), rows[n], g, gate);
      assert rows == rows[..n] + [rows[n]];
    }
  }

  lemma OpeningBreaksNothing(run: Run, g: Gates, gate: Gate)
    ensures !Breaks(Opening(run), gate) && !Breaks(NoteUnmeasured(Opening(run), g), gate)
  {
    NoteBreaks([], IsFailed(run.status), RunFailed, gate);
    NoteBreaks(Opening(run), g.maxP99 > 0.0, NotMeasured(P99), gate);
    NoteBreaks(Note(Opening(run), g.maxP99 > 0.0, NotMeasured(P99)), g.maxAvg > 0.0, NotMeasured(Avg), gate);
  }

  /** The task scope breaks a gate exactly when some row does. */
  lemma TaskBreaks(run: Run, g: Gates, m: Meter, gate: Gate)
    ensures Breaks(TaskViolations(run, g, m), gate) <==> exists r :: r in run.results && RowBreaks(r, g, gate)
  {
    OpeningBreaksNothing(run, g, gate);
    RowsNotes(if m.measured(run.results) then Opening(run) else NoteUnmeasured(Opening(run), g), run.results, g, gate);
  }

  predicate IsLatency(gate: Gate) { gate == P99 || gate == Avg }

  /** The report scope breaks a gate, latency apart, exactly when the aggregate does. */
  lemma ReportBreaks(run: Run, g: Gates, m: Meter, gate: Gate)
    requires !IsLatency(gate)
    ensures Breaks(ReportViolations(run, g, m), gate) <==>
      if gate == Throughput then g.minThroughput > 0.0 && ThroughputOf(run.results) < g.minThroughput
      else IntegrityOf(run.results).integrity && AggregateBreaks(IntegrityOf(run.results), g, gate)
  {
    var a, t := IntegrityOf(run.results), ThroughputOf(run.results);
    OpeningBreaksNothing(run, g, gate);
    var vs := if m.measured(run.results) then NoteLatency(Opening(run), m.latency(run.results), g) else NoteUnmeasured(Opening(run), g);
    LatencyNotes(Opening(run), m.latency(run.results), g, gate);
    NoteBreaks(vs, g.minThroughput > 0.0 && t < g.minThroughput, Broken(Throughput, t), gate);
    AggregateNotes(NoteThroughput(vs, t, g), a, g, gate);
  }

  lemma LatencyNotes(vs: seq<Violation>, l: Latency, g: Gates, gate: Gate)
    requires !IsLatency(gate)
    ensures Breaks(NoteLatency(vs, l, g), gate) <==> Breaks(vs, gate)
  {
    NoteBreaks(vs, g.maxP99 > 0.0 && l.p99 > g.maxP99, Broken(P99, l.p99), gate);
    NoteBreaks(Note(vs, g.maxP99 > 0.0 && l.p99 > g.maxP99, Broken(P99, l.p99)), g.maxAvg > 0.0 && l.avg > g.maxAvg, Broken(Avg, l.avg), gate);
  }

  // ------------------------------------------------------- the worst of the rows

  lemma {:induction false} WorstOfRows(rows: seq<Row>, g: Gates, gate: Gate)
    requires gate == DataLoss || gate == Rto || gate == Rpo
    ensures IntegrityOf(rows).integrity <==> exists r :: r in rows && r.integrity.Some?
    ensures IntegrityOf(rows).dataLoss >= 0.0
    ensures AggregateBreaks(IntegrityOf(rows), g, gate) <==> exists r :: r in rows && RowBreaks(r, g, gate)
  {
    if rows != [] {
      var n := |rows| - 1;
      WorstOfRows(rows[..n], g, gate);
      WorseRow(IntegrityOf(rows[..n]), rows[n], g, gate);
      assert rows == rows[..n] + [rows[n]];
    }
  }

  lemma WorseRow(a: Aggregate, r: Row, g: Gates, gate: Gate)
    requires (gate == DataLoss || gate == Rto || gate == Rpo) && a.dataLoss >= 0.0
    ensures AggregateBreaks(Add(a, r), g, gate) <==> AggregateBreaks(a, g, gate) || RowBreaks(r, g, gate)
  {
  }

  /** A loss, RTO or RPO gate breaks at the report scope exactly when it breaks
      on some row. */
  lemma WorstGatesAgree(run: Run, g: Gates, m: Meter, gate: Gate)
    requires gate == DataLoss || gate == Rto || gate == Rpo
    ensures Breaks(ReportViolations(run, g, m), gate) <==> Breaks(TaskViolations(run, g, m), gate)
  {
    TaskBreaks(run, g, m, gate);
    ReportBreaks(run, g, m, gate);
    WorstOfRows(run.results, g, gate);
  }

  // ------------------------------------------------------------------ the sums

  function CountOf(r: Row, gate: Gate): int {
    match r.integrity
    case None => 0
    case Some(ir) => if gate == OutOfOrder then ir.outOfOrder else ir.crcFailures
  }

  function Total(rows: seq<Row>, gate: Gate): int {
    if rows == [] then 0 else Total(rows[..|rows| - 1], gate) + CountOf(rows[|rows| - 1], gate)
  }

  lemma WrapAdds(a: int, b: int)
    ensures Wrap(Wrap(a) + b) == Wrap(a + b)
  {
    var x := a + WIDTH / 2;
    assert x == x / WIDTH * WIDTH + x % WIDTH;
    ModShift(x % WIDTH + b, x / WIDTH);
  }

  lemma ModShift(n: int, k: int)
    ensures (n + k * WIDTH) % WIDTH == n % WIDTH
  {
    var q := n / WIDTH;
    assert n + k * WIDTH == (q + k) * WIDTH + n % WIDTH;
  }

  /** The counts the report scope holds are the totals, as int64 has them. */
  lemma {:induction false} CountsAreTotals(rows: seq<Row>)
    ensures IntegrityOf(rows).outOfOrder == Wrap(Total(rows, OutOfOrder))
    ensures IntegrityOf(rows).crcFailures == Wrap(Total(rows, Crc))
    ensures (exists r :: r in rows && r.integrity.Some?) ==> IntegrityOf(rows).integrity
  {
    if rows != [] {
      var n := |rows| - 1;
      CountsAreTotals(rows[..n]);
      WrapAdds(Total(rows[..n], OutOfOrder), CountOf(rows[n], OutOfOrder));
      WrapAdds(Total(rows[..n], Crc), CountOf(rows[n], Crc));
      assert rows == rows[..n] + [rows[n]];
    }
  }

  lemma {:induction false} TotalHoldsEach(rows: seq<Row>, gate: Gate)
    requires forall r | r in rows :: CountOf(r, gate) >= 0
    ensures Total(rows, gate) >= 0 && forall r | r in rows :: CountOf(r, gate) <= Total(rows, gate)
    ensures Total(rows, gate) > 0 ==> exists r :: r in rows && r.integrity.Some?
  {
    if rows != [] {
      var n := |rows| - 1;
      assert rows == rows[..n] + [rows[n]];
      TotalHoldsEach(rows[..n], gate);
    }
  }

  function BoundOf(g: Gates, gate: Gate): int { if gate == OutOfOrder then g.maxOutOfOrder else g.maxCrcFailures }

  lemma CountsBreak(rows: seq<Row>, g: Gates, gate: Gate)
    requires gate == OutOfOrder || gate == Crc
    ensures AggregateBreaks(IntegrityOf(rows), g, gate) <==> BoundOf(g, gate) >= 0 && Wrap(Total(rows, gate)) > BoundOf(g, gate)
    ensures (exists r :: r in rows && r.integrity.Some?) ==> IntegrityOf(rows).integrity
    ensures (exists r :: r in rows && RowBreaks(r, g, gate)) <==> exists r :: r in rows && r.integrity.Some? && BoundOf(g, gate) >= 0 && CountOf(r, gate) > BoundOf(g, gate)
  {
    CountsAreTotals(rows);
    if r :| r in rows && r.integrity.Some? && BoundOf(g, gate) >= 0 && CountOf(r, gate) > BoundOf(g, gate) {
      assert RowBreaks(r, g, gate);
    }
  }

  predicate IsCount(gate: Gate) { gate == OutOfOrder || gate == Crc }

  /** Some row has more than the bound allows. */
  predicate RowExceeds(rows: seq<Row>, g: Gates, gate: Gate) {
    BoundOf(g, gate) >= 0 && exists r :: r in rows && r.integrity.Some? && CountOf(r, gate) > BoundOf(g, gate)
  }

  /** The total, as int64 has it, is more than the bound allows. */
  predicate TotalExceeds(rows: seq<Row>, g: Gates, gate: Gate) {
    BoundOf(g, gate) >= 0 && Wrap(Total(rows, gate)) > BoundOf(g, gate)
  }

  /** An out-of-order or CRC gate breaks at the task scope exactly on a row's
      count, and at the report scope exactly on the total that int64 has; so what
      the rows break the report misses exactly when that total is within the
      bound, which takes a negative count or a total past int64. */
  lemma CountGatesAgree(run: Run, g: Gates, m: Meter, gate: Gate)
    requires IsCount(gate)
    ensures Breaks(TaskViolations(run, g, m), gate) <==> RowExceeds(run.results, g, gate)
    ensures Breaks(ReportViolations(run, g, m), gate) <==> TotalExceeds(run.results, g, gate)
    ensures (forall r | r in run.results :: CountOf(r, gate) >= 0) && Total(run.results, gate) < WIDTH / 2 ==>
              (Breaks(TaskViolations(run, g, m), gate) ==> Breaks(ReportViolations(run, g, m), gate))
  {
    TaskBreaks(run, g, m, gate);
    ReportBreaks(run, g, m, gate);
    CountsBreak(run.results, g, gate);
    TotalNeedsIntegrity(run.results, gate);
    if forall r | r in run.results :: CountOf(r, gate) >= 0 { TotalHoldsEach(run.results, gate); }
  }

  lemma {:induction false} TotalNeedsIntegrity(rows: seq<Row>, gate: Gate)
    ensures (forall r | r in rows :: r.integrity.None?) ==> Total(rows, gate) == 0
  {
    if rows != [] {
      var n := |rows| - 1;
      TotalNeedsIntegrity(rows[..n], gate);
      assert rows == rows[..n] + [rows[n]];
    }
  }

  /** Past int64 the total wraps: both rows break the gate and the report does not. */
  lemma TotalWraps(run: Run, g: Gates, m: Meter, r: Row)
    requires run.results == [r, r] && CountOf(r, OutOfOrder) == WIDTH / 4 && g.maxOutOfOrder == 0
    ensures Breaks(TaskViolations(run, g, m), OutOfOrder) && !Breaks(ReportViolations(run, g, m), OutOfOrder)
  {
    TotalOfTwo(r, OutOfOrder);
    WrapsBelow(run.results, g);
    TaskBreaks(run, g, m, OutOfOrder);
    ReportBreaks(run, g, m, OutOfOrder);
    assert r in run.results;
  }

  lemma WrapsBelow(rows: seq<Row>, g: Gates)
    requires Total(rows, OutOfOrder) == WIDTH / 2 && g.maxOutOfOrder == 0
    ensures !AggregateBreaks(IntegrityOf(rows), g, OutOfOrder)
  {
    CountsBreak(rows, g, OutOfOrder);
    assert Wrap(WIDTH / 2) == -WIDTH / 2;
  }

  lemma TotalOfTwo(r: Row, gate: Gate)
    ensures Total([r, r], gate) == 2 * CountOf(r, gate)
  {
    assert [r, r][..1] == [r] && [r][..0] == [];
    assert Total([r], gate) == CountOf(r, gate);
  }

  /** The rates of the rows that are not consumers', or of all, added up. */
  function SumOf(rows: seq<Row>, all: bool): real {
    if rows == [] then 0.0
    else SumOf(rows[1..], all) + if all || !rows[0].consumer then rows[0].throughput else 0.0
  }

  lemma {:induction false} FoldIsSum(rows: seq<Row>)
    ensures Fold(rows, 0.0, AddRate) == SumOf(rows, true)
  {
    if rows != [] {
      FoldIsSum(rows[1..]);
      FoldHead(rows, 0.0);
    }
  }

  lemma {:induction false} FoldHead(rows: seq<Row>, start: real)
    requires rows != []
    ensures Fold(rows, start, AddRate) == Fold(rows[1..], start, AddRate) + rows[0].throughput
  {
    var n := |rows| - 1;
    if n > 0 {
      FoldHead(rows[..n], start);
      assert rows[..n][1..] == rows[1..][..n - 1];
    } else {
      assert rows[..0] == [] && rows[1..] == [];
    }
  }

  lemma {:induction false} ProducersSum(rows: seq<Row>)
    ensures SumOf(Producers(rows), true) == SumOf(rows, false)
    ensures Producers(rows) == [] <==> forall r | r in rows :: r.consumer
  {
    var keep := (r: Row) => !r.consumer;
    FilteredSum(rows, keep);
    FilterSame(rows, keep, (r: Row) => !r.consumer);
    if Producers(rows) != [] { assert Producers(rows)[0] in rows; }
    if r :| r in rows && !r.consumer { assert r in Producers(rows); }
  }

  lemma {:induction false} FilteredSum(rows: seq<Row>, keep: Row -> bool)
    requires forall r :: keep(r) <==> !r.consumer
    ensures SumOf(Filter(rows, keep), true) == SumOf(rows, false)
  {
    if rows != [] {
      FilteredSum(rows[1..], keep);
      var rest := Filter(rows[1..], keep);
      assert ([rows[0]] + rest)[1..] == rest;
    }
  }

  /** A run's throughput is what its producers' rows add up to, and what all its
      rows do when there is no producer's. */
  lemma ThroughputIs(rows: seq<Row>)
    ensures ThroughputOf(rows) == SumOf(rows, forall r | r in rows :: r.consumer)
  {
    ProducersSum(rows);
    FoldIsSum(ProducerRows(rows));
  }

  lemma {:induction false} RatesAddUp(rows: seq<Row>, least: real)
    requires rows != [] && least > 0.0 && forall r | r in rows :: r.throughput >= least
    ensures Fold(rows, 0.0, AddRate) >= least
  {
    var n := |rows| - 1;
    assert rows[n] in rows;
    if n > 0 {
      forall r | r in rows[..n] ensures r.throughput >= least { assert r in rows; }
      RatesAddUp(rows[..n], least);
    }
  }

  /** A throughput gate that every row of a run meets is met by the run. */
  lemma ThroughputGateAgrees(run: Run, g: Gates, m: Meter)
    requires run.results != [] && !Breaks(TaskViolations(run, g, m), Throughput)
    ensures !Breaks(ReportViolations(run, g, m), Throughput)
  {
    TaskBreaks(run, g, m, Throughput);
    ReportBreaks(run, g, m, Throughput);
    if g.minThroughput > 0.0 {
      forall r | r in ProducerRows(run.results) ensures r.throughput >= g.minThroughput {
        assert r in run.results && !RowBreaks(r, g, Throughput);
      }
      RatesAddUp(ProducerRows(run.results), g.minThroughput);
    }
  }

  // ------------------------------------------------------------------ the order

  lemma {:induction false} MoveToEnd<A>(front: seq<Row>, x: Row, back: seq<Row>, start: A, add: (A, Row) -> A)
    requires forall a, r, s :: add(add(a, r), s) == add(add(a, s), r)
    ensures Fold(front + [x] + back, start, add) == Fold(front + back + [x], start, add)
    decreases |back|
  {
    if back == [] {
      assert front + [x] + back == front + back + [x];
    } else {
      var n := |back| - 1;
      var y := back[n];
      assert (front + [x] + back)[..|front| + 1 + n] == front + [x] + back[..n];
      MoveToEnd(front, x, back[..n], start, add);
      assert (front + back[..n] + [x])[..|front| + n] == front + back[..n];
      assert (front + back + [x])[..|front| + |back|] == front + back;
      assert (front + back)[..|front| + n] == front + back[..n];
    }
  }

  /** A loop whose steps commute leaves the same for rows in any order. */
  lemma {:induction false} FoldPermuted<A>(a: seq<Row>, b: seq<Row>, start: A, add: (A, Row) -> A)
    requires multiset(a) == multiset(b)
    requires forall t, r, s :: add(add(t, r), s) == add(add(t, s), r)
    ensures Fold(a, start, add) == Fold(b, start, add)
    decreases |a|
  {
    assert |multiset(a)| == |a| && |multiset(b)| == |b|;
    if a != [] {
      var n := |a| - 1;
      var x := a[n];
      assert a == a[..n] + [x];
      assert x in multiset(a) && x in b;
      var k :| 0 <= k < |b| && b[k] == x;
      var rest := b[..k] + b[k + 1..];
      assert b == b[..k] + [x] + b[k + 1..];
      LessOne(a[..n], x, b[..k], b[k + 1..]);
      MoveToEnd(b[..k], x, b[k + 1..], start, add);
      FoldPermuted(a[..n], rest, start, add);
      assert (rest + [x])[..|rest|] == rest;
    }
  }

  lemma LessOne<T>(init: seq<T>, x: T, front: seq<T>, back: seq<T>)
    requires multiset(init + [x]) == multiset(front + [x] + back)
    ensures multiset(init) == multiset(front + back)
  {
    assert multiset(init + [x]) == multiset(init) + multiset{x};
    assert multiset(front + [x] + back) == multiset(front + back) + multiset{x};
    assert multiset(init) == multiset(init + [x]) - multiset{x};
  }

  lemma WrapTwice(a: int, x: int, y: int)
    ensures Wrap(Wrap(a + x) + y) == Wrap(Wrap(a + y) + x)
  {
    WrapAdds(a + x, y);
    WrapAdds(a + y, x);
  }

  lemma WorstCommutes(a: Option<real>, x: Option<real>, y: Option<real>)
    ensures Worst(Worst(a, x), y) == Worst(Worst(a, y), x)
  {
  }

  lemma AddCommutes(a: Aggregate, r: Row, s: Row)
    ensures Add(Add(a, r), s) == Add(Add(a, s), r)
  {
    if r.integrity.Some? && s.integrity.Some? {
      var x, y := r.integrity.value, s.integrity.value;
      WrapTwice(a.outOfOrder, x.outOfOrder, y.outOfOrder);
      WrapTwice(a.crcFailures, x.crcFailures, y.crcFailures);
      WorstCommutes(a.rto, Measured(x.maxRto), Measured(y.maxRto));
      WorstCommutes(a.rpo, Measured(x.rpo), Measured(y.rpo));
    }
  }

  lemma {:induction false} FilterCounts(rows: seq<Row>, keep: Row -> bool, r: Row)
    ensures multiset(Filter(rows, keep))[r] == if keep(r) then multiset(rows)[r] else 0
  {
    if rows != [] {
      FilterCounts(rows[1..], keep, r);
      assert rows == [rows[0]] + rows[1..];
    }
  }

  /** The throughput and the integrity figures of a run do not depend on the
      order of its rows. */
  lemma OrderDoesNotMatter(a: seq<Row>, b: seq<Row>)
    requires multiset(a) == multiset(b)
    ensures ThroughputOf(a) == ThroughputOf(b) && IntegrityOf(a) == IntegrityOf(b)
  {
    forall t, r, s ensures Add(Add(t, r), s) == Add(Add(t, s), r) { AddCommutes(t, r, s); }
    FoldPermuted(a, b, NOTHING, Add);
    var keep := (r: Row) => !r.consumer;
    forall r ensures multiset(Filter(a, keep))[r] == multiset(Filter(b, keep))[r] {
      FilterCounts(a, keep, r);
      FilterCounts(b, keep, r);
    }
    FilterSame(a, keep, (r: Row) => !r.consumer);
    FilterSame(b, keep, (r: Row) => !r.consumer);
    assert multiset(Producers(a)) == multiset(Producers(b));
    if Producers(a) != [] { assert Producers(a)[0] in multiset(Producers(b)); }
    if Producers(b) != [] { assert Producers(b)[0] in multiset(Producers(a)); }
    FoldPermuted(ProducerRows(a), ProducerRows(b), 0.0, AddRate);
  }

  // ----------------------------------------------------- what was not measured

  /** Each declared RTO or RPO gate is broken at both scopes, or named as not
      evaluable, or was measured and met; and no two of these. */
  lemma EachGateIsOneOf(run: Run, g: Gates, m: Meter, gate: Gate)
    requires (gate == Rto && g.maxRto > 0.0) || (gate == Rpo && g.maxRpo > 0.0)
    ensures
      var bound := if gate == Rto then g.maxRto else g.maxRpo;
      var broken := Breaks(ReportViolations(run, g, m), gate);
      var named := gate in NotEvaluable(run, g);
      var measured := exists r :: r in run.results && r.integrity.Some? && FigureOf(r.integrity.value, gate).Some?;
      && broken == Breaks(TaskViolations(run, g, m), gate) && named == !measured && !(broken && named)
      && (!broken && !named ==>
            forall r | r in run.results && r.integrity.Some? && FigureOf(r.integrity.value, gate).Some? :: FigureOf(r.integrity.value, gate).value <= bound)
  {
    WorstGatesAgree(run, g, m, gate);
    TaskBreaks(run, g, m, gate);
    if !Breaks(TaskViolations(run, g, m), gate) {
      forall r | r in run.results && r.integrity.Some? && FigureOf(r.integrity.value, gate).Some?
        ensures FigureOf(r.integrity.value, gate).value <= if gate == Rto then g.maxRto else g.maxRpo
      {
        assert !RowBreaks(r, g, gate);
      }
    }
  }

  /** The figure of a row, when the backend measured one: a negative one says it
      did not. */
  ghost function FigureOf(ir: Integrity, gate: Gate): Option<real> {
    var figure := if gate == Rto then ir.maxRto else ir.rpo;
    if figure.Some? && figure.value >= 0.0 then figure else None
  }

  /** Named as not evaluable are exactly the declared RTO and RPO gates without a
      figure in any row. */
  lemma NotEvaluableAre(run: Run, g: Gates, gate: Gate)
    ensures gate in NotEvaluable(run, g) <==>
      && ((gate == Rto && g.maxRto > 0.0) || (gate == Rpo && g.maxRpo > 0.0))
      && !exists r :: r in run.results && r.integrity.Some? && FigureOf(r.integrity.value, gate).Some?
  {
  }

  /** Failing costs a run its gates: at either scope it has a violation. */
  lemma FailedRunIsViolated(run: Run, g: Gates, m: Meter)
    requires IsFailed(run.status)
    ensures RunFailed in TaskViolations(run, g, m) && RunFailed in ReportViolations(run, g, m)
  {
    var opening := Opening(run);
    assert opening == [RunFailed];
    assert RunFailed in NoteUnmeasured(opening, g);
    RowsKeep(if m.measured(run.results) then opening else NoteUnmeasured(opening, g), run.results, g);
    var vs := if m.measured(run.results) then NoteLatency(opening, m.latency(run.results), g) else NoteUnmeasured(opening, g);
    AggregateKeeps(NoteThroughput(vs, ThroughputOf(run.results), g), IntegrityOf(run.results), g);
  }

  lemma AggregateKeeps(vs: seq<Violation>, a: Aggregate, g: Gates)
    requires RunFailed in vs
    ensures RunFailed in NoteAggregate(vs, a, g)
  {
  }

  lemma {:induction false} RowsKeep(vs: seq<Violation>, rows: seq<Row>, g: Gates)
    requires RunFailed in vs
    ensures RunFailed in NoteRows(vs, rows, g)
  {
    if rows != [] { RowsKeep(vs, rows[..|rows| - 1], g); }
  }

  // ------------------------------------------------------------ a clean grade

  predicate RowMeets(r: Row, g: Gates) { forall gate :: !RowBreaks(r, g, gate) }

  /** The run did not fail, and where it measured no latency none is asked for. */
  predicate Gradable(run: Run, g: Gates, m: Meter) {
    !IsFailed(run.status) && (m.measured(run.results) || (g.maxP99 <= 0.0 && g.maxAvg <= 0.0))
  }

  /** Each figure of a run, taken over its rows, is within its gate. */
  ghost predicate RunMeets(run: Run, g: Gates, m: Meter) {
    var rows := run.results;
    && (m.measured(rows) && g.maxP99 > 0.0 ==> m.latency(rows).p99 <= g.maxP99)
    && (m.measured(rows) && g.maxAvg > 0.0 ==> m.latency(rows).avg <= g.maxAvg)
    && (g.minThroughput > 0.0 ==> ThroughputOf(rows) >= g.minThroughput)
    && (forall r | r in rows :: !RowBreaks(r, g, DataLoss) && !RowBreaks(r, g, Rto) && !RowBreaks(r, g, Rpo))
    && !TotalExceeds(rows, g, OutOfOrder) && !TotalExceeds(rows, g, Crc)
  }

  /** The run meets the gates at the scope. */
  ghost predicate Meets(run: Run, g: Gates, scope: Scope, m: Meter) {
    Gradable(run, g, m) && if scope == Task then forall r | r in run.results :: RowMeets(r, g) else RunMeets(run, g, m)
  }

  /** A grade holds no violation exactly when the run meets the gates. */
  lemma GradeIsClean(run: Run, g: Gates, scope: Scope, m: Meter)
    ensures GradeOf(run, Some(g), scope, m).value.violations == [] <==> Meets(run, g, scope, m)
  {
    if scope == Task { TaskIsClean(run, g, m); } else { ReportIsClean(run, g, m); }
  }

  lemma IntegrityIsClean(vs: seq<Violation>, ir: Integrity, g: Gates)
    ensures NoteIntegrity(vs, ir, g) == [] <==>
      && vs == [] && !IntegrityBreaks(ir, g, DataLoss) && !IntegrityBreaks(ir, g, Rto) && !IntegrityBreaks(ir, g, Rpo)
      && !IntegrityBreaks(ir, g, OutOfOrder) && !IntegrityBreaks(ir, g, Crc)
  {
  }

  lemma RowIsClean(vs: seq<Violation>, r: Row, g: Gates)
    ensures NoteRow(vs, r, g) == [] <==> vs == [] && RowMeets(r, g)
  {
    if r.integrity.Some? { IntegrityIsClean(NoteLatencies(vs, r, g), r.integrity.value, g); }
    assert RowMeets(r, g) <==>
      && !RowBreaks(r, g, P99) && !RowBreaks(r, g, Avg) && !RowBreaks(r, g, Throughput) && !RowBreaks(r, g, DataLoss)
      && !RowBreaks(r, g, Rto) && !RowBreaks(r, g, Rpo) && !RowBreaks(r, g, OutOfOrder) && !RowBreaks(r, g, Crc);
  }

  function NoteLatencies(vs: seq<Violation>, r: Row, g: Gates): seq<Violation> {
    Note(Note(Note(vs, g.maxP99 > 0.0 && r.p99 > g.maxP99, Broken(P99, r.p99)),
              g.maxAvg > 0.0 && r.avg > g.maxAvg, Broken(Avg, r.avg)),
         g.minThroughput > 0.0 && r.throughput < g.minThroughput, Broken(Throughput, r.throughput))
  }

  lemma {:induction false} RowsAreClean(vs: seq<Violation>, rows: seq<Row>, g: Gates)
    ensures NoteRows(vs, rows, g) == [] <==> vs == [] && forall r | r in rows :: RowMeets(r, g)
  {
    if rows != [] {
      var n := |rows| - 1;
      RowsAreClean(vs, rows[..n], g);
      RowIsClean(NoteRows(vs, rows[..n], g), rows[n], g);
      assert rows == rows[..n] + [rows[n]];
    }
  }

  lemma TaskIsClean(run: Run, g: Gates, m: Meter)
    ensures TaskViolations(run, g, m) == [] <==> Meets(run, g, Task, m)
  {
    RowsAreClean(if m.measured(run.results) then Opening(run) else NoteUnmeasured(Opening(run), g), run.results, g);
  }

  lemma AggregateIsClean(vs: seq<Violation>, a: Aggregate, g: Gates)
    ensures NoteAggregate(vs, a, g) == [] <==>
      && vs == [] && !AggregateBreaks(a, g, DataLoss) && !AggregateBreaks(a, g, Rto) && !AggregateBreaks(a, g, Rpo)
      && !AggregateBreaks(a, g, OutOfOrder) && !AggregateBreaks(a, g, Crc)
  {
  }

  /** Whether the aggregate stands in the report or not, a gate it breaks is one
      the rows have figures for. */
  lemma AggregateCounts(rows: seq<Row>, g: Gates, gate: Gate)
    requires !IsLatency(gate) && gate != Throughput
    ensures IntegrityOf(rows).integrity && AggregateBreaks(IntegrityOf(rows), g, gate) <==>
      if IsCount(gate) then TotalExceeds(rows, g, gate) else exists r :: r in rows && RowBreaks(r, g, gate)
  {
    if IsCount(gate) {
      CountsBreak(rows, g, gate);
      TotalNeedsIntegrity(rows, gate);
    } else {
      WorstOfRows(rows, g, gate);
    }
  }

  lemma ReportIsClean(run: Run, g: Gates, m: Meter)
    ensures ReportViolations(run, g, m) == [] <==> Meets(run, g, Report, m)
  {
    var rows := run.results;
    var vs := if m.measured(rows) then NoteLatency(Opening(run), m.latency(rows), g) else NoteUnmeasured(Opening(run), g);
    AggregateIsClean(NoteThroughput(vs, ThroughputOf(rows), g), IntegrityOf(rows), g);
    AggregateCounts(rows, g, DataLoss);
    AggregateCounts(rows, g, Rto);
    AggregateCounts(rows, g, Rpo);
    AggregateCounts(rows, g, OutOfOrder);
    AggregateCounts(rows, g, Crc);
    WithoutRows(run, g, m, vs);
  }

  /** What the report notes before the integrity figures. */
  lemma WithoutRows(run: Run, g: Gates, m: Meter, vs: seq<Violation>)
    requires vs == if m.measured(run.results) then NoteLatency(Opening(run), m.latency(run.results), g) else NoteUnmeasured(Opening(run), g)
    ensures
      var rows := run.results;
      NoteThroughput(vs, ThroughputOf(rows), g) == [] <==>
        && Gradable(run, g, m)
        && (m.measured(rows) && g.maxP99 > 0.0 ==> m.latency(rows).p99 <= g.maxP99)
        && (m.measured(rows) && g.maxAvg > 0.0 ==> m.latency(rows).avg <= g.maxAvg)
        && (g.minThroughput > 0.0 ==> ThroughputOf(rows) >= g.minThroughput)
  {
  }
}
