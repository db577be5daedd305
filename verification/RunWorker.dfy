/** agents/run-analyst/receiver.py and poll.py as they run: the worker's
    `process`, the webhook's handler and the poll loop, each tied to the steps of
    RunAnalyst. */
module RunWorker {
  import opened Values
  import opened AnswerShape
  import opened AnswerChecks
  import opened RunStore
  import opened RunAnalyst
  import opened RunSafety
  import opened RunTheorems
  import opened RunGate
  import opened Lists
  import Verdict

  /** Where answers and notices go. */
  class Sinks {
    var notices: seq<Notice>
    var delivered: seq<Delivery>

    constructor ()
      ensures notices == [] && delivered == []
    {
      notices, delivered := [], [];
    }
  }

  /** What one pass of the worker meets: the run as Kates gives it, the model's
      replies, and the clock at each of its steps. */
  datatype Turn = Turn(read: RunRead, first: Reply, second: Reply, t0: real, t1: real, t2: real, t3: real) {
    predicate Ordered() {
      t0 <= t1 <= t2 <= t3
    }
  }

  // ------------------------------------------------------------ one pass

  /** What the worker writes: the outcomes, the notices and the deliveries. */
  datatype Book = Book(outcomes: seq<Outcome>, notices: seq<Notice>, delivered: seq<Delivery>)

  function GateErrored(b: Book, job: Job, turn: Turn): Book {
    var recent := CountSince(b.outcomes, GateError, turn.t0 - HOUR) > 0;
    b.(outcomes := b.outcomes + [Outcome(job, GateError, turn.t2)],
       notices := b.notices + if recent then [] else [Notice(job, GateError, turn.t1)])
  }

  function Skipped(b: Book, job: Job, turn: Turn): Book {
    b.(outcomes := b.outcomes + [Outcome(job, SkippedBudget, turn.t2)],
       notices := b.notices + [Notice(job, SkippedBudget, turn.t2)])
  }

  function Analysed(b: Book, job: Job, turn: Turn, analysis: Analysis): Book {
    var what := LabelAt(Closing(job, analysis));
    b.(outcomes := b.outcomes + [Outcome(job, Started, turn.t2)] + [Outcome(job, what, turn.t3)],
       notices := b.notices + if analysis.Refused? then [Notice(job, AnalystError, turn.t3)] else [],
       delivered := b.delivered + if analysis.Accepted? then [Delivery(job, analysis.answer)] else [])
  }

  /** What one pass writes. */
  function Pass(b: Book, job: Job, turn: Turn, w: World): Book {
    var gate := Gate(job, turn.read, turn.t0);
    if gate.GateFailed? then GateErrored(b, job, turn)
    else if gate.Dropping? then b.(outcomes := b.outcomes + [Outcome(job, Dropped, turn.t1)])
    else if CountSince(b.outcomes, Started, turn.t1 - HOUR) >= w.maxPerHour then Skipped(b, job, turn)
    else Analysed(b, job, turn, Analyze(job.key.runId, turn.first, turn.second, w.lex))
  }

  /** When one pass ends. */
  function PassEnd(b: Book, job: Job, turn: Turn, w: World): real {
    var gate := Gate(job, turn.read, turn.t0);
    if gate.GateFailed? then turn.t2
    else if gate.Dropping? then turn.t1
    else if CountSince(b.outcomes, Started, turn.t1 - HOUR) >= w.maxPerHour then turn.t2
    else turn.t3
  }

  function BookOf(store: Store, sinks: Sinks): Book
    reads store, sinks
  {
    Book(store.outcomes, sinks.notices, sinks.delivered)
  }

  function BookIn(s: State): Book {
    Book(s.outcomes, s.notices, s.delivered)
  }

  /** The state with the book written and the worker idle again. */
  function WithBook(s: State, b: Book, t: real): State {
    s.(clock := t, place := Idle, outcomes := b.outcomes, notices := b.notices, delivered := b.delivered)
  }

  /** What one pass adds to the book, by what its reads and the model gave: a
      failed read an error row, with a notice unless one was recorded within the
      hour; a denied one a dropped row and nothing said; an allowed one a skip
      with its notice when the hour's budget is spent, and else a start closed by
      a good answer's verdict and its delivery, or by an error and its notice. */
  ghost predicate Leaves(b: Book, after: Book, job: Job, turn: Turn, w: World) {
    if turn.read.Unreachable? then
      var recent := exists o | o in b.outcomes :: o.what == GateError && o.at >= turn.t0 - 3600.0;
      after == Book(b.outcomes + [Outcome(job, GateError, turn.t2)],
                    if recent then b.notices else b.notices + [Notice(job, GateError, turn.t1)], b.delivered)
    else if Denies(turn.read, turn.t0) then
      after == Book(b.outcomes + [Outcome(job, Dropped, turn.t1)], b.notices, b.delivered)
    else if CountSince(b.outcomes, Started, turn.t1 - 3600.0) >= w.maxPerHour then
      after == Book(b.outcomes + [Outcome(job, SkippedBudget, turn.t2)], b.notices + [Notice(job, SkippedBudget, turn.t2)], b.delivered)
    else
      var id, started := job.key.runId, b.outcomes + [Outcome(job, Started, turn.t2)];
      if Good(id, turn.first, w.lex) then after == Closed(b, started, job, turn.first.a, turn.t3)
      else if SentBack(id, turn.first, w.lex) && Good(id, turn.second, w.lex) then after == Closed(b, started, job, turn.second.a, turn.t3)
      else after == Book(started + [Outcome(job, AnalystError, turn.t3)], b.notices + [Notice(job, AnalystError, turn.t3)], b.delivered)
  }

  /** A start closed by the verdict the answer names. */
  function Closed(b: Book, started: seq<Outcome>, job: Job, answer: Value, t: real): Book {
    Book(started + [Outcome(job, Judged(VerdictIn(answer)), t)], b.notices, b.delivered + [Delivery(job, answer)])
  }

  lemma {:induction false} SomeCounted(outcomes: seq<Outcome>, what: Label, since: real)
    ensures CountSince(outcomes, what, since) > 0 <==> exists o | o in outcomes :: o.what == what && o.at >= since
  {
    if outcomes != [] {
      var n := |outcomes| - 1;
      SomeCounted(outcomes[..n], what, since);
      assert outcomes == outcomes[..n] + [outcomes[n]];
    }
  }

  lemma PassLeaves(b: Book, job: Job, turn: Turn, w: World)
    ensures Leaves(b, Pass(b, job, turn, w), job, turn, w)
  {
    OneKind(turn.read, turn.t0);
    SomeCounted(b.outcomes, GateError, turn.t0 - HOUR);
    if Allows(turn.read, turn.t0) && CountSince(b.outcomes, Started, turn.t1 - HOUR) < w.maxPerHour {
      var analysis := Analyze(job.key.runId, turn.first, turn.second, w.lex);
      AnalysisAccepts(job.key.runId, turn.first, turn.second, w.lex);
      AnalysisLeaves(b, job, turn, w, analysis);
    }
  }

  lemma AnalysisLeaves(b: Book, job: Job, turn: Turn, w: World, analysis: Analysis)
    requires analysis == Analyze(job.key.runId, turn.first, turn.second, w.lex)
    ensures
      var started := b.outcomes + [Outcome(job, Started, turn.t2)];
      Analysed(b, job, turn, analysis) ==
        if analysis.Accepted? then Closed(b, started, job, analysis.answer, turn.t3)
        else Book(started + [Outcome(job, AnalystError, turn.t3)], b.notices + [Notice(job, AnalystError, turn.t3)], b.delivered)
  {
    assert b.notices + [] == b.notices && b.delivered + [] == b.delivered;
  }

  method Process(job: Job, turn: Turn, store: Store, sinks: Sinks, w: World) returns (what: Label)
    modifies store`outcomes, sinks
    ensures BookOf(store, sinks) == Pass(old(BookOf(store, sinks)), job, turn, w)
    ensures store.outcomes != [] && store.outcomes[|store.outcomes| - 1].what == what
  {
    var gate := Gate(job, turn.read, turn.t0);
    if gate.GateFailed? {
      var recent := store.Count(GateError, turn.t0 - HOUR);
      if recent == 0 {
        sinks.notices := sinks.notices + [Notice(job, GateError, turn.t1)];
      }
      store.Record(job, GateError, turn.t2);
      return GateError;
    }
    if gate.Dropping? {
      store.Record(job, Dropped, turn.t1);
      return Dropped;
    }
    var started := store.Count(Started, turn.t1 - HOUR);
    if started >= w.maxPerHour {
      store.Record(job, SkippedBudget, turn.t2);
      sinks.notices := sinks.notices + [Notice(job, SkippedBudget, turn.t2)];
      return SkippedBudget;
    }
    store.Record(job, Started, turn.t2);
    var analysis := Analyze(job.key.runId, turn.first, turn.second, w.lex);
    if analysis.Refused? {
      store.Record(job, AnalystError, turn.t3);
      sinks.notices := sinks.notices + [Notice(job, AnalystError, turn.t3)];
      return AnalystError;
    }
    what := Judged(VerdictIn(analysis.answer));
    store.Record(job, what, turn.t3);
    sinks.delivered := sinks.delivered + [Delivery(job, analysis.answer)];
  }

  // ------------------------------------------- one pass is a run of steps

  /** The steps one pass makes. */
  function Steps(rows: seq<Outcome>, job: Job, turn: Turn, w: World): seq<Timed> {
    [Timed(Read(turn.read), turn.t0)] + StepsOn(rows, Gate(job, turn.read, turn.t0), turn, w)
  }

  /** The steps after the gate. */
  function StepsOn(rows: seq<Outcome>, gate: Place, turn: Turn, w: World): seq<Timed> {
    if gate.GateFailed? then
      if CountSince(rows, GateError, turn.t0 - HOUR) > 0 then [Timed(Count, turn.t0)] + [Timed(Write, turn.t2)]
      else [Timed(Count, turn.t0)] + [Timed(Notify, turn.t1)] + [Timed(Write, turn.t2)]
    else if gate.Dropping? then [Timed(Write, turn.t1)]
    else if CountSince(rows, Started, turn.t1 - HOUR) >= w.maxPerHour then
      [Timed(Count, turn.t1)] + [Timed(Write, turn.t2)] + [Timed(Send, turn.t2)]
    else
      [Timed(Count, turn.t1)] + [Timed(Write, turn.t2)]
      + ([Timed(Reply(turn.first, turn.second), turn.t3)] + [Timed(Write, turn.t3)] + [Timed(Send, turn.t3)])
  }

  /** What Kates says of the run agrees with the world. */
  predicate Truthful(key: Key, turn: Turn, w: World) {
    turn.read.Found? && turn.read.created.Some? ==>
      key.runId in w.created && turn.read.created.value == w.created[key.runId]
  }

  lemma GateErrorRuns(s: State, turn: Turn, w: World)
    requires s.place.GateFailed? && s.clock == turn.t0 && turn.Ordered()
    ensures Leads(s, StepsOn(s.outcomes, s.place, turn, w), WithBook(s, GateErrored(BookIn(s), s.place.job, turn), turn.t2), w)
  {
    var job := s.place.job;
    var recent := CountSince(s.outcomes, GateError, turn.t0 - HOUR) > 0;
    var counted := s.(clock := turn.t0, place := ErrorsCounted(job, recent, turn.t0));
    var done := WithBook(s, GateErrored(BookIn(s), job, turn), turn.t2);
    OneStep(s, Count, turn.t0, counted, w);
    if recent {
      assert s.notices + [] == s.notices;
      AnotherStep(s, [Timed(Count, turn.t0)], counted, Write, turn.t2, done, w);
    } else {
      var noted := s.(clock := turn.t1, place := ErrorNoted(job, |s.notices|), notices := s.notices + [Notice(job, GateError, turn.t1)]);
      AnotherStep(s, [Timed(Count, turn.t0)], counted, Notify, turn.t1, noted, w);
      AnotherStep(s, [Timed(Count, turn.t0)] + [Timed(Notify, turn.t1)], noted, Write, turn.t2, done, w);
    }
  }

  lemma DropRuns(s: State, turn: Turn, w: World)
    requires s.place.Dropping? && s.clock == turn.t0 && turn.Ordered()
    ensures Leads(s, StepsOn(s.outcomes, s.place, turn, w),
                  WithBook(s, BookIn(s).(outcomes := s.outcomes + [Outcome(s.place.job, Dropped, turn.t1)]), turn.t1), w)
  {
    OneStep(s, Write, turn.t1, s.(clock := turn.t1, place := Idle, outcomes := s.outcomes + [Outcome(s.place.job, Dropped, turn.t1)]), w);
  }

  lemma SkipRuns(s: State, turn: Turn, w: World)
    requires s.place.Passed? && s.clock == turn.t0 && turn.Ordered()
    requires CountSince(s.outcomes, Started, turn.t1 - HOUR) >= w.maxPerHour
    ensures Leads(s, StepsOn(s.outcomes, s.place, turn, w), WithBook(s, Skipped(BookIn(s), s.place.job, turn), turn.t2), w)
  {
    var job := s.place.job;
    var counted := s.(clock := turn.t1, place := Skipping(job));
    var written := s.(clock := turn.t2, place := Telling(job, SkippedBudget), outcomes := s.outcomes + [Outcome(job, SkippedBudget, turn.t2)]);
    OneStep(s, Count, turn.t1, counted, w);
    AnotherStep(s, [Timed(Count, turn.t1)], counted, Write, turn.t2, written, w);
    AnotherStep(s, [Timed(Count, turn.t1)] + [Timed(Write, turn.t2)], written, Send, turn.t2,
                WithBook(s, Skipped(BookIn(s), job, turn), turn.t2), w);
  }

  lemma StartRuns(s: State, turn: Turn, w: World)
    requires s.place.Passed? && s.clock == turn.t0 && turn.Ordered()
    requires CountSince(s.outcomes, Started, turn.t1 - HOUR) < w.maxPerHour
    ensures Leads(s, [Timed(Count, turn.t1)] + [Timed(Write, turn.t2)], Begun(s, turn.t2), w)
  {
    var counted := s.(clock := turn.t1, place := Starting(s.place.job, turn.t1));
    OneStep(s, Count, turn.t1, counted, w);
    AnotherStep(s, [Timed(Count, turn.t1)], counted, Write, turn.t2, Begun(s, turn.t2), w);
  }

  /** From the analysis to its post, whatever the analysis gives. */
  lemma CloseRuns(s: State, reply: Event, analysis: Analysis, t: real, done: State, w: World)
    requires s.place.Analysing? && s.clock <= t && reply.Reply?
    requires analysis == Analyze(s.place.job.key.runId, reply.first, reply.second, w.lex)
    requires
      var closing := Closing(s.place.job, analysis);
      done == Sent(s.(clock := t, place := AfterRecord(closing), outcomes := s.outcomes + [Outcome(s.place.job, LabelAt(closing), t)]), t)
    ensures Leads(s, [Timed(reply, t)] + [Timed(Write, t)] + [Timed(Send, t)], done, w)
  {
    var closing := Closing(s.place.job, analysis);
    var answered := s.(clock := t, place := closing);
    var written := s.(clock := t, place := AfterRecord(closing), outcomes := s.outcomes + [Outcome(s.place.job, LabelAt(closing), t)]);
    ReplyRuns(s, reply, analysis, t, w);
    AnotherStep(s, [Timed(reply, t)], answered, Write, t, written, w);
    AnotherStep(s, [Timed(reply, t)] + [Timed(Write, t)], written, Send, t, done, w);
  }

  lemma AnalysedIsSent(s: State, turn: Turn, analysis: Analysis)
    requires s.place.Passed?
    ensures
      var begun, closing := Begun(s, turn.t2), Closing(s.place.job, analysis);
      var written := begun.(clock := turn.t3, place := AfterRecord(closing), outcomes := begun.outcomes + [Outcome(s.place.job, LabelAt(closing), turn.t3)]);
      Sent(written, turn.t3) == WithBook(s, Analysed(BookIn(s), s.place.job, turn, analysis), turn.t3)
  {
    if analysis.Refused? {
      assert s.delivered + [] == s.delivered;
    } else {
      assert s.notices + [] == s.notices;
    }
  }

  lemma AnalysisRuns(s: State, turn: Turn, w: World)
    requires s.place.Passed? && s.clock == turn.t0 && turn.Ordered()
    requires CountSince(s.outcomes, Started, turn.t1 - HOUR) < w.maxPerHour
    ensures
      var analysis := Analyze(s.place.job.key.runId, turn.first, turn.second, w.lex);
      Leads(s, StepsOn(s.outcomes, s.place, turn, w), WithBook(s, Analysed(BookIn(s), s.place.job, turn, analysis), turn.t3), w)
  {
    var analysis := Analyze(s.place.job.key.runId, turn.first, turn.second, w.lex);
    var done := WithBook(s, Analysed(BookIn(s), s.place.job, turn, analysis), turn.t3);
    var reply := Reply(turn.first, turn.second);
    StartRuns(s, turn, w);
    AnalysedIsSent(s, turn, analysis);
    CloseRuns(Begun(s, turn.t2), reply, analysis, turn.t3, done, w);
    RunsJoin(s, [Timed(Count, turn.t1)] + [Timed(Write, turn.t2)], Begun(s, turn.t2),
             [Timed(reply, turn.t3)] + [Timed(Write, turn.t3)] + [Timed(Send, turn.t3)], done, w);
  }

  lemma GateRuns(s: State, turn: Turn, w: World)
    requires s.place.AtGate? && s.clock <= turn.t0 && Truthful(s.place.job.key, turn, w)
    ensures Leads(s, [Timed(Read(turn.read), turn.t0)], s.(clock := turn.t0, place := Gate(s.place.job, turn.read, turn.t0)), w)
  {
    OneStep(s, Read(turn.read), turn.t0, s.(clock := turn.t0, place := Gate(s.place.job, turn.read, turn.t0)), w);
  }

  /** Past the gate, what is left of the pass. */
  lemma RestRuns(s: State, job: Job, turn: Turn, w: World)
    requires s.clock == turn.t0 && turn.Ordered() && s.place == Gate(job, turn.read, turn.t0)
    ensures
      var b := BookIn(s);
      Leads(s, StepsOn(s.outcomes, s.place, turn, w), WithBook(s, Pass(b, job, turn, w), PassEnd(b, job, turn, w)), w)
  {
    if s.place.GateFailed? {
      GateErrorRuns(s, turn, w);
    } else if s.place.Dropping? {
      DropRuns(s, turn, w);
    } else if CountSince(s.outcomes, Started, turn.t1 - HOUR) >= w.maxPerHour {
      SkipRuns(s, turn, w);
    } else {
      AnalysisRuns(s, turn, w);
    }
  }

  /** One pass of the worker is a legal run of steps, so every claim about runs
      is a claim about it. */
  lemma ProcessIsARun(s: State, turn: Turn, w: World)
    requires s.place.AtGate? && s.clock <= turn.t0 && turn.Ordered() && Truthful(s.place.job.key, turn, w)
    ensures
      var b, job := BookIn(s), s.place.job;
      Leads(s, Steps(s.outcomes, job, turn, w), WithBook(s, Pass(b, job, turn, w), PassEnd(b, job, turn, w)), w)
  {
    var b, job := BookIn(s), s.place.job;
    var gated := s.(clock := turn.t0, place := Gate(job, turn.read, turn.t0));
    var done := WithBook(s, Pass(b, job, turn, w), PassEnd(b, job, turn, w));
    GateRuns(s, turn, w);
    assert BookIn(gated) == b && WithBook(gated, Pass(b, job, turn, w), PassEnd(b, job, turn, w)) == done;
    RestRuns(gated, job, turn, w);
    RunsJoin(s, [Timed(Read(turn.read), turn.t0)], gated, StepsOn(s.outcomes, gated.place, turn, w), done, w);
  }

  // ----------------------------------------------------------- the webhook

  /** A request as the handler sees it; the body is what parsing it gives. */
  datatype Body = Malformed | Body(testId: Value, status: Value)
  datatype Request = Request(length: int, event: string, body: Body)

  const MAX_BODY := 4096

  predicate IsHex(c: char) {
    '0' <= c <= '9' || 'a' <= c <= 'f'
  }

  /** `^[0-9a-f]{8}$`, which in Python also ends before one final newline. */
  predicate IsRunId(s: string) {
    && (|s| == 8 || (|s| == 9 && s[8] == '\n'))
    && forall i | 0 <= i < 8 :: IsHex(s[i])
  }

  function Finished(status: Value): Option<Status> {
    if status == Str("DONE") then Some(Done) else if status == Str("FAILED") then Some(Failed) else None
  }

  /** The event a request names, if it is one to claim. */
  function Named(r: Request): Option<Key> {
    if 0 < r.length <= MAX_BODY && r.event == "test.completed" && r.body.Body? && r.body.testId.Str?
       && IsRunId(r.body.testId.s) && Finished(r.body.status).Some?
    then Some(Key(r.body.testId.s, Finished(r.body.status).value))
    else None
  }

  /** A request names an event exactly when it is a completed test of at most
      4096 bytes whose body gives, as texts, eight hex digits, perhaps with a
      final newline, and one of the two final statuses. */
  lemma NamedExactly(r: Request, id: string, status: Status)
    ensures Named(r) == Some(Key(id, status)) <==>
      && 1 <= r.length <= 4096 && r.event == "test.completed"
      && r.body == Body(Str(id), Str(match status case Done => "DONE" case Failed => "FAILED"))
      && (|id| == 8 || (|id| == 9 && id[8] == '\n'))
      && forall i | 0 <= i < 8 :: id[i] in "0123456789abcdef"
  {
    HexDigits();
  }

  lemma HexDigits()
    ensures forall c :: IsHex(c) <==> c in "0123456789abcdef"
  {
    var digits := "0123456789abcdef";
    assert digits[0] == '0' && digits[1] == '1' && digits[2] == '2' && digits[3] == '3' && digits[4] == '4' && digits[5] == '5';
    assert digits[6] == '6' && digits[7] == '7' && digits[8] == '8' && digits[9] == '9' && digits[10] == 'a' && digits[11] == 'b';
    assert digits[12] == 'c' && digits[13] == 'd' && digits[14] == 'e' && digits[15] == 'f';
  }

  class Queue {
    var items: seq<Job>

    constructor ()
      ensures items == []
    {
      items := [];
    }
  }

  /** A well-formed event is claimed and queued at most once a week; nothing
      else touches the store or the queue. The answer does not tell a claimed
      event from a repeated one. */
  method Post(r: Request, now: real, store: Store, q: Queue, ghost w: World) returns (code: int)
    modifies store`seen, q
    ensures Named(r).None? ==> store.seen == old(store.seen) && q.items == old(q.items)
    ensures Named(r).Some? ==>
      var s := Init(now).(seen := old(store.seen), queue := old(q.items));
      var s' := Step(s, Hook(Named(r).value), now, w);
      code == 202 && store.seen == s'.seen && q.items == s'.queue
    ensures code == 202 <==> 1 <= r.length <= 4096 && (r.event == "test.completed" ==> Named(r).Some?)
    ensures code == 202 || code == 400
  {
    if r.length <= 0 || r.length > MAX_BODY {
      return 400;
    }
    if r.event != "test.completed" {
      return 202;
    }
    if r.body.Malformed? {
      return 400;
    }
    if !r.body.testId.Str? || !IsRunId(r.body.testId.s) || Finished(r.body.status).None? {
      return 400;
    }
    var key := Key(r.body.testId.s, Finished(r.body.status).value);
    var claimed := store.Claim(key, now);
    if claimed {
      q.items := q.items + [Job(key, now)];
    }
    return 202;
  }

  // ---------------------------------------------------------------- polls

  /** A run as Kates lists it, with when a poll claims it and what its pass would
      meet. */
  datatype Listed = Listed(id: string, at: real, turn: Turn)

  /** The visit of a listed run; a seeding one hands nothing over. */
  datatype Visit = Visit(key: Key, at: real, turn: Turn, seed: bool)

  /** What a poll reads: the DONE and the FAILED runs, newest first, or nothing
      where Kates cannot be read. */
  datatype Listing = Listing(done: Option<seq<Listed>>, failed: Option<seq<Listed>>)

  /** The visits of one list: valid ids, oldest run first. */
  function Visited(runs: seq<Listed>, status: Status, seed: bool): seq<Visit> {
    if runs == [] then []
    else
      Visited(runs[1..], status, seed)
      + if IsRunId(runs[0].id) then [Visit(Key(runs[0].id, status), runs[0].at, runs[0].turn, seed)] else []
  }

  /** The visits of a poll, which ends where a list cannot be read. */
  function VisitsOf(lists: Listing, seed: bool): seq<Visit> {
    if lists.done.None? then []
    else
      Visited(lists.done.value, Done, seed)
      + if lists.failed.None? then [] else Visited(lists.failed.value, Failed, seed)
  }

  ghost predicate IsVisitOf(v: Visit, r: Listed, status: Status, seed: bool) {
    IsRunId(r.id) && v == Visit(Key(r.id, status), r.at, r.turn, seed)
  }

  /** The runs with a valid id are visited, the last listed first. */
  lemma {:induction false} VisitedAre(runs: seq<Listed>, status: Status, seed: bool)
    ensures forall v :: v in Visited(runs, status, seed) <==> exists r :: r in runs && IsVisitOf(v, r, status, seed)
  {
    if runs != [] {
      VisitedAre(runs[1..], status, seed);
      assert runs == [runs[0]] + runs[1..];
      forall v ensures v in Visited(runs, status, seed) <==> v in Visited(runs[1..], status, seed) || IsVisitOf(v, runs[0], status, seed) {}
    }
  }

  lemma {:induction false} VisitedInTurn(runs: seq<Listed>, status: Status, seed: bool)
    requires forall i | 0 <= i < |runs| :: IsRunId(runs[i].id)
    ensures |Visited(runs, status, seed)| == |runs|
    ensures forall i | 0 <= i < |runs| :: IsVisitOf(Visited(runs, status, seed)[i], runs[|runs| - 1 - i], status, seed)
  {
    if runs != [] {
      var rest, n := runs[1..], |runs| - 1;
      assert forall i | 0 <= i < n :: rest[i] == runs[i + 1];
      VisitedInTurn(rest, status, seed);
      forall i | 0 <= i <= n ensures IsVisitOf(Visited(runs, status, seed)[i], runs[n - i], status, seed) {
        if i < n { assert rest[n - 1 - i] == runs[n - i]; }
      }
    }
  }

  /** A poll visits the valid ids of the DONE list and then, if it got that far,
      those of the FAILED one. */
  lemma VisitsAre(lists: Listing, seed: bool, v: Visit)
    ensures v in VisitsOf(lists, seed) <==>
      || (lists.done.Some? && exists r :: r in lists.done.value && IsVisitOf(v, r, Done, seed))
      || (lists.done.Some? && lists.failed.Some? && exists r :: r in lists.failed.value && IsVisitOf(v, r, Failed, seed))
    ensures forall i, j | 0 <= i < j < |VisitsOf(lists, seed)| && VisitsOf(lists, seed)[j].key.status == Done ::
      VisitsOf(lists, seed)[i].key.status == Done
  {
    if lists.done.Some? {
      VisitedAre(lists.done.value, Done, seed);
      var a: seq<Visit> := Visited(lists.done.value, Done, seed);
      var b: seq<Visit> := if lists.failed.None? then [] else Visited(lists.failed.value, Failed, seed);
      if lists.failed.Some? { VisitedAre(lists.failed.value, Failed, seed); }
      DoneFirst(a, b);
    }
  }

  lemma DoneFirst(a: seq<Visit>, b: seq<Visit>)
    requires (forall v | v in a :: v.key.status == Done) && forall v | v in b :: v.key.status == Failed
    ensures forall i, j | 0 <= i < j < |a + b| && (a + b)[j].key.status == Done :: (a + b)[i].key.status == Done
  {
    forall k | 0 <= k < |a + b| ensures (a + b)[k].key.status == if k < |a| then Done else Failed {
      if k < |a| { assert a[k] in a; } else { assert b[k - |a|] in b; }
    }
  }

  predicate Complete(lists: Listing) {
    lists.done.Some? && lists.failed.Some?
  }

  /** The visits of poll after poll; seeding ends with the first complete poll. */
  function AllVisits(polls: seq<Listing>, seed: bool): seq<Visit> {
    if polls == [] then []
    else VisitsOf(polls[0], seed) + AllVisits(polls[1..], seed && !Complete(polls[0]))
  }

  /** The table after claiming the visited keys one by one, each at its moment. */
  function SeenAfter(seen: Seen, visits: seq<Visit>): Seen
    decreases visits
  {
    if visits == [] then seen else SeenAfter(AfterClaim(seen, visits[0].key, visits[0].at), visits[1..])
  }

  /** The visits that hand their run over. */
  function Handed(seen: Seen, visits: seq<Visit>): seq<Visit>
    decreases visits
  {
    if visits == [] then []
    else
      (if Hands(seen, visits[0]) then [visits[0]] else [])
      + Handed(AfterClaim(seen, visits[0].key, visits[0].at), visits[1..])
  }

  predicate Hands(seen: Seen, v: Visit) {
    ClaimSucceeds(seen, v.key, v.at) && !v.seed
  }

  /** The passes over several runs, one after another. */
  function Passes(b: Book, visits: seq<Visit>, w: World): Book
    decreases visits
  {
    if visits == [] then b
    else Passes(Pass(b, Job(visits[0].key, visits[0].at), visits[0].turn, w), visits[1..], w)
  }

  function Ids(visits: seq<Visit>): (r: seq<string>)
    ensures |r| == |visits|
  {
    seq(|visits|, i requires 0 <= i < |visits| => visits[i].key.runId)
  }

  lemma {:induction false} VisitsJoin(seen: Seen, a: seq<Visit>, b: seq<Visit>)
    ensures SeenAfter(seen, a + b) == SeenAfter(SeenAfter(seen, a), b)
    ensures Handed(seen, a + b) == Handed(seen, a) + Handed(SeenAfter(seen, a), b)
    decreases a
  {
    if a == [] {
      assert a + b == b;
    } else {
      assert (a + b)[0] == a[0] && (a + b)[1..] == a[1..] + b;
      VisitsJoin(AfterClaim(seen, a[0].key, a[0].at), a[1..], b);
    }
  }

  lemma {:induction false} PassesJoin(b: Book, x: seq<Visit>, y: seq<Visit>, w: World)
    ensures Passes(b, x + y, w) == Passes(Passes(b, x, w), y, w)
    decreases x
  {
    if x == [] {
      assert x + y == y;
    } else {
      assert (x + y)[0] == x[0] && (x + y)[1..] == x[1..] + y;
      PassesJoin(Pass(b, Job(x[0].key, x[0].at), x[0].turn, w), x[1..], y, w);
    }
  }

  /** What the store, the sinks and the caller have of some visits. */
  datatype Progress = Progress(seen: Seen, book: Book, handed: seq<string>)

  function After(p: Progress, visits: seq<Visit>, w: World): Progress {
    Progress(SeenAfter(p.seen, visits), Passes(p.book, Handed(p.seen, visits), w), p.handed + Ids(Handed(p.seen, visits)))
  }

  lemma Onward(seen: Seen, book: Book, a: seq<Visit>, b: seq<Visit>, w: World)
    ensures SeenAfter(seen, a + b) == SeenAfter(SeenAfter(seen, a), b)
    ensures Passes(book, Handed(seen, a + b), w) == Passes(Passes(book, Handed(seen, a), w), Handed(SeenAfter(seen, a), b), w)
  {
    VisitsJoin(seen, a, b);
    PassesJoin(book, Handed(seen, a), Handed(SeenAfter(seen, a), b), w);
  }

  lemma AfterJoins(p: Progress, a: seq<Visit>, b: seq<Visit>, w: World)
    ensures After(p, a + b, w) == After(After(p, a, w), b, w)
  {
    Onward(p.seen, p.book, a, b, w);
    VisitsJoin(p.seen, a, b);
    IdsJoin(p.handed, Handed(p.seen, a), Handed(SeenAfter(p.seen, a), b));
  }

  lemma IdsJoin(before: seq<string>, a: seq<Visit>, b: seq<Visit>)
    ensures before + Ids(a + b) == (before + Ids(a)) + Ids(b)
  {
    assert Ids(a + b) == Ids(a) + Ids(b);
  }

  lemma AfterNone(p: Progress, w: World)
    ensures After(p, [], w) == p
  {
    assert p.handed + Ids([]) == p.handed;
  }

  lemma HandedOne(seen: Seen, v: Visit)
    ensures SeenAfter(seen, [v]) == AfterClaim(seen, v.key, v.at)
    ensures Handed(seen, [v]) == if Hands(seen, v) then [v] else []
  {
    assert [v][1..] == [] && [v] + [] == [v];
  }

  lemma PassesOne(b: Book, v: Visit, w: World)
    ensures Passes(b, [v], w) == Pass(b, Job(v.key, v.at), v.turn, w)
  {
    assert [v][1..] == [];
  }

  lemma AfterOne(p: Progress, v: Visit, w: World)
    ensures After(p, [v], w)
         == Progress(AfterClaim(p.seen, v.key, v.at),
                     if Hands(p.seen, v) then Pass(p.book, Job(v.key, v.at), v.turn, w) else p.book,
                     if Hands(p.seen, v) then p.handed + [v.key.runId] else p.handed)
  {
    HandedOne(p.seen, v);
    if Hands(p.seen, v) {
      PassesOne(p.book, v, w);
      assert Ids([v]) == [v.key.runId];
    } else {
      assert p.handed + Ids([]) == p.handed;
    }
  }

  function Now(store: Store, sinks: Sinks, handed: seq<string>): Progress
    reads store, sinks
  {
    Progress(store.seen, BookOf(store, sinks), handed)
  }

  lemma VisitedStep(runs: seq<Listed>, i: nat, status: Status, seed: bool)
    requires i < |runs|
    ensures Visited(runs[i..], status, seed)
         == Visited(runs[i + 1..], status, seed)
            + if IsRunId(runs[i].id) then [Visit(Key(runs[i].id, status), runs[i].at, runs[i].turn, seed)] else []
  {
    assert runs[i..][0] == runs[i] && runs[i..][1..] == runs[i + 1..];
  }

  /** One run of a list: claimed, and on success processed unless seeding. */
  method VisitOne(v: Visit, store: Store, sinks: Sinks, before: seq<string>, w: World) returns (handed: seq<string>)
    modifies store, sinks
    ensures Now(store, sinks, handed) == After(old(Now(store, sinks, before)), [v], w)
  {
    AfterOne(Now(store, sinks, before), v, w);
    handed := before;
    var claimed := store.Claim(v.key, v.at);
    if claimed && !v.seed {
      var _ := Process(Job(v.key, v.at), v.turn, store, sinks, w);
      handed := handed + [v.key.runId];
    }
  }

  /** One list of a poll, newest first, visited from the last. */
  method PollList(runs: seq<Listed>, status: Status, seed: bool, store: Store, sinks: Sinks, before: seq<string>, w: World)
    returns (handed: seq<string>)
    modifies store, sinks
    ensures Now(store, sinks, handed) == After(old(Now(store, sinks, before)), Visited(runs, status, seed), w)
  {
    ghost var start := Now(store, sinks, before);
    handed := before;
    var i := |runs|;
    AfterNone(start, w);
    while i > 0
      invariant 0 <= i <= |runs|
      invariant Now(store, sinks, handed) == After(start, Visited(runs[i..], status, seed), w)
    {
      i := i - 1;
      ghost var visits := Visited(runs[i + 1..], status, seed);
      VisitedStep(runs, i, status, seed);
      if IsRunId(runs[i].id) {
        var v := Visit(Key(runs[i].id, status), runs[i].at, runs[i].turn, seed);
        AfterJoins(start, visits, [v], w);
        handed := VisitOne(v, store, sinks, handed, w);
      } else {
        assert visits + [] == visits;
      }
    }
    assert runs[0..] == runs;
  }

  /** `poll_once`: the DONE runs, then the FAILED ones; cut short where Kates
      cannot be read, which its caller sees as an exception. A seeding poll marks
      what it sees and hands nothing over. */
  method PollOnce(lists: Listing, seed: bool, store: Store, sinks: Sinks, w: World) returns (raised: bool, handed: seq<string>)
    modifies store, sinks
    ensures raised <==> lists.done.None? || lists.failed.None?
    ensures Now(store, sinks, handed) == After(old(Now(store, sinks, [])), VisitsOf(lists, seed), w)
  {
    ghost var start := Now(store, sinks, []);
    if lists.done.None? {
      AfterNone(start, w);
      return true, [];
    }
    handed := PollList(lists.done.value, Done, seed, store, sinks, [], w);
    ghost var visits := Visited(lists.done.value, Done, seed);
    if lists.failed.None? {
      assert visits + [] == visits;
      return true, handed;
    }
    AfterJoins(start, visits, Visited(lists.failed.value, Failed, seed), w);
    handed := PollList(lists.failed.value, Failed, seed, store, sinks, handed, w);
    return false, handed;
  }

  /** Poll mode from its start, for as long as it goes on: it seeds on an empty
      store, until a poll gets through. */
  method PollMode(polls: seq<Listing>, store: Store, sinks: Sinks, w: World)
    modifies store, sinks
    ensures
      var visits := AllVisits(polls, old(store.seen) == map[]);
      && store.seen == SeenAfter(old(store.seen), visits)
      && BookOf(store, sinks) == Passes(old(BookOf(store, sinks)), Handed(old(store.seen), visits), w)
  {
    var seed := store.IsEmpty();
    ghost var seen, book := store.seen, BookOf(store, sinks);
    ghost var visits, done: seq<Visit> := AllVisits(polls, seed), [];
    var i := 0;
    assert polls[0..] == polls && done + visits == visits;
    while i < |polls|
      invariant 0 <= i <= |polls|
      invariant visits == done + AllVisits(polls[i..], seed)
      invariant store.seen == SeenAfter(seen, done)
      invariant BookOf(store, sinks) == Passes(book, Handed(seen, done), w)
    {
      ghost var part := VisitsOf(polls[i], seed);
      PollsFrom(polls, i, seed);
      Onward(seen, book, done, part, w);
      Regroup(done, part, AllVisits(polls[i + 1..], seed && !Complete(polls[i])));
      var raised, _ := PollOnce(polls[i], seed, store, sinks, w);
      done := done + part;
      if !raised {
        seed := false;
      }
      i := i + 1;
    }
    assert done + [] == done;
  }

  lemma PollsFrom(polls: seq<Listing>, i: nat, seed: bool)
    requires i < |polls|
    ensures AllVisits(polls[i..], seed) == VisitsOf(polls[i], seed) + AllVisits(polls[i + 1..], seed && !Complete(polls[i]))
  {
    assert polls[i..][0] == polls[i] && polls[i..][1..] == polls[i + 1..];
  }

  // ------------------------------------------- poll mode is a run of steps

  /** The clock does not run back over the visits, and Kates tells the truth. A
      visit that hands nothing over makes no pass: any turn in order will do. */
  predicate InOrder(clock: real, visits: seq<Visit>, w: World)
    decreases visits
  {
    visits == [] ||
    (var v := visits[0];
     && clock <= v.at <= v.turn.t0 && v.turn.Ordered() && Truthful(v.key, v.turn, w)
     && InOrder(v.turn.t3, visits[1..], w))
  }

  function VisitSteps(s: State, v: Visit, w: World): seq<Timed> {
    [Timed(Poll(v.key, v.seed), v.at)]
    + if Hands(s.seen, v) then Steps(s.outcomes, Job(v.key, v.at), v.turn, w) else []
  }

  function VisitEnd(s: State, v: Visit, w: World): State {
    var claimed, b, job := Claimed(s, v.key, v.at, !v.seed), BookIn(s), Job(v.key, v.at);
    if Hands(s.seen, v) then WithBook(claimed, Pass(b, job, v.turn, w), PassEnd(b, job, v.turn, w)) else claimed
  }

  lemma VisitIsARun(s: State, v: Visit, w: World)
    requires s.place.Idle? && s.clock <= v.at <= v.turn.t0 && v.turn.Ordered() && Truthful(v.key, v.turn, w)
    ensures Leads(s, VisitSteps(s, v, w), VisitEnd(s, v, w), w)
  {
    var claimed, job := Claimed(s, v.key, v.at, !v.seed), Job(v.key, v.at);
    var polled := [Timed(Poll(v.key, v.seed), v.at)];
    if Hands(s.seen, v) {
      var mid := claimed.(place := AtGate(job));
      OneStep(s, Poll(v.key, v.seed), v.at, mid, w);
      ProcessIsARun(mid, v.turn, w);
      AtGateOrNot(s, v, w);
      RunsJoin(s, polled, mid, Steps(s.outcomes, job, v.turn, w), VisitEnd(s, v, w), w);
    } else {
      OneStep(s, Poll(v.key, v.seed), v.at, claimed, w);
      assert polled + [] == polled;
    }
  }

  lemma AtGateOrNot(s: State, v: Visit, w: World)
    requires Hands(s.seen, v)
    ensures
      var b, job := BookIn(s), Job(v.key, v.at);
      var mid := Claimed(s, v.key, v.at, !v.seed).(place := AtGate(job));
      mid.outcomes == s.outcomes && BookIn(mid) == b
      && WithBook(mid, Pass(b, job, v.turn, w), PassEnd(b, job, v.turn, w)) == VisitEnd(s, v, w)
  {
  }

  lemma VisitLeaves(s: State, v: Visit, w: World)
    requires s.place.Idle? && s.clock <= v.at <= v.turn.t0 && v.turn.Ordered()
    ensures
      var s' := VisitEnd(s, v, w);
      && s'.place.Idle? && s'.clock <= v.turn.t3 && s'.seen == AfterClaim(s.seen, v.key, v.at)
      && BookIn(s') == Passes(BookIn(s), if Hands(s.seen, v) then [v] else [], w)
  {
    assert [v][1..] == [];
  }

  /** Visits are a legal run of claims and passes, which ends with the table and
      the book of their specification; so every claim about runs is a claim
      about poll mode. */
  lemma {:induction false} PollsAreARun(s: State, visits: seq<Visit>, w: World)
    requires s.place.Idle? && InOrder(s.clock, visits, w)
    ensures exists trace, s' ::
      && Leads(s, trace, s', w) && s'.place.Idle?
      && s'.seen == SeenAfter(s.seen, visits) && BookIn(s') == Passes(BookIn(s), Handed(s.seen, visits), w)
    decreases visits
  {
    if visits == [] {
      assert Leads(s, [], s, w);
    } else {
      var v := visits[0];
      var mid := VisitEnd(s, v, w);
      VisitIsARun(s, v, w);
      VisitLeaves(s, v, w);
      Sooner(mid.clock, v.turn.t3, visits[1..], w);
      PollsAreARun(mid, visits[1..], w);
      var trace, s' :| Leads(mid, trace, s', w) && s'.place.Idle?
        && s'.seen == SeenAfter(mid.seen, visits[1..]) && BookIn(s') == Passes(BookIn(mid), Handed(mid.seen, visits[1..]), w);
      RunsJoin(s, VisitSteps(s, v, w), mid, trace, s', w);
      HeadThenTail(s.seen, BookIn(s), visits, w);
    }
  }

  lemma HeadThenTail(seen: Seen, b: Book, visits: seq<Visit>, w: World)
    requires visits != []
    ensures
      var v, rest := visits[0], visits[1..];
      var next := AfterClaim(seen, v.key, v.at);
      && SeenAfter(seen, visits) == SeenAfter(next, rest)
      && Passes(b, Handed(seen, visits), w) == Passes(Passes(b, if Hands(seen, v) then [v] else [], w), Handed(next, rest), w)
  {
    var v := visits[0];
    PassesJoin(b, if Hands(seen, v) then [v] else [], Handed(AfterClaim(seen, v.key, v.at), visits[1..]), w);
  }

  lemma Sooner(clock: real, later: real, visits: seq<Visit>, w: World)
    requires clock <= later && InOrder(later, visits, w)
    ensures InOrder(clock, visits, w)
  {
  }

  /** So poll mode keeps the hourly budget too: what it writes, from an empty
      store, holds in no hour more analyses than the budget. */
  lemma PollModeKeepsBudget(clock: real, polls: seq<Listing>, w: World, from: real)
    requires InOrder(clock, AllVisits(polls, true), w)
    ensures StartsIn(Passes(Book([], [], []), Handed(map[], AllVisits(polls, true)), w).outcomes, from) <= Budget(w)
  {
    VisitsKeepBudget(clock, AllVisits(polls, true), w, from);
  }

  lemma VisitsKeepBudget(clock: real, visits: seq<Visit>, w: World, from: real)
    requires InOrder(clock, visits, w)
    ensures StartsIn(Passes(Book([], [], []), Handed(map[], visits), w).outcomes, from) <= Budget(w)
  {
    var s, b := Init(clock), Passes(Book([], [], []), Handed(map[], visits), w);
    assert BookIn(s) == Book([], [], []) && s.seen == map[];
    PollsAreARun(s, visits, w);
    var trace, s' :| Leads(s, trace, s', w) && BookIn(s') == b;
    BookKeepsBudget(clock, trace, s', b, w, from);
  }

  lemma BookKeepsBudget(clock: real, trace: seq<Timed>, s: State, b: Book, w: World, from: real)
    requires Reaches(clock, trace, s, w) && BookIn(s) == b
    ensures StartsIn(b.outcomes, from) <= Budget(w)
  {
    HourlyBudgetHolds(clock, trace, s, w);
  }

  // ----------------------------------------------------------- the seeding

  /** What the polls up to the first complete one show of an empty store's
      history stays settled for a week: nothing of it is handed over. */
  lemma SeedingHoldsForAWeek(polls: seq<Listing>, n: nat, start: real, v: Visit)
    requires n < |polls| && forall i | 0 <= i < n :: !Complete(polls[i])
    requires forall u | u in AllVisits(polls, true) :: start <= u.at <= start + 7.0 * 86400.0
    requires v in VisitsOf(polls[n], true)
    ensures forall u | u in Handed(map[], AllVisits(polls, true)) :: u.key != v.key
  {
    SeedsComeFirst(polls, n, v);
    var seeds: seq<Visit>, rest: seq<Visit> :| AllVisits(polls, true) == seeds + rest && v in seeds && forall u | u in seeds :: u.seed;
    VisitsJoin(map[], seeds, rest);
    SeedsAreNotHanded(map[], seeds);
    SeededAreSeen(map[], seeds, start, v.key);
    SeenAreNotHanded(SeenAfter(map[], seeds), rest, start, v.key);
  }

  lemma {:induction false} VisitedSeed(runs: seq<Listed>, status: Status, seed: bool)
    ensures forall u | u in Visited(runs, status, seed) :: u.seed == seed
  {
    if runs != [] { VisitedSeed(runs[1..], status, seed); }
  }

  lemma {:induction false} SeedsComeFirst(polls: seq<Listing>, n: nat, v: Visit)
    requires n < |polls| && forall i | 0 <= i < n :: !Complete(polls[i])
    requires v in VisitsOf(polls[n], true)
    ensures exists seeds: seq<Visit>, rest: seq<Visit> :: AllVisits(polls, true) == seeds + rest && v in seeds && forall u | u in seeds :: u.seed
    decreases n
  {
    var first := VisitsOf(polls[0], true);
    if polls[0].done.Some? { VisitedSeed(polls[0].done.value, Done, true); }
    if Complete(polls[0]) || polls[0].failed.Some? { VisitedSeed(polls[0].failed.value, Failed, true); }
    assert forall u | u in first :: u.seed;
    if n == 0 {
      assert AllVisits(polls, true) == first + AllVisits(polls[1..], !Complete(polls[0]));
    } else {
      assert forall i | 0 <= i < n - 1 :: polls[1..][i] == polls[i + 1];
      SeedsComeFirst(polls[1..], n - 1, v);
      var seeds: seq<Visit>, rest: seq<Visit> :| AllVisits(polls[1..], true) == seeds + rest && v in seeds && forall u | u in seeds :: u.seed;
      assert AllVisits(polls, true) == (first + seeds) + rest;
    }
  }

  lemma {:induction false} SeedsAreNotHanded(seen: Seen, visits: seq<Visit>)
    requires forall u | u in visits :: u.seed
    ensures Handed(seen, visits) == []
    decreases visits
  {
    if visits != [] { SeedsAreNotHanded(AfterClaim(seen, visits[0].key, visits[0].at), visits[1..]); }
  }

  lemma {:induction false} SeededAreSeen(seen: Seen, visits: seq<Visit>, start: real, key: Key)
    requires forall u | u in visits :: start <= u.at <= start + SEEN_FOR
    requires forall k | k in seen :: seen[k] >= start
    requires key in seen || exists u | u in visits :: u.key == key
    ensures key in SeenAfter(seen, visits) && SeenAfter(seen, visits)[key] >= start
    decreases visits
  {
    if visits != [] {
      SeededAreSeen(AfterClaim(seen, visits[0].key, visits[0].at), visits[1..], start, key);
    }
  }

  lemma {:induction false} SeenAreNotHanded(seen: Seen, visits: seq<Visit>, start: real, key: Key)
    requires key in seen && seen[key] >= start
    requires forall u | u in visits :: u.at <= start + SEEN_FOR
    ensures forall u | u in Handed(seen, visits) :: u.key != key
    decreases visits
  {
    if visits != [] {
      SeenAreNotHanded(AfterClaim(seen, visits[0].key, visits[0].at), visits[1..], start, key);
    }
  }
}
