/** The safety claims of the run analyst, over every legal run of its steps. */
module RunTheorems {
  import opened Values
  import opened AnswerShape
  import opened AnswerChecks
  import opened RunStore
  import opened RunAnalyst
  import opened RunSafety
  import opened RunJobs
  import Verdict

  ghost predicate TimeInv(s: State, w: World) {
    Past(s) && WithinBudget(s, w) && Spaced(s)
  }

  ghost predicate JobInv(s: State, w: World) {
    Conserved(s) && StartsYoung(s, w) && Paired(s)
  }

  ghost predicate Inv(s: State, w: World) {
    && TimeInv(s, w)
    && JobInv(s, w)
    && Stands(s.seen, s.claims, s.clock)
    && DeliversFairly(s, FairFor(w.lex))
  }

  lemma StepKeepsTime(s: State, e: Event, t: real, w: World)
    requires TimeInv(s, w) && Enabled(s, e, t, w)
    ensures TimeInv(Step(s, e, t, w), w)
  {
    StepKeepsPast(s, e, t, w);
    StepKeepsBudget(s, e, t, w);
    StepKeepsSpacing(s, e, t, w);
  }

  lemma StepKeepsJobs(s: State, e: Event, t: real, w: World)
    requires JobInv(s, w) && Enabled(s, e, t, w)
    ensures JobInv(Step(s, e, t, w), w)
  {
    StepConserves(s, e, t, w);
    StepKeepsYoung(s, e, t, w);
    StepKeepsPairs(s, e, t, w);
  }

  lemma StepKeepsInv(s: State, e: Event, t: real, w: World)
    requires Inv(s, w) && Enabled(s, e, t, w)
    ensures Inv(Step(s, e, t, w), w)
  {
    StepKeepsTime(s, e, t, w);
    StepKeepsJobs(s, e, t, w);
    StepKeepsTable(s, e, t, w);
    StepKeepsFairness(s, e, t, w);
  }

  lemma {:induction false} RunKeepsInv(s: State, trace: seq<Timed>, w: World)
    requires Inv(s, w) && Legal(s, trace, w)
    ensures Inv(Exec(s, trace, w), w)
    decreases trace
  {
    if trace != [] {
      StepKeepsInv(s, trace[0].event, trace[0].at, w);
      RunKeepsInv(Step(s, trace[0].event, trace[0].at, w), trace[1..], w);
    }
  }

  lemma InvAtStart(clock: real, w: World)
    ensures Inv(Init(clock), w)
  {
  }

  /** The state a legal run from an empty store ends in. */
  ghost predicate Reaches(clock: real, trace: seq<Timed>, s: State, w: World) {
    Legal(Init(clock), trace, w) && s == Exec(Init(clock), trace, w)
  }

  lemma Reached(clock: real, trace: seq<Timed>, s: State, w: World)
    requires Reaches(clock, trace, s, w)
    ensures Inv(s, w)
  {
    InvAtStart(clock, w);
    RunKeepsInv(Init(clock), trace, w);
  }

  /** No closed hour ever holds more analyses than the budget allows, restarts
      included, although the count and the record read the clock apart. */
  lemma HourlyBudgetHolds(clock: real, trace: seq<Timed>, s: State, w: World)
    requires Reaches(clock, trace, s, w)
    ensures forall from: real :: StartsIn(s.outcomes, from) <= Budget(w)
  {
    Reached(clock, trace, s, w);
  }

  /** How many restarts of a run found the worker at such a place. */
  function RestartsAt(s: State, trace: seq<Timed>, w: World, at: Place -> bool): nat
    requires Legal(s, trace, w)
    decreases trace
  {
    if trace == [] then 0
    else
      RestartsAt(Step(s, trace[0].event, trace[0].at, w), trace[1..], w, at)
      + if trace[0].event.Restart? && at(s.place) then 1 else 0
  }

  /** A notice is out and its record is not made yet. */
  predicate AwaitsRecord(p: Place) {
    p.ErrorNoted?
  }

  /** A verdict is recorded and its answer is not delivered yet. */
  predicate AwaitsDelivery(p: Place) {
    p.Delivering?
  }

  lemma StepLosesARecord(s: State, e: Event, t: real, w: World)
    requires Enabled(s, e, t, w)
    ensures Step(s, e, t, w).unrecorded == s.unrecorded + if e.Restart? && s.place.ErrorNoted? then {s.place.notice} else {}
  {
  }

  lemma {:induction false} RecordsLost(s: State, trace: seq<Timed>, w: World)
    requires Legal(s, trace, w)
    ensures Exec(s, trace, w).unrecorded == {} <==> s.unrecorded == {} && RestartsAt(s, trace, w, AwaitsRecord) == 0
    decreases trace
  {
    if trace != [] {
      StepLosesARecord(s, trace[0].event, trace[0].at, w);
      RecordsLost(Step(s, trace[0].event, trace[0].at, w), trace[1..], w);
    }
  }

  lemma StepLosesADelivery(s: State, e: Event, t: real, w: World)
    requires Enabled(s, e, t, w)
    ensures |Step(s, e, t, w).undelivered| == |s.undelivered| + if e.Restart? && s.place.Delivering? then 1 else 0
  {
  }

  lemma {:induction false} DeliveriesLost(s: State, trace: seq<Timed>, w: World)
    requires Legal(s, trace, w)
    ensures |Exec(s, trace, w).undelivered| == |s.undelivered| + RestartsAt(s, trace, w, AwaitsDelivery)
    decreases trace
  {
    if trace != [] {
      StepLosesADelivery(s, trace[0].event, trace[0].at, w);
      DeliveriesLost(Step(s, trace[0].event, trace[0].at, w), trace[1..], w);
    }
  }

  /** A notice that Kates cannot be read is followed by the next one only more
      than an hour later, over every run, but for a notice whose own record a
      restart took. With no restart between a notice and its record there is
      none of those. */
  lemma ErrorNoticesAreSpaced(clock: real, trace: seq<Timed>, s: State, w: World)
    requires Reaches(clock, trace, s, w)
    ensures forall i: nat, j: nat |
        i < j < |s.notices| && s.notices[i].what == s.notices[j].what == GateError && i !in s.unrecorded ::
        s.notices[j].at > s.notices[i].at + 3600.0
    ensures s.unrecorded == {} <==> RestartsAt(Init(clock), trace, w, AwaitsRecord) == 0
  {
    Reached(clock, trace, s, w);
    RecordsLost(Init(clock), trace, w);
    forall i: nat, j: nat | i < j < |s.notices| && s.notices[i].what == s.notices[j].what == GateError && i !in s.unrecorded
      ensures s.notices[j].at > s.notices[i].at + 3600.0
    {
      assert ErrorNotice(s.notices[j]) && Kept(s, i) && ApartFrom(s, i);
    }
  }

  /** At any moment, the table answers for the whole history of claims. */
  lemma ClaimsAreRemembered(clock: real, trace: seq<Timed>, s: State, w: World, key: Key, now: real)
    requires Reaches(clock, trace, s, w) && s.clock <= now
    ensures !ClaimSucceeds(s.seen, key, now) <==> exists c | c in s.claims :: c.key == key && c.at >= now - 7.0 * 86400.0
  {
    Reached(clock, trace, s, w);
    ClaimAnswersForTheLog(s.seen, s.claims, s.clock, key, now);
  }

  /** Each event starts at most one analysis when its run was created no later
      than five days after the event's first claim, so in particular when it
      was created before that claim; and a run starts at most two. */
  lemma OneStartPerEvent(clock: real, trace: seq<Timed>, s: State, w: World, key: Key)
    requires Reaches(clock, trace, s, w) && CreatedInTime(s, key, w)
    ensures StartsOf(s.outcomes, key) <= 1
  {
    Reached(clock, trace, s, w);
    AtMostOneStart(s, key, w);
  }

  lemma TwoStartsPerRun(clock: real, trace: seq<Timed>, s: State, w: World, runId: string)
    requires Reaches(clock, trace, s, w)
    requires CreatedInTime(s, Key(runId, Done), w) && CreatedInTime(s, Key(runId, Failed), w)
    ensures StartsOfRun(s.outcomes, runId) <= 2
  {
    OneStartPerEvent(clock, trace, s, w, Key(runId, Done));
    OneStartPerEvent(clock, trace, s, w, Key(runId, Failed));
    StartsByEvent(s.outcomes, runId);
  }

  /** The answer may go out for the job, and names the verdict its own evidence
      gives. */
  ghost predicate Deliverable(d: Delivery, lex: Lexer) {
    && Good(d.job.key.runId, Answer(d.answer), lex)
    && VerdictIn(d.answer) == Verdict.Derive(d.answer).value.Name()
  }

  /** Only good answers about their own run go out, each with the verdict derived
      from its evidence. The verdicts recorded are those delivered, those whose
      delivery a restart took, and the one about to go out, in order. All are
      delivered exactly when none is about to be and no restart fell between a
      verdict's record and its delivery. */
  lemma DeliveriesAreGood(clock: real, trace: seq<Timed>, s: State, w: World)
    requires Reaches(clock, trace, s, w)
    ensures forall d | d in s.delivered + s.undelivered :: Deliverable(d, w.lex)
    ensures Matched(s)
    ensures multiset(JudgedRows(s.outcomes))
         == multiset(DeliveredRows(s.delivered)) + multiset(DeliveredRows(s.undelivered)) + multiset(DeliveredRows(Pending(s.place)))
    ensures DeliveredRows(s.delivered) == JudgedRows(s.outcomes)
            <==> !s.place.Delivering? && RestartsAt(Init(clock), trace, w, AwaitsDelivery) == 0
  {
    Reached(clock, trace, s, w);
    FairAreDeliverable(s.delivered, w.lex);
    FairAreDeliverable(s.undelivered, w.lex);
    DeliveriesLost(Init(clock), trace, w);
    EachVerdictOnce(s);
  }

  lemma FairAreDeliverable(ds: seq<Delivery>, lex: Lexer)
    requires AllFair(ds, FairFor(lex))
    ensures forall d | d in ds :: Deliverable(d, lex)
  {
    forall d | d in ds ensures Deliverable(d, lex) {
      assert FairFor(lex)(d.job, d.answer);
      NamedVerdict(d.answer, lex);
    }
  }

  lemma EachVerdictOnce(s: State)
    requires Matched(s)
    ensures multiset(JudgedRows(s.outcomes))
         == multiset(DeliveredRows(s.delivered)) + multiset(DeliveredRows(s.undelivered)) + multiset(DeliveredRows(Pending(s.place)))
    ensures DeliveredRows(s.delivered) == JudgedRows(s.outcomes) <==> !s.place.Delivering? && s.undelivered == []
  {
    var rows, settled := JudgedRows(s.outcomes), Settled(s);
    MergeCounts(settled, DeliveredRows(s.delivered), DeliveredRows(s.undelivered));
    assert multiset(rows) == multiset(settled) + multiset(DeliveredRows(Pending(s.place)));
    assert |settled| == |multiset(settled)| == |s.delivered| + |s.undelivered|;
    if !s.place.Delivering? && s.undelivered == [] {
      assert settled == rows && DeliveredRows(s.undelivered) == [];
    }
  }

  /** Every claim handed to the worker is closed, in hand, queued, or lost in a
      restart, and none closes twice; an analysis closes right after its own
      start. */
  lemma EveryJobIsAccountedFor(clock: real, trace: seq<Timed>, s: State, w: World)
    requires Reaches(clock, trace, s, w)
    ensures JobsOf(s.outcomes, Closes) + InHand(s.place) + multiset(s.queue) + s.lost == HandedJobs(s.claims)
    ensures forall j :: JobsOf(s.outcomes, Closes)[j] <= 1
    ensures s.restarts == 0 ==> s.lost == multiset{}
    ensures Paired(s)
  {
    Reached(clock, trace, s, w);
    forall j
      ensures JobsOf(s.outcomes, Closes)[j] <= 1
    {
      ClosedAndStartedOnce(s, j);
    }
  }

  // -------------------------------------------------- where the claims end

  /** One event claimed and let through the gate, at once. */
  function Admission(key: Key, at: real, created: real): seq<Timed> {
    [Timed(Hook(key), at)] + [Timed(Take, at)] + [Timed(Read(Found(true, Some(created))), at)]
  }

  /** The analysis of an admitted run, without an answer, at once. */
  function Attempt(at: real): seq<Timed> {
    [Timed(Count, at)] + [Timed(Write, at)] + [Timed(Reply(NoAnswer, NoAnswer), at)] + [Timed(Write, at)] + [Timed(Send, at)]
  }

  /** The trace is a legal run of steps from one state to the other. */
  ghost predicate Leads(s: State, trace: seq<Timed>, s': State, w: World) {
    Legal(s, trace, w) && Exec(s, trace, w) == s'
  }

  lemma {:induction false} RunsJoin(s: State, a: seq<Timed>, mid: State, b: seq<Timed>, s': State, w: World)
    requires Leads(s, a, mid, w) && Leads(mid, b, s', w)
    ensures Leads(s, a + b, s', w)
    decreases a
  {
    if a == [] {
      assert a + b == b;
    } else {
      assert (a + b)[0] == a[0] && (a + b)[1..] == a[1..] + b;
      RunsJoin(Step(s, a[0].event, a[0].at, w), a[1..], mid, b, s', w);
    }
  }

  lemma OneStep(s: State, e: Event, t: real, s': State, w: World)
    requires Enabled(s, e, t, w) && Step(s, e, t, w) == s'
    ensures Leads(s, [Timed(e, t)], s', w)
  {
    assert [Timed(e, t)][1..] == [];
  }

  lemma AnotherStep(s: State, a: seq<Timed>, mid: State, e: Event, t: real, s': State, w: World)
    requires Leads(s, a, mid, w) && Enabled(mid, e, t, w) && Step(mid, e, t, w) == s'
    ensures Leads(s, a + [Timed(e, t)], s', w)
  {
    OneStep(mid, e, t, s', w);
    RunsJoin(s, a, mid, [Timed(e, t)], s', w);
  }

  function Admitted(s: State, key: Key, at: real): State {
    s.(clock := at, seen := AfterClaim(s.seen, key, at), claims := s.claims + [Claim(key, at, true)], place := Passed(Job(key, at)))
  }

  /** The event taken in and off the queue. */
  function Taken(s: State, key: Key, at: real): State {
    Admitted(s, key, at).(place := AtGate(Job(key, at)))
  }

  lemma TakingRuns(s: State, key: Key, at: real, w: World)
    requires s.place.Idle? && s.queue == [] && s.clock <= at && ClaimSucceeds(s.seen, key, at)
    ensures Leads(s, [Timed(Hook(key), at)] + [Timed(Take, at)], Taken(s, key, at), w)
  {
    var queued := Taken(s, key, at).(place := Idle, queue := [Job(key, at)]);
    assert s.queue + [Job(key, at)] == [Job(key, at)] && [Job(key, at)][1..] == s.queue;
    OneStep(s, Hook(key), at, queued, w);
    AnotherStep(s, [Timed(Hook(key), at)], queued, Take, at, Taken(s, key, at), w);
  }

  lemma AdmissionRuns(s: State, key: Key, at: real, w: World)
    requires s.place.Idle? && s.queue == [] && s.clock <= at && ClaimSucceeds(s.seen, key, at)
    requires key.runId in w.created && at - w.created[key.runId] <= MAX_RUN_AGE
    ensures Leads(s, Admission(key, at, w.created[key.runId]), Admitted(s, key, at), w)
  {
    TakingRuns(s, key, at, w);
    AnotherStep(s, [Timed(Hook(key), at)] + [Timed(Take, at)], Taken(s, key, at),
                Read(Found(true, Some(w.created[key.runId]))), at, Admitted(s, key, at), w);
  }

  /** The analysis of an admitted run under way, with its start recorded. */
  function Begun(s: State, at: real): State
    requires s.place.Passed?
  {
    s.(clock := at, place := Analysing(s.place.job), outcomes := s.outcomes + [Outcome(s.place.job, Started, at)])
  }

  lemma BeginningRuns(s: State, at: real, w: World)
    requires s.place.Passed? && s.clock <= at && CountSince(s.outcomes, Started, at - HOUR) < w.maxPerHour
    ensures Leads(s, [Timed(Count, at)] + [Timed(Write, at)], Begun(s, at), w)
  {
    var counted := s.(clock := at, place := Starting(s.place.job, at));
    OneStep(s, Count, at, counted, w);
    AnotherStep(s, [Timed(Count, at)], counted, Write, at, Begun(s, at), w);
  }

  /** What an attempt leaves behind: a start, its close, and a notice. */
  function Attempted(s: State, at: real): State
    requires s.place.Passed?
  {
    var job := s.place.job;
    s.(clock := at, place := Idle,
       outcomes := s.outcomes + [Outcome(job, Started, at)] + [Outcome(job, AnalystError, at)],
       notices := s.notices + [Notice(job, AnalystError, at)])
  }

  lemma AttemptRuns(s: State, at: real, w: World)
    requires s.place.Passed? && s.clock <= at && CountSince(s.outcomes, Started, at - HOUR) < w.maxPerHour
    ensures Leads(s, Attempt(at), Attempted(s, at), w)
  {
    var job, begun := s.place.job, Begun(s, at);
    BeginningRuns(s, at, w);
    var b := [Timed(Count, at)] + [Timed(Write, at)];
    var refused := begun.(place := Closing(job, Refused(1)));
    AnotherStep(s, b, begun, Reply(NoAnswer, NoAnswer), at, refused, w);
    var closed := begun.(place := Telling(job, AnalystError), outcomes := begun.outcomes + [Outcome(job, AnalystError, at)]);
    AnotherStep(s, b + [Timed(Reply(NoAnswer, NoAnswer), at)], refused, Write, at, closed, w);
    AnotherStep(s, b + [Timed(Reply(NoAnswer, NoAnswer), at)] + [Timed(Write, at)], closed, Send, at, Attempted(s, at), w);
  }

  /** The moment a second claim of the event still finds its run young enough. */
  function SecondClaim(first: real, created: real): real {
    (first + SEEN_FOR + created + MAX_RUN_AGE) / 2.0
  }

  /** Five days is exact: with any later creation time, some legal run analyses
      the event twice. */
  lemma LateCreationStartsTwice(key: Key, first: real, w: World)
    requires w.maxPerHour >= 1 && key.runId in w.created && w.created[key.runId] > first + 5.0 * 86400.0
    ensures exists trace, s ::
      Reaches(first, trace, s, w) && FirstClaim(s.claims, key) == Some(first) && StartsOf(s.outcomes, key) == 2
  {
    var second := SecondClaim(first, w.created[key.runId]);
    var s0 := Init(first);
    var half := Admission(key, first, w.created[key.runId]) + Attempt(first);
    FirstRound(s0, key, first, w);
    var s2 := Attempted(Admitted(s0, key, first), first);
    assert s2.claims == [Claim(key, first, true)];
    assert s2.outcomes == [] + [Outcome(Job(key, first), Started, first)] + [Outcome(Job(key, first), AnalystError, first)];
    NoStartSince(s2.outcomes, Job(key, first), first, second - HOUR);
    FirstRound(s2, key, second, w);
    var s4 := Attempted(Admitted(s2, key, second), second);
    var rest := Admission(key, second, w.created[key.runId]) + Attempt(second);
    RunsJoin(s0, half, s2, rest, s4, w);
    TwoStarts(Job(key, first), Job(key, second), first, second);
    assert s4.claims[0] == Claim(key, first, true);
    assert Reaches(first, half + rest, s4, w);
  }

  /** One event claimed, let through, and analysed without an answer. */
  lemma FirstRound(s: State, key: Key, at: real, w: World)
    requires s.place.Idle? && s.queue == [] && s.clock <= at && ClaimSucceeds(s.seen, key, at)
    requires key.runId in w.created && at - w.created[key.runId] <= MAX_RUN_AGE
    requires CountSince(s.outcomes, Started, at - HOUR) < w.maxPerHour
    ensures Leads(s, Admission(key, at, w.created[key.runId]) + Attempt(at), Attempted(Admitted(s, key, at), at), w)
  {
    var mid := Admitted(s, key, at);
    AdmissionRuns(s, key, at, w);
    AttemptRuns(mid, at, w);
    RunsJoin(s, Admission(key, at, w.created[key.runId]), mid, Attempt(at), Attempted(mid, at), w);
  }

  function FourRows(i: Job, j: Job, first: real, second: real): seq<Outcome> {
    [] + [Outcome(i, Started, first)] + [Outcome(i, AnalystError, first)]
       + [Outcome(j, Started, second)] + [Outcome(j, AnalystError, second)]
  }

  lemma NoStartSince(rows: seq<Outcome>, j: Job, at: real, since: real)
    requires rows == [] + [Outcome(j, Started, at)] + [Outcome(j, AnalystError, at)] && at < since
    ensures CountSince(rows, Started, since) == 0
  {
    assert rows[..1] == [Outcome(j, Started, at)];
    assert CountSince(rows[..1], Started, since) == 0;
  }

  lemma StartsSnoc(rows: seq<Outcome>, o: Outcome, key: Key)
    ensures StartsOf(rows + [o], key) == StartsOf(rows, key) + (if o.what == Started && o.job.key == key then 1 else 0)
  {
    assert (rows + [o])[..|rows|] == rows;
  }

  lemma TwoStarts(i: Job, j: Job, first: real, second: real)
    requires i.key == j.key
    ensures StartsOf(FourRows(i, j, first, second), i.key) == 2
  {
    var a, b := Outcome(i, Started, first), Outcome(i, AnalystError, first);
    var c, d := Outcome(j, Started, second), Outcome(j, AnalystError, second);
    StartsSnoc([], a, i.key);
    StartsSnoc([] + [a], b, i.key);
    StartsSnoc([] + [a] + [b], c, i.key);
    StartsSnoc([] + [a] + [b] + [c], d, i.key);
  }

  // ------------------------------------------- what a restart can do harm to

  function Noted(s: State, key: Key, at: real): State {
    Taken(s, key, at).(place := ErrorNoted(Job(key, at), |s.notices|), notices := s.notices + [Notice(Job(key, at), GateError, at)])
  }

  /** One event claimed whose run Kates does not give, and the notice of that. */
  function NoticeRun(key: Key, at: real): seq<Timed> {
    [Timed(Hook(key), at)] + [Timed(Take, at)] + [Timed(Read(Unreachable), at)] + [Timed(Count, at)] + [Timed(Notify, at)]
  }

  lemma NoticeRuns(s: State, key: Key, at: real, w: World)
    requires s.place.Idle? && s.queue == [] && s.clock <= at && ClaimSucceeds(s.seen, key, at)
    requires CountSince(s.outcomes, GateError, at - HOUR) == 0
    ensures Leads(s, NoticeRun(key, at), Noted(s, key, at), w)
  {
    var taken, job := Taken(s, key, at), Job(key, at);
    TakingRuns(s, key, at, w);
    var b := [Timed(Hook(key), at)] + [Timed(Take, at)];
    var failed := taken.(place := GateFailed(job));
    AnotherStep(s, b, taken, Read(Unreachable), at, failed, w);
    var counted := taken.(place := ErrorsCounted(job, false, at));
    AnotherStep(s, b + [Timed(Read(Unreachable), at)], failed, Count, at, counted, w);
    AnotherStep(s, b + [Timed(Read(Unreachable), at)] + [Timed(Count, at)], counted, Notify, at, Noted(s, key, at), w);
  }

  /** The other way round: whenever a notice awaits its record, a restart, even
      within the hour, lets the next notice follow at once, given an event that
      may be claimed. */
  lemma RestartRepeatsANotice(clock: real, trace: seq<Timed>, s: State, w: World, key: Key, at: real)
    requires Reaches(clock, trace, s, w) && s.place.ErrorNoted?
    requires s.clock <= at && ClaimSucceeds(s.seen, key, at)
    ensures s.notices != [] && s.notices[|s.notices| - 1].what == GateError
    ensures
      var s' := Noted(Restarted(s, at), key, at);
      && Reaches(clock, trace + ([Timed(Restart, at)] + NoticeRun(key, at)), s', w)
      && s'.notices == s.notices + [Notice(Job(key, at), GateError, at)]
  {
    Reached(clock, trace, s, w);
    var again := Restarted(s, at);
    RestartRuns(s, at, w);
    NoticeLeavesNoCount(s, at);
    NoticeRuns(again, key, at, w);
    var s' := Noted(again, key, at);
    RunsJoin(s, [Timed(Restart, at)], again, NoticeRun(key, at), s', w);
    RunsJoin(Init(clock), trace, s, [Timed(Restart, at)] + NoticeRun(key, at), s', w);
  }

  lemma NoticeLeavesNoCount(s: State, at: real)
    requires Past(s) && Spaced(s) && s.place.ErrorNoted? && s.clock <= at
    ensures s.notices != [] && s.notices[|s.notices| - 1].what == GateError
    ensures CountSince(s.outcomes, GateError, at - HOUR) == 0
  {
    assert s.notices[s.place.notice] in s.notices;
    LaterCountsLess(s.outcomes, GateError, s.notices[s.place.notice].at - HOUR, at - HOUR);
  }

  lemma RestartRuns(s: State, at: real, w: World)
    requires s.clock <= at
    ensures Leads(s, [Timed(Restart, at)], Restarted(s, at), w)
  {
    OneStep(s, Restart, at, Restarted(s, at), w);
  }

  /** So two notices can go out at one moment. */
  lemma RestartMayRepeatANotice(a: Key, b: Key, w: World)
    requires a != b
    ensures exists trace, s ::
      && Reaches(0.0, trace, s, w) && s.restarts == 1
      && |s.notices| == 2 && s.notices[0].what == s.notices[1].what == GateError
      && s.notices[1].at == s.notices[0].at
  {
    var noted := Noted(Init(0.0), a, 0.0);
    NoticeRuns(Init(0.0), a, 0.0, w);
    FirstNotice(noted, a, b);
    NextNotice(0.0, NoticeRun(a, 0.0), noted, b, w);
  }

  lemma FirstNotice(noted: State, a: Key, b: Key)
    requires a != b && noted == Noted(Init(0.0), a, 0.0)
    ensures noted.clock <= 0.0 && ClaimSucceeds(noted.seen, b, 0.0) && noted.place.ErrorNoted?
    ensures noted.notices == [Notice(Job(a, 0.0), GateError, 0.0)] && noted.restarts == 0
  {
    assert noted.notices == [] + [Notice(Job(a, 0.0), GateError, 0.0)];
  }

  lemma NextNotice(at: real, trace: seq<Timed>, noted: State, b: Key, w: World)
    requires Reaches(at, trace, noted, w) && noted.place.ErrorNoted? && noted.clock <= at && ClaimSucceeds(noted.seen, b, at)
    requires noted.restarts == 0 && |noted.notices| == 1 && noted.notices[0].what == GateError && noted.notices[0].at == at
    ensures exists trace, s ::
      && Reaches(at, trace, s, w) && s.restarts == 1
      && |s.notices| == 2 && s.notices[0].what == s.notices[1].what == GateError
      && s.notices[1].at == s.notices[0].at
  {
    RestartRepeatsANotice(at, trace, noted, w, b, at);
    var s := Noted(Restarted(noted, at), b, at);
    assert |s.notices| == 2 && s.restarts == 1;
  }

  /** A restart between a verdict's record and its delivery loses the delivery,
      for any good answer: the verdict is on record and nothing is ever sent. */
  lemma RestartLosesADelivery(key: Key, answer: Value, at: real, w: World)
    requires w.maxPerHour >= 1 && key.runId in w.created && at - w.created[key.runId] <= MAX_RUN_AGE
    requires Good(key.runId, Answer(answer), w.lex)
    ensures exists trace, s ::
      && Reaches(at, trace, s, w) && s.place.Idle? && s.delivered == []
      && JudgedRows(s.outcomes) == [(Job(key, at), VerdictIn(answer))]
      && s.undelivered == [Delivery(Job(key, at), answer)]
  {
    GoodIsAccepted(key.runId, answer, w.lex);
    JudgmentRuns(Init(at), key, answer, at, w);
    var judged := Judgment(Begun(Admitted(Init(at), key, at), at), answer, at);
    LostOnTheWay(at, JudgmentRun(key, answer, at, w.created[key.runId]), judged, w);
    assert judged.delivered == judged.undelivered == [];
    OneVerdict(judged.outcomes, Job(key, at), VerdictIn(answer), at);
  }

  lemma LostOnTheWay(clock: real, run: seq<Timed>, s: State, w: World)
    requires Leads(Init(clock), run, s, w) && s.place.Delivering? && s.undelivered == []
    ensures exists trace, s' ::
      && Reaches(clock, trace, s', w) && s'.place.Idle? && s'.delivered == s.delivered
      && s'.outcomes == s.outcomes && s'.undelivered == [Delivery(s.place.job, s.place.answer)]
  {
    var s' := Restarted(s, s.clock);
    RestartRuns(s, s.clock, w);
    RunsJoin(Init(clock), run, s, [Timed(Restart, s.clock)], s', w);
    assert s'.undelivered == [] + [Delivery(s.place.job, s.place.answer)];
    assert Reaches(clock, run + [Timed(Restart, s.clock)], s', w);
  }

  lemma GoodIsAccepted(runId: string, answer: Value, lex: Lexer)
    requires Good(runId, Answer(answer), lex)
    ensures Analyze(runId, Answer(answer), NoAnswer, lex) == Accepted(answer, 1)
  {
    AnalysisAccepts(runId, Answer(answer), NoAnswer, lex);
  }

  /** A verdict on record and its answer about to be delivered. */
  function Judgment(s: State, answer: Value, at: real): State
    requires s.place.Analysing?
  {
    var job := s.place.job;
    s.(clock := at, place := Delivering(job, answer), outcomes := s.outcomes + [Outcome(job, Judged(VerdictIn(answer)), at)])
  }

  /** One event claimed, let through, analysed and judged. */
  function JudgmentRun(key: Key, answer: Value, at: real, created: real): seq<Timed> {
    Admission(key, at, created) + [Timed(Count, at), Timed(Write, at)]
    + [Timed(Reply(Answer(answer), NoAnswer), at), Timed(Write, at)]
  }

  lemma JudgmentRuns(s: State, key: Key, answer: Value, at: real, w: World)
    requires s.place.Idle? && s.queue == [] && s.clock <= at && ClaimSucceeds(s.seen, key, at)
    requires key.runId in w.created && at - w.created[key.runId] <= MAX_RUN_AGE
    requires CountSince(s.outcomes, Started, at - HOUR) < w.maxPerHour
    requires Analyze(key.runId, Answer(answer), NoAnswer, w.lex) == Accepted(answer, 1)
    ensures Leads(s, JudgmentRun(key, answer, at, w.created[key.runId]), Judgment(Begun(Admitted(s, key, at), at), answer, at), w)
  {
    var admission, begin := Admission(key, at, w.created[key.runId]), [Timed(Count, at), Timed(Write, at)];
    var admitted := Admitted(s, key, at);
    var begun := Begun(admitted, at);
    AdmissionRuns(s, key, at, w);
    BeginningRuns(admitted, at, w);
    assert begin == [Timed(Count, at)] + [Timed(Write, at)];
    RunsJoin(s, admission, admitted, begin, begun, w);
    VerdictRuns(begun, answer, at, w);
    RunsJoin(s, admission + begin, begun, [Timed(Reply(Answer(answer), NoAnswer), at), Timed(Write, at)], Judgment(begun, answer, at), w);
  }

  lemma VerdictRuns(s: State, answer: Value, at: real, w: World)
    requires s.place.Analysing? && s.clock <= at
    requires Analyze(s.place.job.key.runId, Answer(answer), NoAnswer, w.lex) == Accepted(answer, 1)
    ensures Leads(s, [Timed(Reply(Answer(answer), NoAnswer), at), Timed(Write, at)], Judgment(s, answer, at), w)
  {
    var reply := Reply(Answer(answer), NoAnswer);
    var accepted := s.(clock := at, place := Closing(s.place.job, Accepted(answer, 1)));
    ReplyRuns(s, reply, Accepted(answer, 1), at, w);
    VerdictIsWritten(accepted, s, answer, at, w);
    RunsJoin(s, [Timed(reply, at)], accepted, [Timed(Write, at)], Judgment(s, answer, at), w);
    assert [Timed(reply, at), Timed(Write, at)] == [Timed(reply, at)] + [Timed(Write, at)];
  }

  lemma VerdictIsWritten(accepted: State, s: State, answer: Value, at: real, w: World)
    requires s.place.Analysing? && accepted == s.(clock := at, place := Closing(s.place.job, Accepted(answer, 1)))
    ensures Leads(accepted, [Timed(Write, at)], Judgment(s, answer, at), w)
  {
    OneStep(accepted, Write, at, Judgment(s, answer, at), w);
  }

  lemma ReplyRuns(s: State, reply: Event, analysis: Analysis, at: real, w: World)
    requires s.place.Analysing? && s.clock <= at && reply.Reply?
    requires analysis == Analyze(s.place.job.key.runId, reply.first, reply.second, w.lex)
    ensures Leads(s, [Timed(reply, at)], s.(clock := at, place := Closing(s.place.job, analysis)), w)
  {
    OneStep(s, reply, at, s.(clock := at, place := Closing(s.place.job, analysis)), w);
  }

  lemma OneVerdict(rows: seq<Outcome>, job: Job, verdict: string, at: real)
    requires rows == [] + [Outcome(job, Started, at)] + [Outcome(job, Judged(verdict), at)]
    ensures JudgedRows(rows) == [(job, verdict)]
  {
    assert rows[..1] == [Outcome(job, Started, at)] && rows[..1][..0] == [];
    assert JudgedRows(rows[..1]) == [];
  }
}
