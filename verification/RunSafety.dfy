/** What every run of the analyst keeps: invariants of the step system, and the
    safety claims that follow over whole runs. */
module RunSafety {
  import opened Values
  import opened AnswerShape
  import opened AnswerChecks
  import opened RunStore
  import opened RunAnalyst
  import Verdict

  // ------------------------------------------------------------ the clock

  /** Every time recorded so far is past. */
  ghost predicate Past(s: State) {
    && (forall o | o in s.outcomes :: o.at <= s.clock)
    && (forall n | n in s.notices :: n.at <= s.clock)
    && (s.place.ErrorsCounted? || s.place.Starting? ==> s.place.countedAt <= s.clock)
    && (!s.place.Idle? ==> s.place.job.claimedAt <= s.clock)
    && (forall j | j in s.queue :: j.claimedAt <= s.clock)
  }

  lemma StepKeepsPast(s: State, e: Event, t: real, w: World)
    requires Past(s) && Enabled(s, e, t, w)
    ensures Past(Step(s, e, t, w))
  {
  }

  // ------------------------------------------------------- the seen table

  lemma StepKeepsTable(s: State, e: Event, t: real, w: World)
    requires Stands(s.seen, s.claims, s.clock) && Enabled(s, e, t, w)
    ensures Stands(Step(s, e, t, w).seen, Step(s, e, t, w).claims, Step(s, e, t, w).clock)
  {
    match e
    case Hook(key) => ClaimKeepsTheLog(s.seen, s.claims, s.clock, key, t, true);
    case Poll(key, seed) => ClaimKeepsTheLog(s.seen, s.claims, s.clock, key, t, !seed);
    case _ =>
  }

  // ------------------------------------------------------ the hourly budget

  /** How many analyses started in the closed window [from, from + 3600]. */
  function StartsIn(outcomes: seq<Outcome>, from: real): nat {
    if outcomes == [] then 0
    else
      var o := outcomes[|outcomes| - 1];
      StartsIn(outcomes[..|outcomes| - 1], from) + (if o.what == Started && from <= o.at <= from + 3600.0 then 1 else 0)
  }

  function Budget(w: World): nat {
    if w.maxPerHour < 0 then 0 else w.maxPerHour
  }

  ghost predicate WithinBudget(s: State, w: World) {
    && (forall from: real :: StartsIn(s.outcomes, from) <= Budget(w))
    && (s.place.Starting? ==> CountSince(s.outcomes, Started, s.place.countedAt - HOUR) < w.maxPerHour)
  }

  lemma {:induction false} WindowIsCounted(outcomes: seq<Outcome>, from: real, since: real)
    requires since <= from
    ensures StartsIn(outcomes, from) <= CountSince(outcomes, Started, since)
  {
    if outcomes != [] {
      WindowIsCounted(outcomes[..|outcomes| - 1], from, since);
    }
  }

  /** One more record adds to a window at most itself. */
  lemma OneMore(outcomes: seq<Outcome>, o: Outcome, from: real)
    ensures StartsIn(outcomes + [o], from)
         == StartsIn(outcomes, from) + (if o.what == Started && from <= o.at <= from + 3600.0 then 1 else 0)
  {
    assert (outcomes + [o])[..|outcomes|] == outcomes;
  }

  /** Only the worker's record touches the outcomes, and it adds one row. */
  lemma Rows(s: State, e: Event, t: real, w: World)
    requires Enabled(s, e, t, w)
    ensures !e.Write? ==> Step(s, e, t, w).outcomes == s.outcomes
    ensures e.Write? ==> Step(s, e, t, w).outcomes == s.outcomes + [Outcome(s.place.job, LabelAt(s.place), t)]
  {
  }

  lemma StepKeepsBudget(s: State, e: Event, t: real, w: World)
    requires Past(s) && WithinBudget(s, w) && Enabled(s, e, t, w)
    ensures WithinBudget(Step(s, e, t, w), w)
  {
    Rows(s, e, t, w);
    if e.Write? {
      RecordKeepsBudget(s, Outcome(s.place.job, LabelAt(s.place), t), w);
    }
  }

  lemma RecordKeepsBudget(s: State, o: Outcome, w: World)
    requires WithinBudget(s, w)
    requires o.what == Started ==> s.place.Starting? && s.place.countedAt <= o.at
    ensures forall from: real :: StartsIn(s.outcomes + [o], from) <= Budget(w)
  {
    forall from: real
      ensures StartsIn(s.outcomes + [o], from) <= Budget(w)
    {
      OneMore(s.outcomes, o, from);
      if o.what == Started && from <= o.at <= from + 3600.0 {
        WindowIsCounted(s.outcomes, from, s.place.countedAt - HOUR);
      }
    }
  }

  // --------------------------------------------------------- error notices

  ghost predicate ErrorNotice(n: Notice) {
    n.what == GateError
  }

  /** An error notice whose record no restart took. */
  ghost predicate Kept(s: State, i: nat)
    requires i < |s.notices|
  {
    ErrorNotice(s.notices[i]) && i !in s.unrecorded
  }

  /** The notice has its record, made no earlier, or the worker is about to make it. */
  ghost predicate HasRecord(s: State, i: nat)
    requires i < |s.notices|
  {
    (s.place.ErrorNoted? && i == s.place.notice)
    || exists o | o in s.outcomes :: o.what == GateError && o.at >= s.notices[i].at
  }

  /** No later error notice lies within the hour of the i-th. */
  ghost predicate ApartFrom(s: State, i: nat)
    requires i < |s.notices|
  {
    forall j | i < j < |s.notices| && ErrorNotice(s.notices[j]) :: s.notices[j].at > s.notices[i].at + HOUR
  }

  /** The worker's view of the last hour: when it is about to notify, or just
      has, no error was recorded in the hour before. */
  ghost predicate CountIsTrue(s: State) {
    && (s.place.ErrorsCounted? && !s.place.recent ==> CountSince(s.outcomes, GateError, s.place.countedAt - HOUR) == 0)
    && (s.place.ErrorNoted? ==>
          && s.place.notice + 1 == |s.notices| && ErrorNotice(s.notices[s.place.notice])
          && CountSince(s.outcomes, GateError, s.notices[s.place.notice].at - HOUR) == 0)
    && (s.place.Telling? ==> s.place.what != GateError)
  }

  /** Every error notice whose record no restart took has it, and is more than an
      hour from every later one. */
  ghost predicate Spaced(s: State) {
    && CountIsTrue(s)
    && (forall i: nat | i in s.unrecorded :: i < |s.notices| && ErrorNotice(s.notices[i]))
    && (forall i: nat | i < |s.notices| && Kept(s, i) :: HasRecord(s, i) && ApartFrom(s, i))
  }

  lemma {:induction false} NoneCounted(outcomes: seq<Outcome>, what: Label, since: real, o: Outcome)
    requires CountSince(outcomes, what, since) == 0 && o in outcomes && o.what == what
    ensures o.at < since
  {
    if o != outcomes[|outcomes| - 1] {
      NoneCounted(outcomes[..|outcomes| - 1], what, since, o);
    }
  }

  lemma {:induction false} LaterCountsLess(outcomes: seq<Outcome>, what: Label, since: real, later: real)
    requires since <= later
    ensures CountSince(outcomes, what, later) <= CountSince(outcomes, what, since)
  {
    if outcomes != [] { LaterCountsLess(outcomes[..|outcomes| - 1], what, since, later); }
  }

  lemma StepKeepsSpacing(s: State, e: Event, t: real, w: World)
    requires Past(s) && Spaced(s) && Enabled(s, e, t, w)
    ensures Spaced(Step(s, e, t, w))
  {
    match e
    case Notify => NotifyKeepsSpacing(s, t, w);
    case Write => RecordKeepsSpacing(s, t, w);
    case Send => SendKeepsSpacing(s, t, w);
    case Restart => RestartKeepsSpacing(s, t, w);
    case _ => OthersKeepSpacing(s, e, t, w);
  }

  lemma NotifyKeepsSpacing(s: State, t: real, w: World)
    requires Spaced(s) && Enabled(s, Notify, t, w) && s.place.countedAt <= t
    ensures Spaced(Step(s, Notify, t, w))
  {
    var s' := Step(s, Notify, t, w);
    LaterCountsLess(s.outcomes, GateError, s.place.countedAt - HOUR, t - HOUR);
    forall i: nat | i < |s'.notices| && Kept(s', i)
      ensures HasRecord(s', i) && ApartFrom(s', i)
    {
      if i < |s.notices| {
        assert Kept(s, i) && s'.notices[i] == s.notices[i];
        var o :| o in s.outcomes && o.what == GateError && o.at >= s.notices[i].at;
        NoneCounted(s.outcomes, GateError, s.place.countedAt - HOUR, o);
      }
    }
  }

  lemma RecordKeepsSpacing(s: State, t: real, w: World)
    requires Past(s) && Spaced(s) && Enabled(s, Write, t, w)
    ensures Spaced(Step(s, Write, t, w))
  {
    var s' := Step(s, Write, t, w);
    var o := s'.outcomes[|s.outcomes|];
    assert o in s'.outcomes && forall p | p in s.outcomes :: p in s'.outcomes;
    forall i: nat | i < |s'.notices| && Kept(s', i)
      ensures HasRecord(s', i) && ApartFrom(s', i)
    {
      assert Kept(s, i) && s.notices[i] in s.notices;
    }
  }

  lemma SendKeepsSpacing(s: State, t: real, w: World)
    requires Spaced(s) && Enabled(s, Send, t, w)
    ensures Spaced(Step(s, Send, t, w))
  {
    var s' := Step(s, Send, t, w);
    forall i: nat | i < |s'.notices| && Kept(s', i)
      ensures HasRecord(s', i) && ApartFrom(s', i)
    {
      assert i < |s.notices| && Kept(s, i) && s'.notices[i] == s.notices[i];
    }
  }

  lemma RestartKeepsSpacing(s: State, t: real, w: World)
    requires Spaced(s) && Enabled(s, Restart, t, w)
    ensures Spaced(Step(s, Restart, t, w))
  {
    var s' := Step(s, Restart, t, w);
    forall i: nat | i < |s'.notices| && Kept(s', i)
      ensures HasRecord(s', i) && ApartFrom(s', i)
    {
      assert Kept(s, i);
    }
  }

  lemma OthersKeepSpacing(s: State, e: Event, t: real, w: World)
    requires Spaced(s) && Enabled(s, e, t, w) && !e.Notify? && !e.Write? && !e.Send? && !e.Restart?
    ensures Spaced(Step(s, e, t, w))
  {
    var s' := Step(s, e, t, w);
    assert s'.notices == s.notices && s'.outcomes == s.outcomes && s'.unrecorded == s.unrecorded;
    assert !s.place.ErrorNoted? || s'.place == s.place;
    forall i: nat | i < |s'.notices| && Kept(s', i)
      ensures HasRecord(s', i) && ApartFrom(s', i)
    {
      assert Kept(s, i);
    }
  }

  // ----------------------------------------------------- what is delivered

  /** The verdicts recorded, with the runs they were recorded for. */
  function JudgedRows(outcomes: seq<Outcome>): seq<(Job, string)> {
    if outcomes == [] then []
    else
      var o := outcomes[|outcomes| - 1];
      JudgedRows(outcomes[..|outcomes| - 1]) + (if o.what.Judged? then [(o.job, o.what.verdict)] else [])
  }

  function DeliveredRows(delivered: seq<Delivery>): (r: seq<(Job, string)>)
    ensures |r| == |delivered|
  {
    seq(|delivered|, i requires 0 <= i < |delivered| => (delivered[i].job, VerdictIn(delivered[i].answer)))
  }

  /** `all` is a and b in one list, each in its order. */
  predicate Merges<T(==)>(all: seq<T>, a: seq<T>, b: seq<T>) {
    if all == [] then a == [] && b == []
    else
      var n := |all| - 1;
      || (a != [] && a[|a| - 1] == all[n] && Merges(all[..n], a[..|a| - 1], b))
      || (b != [] && b[|b| - 1] == all[n] && Merges(all[..n], a, b[..|b| - 1]))
  }

  lemma {:induction false} MergeCounts<T>(all: seq<T>, a: seq<T>, b: seq<T>)
    requires Merges(all, a, b)
    ensures multiset(all) == multiset(a) + multiset(b)
    ensures b == [] ==> a == all
    decreases |all|
  {
    if all != [] {
      var n := |all| - 1;
      assert all == all[..n] + [all[n]];
      if a != [] && a[|a| - 1] == all[n] && Merges(all[..n], a[..|a| - 1], b) {
        MergeCounts(all[..n], a[..|a| - 1], b);
        assert a == a[..|a| - 1] + [all[n]];
      } else {
        MergeCounts(all[..n], a, b[..|b| - 1]);
        assert b == b[..|b| - 1] + [all[n]];
      }
    }
  }

  lemma MergeLeft<T>(all: seq<T>, a: seq<T>, b: seq<T>, x: T)
    requires Merges(all, a, b)
    ensures Merges(all + [x], a + [x], b)
  {
    assert (all + [x])[..|all|] == all && (a + [x])[..|a|] == a;
  }

  lemma MergeRight<T>(all: seq<T>, a: seq<T>, b: seq<T>, x: T)
    requires Merges(all, a, b)
    ensures Merges(all + [x], a, b + [x])
  {
    assert (all + [x])[..|all|] == all && (b + [x])[..|b|] == b;
  }

  /** Whether an answer may go out for a job. */
  type Fairness = (Job, Value) -> bool

  ghost function FairFor(lex: Lexer): Fairness {
    (job: Job, answer: Value) => Good(job.key.runId, Answer(answer), lex)
  }

  ghost predicate AllFair(ds: seq<Delivery>, fair: Fairness) {
    forall d | d in ds :: fair(d.job, d.answer)
  }

  /** The verdicts recorded but for the one about to be delivered. */
  function Settled(s: State): seq<(Job, string)>
    requires |Pending(s.place)| <= |JudgedRows(s.outcomes)|
  {
    JudgedRows(s.outcomes)[..|JudgedRows(s.outcomes)| - |Pending(s.place)|]
  }

  /** The verdicts recorded are those delivered and those whose delivery a
      restart took, each in order, and then the one about to be delivered. */
  ghost predicate Matched(s: State) {
    && |Pending(s.place)| <= |JudgedRows(s.outcomes)|
    && JudgedRows(s.outcomes) == Settled(s) + DeliveredRows(Pending(s.place))
    && Merges(Settled(s), DeliveredRows(s.delivered), DeliveredRows(s.undelivered))
  }

  /** What is delivered, what was to be, and what is about to be, is fair; and
      there is one for each verdict recorded, in order and with that verdict. */
  ghost predicate DeliversFairly(s: State, fair: Fairness) {
    && AllFair(s.delivered, fair) && AllFair(s.undelivered, fair) && AllFair(Pending(s.place), fair)
    && Matched(s)
    && (s.place.Closing? ==>
          && 1 <= s.place.analysis.asks <= 2
          && (s.place.analysis.Accepted? ==> fair(s.place.job, s.place.analysis.answer)))
  }

  lemma StepKeepsFairness(s: State, e: Event, t: real, w: World)
    requires DeliversFairly(s, FairFor(w.lex)) && Enabled(s, e, t, w)
    ensures DeliversFairly(Step(s, e, t, w), FairFor(w.lex))
  {
    var fair := FairFor(w.lex);
    match e
    case Reply(first, second) =>
      AnalysisAccepts(s.place.job.key.runId, first, second, w.lex);
      ReplyKeepsFairness(s, t, Analyze(s.place.job.key.runId, first, second, w.lex), fair);
    case Write => RecordKeepsFairness(s, t, fair);
    case Send => SendKeepsFairness(s, t, fair);
    case Restart => RestartKeepsFairness(s, t, fair);
    case _ => OtherStepsKeepFairness(s, e, t, w, fair);
  }

  lemma ReplyKeepsFairness(s: State, t: real, analysis: Analysis, fair: Fairness)
    requires DeliversFairly(s, fair) && s.place.Analysing? && 1 <= analysis.asks <= 2
    requires analysis.Accepted? ==> fair(s.place.job, analysis.answer)
    ensures DeliversFairly(s.(clock := t, place := Closing(s.place.job, analysis)), fair)
  {
  }

  lemma OtherStepsKeepFairness(s: State, e: Event, t: real, w: World, fair: Fairness)
    requires DeliversFairly(s, fair) && Enabled(s, e, t, w) && !e.Reply? && !e.Write? && !e.Send? && !e.Restart?
    ensures DeliversFairly(Step(s, e, t, w), fair)
  {
    OtherStepsDeliverNothing(s, e, t, w);
    SameDeliveries(s, Step(s, e, t, w), fair);
  }

  lemma OtherStepsDeliverNothing(s: State, e: Event, t: real, w: World)
    requires Enabled(s, e, t, w) && !e.Reply? && !e.Write? && !e.Send? && !e.Restart?
    ensures
      var s' := Step(s, e, t, w);
      && s'.outcomes == s.outcomes && s'.delivered == s.delivered && s'.undelivered == s.undelivered
      && (s'.place == s.place || !(s'.place.Delivering? || s'.place.Closing? || s.place.Delivering?))
  {
  }

  lemma SameDeliveries(s: State, s': State, fair: Fairness)
    requires DeliversFairly(s, fair)
    requires s'.outcomes == s.outcomes && s'.delivered == s.delivered && s'.undelivered == s.undelivered
    requires s'.place == s.place || !(s'.place.Delivering? || s'.place.Closing? || s.place.Delivering?)
    ensures DeliversFairly(s', fair)
  {
    assert Pending(s'.place) == Pending(s.place);
    assert Settled(s') == Settled(s);
  }

  lemma RecordKeepsFairness(s: State, t: real, fair: Fairness)
    requires DeliversFairly(s, fair) && !Closed(s.place)
    ensures DeliversFairly(Written(s, t), fair)
  {
    var s', o := Written(s, t), Outcome(s.place.job, LabelAt(s.place), t);
    RecordIsJudged(s.place, o, s'.place);
    RecordMatches(s, s', o);
  }

  /** A verdict's record is the one record a delivery follows. */
  lemma RecordIsJudged(p: Place, o: Outcome, after: Place)
    requires !Closed(p) && o.job == p.job && o.what == LabelAt(p) && after == AfterRecord(p)
    ensures o.what.Judged? <==> after.Delivering?
    ensures DeliveredRows(Pending(after)) == if o.what.Judged? then [(o.job, o.what.verdict)] else []
  {
  }

  lemma RecordMatches(s: State, s': State, o: Outcome)
    requires Matched(s) && !s.place.Delivering? && s'.outcomes == s.outcomes + [o]
    requires s'.delivered == s.delivered && s'.undelivered == s.undelivered
    requires o.what.Judged? <==> s'.place.Delivering?
    requires DeliveredRows(Pending(s'.place)) == if o.what.Judged? then [(o.job, o.what.verdict)] else []
    ensures Matched(s')
  {
    assert s'.outcomes[..|s.outcomes|] == s.outcomes && s'.outcomes[|s.outcomes|] == o;
    assert Settled(s) == JudgedRows(s.outcomes) && Settled(s') == JudgedRows(s.outcomes);
  }

  lemma SendKeepsFairness(s: State, t: real, fair: Fairness)
    requires DeliversFairly(s, fair) && (s.place.Telling? || s.place.Delivering?)
    ensures DeliversFairly(Sent(s, t), fair)
  {
    var s' := Sent(s, t);
    assert Settled(s') == JudgedRows(s.outcomes);
    if s.place.Delivering? {
      var row := DeliveredRows(Pending(s.place))[0];
      assert DeliveredRows(s'.delivered) == DeliveredRows(s.delivered) + [row];
      MergeLeft(Settled(s), DeliveredRows(s.delivered), DeliveredRows(s.undelivered), row);
    }
  }

  lemma RestartKeepsFairness(s: State, t: real, fair: Fairness)
    requires DeliversFairly(s, fair)
    ensures DeliversFairly(Restarted(s, t), fair)
  {
    var s' := Restarted(s, t);
    assert Settled(s') == JudgedRows(s.outcomes);
    if s.place.Delivering? {
      var row := DeliveredRows(Pending(s.place))[0];
      assert DeliveredRows(s'.undelivered) == DeliveredRows(s.undelivered) + [row];
      MergeRight(Settled(s), DeliveredRows(s.delivered), DeliveredRows(s.undelivered), row);
    } else {
      assert s'.undelivered == s.undelivered;
      assert Settled(s) == JudgedRows(s.outcomes);
    }
  }

  /** The verdict recorded for a postable answer is the one derived for it. */
  lemma NamedVerdict(answer: Value, lex: Lexer)
    requires Postable(answer, lex)
    ensures VerdictIn(answer) == Verdict.Derive(answer).value.Name()
  {
  }
}
