/** agents/run-analyst/receiver.py, `gate`: what a run's read back from Kates
    decides, over every run of the analyst and in every pass of the worker. */
module RunGate {
  import opened Values
  import opened RunStore
  import opened RunAnalyst
  import opened RunSafety
  import opened RunTheorems
  import Lists

  // ------------------------------------------------- the three kinds of read

  /** A finished run, dated, and at most 48 hours old at the time. */
  predicate Allows(run: RunRead, at: real) {
    run.Found? && run.finished && run.created.Some? && at <= run.created.value + 48.0 * 3600.0
  }

  /** No run, or one that is unfinished, undated or older. */
  predicate Denies(run: RunRead, at: real) {
    || run.NoSuchRun?
    || (run.Found? && !run.finished)
    || (run.Found? && run.created.None?)
    || (run.Found? && run.created.Some? && at > run.created.value + 48.0 * 3600.0)
  }

  /** A read is of exactly one kind. */
  lemma OneKind(run: RunRead, at: real)
    ensures Allows(run, at) || Denies(run, at) || run.Unreachable?
    ensures !(Allows(run, at) && Denies(run, at)) && (run.Unreachable? ==> !Allows(run, at) && !Denies(run, at))
  {
  }

  // --------------------------------------------------------- over whole runs

  /** One read of the gate, of the job it had. */
  datatype GateRead = GateRead(job: Job, run: RunRead, at: real)

  function ReadAt(s: State, e: Event, t: real): seq<GateRead> {
    if e.Read? && s.place.AtGate? then [GateRead(s.place.job, e.run, t)] else []
  }

  /** The reads a run makes, in order. */
  function ReadsIn(s: State, trace: seq<Timed>, w: World): seq<GateRead>
    requires Legal(s, trace, w)
    decreases trace
  {
    if trace == [] then []
    else
      ReadAt(s, trace[0].event, trace[0].at)
      + ReadsIn(Step(s, trace[0].event, trace[0].at, w), trace[1..], w)
  }

  /** A record of this label answers the read. */
  predicate Answers(what: Label, r: GateRead) {
    match what
    case GateError => r.run.Unreachable?
    case Dropped => Denies(r.run, r.at)
    case _ => Allows(r.run, r.at)
  }

  /** The label, but for which way an admitted job goes, that a place leads to. */
  function LeadsTo(p: Place): Label
    requires !Closed(p) && !p.AtGate?
  {
    match p
    case GateFailed(_) => GateError
    case ErrorsCounted(_, _, _) => GateError
    case ErrorNoted(_, _) => GateError
    case Dropping(_) => Dropped
    case _ => Started
  }

  ghost predicate WasRead(told: seq<GateRead>, job: Job, what: Label, until: real) {
    exists r | r in told :: r.job == job && r.at <= until && Answers(what, r)
  }

  /** Every record answers an earlier read of its own job, and so does the place
      of the worker. */
  ghost predicate RowsAnswer(rows: seq<Outcome>, told: seq<GateRead>) {
    forall o | o in rows :: WasRead(told, o.job, o.what, o.at)
  }

  ghost predicate PlaceAnswers(p: Place, told: seq<GateRead>, clock: real) {
    !Closed(p) && !p.AtGate? ==> WasRead(told, p.job, LeadsTo(p), clock)
  }

  ghost predicate FollowsReads(s: State, told: seq<GateRead>) {
    RowsAnswer(s.outcomes, told) && PlaceAnswers(s.place, told, s.clock)
  }

  lemma MoreReads(s: State, told: seq<GateRead>, more: seq<GateRead>)
    requires FollowsReads(s, told)
    ensures FollowsReads(s, told + more)
  {
    assert forall r | r in told :: r in told + more;
    forall o | o in s.outcomes ensures WasRead(told + more, o.job, o.what, o.at) {
      assert WasRead(told, o.job, o.what, o.at);
    }
  }

  lemma StaysRead(told: seq<GateRead>, job: Job, what: Label, until: real, later: real, other: Label)
    requires WasRead(told, job, what, until) && until <= later
    requires what == other || !(what in {GateError, Dropped} || other in {GateError, Dropped})
    ensures WasRead(told, job, other, later)
  {
  }

  /** A read sends the worker where it says. */
  lemma ReadFollows(s: State, told: seq<GateRead>, run: RunRead, t: real, w: World)
    requires FollowsReads(s, told) && Enabled(s, Read(run), t, w)
    ensures FollowsReads(Step(s, Read(run), t, w), told + [GateRead(s.place.job, run, t)])
  {
    var r, s' := GateRead(s.place.job, run, t), Step(s, Read(run), t, w);
    MoreReads(s, told, [r]);
    assert r in told + [r];
    assert Answers(LeadsTo(s'.place), r);
  }

  lemma WriteFollows(s: State, told: seq<GateRead>, t: real, w: World)
    requires FollowsReads(s, told) && Enabled(s, Write, t, w)
    ensures FollowsReads(Step(s, Write, t, w), told)
  {
    var s' := Step(s, Write, t, w);
    StaysRead(told, s.place.job, LeadsTo(s.place), s.clock, t, LabelAt(s.place));
    if s'.place.Analysing? { StaysRead(told, s.place.job, LeadsTo(s.place), s.clock, t, Started); }
    var o := Outcome(s.place.job, LabelAt(s.place), t);
    assert s'.outcomes == s.outcomes + [o];
  }

  lemma OtherStepsFollow(s: State, told: seq<GateRead>, e: Event, t: real, w: World)
    requires FollowsReads(s, told) && Enabled(s, e, t, w) && !e.Read? && !e.Write?
    ensures FollowsReads(Step(s, e, t, w), told)
  {
    PlaceMoves(s, e, t, w);
    var s' := Step(s, e, t, w);
    if !Closed(s'.place) && !s'.place.AtGate? {
      StaysRead(told, s.place.job, LeadsTo(s.place), s.clock, t, LeadsTo(s'.place));
    }
  }

  lemma PlaceMoves(s: State, e: Event, t: real, w: World)
    requires Enabled(s, e, t, w) && !e.Read? && !e.Write?
    ensures
      var s' := Step(s, e, t, w);
      && s'.outcomes == s.outcomes && s'.clock == t
      && (!Closed(s'.place) && !s'.place.AtGate? ==>
            !Closed(s.place) && !s.place.AtGate? && s'.place.job == s.place.job && LeadsTo(s'.place) == LeadsTo(s.place))
  {
  }

  lemma StepFollows(s: State, told: seq<GateRead>, e: Event, t: real, w: World)
    requires FollowsReads(s, told) && Enabled(s, e, t, w)
    ensures FollowsReads(Step(s, e, t, w), told + ReadAt(s, e, t))
  {
    match e
    case Read(run) => ReadFollows(s, told, run, t, w);
    case Write =>
      WriteFollows(s, told, t, w);
      assert told + [] == told;
    case _ =>
      OtherStepsFollow(s, told, e, t, w);
      assert told + [] == told;
  }

  lemma {:induction false} RunFollows(s: State, told: seq<GateRead>, trace: seq<Timed>, w: World)
    requires FollowsReads(s, told) && Legal(s, trace, w)
    ensures FollowsReads(Exec(s, trace, w), told + ReadsIn(s, trace, w))
    decreases trace
  {
    if trace == [] {
      assert told + [] == told;
    } else {
      var e, t := trace[0].event, trace[0].at;
      StepFollows(s, told, e, t, w);
      RunFollows(Step(s, e, t, w), told + ReadAt(s, e, t), trace[1..], w);
      Lists.Regroup(told, ReadAt(s, e, t), ReadsIn(Step(s, e, t, w), trace[1..], w));
    }
  }

  /** Over every run: each analysis started, and each one skipped for budget, had
      its run read as finished, dated and at most 48 hours old; each run dropped
      was read as missing, unfinished, undated or older; and each gate error is
      of a read that failed. The read is of the record's own job and not later. */
  lemma RecordsAnswerReads(clock: real, trace: seq<Timed>, s: State, w: World, o: Outcome)
    requires Reaches(clock, trace, s, w) && o in s.outcomes
    ensures exists r | r in ReadsIn(Init(clock), trace, w) :: r.job == o.job && r.at <= o.at && Answers(o.what, r)
  {
    RunFollows(Init(clock), [], trace, w);
    var told := ReadsIn(Init(clock), trace, w);
    assert [] + told == told;
    assert WasRead(told, o.job, o.what, o.at);
  }
}
