/** The jobs of the analyst: every event handed to the worker is accounted for,
    is closed at most once, and starts at most one analysis. */
module RunJobs {
  import opened Values
  import opened AnswerChecks
  import opened RunStore
  import opened RunAnalyst

  // --------------------------------------------------------- conservation

  predicate Closes(what: Label) {
    what != Started
  }

  predicate Analysed(what: Label) {
    what == AnalystError || what.Judged?
  }

  /** The jobs of the rows whose label passes the test. */
  function JobsOf(outcomes: seq<Outcome>, test: Label -> bool): multiset<Job> {
    if outcomes == [] then multiset{}
    else
      var o := outcomes[|outcomes| - 1];
      JobsOf(outcomes[..|outcomes| - 1], test) + (if test(o.what) then multiset{o.job} else multiset{})
  }

  function HandedJobs(claims: seq<Claim>): multiset<Job> {
    if claims == [] then multiset{}
    else
      var c := claims[|claims| - 1];
      HandedJobs(claims[..|claims| - 1]) + (if c.handed then multiset{Job(c.key, c.at)} else multiset{})
  }

  function Accounted(s: State): multiset<Job> {
    JobsOf(s.outcomes, Closes) + InHand(s.place) + multiset(s.queue) + s.lost
  }

  predicate IsStart(what: Label) {
    what == Started
  }

  /** Every claim handed over is closed, in hand, queued, or lost in a restart;
      and every analysis started is closed, under way, or lost in a restart. */
  ghost predicate Conserved(s: State) {
    && Accounted(s) == HandedJobs(s.claims)
    && JobsOf(s.outcomes, IsStart)
       == JobsOf(s.outcomes, Analysed) + UnderWay(s.place) + s.lostStarted
    && s.lostStarted <= s.lost
    && (s.restarts == 0 ==> s.lost == multiset{})
  }

  lemma AddRow(outcomes: seq<Outcome>, o: Outcome, test: Label -> bool)
    ensures JobsOf(outcomes + [o], test)
         == JobsOf(outcomes, test) + (if test(o.what) then multiset{o.job} else multiset{})
  {
    assert (outcomes + [o])[..|outcomes|] == outcomes;
  }

  lemma AddClaim(claims: seq<Claim>, c: Claim)
    ensures HandedJobs(claims + [c]) == HandedJobs(claims) + (if c.handed then multiset{Job(c.key, c.at)} else multiset{})
  {
    assert (claims + [c])[..|claims|] == claims;
  }

  lemma StepConserves(s: State, e: Event, t: real, w: World)
    requires Conserved(s) && Enabled(s, e, t, w)
    ensures Conserved(Step(s, e, t, w))
  {
    match e
    case Hook(key) => HookConserves(s, key, t, w);
    case Poll(key, seed) => PollConserves(s, key, seed, t, w);
    case Take => TakeConserves(s, t, w);
    case Write => WriteConserves(s, t, w);
    case Restart => RestartConserves(s, t, w);
    case _ => WorkConserves(s, e, t, w);
  }

  lemma HookConserves(s: State, key: Key, t: real, w: World)
    requires Conserved(s) && Enabled(s, Hook(key), t, w)
    ensures Conserved(Step(s, Hook(key), t, w))
  {
    AddClaim(s.claims, Claim(key, t, true));
  }

  lemma PollConserves(s: State, key: Key, seed: bool, t: real, w: World)
    requires Conserved(s) && Enabled(s, Poll(key, seed), t, w)
    ensures Conserved(Step(s, Poll(key, seed), t, w))
  {
    var claims := s.claims + [Claim(key, t, !seed)];
    AddClaim(s.claims, Claim(key, t, !seed));
    if ClaimSucceeds(s.seen, key, t) {
      if seed {
        ClaimAccounts(s, Step(s, Poll(key, true), t, w), multiset{});
      } else {
        TakenIsInHand(s.place, AtGate(Job(key, t)), Job(key, t));
        ClaimAccounts(s, Step(s, Poll(key, false), t, w), multiset{Job(key, t)});
      }
    }
  }

  /** A claim hands over what comes into the worker's hand, if anything. */
  lemma ClaimAccounts(s: State, s': State, more: multiset<Job>)
    requires Conserved(s) && s'.outcomes == s.outcomes && s'.queue == s.queue
    requires s'.lost == s.lost && s'.lostStarted == s.lostStarted && s'.restarts == s.restarts
    requires HandedJobs(s'.claims) == HandedJobs(s.claims) + more
    requires InHand(s'.place) == InHand(s.place) + more && UnderWay(s'.place) == UnderWay(s.place)
    ensures Conserved(s')
  {
    MoreInHand(JobsOf(s.outcomes, Closes), InHand(s.place), multiset(s.queue), s.lost, more);
  }

  lemma MoreInHand(closed: multiset<Job>, hand: multiset<Job>, queue: multiset<Job>, lost: multiset<Job>, more: multiset<Job>)
    ensures closed + (hand + more) + queue + lost == closed + hand + queue + lost + more
  {
  }

  lemma TakeConserves(s: State, t: real, w: World)
    requires Conserved(s) && Enabled(s, Take, t, w)
    ensures Conserved(Step(s, Take, t, w))
  {
    var j, rest := s.queue[0], s.queue[1..];
    assert s.queue == [j] + rest;
    TakenIsInHand(s.place, AtGate(j), j);
    TakeAccounts(s, t, j, rest);
  }

  lemma TakenIsInHand(before: Place, after: Place, j: Job)
    requires before.Idle? && after == AtGate(j)
    ensures InHand(before) == multiset{} && InHand(after) == multiset{j}
    ensures UnderWay(before) == multiset{} && UnderWay(after) == multiset{}
  {
  }

  lemma TakeAccounts(s: State, t: real, j: Job, rest: seq<Job>)
    requires Conserved(s) && s.queue == [j] + rest
    requires InHand(s.place) == multiset{} && InHand(AtGate(j)) == multiset{j}
    requires UnderWay(s.place) == UnderWay(AtGate(j))
    ensures Conserved(s.(clock := t, place := AtGate(j), queue := rest))
  {
    assert multiset(s.queue) == multiset{j} + multiset(rest);
  }

  lemma RestartConserves(s: State, t: real, w: World)
    requires Conserved(s) && Enabled(s, Restart, t, w)
    ensures Conserved(Step(s, Restart, t, w))
  {
    RestartAccounts(s, Restarted(s, t), InHand(s.place), UnderWay(s.place), multiset(s.queue));
  }

  lemma RestartAccounts(s: State, s': State, hand: multiset<Job>, way: multiset<Job>, queue: multiset<Job>)
    requires Conserved(s) && s'.outcomes == s.outcomes && s'.claims == s.claims && s'.restarts == s.restarts + 1
    requires hand == InHand(s.place) && way == UnderWay(s.place) && queue == multiset(s.queue)
    requires InHand(s'.place) == multiset{} && UnderWay(s'.place) == multiset{} && multiset(s'.queue) == multiset{}
    requires s'.lost == s.lost + hand + queue && s'.lostStarted == s.lostStarted + way && way <= hand
    ensures Conserved(s')
  {
    var closed := JobsOf(s.outcomes, Closes);
    assert Accounted(s) == closed + hand + queue + s.lost;
    assert Accounted(s') == closed + s'.lost;
  }

  lemma WriteConserves(s: State, t: real, w: World)
    requires Conserved(s) && Enabled(s, Write, t, w)
    ensures Conserved(Step(s, Write, t, w))
  {
    RowConserves(s, Outcome(s.place.job, LabelAt(s.place), t), AfterRecord(s.place));
  }

  lemma WorkConserves(s: State, e: Event, t: real, w: World)
    requires Conserved(s) && Enabled(s, e, t, w) && (e.Read? || e.Count? || e.Notify? || e.Reply? || e.Send?)
    ensures Conserved(Step(s, e, t, w))
  {
    WorkMoves(s, e, t, w);
    MoveConserves(s, Step(s, e, t, w));
  }

  lemma WorkMoves(s: State, e: Event, t: real, w: World)
    requires Enabled(s, e, t, w) && (e.Read? || e.Count? || e.Notify? || e.Reply? || e.Send?)
    ensures
      var s' := Step(s, e, t, w);
      && s'.outcomes == s.outcomes && s'.queue == s.queue && s'.claims == s.claims
      && s'.lost == s.lost && s'.lostStarted == s.lostStarted && s'.restarts == s.restarts
      && InHand(s'.place) == InHand(s.place) && UnderWay(s'.place) == UnderWay(s.place)
  {
    var s' := Step(s, e, t, w);
    assert Closed(s'.place) <==> Closed(s.place);
    assert StartedPlace(s'.place) <==> StartedPlace(s.place);
    assert !Closed(s.place) ==> s'.place.job == s.place.job;
  }

  /** Steps that move the worker on with the job it has. */
  lemma MoveConserves(s: State, s': State)
    requires Conserved(s) && s'.outcomes == s.outcomes && s'.queue == s.queue && s'.claims == s.claims
    requires s'.lost == s.lost && s'.lostStarted == s.lostStarted && s'.restarts == s.restarts
    requires InHand(s'.place) == InHand(s.place) && UnderWay(s'.place) == UnderWay(s.place)
    ensures Conserved(s')
  {
  }

  /** A row closes or starts the job in hand. */
  lemma RowConserves(s: State, o: Outcome, after: Place)
    requires Conserved(s) && !Closed(s.place) && o.job == s.place.job && !s.place.Analysing?
    requires o.what == Started <==> s.place.Starting?
    requires Analysed(o.what) <==> s.place.Closing?
    requires after == AfterRecord(s.place)
    ensures Conserved(s.(outcomes := s.outcomes + [o], place := after))
  {
    var rows := s.outcomes + [o];
    AddRow(s.outcomes, o, Closes);
    AddRow(s.outcomes, o, IsStart);
    AddRow(s.outcomes, o, Analysed);
    RecordMoves(s.place, after, o.job);
    Shift(JobsOf(rows, Closes), InHand(after), JobsOf(s.outcomes, Closes), InHand(s.place),
          multiset{o.job}, s.place.Starting?, multiset(s.queue) + s.lost);
    Swap(JobsOf(rows, IsStart), JobsOf(rows, Analysed), UnderWay(after),
         JobsOf(s.outcomes, IsStart), JobsOf(s.outcomes, Analysed), UnderWay(s.place), s.lostStarted,
         multiset{o.job}, s.place.Starting?, s.place.Closing?);
    RowAccounts(s, rows, after);
  }

  lemma RecordMoves(before: Place, after: Place, j: Job)
    requires !Closed(before) && after == AfterRecord(before) && j == before.job && !before.Analysing?
    ensures InHand(before) == multiset{j} && InHand(after) == if before.Starting? then multiset{j} else multiset{}
    ensures UnderWay(before) == if before.Closing? then multiset{j} else multiset{}
    ensures UnderWay(after) == if before.Starting? then multiset{j} else multiset{}
  {
  }

  lemma RowAccounts(s: State, rows: seq<Outcome>, after: Place)
    requires Conserved(s)
    requires JobsOf(rows, Closes) + InHand(after) + (multiset(s.queue) + s.lost)
          == JobsOf(s.outcomes, Closes) + InHand(s.place) + (multiset(s.queue) + s.lost)
    requires JobsOf(rows, IsStart) == JobsOf(rows, Analysed) + UnderWay(after) + s.lostStarted
    ensures Conserved(s.(outcomes := rows, place := after))
  {
    var s' := s.(outcomes := rows, place := after);
    assert Accounted(s) == JobsOf(s.outcomes, Closes) + InHand(s.place) + (multiset(s.queue) + s.lost);
    assert Accounted(s') == JobsOf(rows, Closes) + InHand(after) + (multiset(s.queue) + s.lost);
  }

  lemma Shift(closed': multiset<Job>, hand': multiset<Job>, closed: multiset<Job>, hand: multiset<Job>,
              one: multiset<Job>, starting: bool, rest: multiset<Job>)
    requires hand == one && hand' == if starting then one else multiset{}
    requires closed' == closed + if starting then multiset{} else one
    ensures closed' + hand' + rest == closed + hand + rest
  {
  }

  lemma Swap(start': multiset<Job>, done': multiset<Job>, way': multiset<Job>,
             start: multiset<Job>, done: multiset<Job>, way: multiset<Job>, lost: multiset<Job>,
             one: multiset<Job>, starting: bool, closing: bool)
    requires start == done + way + lost && !(starting && closing)
    requires start' == start + if starting then one else multiset{}
    requires done' == done + if closing then one else multiset{}
    requires way' == if starting then one else multiset{}
    requires way == if closing then one else multiset{}
    ensures start' == done' + way' + lost
  {
  }

  // ------------------------------------------------------- one job, once

  lemma {:induction false} HandedWereClaimed(claims: seq<Claim>, j: Job)
    requires j in HandedJobs(claims)
    ensures exists c | c in claims :: c.key == j.key && c.at == j.claimedAt
  {
    var c := claims[|claims| - 1];
    if !(c.handed && Job(c.key, c.at) == j) {
      HandedWereClaimed(claims[..|claims| - 1], j);
    }
  }

  /** Claims of one key lie more than a week apart, so no two make one job. */
  lemma {:induction false} HandedOnce(claims: seq<Claim>, j: Job)
    requires forall i, k | 0 <= i < k < |claims| && claims[i].key == claims[k].key :: claims[k].at > claims[i].at + SEEN_FOR
    ensures HandedJobs(claims)[j] <= 1
  {
    if claims != [] {
      var n := |claims| - 1;
      HandedOnce(claims[..n], j);
      if j in HandedJobs(claims[..n]) {
        HandedWereClaimed(claims[..n], j);
        var c :| c in claims[..n] && c.key == j.key && c.at == j.claimedAt;
        assert Job(claims[n].key, claims[n].at) != j;
      }
    }
  }

  lemma {:induction false} FewerJobs(outcomes: seq<Outcome>, test: Label -> bool, wider: Label -> bool)
    requires forall what :: test(what) ==> wider(what)
    ensures JobsOf(outcomes, test) <= JobsOf(outcomes, wider)
  {
    if outcomes != [] {
      FewerJobs(outcomes[..|outcomes| - 1], test, wider);
    }
  }

  /** No job closes twice, and none starts twice. */
  lemma ClosedAndStartedOnce(s: State, j: Job)
    requires Conserved(s) && Stands(s.seen, s.claims, s.clock)
    ensures JobsOf(s.outcomes, Closes)[j] <= 1
    ensures JobsOf(s.outcomes, IsStart)[j] <= 1
  {
    HandedOnce(s.claims, j);
    FewerJobs(s.outcomes, Analysed, Closes);
    assert s.lostStarted[j] <= s.lost[j];
    assert JobsOf(s.outcomes, Analysed)[j] <= JobsOf(s.outcomes, Closes)[j];
    assert Accounted(s)[j] <= 1;
  }

  // ------------------------------------------------- what has been started

  /** The gate let the job through: it was claimed within 48 hours of the run. */
  predicate Young(j: Job, w: World) {
    j.key.runId in w.created && j.claimedAt <= w.created[j.key.runId] + MAX_RUN_AGE
  }

  ghost predicate StartsYoung(s: State, w: World) {
    && (forall o | o in s.outcomes && o.what == Started :: Young(o.job, w))
    && (s.place.Passed? || s.place.Starting? || s.place.Skipping? ==> Young(s.place.job, w))
    && (!s.place.Idle? ==> s.place.job.claimedAt <= s.clock)
    && (forall j | j in s.queue :: j.claimedAt <= s.clock)
  }

  lemma StepKeepsYoung(s: State, e: Event, t: real, w: World)
    requires StartsYoung(s, w) && Enabled(s, e, t, w)
    ensures StartsYoung(Step(s, e, t, w), w)
  {
  }

  /** Each start is followed at once by the close of the same job, but for the
      one under way; each close of an analysis follows its own start. A restart
      leaves at most the starts it lost without a close. */
  ghost predicate Paired(s: State) {
    && (forall i | 0 <= i < |s.outcomes| && Analysed(s.outcomes[i].what) ::
          i > 0 && s.outcomes[i - 1].what == Started && s.outcomes[i - 1].job == s.outcomes[i].job)
    && (StartedPlace(s.place) ==>
          s.outcomes != [] && s.outcomes[|s.outcomes| - 1].what == Started && s.outcomes[|s.outcomes| - 1].job == s.place.job)
    && (s.restarts == 0 ==> forall i | 0 <= i < |s.outcomes| :: StartCloses(s.outcomes, i, StartedPlace(s.place)))
  }

  /** A start at row i is under way when it is the last row, and else closed by the next. */
  ghost predicate StartCloses(rows: seq<Outcome>, i: nat, underWay: bool)
    requires i < |rows|
  {
    rows[i].what == Started ==>
      if i == |rows| - 1 then underWay else Analysed(rows[i + 1].what) && rows[i + 1].job == rows[i].job
  }

  lemma StepKeepsPairs(s: State, e: Event, t: real, w: World)
    requires Paired(s) && Enabled(s, e, t, w)
    ensures Paired(Step(s, e, t, w))
  {
    if e.Write? {
      RowKeepsPairs(s, Outcome(s.place.job, LabelAt(s.place), t), AfterRecord(s.place));
    } else if !e.Restart? {
      MoveKeepsPairs(s, Step(s, e, t, w));
    }
  }

  lemma MoveKeepsPairs(s: State, s': State)
    requires Paired(s) && s'.outcomes == s.outcomes && s'.restarts == s.restarts
    requires StartedPlace(s'.place) <==> StartedPlace(s.place)
    requires StartedPlace(s.place) ==> s'.place.job == s.place.job
    ensures Paired(s')
  {
  }

  lemma RowKeepsPairs(s: State, o: Outcome, after: Place)
    requires Paired(s) && !Closed(s.place) && o.job == s.place.job && !s.place.Analysing?
    requires o.what == Started <==> s.place.Starting?
    requires Analysed(o.what) <==> s.place.Closing?
    requires after == AfterRecord(s.place)
    ensures Paired(s.(outcomes := s.outcomes + [o], place := after))
  {
    var rows, n := s.outcomes + [o], |s.outcomes|;
    assert rows[n] == o;
    forall i | 0 <= i < |rows| && s.restarts == 0
      ensures StartCloses(rows, i, StartedPlace(after))
    {
      if i < n {
        assert rows[i] == s.outcomes[i] && StartCloses(s.outcomes, i, StartedPlace(s.place));
        if i + 1 < n { assert rows[i + 1] == s.outcomes[i + 1]; } else { assert rows[i + 1] == o; }
      }
    }
    forall i | 0 <= i < |rows| && Analysed(rows[i].what)
      ensures i > 0 && rows[i - 1].what == Started && rows[i - 1].job == rows[i].job
    {
      if i < n { assert rows[i] == s.outcomes[i]; }
      if 0 < i { assert rows[i - 1] == s.outcomes[i - 1]; }
    }
  }

  function FirstClaim(claims: seq<Claim>, key: Key): Option<real> {
    if claims == [] then None
    else if claims[0].key == key then Some(claims[0].at)
    else FirstClaim(claims[1..], key)
  }

  lemma {:induction false} FirstIsFirst(claims: seq<Claim>, key: Key, c: Claim)
    requires c in claims && c.key == key
    requires forall i, k | 0 <= i < k < |claims| && claims[i].key == claims[k].key :: claims[k].at > claims[i].at + SEEN_FOR
    ensures FirstClaim(claims, key).Some?
    ensures c.at == FirstClaim(claims, key).value || c.at > FirstClaim(claims, key).value + SEEN_FOR
  {
    if claims[0].key == key {
      var i :| 0 <= i < |claims| && claims[i] == c;
    } else {
      FirstIsFirst(claims[1..], key, c);
    }
  }

  function StartsOf(outcomes: seq<Outcome>, key: Key): nat {
    if outcomes == [] then 0
    else
      var o := outcomes[|outcomes| - 1];
      StartsOf(outcomes[..|outcomes| - 1], key) + (if o.what == Started && o.job.key == key then 1 else 0)
  }

  function StartsOfRun(outcomes: seq<Outcome>, runId: string): nat {
    if outcomes == [] then 0
    else
      var o := outcomes[|outcomes| - 1];
      StartsOfRun(outcomes[..|outcomes| - 1], runId) + (if o.what == Started && o.job.key.runId == runId then 1 else 0)
  }

  lemma {:induction false} StartsByEvent(outcomes: seq<Outcome>, runId: string)
    ensures StartsOfRun(outcomes, runId) == StartsOf(outcomes, Key(runId, Done)) + StartsOf(outcomes, Key(runId, Failed))
  {
    if outcomes != [] {
      StartsByEvent(outcomes[..|outcomes| - 1], runId);
      match outcomes[|outcomes| - 1].job.key.status
      case Done =>
      case Failed =>
    }
  }

  lemma {:induction false} StartsOfOneJob(outcomes: seq<Outcome>, j: Job)
    requires forall o | o in outcomes && o.what == Started && o.job.key == j.key :: o.job == j
    ensures StartsOf(outcomes, j.key) == JobsOf(outcomes, IsStart)[j]
  {
    if outcomes != [] {
      assert outcomes[|outcomes| - 1] in outcomes;
      StartsOfOneJob(outcomes[..|outcomes| - 1], j);
    }
  }

  lemma {:induction false} RowIsCounted(outcomes: seq<Outcome>, o: Outcome, test: Label -> bool)
    requires o in outcomes && test(o.what)
    ensures o.job in JobsOf(outcomes, test)
  {
    if o != outcomes[|outcomes| - 1] {
      RowIsCounted(outcomes[..|outcomes| - 1], o, test);
    }
  }

  /** The run named by the key was created no later than five days after the
      key's first claim: the week a claim is kept less the 48 hours of a run's age. */
  ghost predicate CreatedInTime(s: State, key: Key, w: World) {
    FirstClaim(s.claims, key).Some? && key.runId in w.created ==>
      w.created[key.runId] <= FirstClaim(s.claims, key).value + 5.0 * 86400.0
  }

  /** Only the first claim of a key can start an analysis: by the next one the
      run is too old for the gate. */
  lemma StartsComeFromTheFirstClaim(s: State, o: Outcome, w: World)
    requires Conserved(s) && StartsYoung(s, w) && Stands(s.seen, s.claims, s.clock) && CreatedInTime(s, o.job.key, w)
    requires o in s.outcomes && o.what == Started
    ensures FirstClaim(s.claims, o.job.key) == Some(o.job.claimedAt)
  {
    RowIsCounted(s.outcomes, o, IsStart);
    FewerJobs(s.outcomes, Analysed, Closes);
    assert s.lostStarted <= s.lost;
    assert o.job in Accounted(s);
    HandedWereClaimed(s.claims, o.job);
    var c :| c in s.claims && c.key == o.job.key && c.at == o.job.claimedAt;
    FirstIsFirst(s.claims, o.job.key, c);
  }

  lemma AtMostOneStart(s: State, key: Key, w: World)
    requires Conserved(s) && StartsYoung(s, w) && Stands(s.seen, s.claims, s.clock) && CreatedInTime(s, key, w)
    ensures StartsOf(s.outcomes, key) <= 1
  {
    forall o | o in s.outcomes && o.what == Started && o.job.key == key
      ensures FirstClaim(s.claims, key) == Some(o.job.claimedAt)
    {
      StartsComeFromTheFirstClaim(s, o, w);
    }
    var j := Job(key, match FirstClaim(s.claims, key) case Some(at) => at case None => 0.0);
    forall o | o in s.outcomes && o.what == Started && o.job.key == j.key
      ensures o.job == j
    {
      StartsComeFromTheFirstClaim(s, o, w);
    }
    StartsOfOneJob(s.outcomes, j);
    ClosedAndStartedOnce(s, j);
  }
}
