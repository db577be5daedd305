/** agents/run-analyst: the webhook, the poll loop and the one worker, as steps
    over a clock that does not run back. Between two steps of the worker any
    number of events may be claimed, and the process may be restarted, also
    between a record and the post that follows it: the
    store's tables survive that, the queue and the worker's place do not. */
module RunAnalyst {
  import opened Values
  import opened AnswerShape
  import opened AnswerChecks
  import Verdict
  import opened RunStore

  /** What stays fixed over a run: the hourly budget, the text tools, and when
      Kates says each run was created. */
  datatype World = World(maxPerHour: int, lex: Lexer, created: map<string, real>)

  /** What reading a run back from Kates gives the gate. */
  datatype RunRead = Unreachable | NoSuchRun | Found(finished: bool, created: Option<real>)

  /** The worker's place between two steps. */
  datatype Place =
    | Idle
    | AtGate(job: Job)
    | GateFailed(job: Job)
    | ErrorsCounted(job: Job, recent: bool, countedAt: real)
    | ErrorNoted(job: Job, notice: nat)
    | Dropping(job: Job)
    | Passed(job: Job)
    | Skipping(job: Job)
    | Starting(job: Job, countedAt: real)
    | Analysing(job: Job)
    | Closing(job: Job, analysis: Analysis)
    | Telling(job: Job, what: Label)
    | Delivering(job: Job, answer: Value)

  datatype Notice = Notice(job: Job, what: Label, at: real)
  datatype Delivery = Delivery(job: Job, answer: Value)

  datatype State = State(
    clock: real,
    seen: Seen,
    outcomes: seq<Outcome>,
    queue: seq<Job>,
    place: Place,
    notices: seq<Notice>,
    delivered: seq<Delivery>,
    // history: every successful claim, how many restarts there were, and what
    // they lost: jobs, starts without a close, deliveries not made, and the
    // error notices (by index) whose record was not made
    claims: seq<Claim>,
    restarts: nat,
    lost: multiset<Job>,
    lostStarted: multiset<Job>,
    undelivered: seq<Delivery>,
    unrecorded: set<nat>)

  datatype Event =
    | Hook(key: Key)
    | Poll(key: Key, seed: bool)
    | Take
    | Read(run: RunRead)
    | Count
    | Notify
    | Reply(first: Reply, second: Reply)
    | Write
    | Send
    | Restart

  function Init(clock: real): State {
    State(clock, map[], [], [], Idle, [], [], [], 0, multiset{}, multiset{}, [], {})
  }

  /** Whether the event may happen at time t. */
  predicate Enabled(s: State, e: Event, t: real, w: World) {
    && t >= s.clock
    && match e
       case Hook(_) => true
       case Poll(_, seed) => s.place.Idle?
       case Take => s.place.Idle? && s.queue != []
       case Read(run) =>
         s.place.AtGate? &&
         (run.Found? && run.created.Some? ==>
            s.place.job.key.runId in w.created && run.created.value == w.created[s.place.job.key.runId])
       case Count => s.place.GateFailed? || s.place.Passed?
       case Notify => s.place.ErrorsCounted? && !s.place.recent
       case Reply(_, _) => s.place.Analysing?
       case Write =>
         || (s.place.ErrorsCounted? && s.place.recent)
         || s.place.ErrorNoted? || s.place.Dropping? || s.place.Skipping? || s.place.Starting? || s.place.Closing?
       case Send => s.place.Telling? || s.place.Delivering?
       case Restart => true
  }

  /** The gate: analyse only a finished run created at most 48 hours ago. */
  function Gate(job: Job, run: RunRead, now: real): Place {
    match run
    case Unreachable => GateFailed(job)
    case NoSuchRun => Dropping(job)
    case Found(finished, created) =>
      if !finished || created.None? || now - created.value > MAX_RUN_AGE then Dropping(job) else Passed(job)
  }

  function Claimed(s: State, key: Key, t: real, handed: bool): State {
    s.(clock := t,
       seen := AfterClaim(s.seen, key, t),
       claims := if ClaimSucceeds(s.seen, key, t) then s.claims + [Claim(key, t, handed)] else s.claims)
  }

  /** The worker has no job, or has closed the one it has. */
  predicate Closed(p: Place) {
    p.Idle? || p.Telling? || p.Delivering?
  }

  function InHand(p: Place): multiset<Job> {
    if Closed(p) then multiset{} else multiset{p.job}
  }

  predicate StartedPlace(p: Place) {
    p.Analysing? || p.Closing?
  }

  function UnderWay(p: Place): multiset<Job> {
    if StartedPlace(p) then multiset{p.job} else multiset{}
  }

  /** `answer["verdict"]`. */
  function VerdictIn(answer: Value): string {
    Verdict.Text(Verdict.Under(answer, "verdict"))
  }

  /** The label of the record the worker is about to make. */
  function LabelAt(p: Place): Label
    requires !Closed(p)
  {
    match p
    case Dropping(_) => Dropped
    case Skipping(_) => SkippedBudget
    case Starting(_, _) => Started
    case Closing(_, Refused(_)) => AnalystError
    case Closing(_, Accepted(answer, _)) => Judged(VerdictIn(answer))
    case _ => GateError
  }

  /** Where the worker goes once its record is made: on to the analysis, to the
      post that follows the record, or back to the queue. */
  function AfterRecord(p: Place): Place
    requires !Closed(p)
  {
    match p
    case Starting(job, _) => Analysing(job)
    case Skipping(job) => Telling(job, SkippedBudget)
    case Closing(job, Refused(_)) => Telling(job, AnalystError)
    case Closing(job, Accepted(answer, _)) => Delivering(job, answer)
    case _ => Idle
  }

  /** One record of the worker. */
  function Written(s: State, t: real): State
    requires !Closed(s.place)
  {
    s.(clock := t, outcomes := s.outcomes + [Outcome(s.place.job, LabelAt(s.place), t)], place := AfterRecord(s.place))
  }

  /** One post of the worker, after the record it follows. */
  function Sent(s: State, t: real): State
    requires s.place.Telling? || s.place.Delivering?
  {
    if s.place.Telling? then s.(clock := t, place := Idle, notices := s.notices + [Notice(s.place.job, s.place.what, t)])
    else s.(clock := t, place := Idle, delivered := s.delivered + Pending(s.place))
  }

  /** The delivery about to be made. */
  function Pending(p: Place): seq<Delivery> {
    if p.Delivering? then [Delivery(p.job, p.answer)] else []
  }

  /** The process starts again: the tables stay, the queue and the place do not. */
  function Restarted(s: State, t: real): State {
    s.(clock := t, queue := [], place := Idle, restarts := s.restarts + 1,
       lost := s.lost + InHand(s.place) + multiset(s.queue),
       lostStarted := s.lostStarted + UnderWay(s.place),
       undelivered := s.undelivered + Pending(s.place),
       unrecorded := s.unrecorded + if s.place.ErrorNoted? then {s.place.notice} else {})
  }

  function Step(s: State, e: Event, t: real, w: World): State
    requires Enabled(s, e, t, w)
  {
    match e
    case Hook(key) =>
      var c := Claimed(s, key, t, true);
      if ClaimSucceeds(s.seen, key, t) then c.(queue := s.queue + [Job(key, t)]) else c
    case Poll(key, seed) =>
      var c := Claimed(s, key, t, !seed);
      if ClaimSucceeds(s.seen, key, t) && !seed then c.(place := AtGate(Job(key, t))) else c
    case Take => s.(clock := t, place := AtGate(s.queue[0]), queue := s.queue[1..])
    case Read(run) => s.(clock := t, place := Gate(s.place.job, run, t))
    case Count =>
      s.(clock := t, place :=
           if s.place.GateFailed? then ErrorsCounted(s.place.job, CountSince(s.outcomes, GateError, t - HOUR) > 0, t)
           else if CountSince(s.outcomes, Started, t - HOUR) >= w.maxPerHour then Skipping(s.place.job)
           else Starting(s.place.job, t))
    case Notify => s.(clock := t, place := ErrorNoted(s.place.job, |s.notices|), notices := s.notices + [Notice(s.place.job, GateError, t)])
    case Reply(first, second) =>
      s.(clock := t, place := Closing(s.place.job, Analyze(s.place.job.key.runId, first, second, w.lex)))
    case Write => Written(s, t)
    case Send => Sent(s, t)
    case Restart => Restarted(s, t)
  }

  datatype Timed = Timed(event: Event, at: real)

  predicate Legal(s: State, trace: seq<Timed>, w: World)
    decreases trace
  {
    trace == [] || (Enabled(s, trace[0].event, trace[0].at, w) && Legal(Step(s, trace[0].event, trace[0].at, w), trace[1..], w))
  }

  function Exec(s: State, trace: seq<Timed>, w: World): State
    requires Legal(s, trace, w)
    decreases trace
  {
    if trace == [] then s else Exec(Step(s, trace[0].event, trace[0].at, w), trace[1..], w)
  }
}
