/** cli/client/client.go: the retry loop every request goes through, and the
    loop that polls a disruption until its report is final. The network, the
    clock and the caller's context are traces of answers; time is in
    milliseconds. */
module ClientRetry {
  import opened Values

  // ------------------------------------------------------------ one request

  /** What one attempt meets. */
  datatype Answer = NotConnected | NotRead | Response(status: int, body: string)

  /** What doRequestWith returns; NoAnswer is its (nil, nil). A Plain error has
      the status in its text only. */
  datatype Reply =
    | Body(body: string)
    | HTTPError(status: int)
    | Plain(status: int)
    | ConnectionFailed
    | ReadFailed
    | Cancelled
    | NotSetUp
    | NoAnswer

  /** HTTPError.Retryable */
  predicate Retryable(status: int) { status >= 500 || status == 408 || status == 429 }

  function Attempts(maxRetries: int, retryable: bool): int { if retryable then maxRetries else 1 }

  /** An attempt that the loop goes on from while attempts are left. */
  predicate GoesOn(a: Answer, retryable: bool) {
    a.Response? ==> retryable && a.status >= 500
  }

  /** What the attempt's answer alone says, when it is the last. */
  function Settle(a: Answer): Reply {
    match a
    case NotConnected => ConnectionFailed
    case NotRead => ReadFailed
    case Response(status, body) => if status >= 400 then HTTPError(status) else Body(body)
  }

  /** The request ends at attempt k, and not before: every earlier attempt left
      it going and no wait was cut short. */
  ghost predicate Reaches(net: nat -> Answer, cancelled: nat -> bool, retryable: bool, k: nat) {
    forall i: nat | i < k :: GoesOn(net(i), retryable) && !cancelled(i)
  }

  /** What the source promises of a reply after `sent` attempts. */
  ghost predicate Answers(net: nat -> Answer, cancelled: nat -> bool, attempts: int, retryable: bool, setUp: bool,
                             sent: nat, reply: Reply) {
    if !setUp then sent == 0 && reply == NotSetUp
    else if attempts <= 0 then sent == 0 && reply == NoAnswer
    else
      && 1 <= sent <= attempts && Reaches(net, cancelled, retryable, sent - 1)
      && if reply == Cancelled then sent < attempts && GoesOn(net(sent - 1), retryable) && cancelled(sent - 1)
         else (sent == attempts || !GoesOn(net(sent - 1), retryable)) && reply == Settle(net(sent - 1))
  }

  function PowerOfTwo(n: nat): nat { if n == 0 then 1 else 2 * PowerOfTwo(n - 1) }

  /** The wait before attempt i, in milliseconds. */
  function Backoff(i: nat): nat
    requires i >= 1
  {
    PowerOfTwo(i - 1) * 500
  }

  /** The promise told attempt by attempt: all but the last failed to connect, to
      be read or, if retried at all, with a server error, and none was cut short;
      and the last one's outcome is the reply. */
  lemma RequestTells(net: nat -> Answer, cancelled: nat -> bool, maxRetries: int, retryable: bool, sent: nat, reply: Reply)
    requires Answers(net, cancelled, Attempts(maxRetries, retryable), retryable, true, sent, reply)
    ensures sent == 0 <==> retryable && maxRetries <= 0
    ensures sent == 0 ==> reply == NoAnswer
    ensures sent > 0 ==> sent <= if retryable then maxRetries else 1
    ensures forall i: nat | i + 1 < sent ::
      !cancelled(i) && (net(i).NotConnected? || net(i).NotRead? || (retryable && net(i).Response? && net(i).status >= 500))
    ensures sent > 0 && reply == Cancelled ==>
      cancelled(sent - 1) && !(net(sent - 1).Response? && net(sent - 1).status < 500) && sent < if retryable then maxRetries else 1
    ensures sent > 0 && reply != Cancelled ==>
      var last := sent == if retryable then maxRetries else 1;
      match net(sent - 1)
      case NotConnected => reply == ConnectionFailed && last
      case NotRead => reply == ReadFailed && last
      case Response(status, body) =>
        if status < 400 then reply == Body(body)
        else reply == HTTPError(status) && (status >= 500 ==> last || !retryable)
  {
  }

  /** `cancelled(i)`: the caller's context ends during the wait after attempt i.
      `waited` is the backoff slept in all. */
  method DoRequestWith(maxRetries: int, setUp: bool, retryable: bool, net: nat -> Answer, cancelled: nat -> bool)
    returns (reply: Reply, sent: nat, waited: nat)
    ensures Answers(net, cancelled, Attempts(maxRetries, retryable), retryable, setUp, sent, reply)
    ensures maxRetries >= 1 && setUp ==>
      && 1 <= sent <= maxRetries && (!retryable ==> sent == 1)
      && (reply.Body? <==> reply != Cancelled && net(sent - 1).Response? && net(sent - 1).status < 400)
      && (reply.HTTPError? ==> net(sent - 1).Response? && net(sent - 1).status == reply.status >= 400)
      && reply != NoAnswer && !reply.Plain?
    ensures if sent == 0 then waited == 0 else waited == 500 * (PowerOfTwo(sent - 1) - 1)
  {
    sent, waited := 0, 0;
    if !setUp {
      return NotSetUp, 0, 0;
    }
    var attempts := if retryable then maxRetries else 1;
    var lastErr: Reply := NoAnswer;
    var i := 0;
    while i < attempts
      invariant i == 0 || 0 < i <= attempts
      invariant i == 0 ==> lastErr == NoAnswer && waited == 0
      invariant sent == i
      invariant i > 0 ==> Reaches(net, cancelled, retryable, i - 1) && GoesOn(net(i - 1), retryable) && waited + 500 == Backoff(i)
      invariant i > 0 && i == attempts ==> lastErr == Settle(net(i - 1))
    {
      if i > 0 {
        if cancelled(i - 1) {
          return Cancelled, sent, waited;
        }
        waited := waited + Backoff(i);
      }
      var resp := net(i);
      sent := sent + 1;
      match resp {
        case NotConnected => lastErr := ConnectionFailed;
        case NotRead => lastErr := ReadFailed;
        case Response(status, body) =>
          if status >= 500 && retryable && i < attempts - 1 {
            lastErr := Plain(status);
          } else if status >= 400 {
            return HTTPError(status), sent, waited;
          } else {
            return Body(body), sent, waited;
          }
      }
      i := i + 1;
    }
    reply := lastErr;
  }

  /** The same, attempt by attempt from the i-th: the reply and how many attempts
      were made. */
  function ReplyFrom(net: nat -> Answer, cancelled: nat -> bool, attempts: int, retryable: bool, i: nat): (Reply, nat)
    requires i < attempts
    decreases attempts - i
  {
    if i == attempts - 1 || !GoesOn(net(i), retryable) then (Settle(net(i)), i + 1)
    else if cancelled(i) then (Cancelled, i + 1)
    else ReplyFrom(net, cancelled, attempts, retryable, i + 1)
  }

  /** What is promised of a reply leaves one, and it is this. */
  lemma {:induction false} OneReply(net: nat -> Answer, cancelled: nat -> bool, attempts: int, retryable: bool, sent: nat, reply: Reply, i: nat)
    requires attempts > 0 && Answers(net, cancelled, attempts, retryable, true, sent, reply) && i < sent
    ensures ReplyFrom(net, cancelled, attempts, retryable, i) == (reply, sent)
    decreases sent - i
  {
    if i + 1 < sent {
      assert GoesOn(net(i), retryable) && !cancelled(i);
      OneReply(net, cancelled, attempts, retryable, sent, reply, i + 1);
    }
  }

  // -------------------------------------------------------------- one await

  /** A report's status: the five final ones, and any other text. */
  datatype Status = COMPLETED | PARTIAL | FAILED | REJECTED | INTERRUPTED | Other(text: string)

  /** isTerminalDisruptionStatus */
  predicate IsTerminal(status: Status) { !status.Other? }

  /** A response body read as JSON: null, or a report with its status. */
  datatype Json = NotJson | Null | ReportOf(status: Status)

  /** What one DisruptionStatus call gives: a report, none, an error that carries
      an HTTP status, or one that does not. */
  datatype Poll = Report(status: Status) | NoReport | Failed(code: int) | Broken

  function PollOf(reply: Reply, parse: string -> Json): Poll {
    match reply
    case Body(body) =>
      (match parse(body)
       case NotJson => Broken
       case Null => NoReport
       case ReportOf(status) => Report(status))
    case HTTPError(status) => Failed(status)
    case _ => Broken
  }

  /** A report is a body read as one, no report is a body of null, and an error
      has the status that ended its request, if one did. */
  lemma PollTells(reply: Reply, parse: string -> Json, status: Status, code: int)
    ensures PollOf(reply, parse) == Report(status) <==> exists body :: reply == Body(body) && parse(body) == ReportOf(status)
    ensures PollOf(reply, parse) == NoReport <==> exists body :: reply == Body(body) && parse(body) == Json.Null
    ensures PollOf(reply, parse) == Failed(code) <==> reply == HTTPError(code)
  {
    if reply.Body? { assert reply == Body(reply.body); }
  }

  predicate Settled(p: Poll) { p.Report? && IsTerminal(p.status) }
  predicate Permanent(p: Poll) { p.Failed? && !Retryable(p.code) }
  predicate Transient(p: Poll) { p.Broken? || (p.Failed? && Retryable(p.code)) }

  const BUDGET := 1_200_000
  const EVERY := 5_000
  const MAX_FAILURES := 5

  datatype Awaited =
    | Reported(status: Status)
    | FirstPollFailed
    | PollFailed(code: int)
    | FailedInARow
    | TimedOut
    | ContextEnded

  /** The client, and what its polls of one disruption meet: net(0) is for the
      poll before the loop, net(k) for the loop's k-th, and clock(k) the time after it. An id that pathf
      refuses reaches no network. */
  datatype Setting = Setting(
    maxRetries: int,
    setUp: bool,
    idRefused: bool,
    net: nat -> nat -> Answer,
    cut: nat -> nat -> bool,
    parse: string -> Json,
    start: int,
    clock: nat -> int,
    ended: nat -> bool)

  /** Each wait lasts at least the interval, and no poll takes negative time. */
  ghost predicate TimePasses(s: Setting) {
    s.clock(1) >= s.start && forall k: nat | k >= 1 :: s.clock(k + 1) >= s.clock(k) + EVERY
  }

  /** What a poll gives. */
  function PollAt(s: Setting, n: nat): Poll {
    if s.idRefused || !s.setUp || s.maxRetries <= 0 then Broken
    else PollOf(ReplyFrom(s.net(n), s.cut(n), s.maxRetries, true, 0).0, s.parse)
  }

  method DisruptionStatus(s: Setting, n: nat) returns (poll: Poll, sent: nat)
    ensures poll == PollAt(s, n) && (sent == 0 || sent <= s.maxRetries)
  {
    if s.idRefused {
      return Broken, 0;
    }
    var reply, requests, waited := DoRequestWith(s.maxRetries, s.setUp, true, s.net(n), s.cut(n));
    if s.setUp && s.maxRetries > 0 {
      OneReply(s.net(n), s.cut(n), s.maxRetries, true, requests, reply, 0);
    }
    return PollOf(reply, s.parse), requests;
  }

  /** A poll is read off the reply its request promises. */
  lemma PollIsItsReply(s: Setting, n: nat, sent: nat, reply: Reply)
    requires !s.idRefused && Answers(s.net(n), s.cut(n), s.maxRetries, true, s.setUp, sent, reply)
    ensures PollAt(s, n) == PollOf(reply, s.parse)
  {
    if s.setUp && s.maxRetries > 0 { OneReply(s.net(n), s.cut(n), s.maxRetries, true, sent, reply, 0); }
  }

  /** How many transient failures the loop's first n polls end with. */
  function InARow(s: Setting, n: nat): (r: nat)
    ensures r <= n
  {
    if n == 0 || !Transient(PollAt(s, n)) then 0 else 1 + InARow(s, n - 1)
  }

  lemma {:induction false} InARowMeans(s: Setting, n: nat)
    ensures forall k | n - InARow(s, n) < k <= n :: Transient(PollAt(s, k))
    ensures InARow(s, n) < n ==> !Transient(PollAt(s, n - InARow(s, n)))
  {
    if n > 0 && Transient(PollAt(s, n)) { InARowMeans(s, n - 1); }
  }

  /** Why the loop ends with its n-th poll, if it does. */
  function Ending(s: Setting, n: nat): Option<Awaited>
    requires n > 0
  {
    var p := PollAt(s, n);
    if Settled(p) then Some(Reported(p.status))
    else if Permanent(p) then Some(PollFailed(p.code))
    else if InARow(s, n) >= MAX_FAILURES then Some(FailedInARow)
    else if s.clock(n) > s.start + BUDGET then Some(TimedOut)
    else if s.ended(n) then Some(ContextEnded)
    else None
  }

  /** None of the first n polls ended the loop. */
  ghost predicate KeptGoing(s: Setting, n: nat) {
    forall k: nat | 0 < k <= n :: Ending(s, k) == None
  }

  /** How a wait ends after n polls of its loop: without the loop, when the accept
      status was terminal and the first poll did not come back empty; with the
      first poll that is a reason to, otherwise. */
  ghost predicate Awaits(s: Setting, accepted: Status, n: nat, r: Awaited) {
    if IsTerminal(accepted) && PollAt(s, 0) != NoReport then
      n == 0 && r == (if PollAt(s, 0).Report? then Reported(PollAt(s, 0).status) else FirstPollFailed)
    else n > 0 && KeptGoing(s, n - 1) && Ending(s, n) == Some(r)
  }

  /** A loop that has gone on after its polls has time left for few more. */
  lemma {:induction false} TimeIsBounded(s: Setting, n: nat)
    requires TimePasses(s) && KeptGoing(s, n)
    ensures n > 0 ==> s.clock(n) >= s.start + (n - 1) * EVERY
    ensures n <= 241
  {
    if n > 0 {
      TimeIsBounded(s, n - 1);
      assert Ending(s, n) == None;
      if n > 1 { assert s.clock((n - 1) + 1) >= s.clock(n - 1) + EVERY; }
    }
  }

  /** A poll that ends nothing keeps the loop going. */
  lemma OneMorePoll(s: Setting, n: nat, p: Poll)
    requires KeptGoing(s, n) && p == PollAt(s, n + 1)
    ensures InARow(s, n + 1) == if Transient(p) then InARow(s, n) + 1 else 0
    ensures Ending(s, n + 1) == None ==> KeptGoing(s, n + 1)
  {
    if Ending(s, n + 1) == None { StillGoing(s, n); }
  }

  lemma StillGoing(s: Setting, n: nat)
    requires KeptGoing(s, n) && Ending(s, n + 1) == None
    ensures KeptGoing(s, n + 1)
  {
    forall k: nat | 0 < k <= n + 1 ensures Ending(s, k) == None {
      if k == n + 1 { assert Ending(s, n + 1) == None; }
    }
  }

  /** No poll sent more requests than that. */
  predicate NoneOver(requests: seq<nat>, most: int) {
    forall sent | sent in requests :: sent == 0 || sent <= most
  }

  /** The loop: from here on nothing ends it but its own polls, the deadline and
      the context. */
  method PollUntilFinal(s: Setting) returns (r: Awaited, n: nat, requests: seq<nat>)
    requires TimePasses(s)
    ensures n > 0 && KeptGoing(s, n - 1) && Ending(s, n) == Some(r)
    ensures n <= 242
    ensures |requests| == n && NoneOver(requests, s.maxRetries)
  {
    n, requests := 0, [];
    var deadline := s.start + BUDGET;
    var consecutiveFailures := 0;
    while true
      invariant consecutiveFailures == InARow(s, n) < MAX_FAILURES
      invariant KeptGoing(s, n)
      invariant n <= BUDGET / EVERY + 1
      invariant |requests| == n && NoneOver(requests, s.maxRetries)
      decreases BUDGET / EVERY + 2 - n
    {
      var report, sent := DisruptionStatus(s, n + 1);
      OneMorePoll(s, n, report);
      n := n + 1;
      requests := requests + [sent];
      if report.Report? || report.NoReport? {
        consecutiveFailures := 0;
        if report.Report? && IsTerminal(report.status) {
          return Reported(report.status), n, requests;
        }
      } else {
        if report.Failed? && !Retryable(report.code) {
          return PollFailed(report.code), n, requests;
        }
        consecutiveFailures := consecutiveFailures + 1;
        if consecutiveFailures >= MAX_FAILURES {
          return FailedInARow, n, requests;
        }
      }
      if s.clock(n) > deadline {
        return TimedOut, n, requests;
      }
      if s.ended(n) {
        return ContextEnded, n, requests;
      }
      TimeIsBounded(s, n);
    }
  }

  /** `requests` holds what each poll sent, the one before the loop included. */
  method AwaitDisruptionFrom(s: Setting, accepted: Status) returns (r: Awaited, n: nat, requests: seq<nat>)
    requires TimePasses(s)
    ensures Awaits(s, accepted, n, r)
    ensures n <= 242
    ensures |requests| == n + (if IsTerminal(accepted) then 1 else 0) && NoneOver(requests, s.maxRetries)
  {
    requests := [];
    if IsTerminal(accepted) {
      var report, sent := DisruptionStatus(s, 0);
      requests := [sent];
      if report.Failed? || report.Broken? {
        return FirstPollFailed, 0, requests;
      }
      if report.Report? {
        return Reported(report.status), 0, requests;
      }
    }
    var more: seq<nat>;
    r, n, more := PollUntilFinal(s);
    requests := requests + more;
  }

  /** An error that may pass: none with a status, or a server error, a request
      timeout or too many requests. */
  ghost predicate MayPass(p: Poll) {
    p.Broken? || (p.Failed? && (p.code >= 500 || p.code in {408, 429}))
  }

  /** The five statuses that are final. */
  ghost predicate IsFinal(status: Status) {
    status in {COMPLETED, PARTIAL, FAILED, REJECTED, INTERRUPTED}
  }

  /** How a wait can end: on exactly the fifth failure in a row that may pass, at
      once on one that may not, with a report only of a final status unless
      the accept status already was, and otherwise only past the deadline or
      with the context. */
  lemma HowWaitsEnd(s: Setting, accepted: Status, n: nat, r: Awaited)
    requires Awaits(s, accepted, n, r)
    ensures r == FailedInARow <==> n >= 5 && forall k | n - 5 < k <= n :: MayPass(PollAt(s, k))
    ensures r.PollFailed? <==> n > 0 && PollAt(s, n).Failed? && !MayPass(PollAt(s, n))
    ensures r.PollFailed? ==> PollAt(s, n) == Failed(r.code)
    ensures r.Reported? ==> PollAt(s, n) == Report(r.status) && (IsFinal(r.status) || (n == 0 && IsFinal(accepted)))
    ensures n > 0 && PollAt(s, n).Report? && IsFinal(PollAt(s, n).status) ==> r == Reported(PollAt(s, n).status)
    ensures r == TimedOut ==> s.clock(n) > s.start + 1_200_000
    ensures r == ContextEnded ==> s.ended(n)
    ensures r == FirstPollFailed ==> n == 0 && IsFinal(accepted) && (PollAt(s, 0).Broken? || PollAt(s, 0).Failed?)
  {
    if n > 1 { assert Ending(s, n - 1) == None; }
    if n > 0 {
      FiveInARow(s, n);
      assert forall k :: Transient(PollAt(s, k)) <==> MayPass(PollAt(s, k));
    }
  }

  lemma FiveInARow(s: Setting, n: nat)
    ensures InARow(s, n) >= 5 <==> n >= 5 && forall k | n - 5 < k <= n :: Transient(PollAt(s, k))
  {
    InARowMeans(s, n);
    if InARow(s, n) < 5 && n >= 5 {
      var k := n - InARow(s, n);
      assert !Transient(PollAt(s, k));
    }
  }

  /** And no earlier poll was a reason to end. */
  lemma NoEarlierEnd(s: Setting, accepted: Status, n: nat, r: Awaited, k: nat)
    requires Awaits(s, accepted, n, r) && 0 < k < n
    ensures PollAt(s, k).Failed? ==> MayPass(PollAt(s, k))
    ensures PollAt(s, k).Report? ==> !IsFinal(PollAt(s, k).status)
    ensures k >= 5 ==> exists j :: k - 5 < j <= k && !MayPass(PollAt(s, j))
    ensures s.clock(k) <= s.start + 1_200_000 && !s.ended(k)
  {
    assert Ending(s, k) == None;
    FiveInARow(s, k);
    assert forall j :: Transient(PollAt(s, j)) <==> MayPass(PollAt(s, j));
  }

  /** An id that pathf refuses counts as a transient failure: after an accept
      that is not terminal it is given up on only at the fifth poll, unless time
      or the context ends first. */
  lemma RefusedIdFailsFiveTimes(s: Setting, accepted: Status, n: nat, r: Awaited)
    requires Awaits(s, accepted, n, r) && s.idRefused
    ensures IsTerminal(accepted) ==> r == FirstPollFailed
    ensures !IsTerminal(accepted) ==>
      && n <= MAX_FAILURES && (r == FailedInARow <==> n == MAX_FAILURES)
      && (r == FailedInARow || r == TimedOut || r == ContextEnded)
  {
    if n > 0 {
      HowWaitsEnd(s, accepted, n, r);
      AllInARow(s, n);
      if n > 1 {
        AllInARow(s, n - 1);
        NoEarlierEnd(s, accepted, n, r, n - 1);
      }
    }
  }

  lemma {:induction false} AllInARow(s: Setting, n: nat)
    requires s.idRefused
    ensures InARow(s, n) == n
  {
    if n > 0 { AllInARow(s, n - 1); }
  }
}
