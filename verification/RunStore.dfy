/** agents/run-analyst/receiver.py, `Store`: the events claimed and the
    records of the worker, in two tables that outlive the process. */
module RunStore {
  import opened Values
  import opened Lists

  const DAY := 86400.0
  const HOUR := 3600.0
  const SEEN_FOR := 7.0 * DAY
  const MAX_RUN_AGE := 2.0 * DAY

  datatype Status = Done | Failed

  /** An event: a run and how it finished. Its text, "run:status", is this pair,
      since a run id holds no colon. */
  datatype Key = Key(runId: string, status: Status)

  /** A run handed to the worker. The worker is given the run id alone; the
      event it came from and when that was claimed are history. */
  datatype Job = Job(key: Key, claimedAt: real)

  datatype Label = GateError | Dropped | SkippedBudget | Started | AnalystError | Judged(verdict: string)

  datatype Outcome = Outcome(job: Job, what: Label, at: real)

  type Seen = map<Key, real>

  /** `DELETE FROM seen WHERE at < now - 7 days`. */
  function Expire(seen: Seen, now: real): Seen {
    map k | k in seen && seen[k] >= now - SEEN_FOR :: seen[k]
  }

  /** `INSERT OR IGNORE`: whether the row went in. */
  predicate ClaimSucceeds(seen: Seen, key: Key, now: real) {
    key !in Expire(seen, now)
  }

  function AfterClaim(seen: Seen, key: Key, now: real): Seen {
    if ClaimSucceeds(seen, key, now) then Expire(seen, now)[key := now] else Expire(seen, now)
  }

  function CountSince(outcomes: seq<Outcome>, what: Label, since: real): nat {
    if outcomes == [] then 0
    else CountSince(outcomes[..|outcomes| - 1], what, since)
         + (if outcomes[|outcomes| - 1].what == what && outcomes[|outcomes| - 1].at >= since then 1 else 0)
  }

  /** Counted are exactly the rows of that label at or after that time. */
  lemma {:induction false} CountIs(outcomes: seq<Outcome>, what: Label, since: real, counts: Outcome -> bool)
    requires forall o :: counts(o) <==> o.what == what && since <= o.at
    ensures CountSince(outcomes, what, since) == |Filter(outcomes, counts)|
  {
    if outcomes != [] {
      var n := |outcomes| - 1;
      CountIs(outcomes[..n], what, since, counts);
      FilterSnoc(outcomes[..n], outcomes[n], counts);
      assert outcomes == outcomes[..n] + [outcomes[n]];
    }
  }

  class Store {
    var seen: Seen
    var outcomes: seq<Outcome>

    constructor ()
      ensures seen == map[] && outcomes == []
    {
      seen, outcomes := map[], [];
    }

    method Claim(key: Key, now: real) returns (claimed: bool)
      modifies this`seen
      ensures claimed == ClaimSucceeds(old(seen), key, now)
      ensures seen == AfterClaim(old(seen), key, now)
    {
      seen := map k | k in seen && seen[k] >= now - SEEN_FOR :: seen[k];
      claimed := key !in seen;
      if claimed {
        seen := seen[key := now];
      }
    }

    /** `is_empty`, which asks for any one row. */
    method IsEmpty() returns (empty: bool)
      ensures empty <==> seen == map[]
    {
      empty := |seen| == 0;
    }

    method Record(job: Job, what: Label, now: real)
      modifies this`outcomes
      ensures outcomes == old(outcomes) + [Outcome(job, what, now)]
    {
      outcomes := outcomes + [Outcome(job, what, now)];
    }

    /** How many rows carry the what at or after `since`. */
    method Count(what: Label, since: real) returns (n: nat)
      ensures n == CountSince(outcomes, what, since)
    {
      n := 0;
      var i := 0;
      while i < |outcomes|
        invariant 0 <= i <= |outcomes|
        invariant n == CountSince(outcomes[..i], what, since)
      {
        assert outcomes[..i + 1][..i] == outcomes[..i];
        if outcomes[i].what == what && outcomes[i].at >= since {
          n := n + 1;
        }
        i := i + 1;
      }
      assert outcomes[..i] == outcomes;
    }
  }

  // ------------------------------------- the table against the full log

  /** A successful claim, as a log that forgets nothing would hold it. */
  datatype Claim = Claim(key: Key, at: real, handed: bool)

  ghost predicate RowsAreClaims(seen: Seen, log: seq<Claim>) {
    forall k | k in seen :: exists c | c in log :: c.key == k && c.at == seen[k]
  }

  ghost predicate YoungHaveRows(seen: Seen, log: seq<Claim>, clock: real) {
    forall c | c in log && c.at >= clock - SEEN_FOR :: c.key in seen && seen[c.key] >= c.at
  }

  ghost predicate ClaimsApart(log: seq<Claim>) {
    forall i, j | 0 <= i < j < |log| && log[i].key == log[j].key :: log[j].at > log[i].at + SEEN_FOR
  }

  /** The pruned table stands for the log: nothing in it was made up, and a
      claim young enough to count has its row, whichever other keys' claims
      deleted rows meanwhile. */
  ghost predicate Stands(seen: Seen, log: seq<Claim>, clock: real) {
    && (forall c | c in log :: c.at <= clock)
    && RowsAreClaims(seen, log) && YoungHaveRows(seen, log, clock) && ClaimsApart(log)
  }

  /** With a clock that does not run back, a claim fails exactly when a
      successful claim of that key is at most seven days old. */
  lemma ClaimAnswersForTheLog(seen: Seen, log: seq<Claim>, clock: real, key: Key, now: real)
    requires Stands(seen, log, clock) && clock <= now
    ensures !ClaimSucceeds(seen, key, now) <==> exists c | c in log :: c.key == key && c.at >= now - 7.0 * 86400.0
  {
    if !ClaimSucceeds(seen, key, now) {
      var c :| c in log && c.key == key && c.at == seen[key];
    }
  }

  lemma RowsStayClaims(seen: Seen, log: seq<Claim>, key: Key, now: real, handed: bool)
    requires RowsAreClaims(seen, log)
    ensures RowsAreClaims(AfterClaim(seen, key, now), if ClaimSucceeds(seen, key, now) then log + [Claim(key, now, handed)] else log)
  {
    var after := AfterClaim(seen, key, now);
    if ClaimSucceeds(seen, key, now) {
      var longer := log + [Claim(key, now, handed)];
      forall k | k in after
        ensures exists c | c in longer :: c.key == k && c.at == after[k]
      {
        if k == key {
          assert Claim(key, now, handed) in longer;
        } else {
          var c :| c in log && c.key == k && c.at == seen[k];
          assert c in longer;
        }
      }
    }
  }

  lemma YoungKeepRows(seen: Seen, log: seq<Claim>, clock: real, key: Key, now: real, handed: bool)
    requires YoungHaveRows(seen, log, clock) && clock <= now
    ensures YoungHaveRows(AfterClaim(seen, key, now), if ClaimSucceeds(seen, key, now) then log + [Claim(key, now, handed)] else log, now)
  {
    var after := AfterClaim(seen, key, now);
    forall c | c in log && c.at >= now - SEEN_FOR
      ensures c.key in after && after[c.key] >= c.at
    {
      assert c.at >= clock - SEEN_FOR;
    }
  }

  lemma ClaimsStayApart(log: seq<Claim>, c: Claim)
    requires ClaimsApart(log) && forall d | d in log && d.key == c.key :: c.at > d.at + SEEN_FOR
    ensures ClaimsApart(log + [c])
  {
    var longer := log + [c];
    forall i, j | 0 <= i < j < |longer| && longer[i].key == longer[j].key
      ensures longer[j].at > longer[i].at + SEEN_FOR
    {
      assert longer[i] == log[i] && log[i] in log;
    }
  }

  lemma ClaimIsApart(seen: Seen, log: seq<Claim>, clock: real, key: Key, now: real, handed: bool)
    requires Stands(seen, log, clock) && clock <= now && ClaimSucceeds(seen, key, now)
    ensures ClaimsApart(log + [Claim(key, now, handed)])
  {
    ClaimAnswersForTheLog(seen, log, clock, key, now);
    forall d | d in log && d.key == key ensures now > d.at + SEEN_FOR {}
    ClaimsStayApart(log, Claim(key, now, handed));
  }

  /** A claim, made or refused, leaves the table standing for the log. */
  lemma ClaimKeepsTheLog(seen: Seen, log: seq<Claim>, clock: real, key: Key, now: real, handed: bool)
    requires Stands(seen, log, clock) && clock <= now
    ensures Stands(AfterClaim(seen, key, now),
                   if ClaimSucceeds(seen, key, now) then log + [Claim(key, now, handed)] else log, now)
  {
    RowsStayClaims(seen, log, key, now, handed);
    YoungKeepRows(seen, log, clock, key, now, handed);
    if ClaimSucceeds(seen, key, now) { ClaimIsApart(seen, log, clock, key, now, handed); }
  }
}
