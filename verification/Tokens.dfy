/** The token cache of pkg/jwtauth, and digital-channels-gateway's one cache per tenant. */
module Tokens {
  import opened Basics

  datatype Cache = Cache(token: string, expiresAt: Time)

  /** What the issuer would answer, if asked. */
  datatype Issue = Issued(token: string, expiresAt: Time) | IssueFailed

  /** One Token call: its time and the issuer's answer. */
  datatype Call = Call(now: Time, issue: Issue)

  const EMPTY: Cache := Cache("", 0)

  const DEFAULT_MARGIN: int := 30 * SECOND

  predicate Fresh(c: Cache, margin: int, now: Time) {
    c.token != "" && now + margin < c.expiresAt
  }

  function Next(c: Cache, margin: int, call: Call): Cache {
    if !Fresh(c, margin, call.now) && call.issue.Issued? then Cache(call.issue.token, call.issue.expiresAt) else c
  }

  function Answer(c: Cache, margin: int, call: Call): Option<string> {
    if Fresh(c, margin, call.now) then Some(c.token)
    else if call.issue.Issued? then Some(call.issue.token)
    else None
  }

  class TokenSource {
    const refreshBefore: int
    var token: string
    var expiresAt: Time

    function View(): Cache
      reads this
    {
      Cache(token, expiresAt)
    }

    constructor (refreshBefore: int)
      ensures this.refreshBefore == if refreshBefore <= 0 then 30_000_000 else refreshBefore
      ensures View() == EMPTY
    {
      this.refreshBefore := if refreshBefore <= 0 then 30 * SECOND else refreshBefore;
      token, expiresAt := "", 0;
    }

    /** asked tells whether the issuer was called. */
    method Token(call: Call) returns (r: Option<string>, asked: bool)
      modifies this
      ensures View() == Next(old(View()), refreshBefore, call)
      ensures r == Answer(old(View()), refreshBefore, call)
      ensures asked <==> !(old(token) != "" && call.now + refreshBefore < old(expiresAt))
      ensures !asked ==> r == Some(old(token)) && token == old(token) && expiresAt == old(expiresAt)
      ensures asked && call.issue.Issued? ==>
        r == Some(call.issue.token) && token == call.issue.token && expiresAt == call.issue.expiresAt
      ensures asked && call.issue.IssueFailed? ==> r == None && token == old(token) && expiresAt == old(expiresAt)
    {
      if token != "" && call.now + refreshBefore < expiresAt {
        return Some(token), false;
      }
      match call.issue {
        case IssueFailed =>
          return None, true;
        case Issued(t, e) =>
          token, expiresAt := t, e;
          return Some(token), true;
      }
    }
  }

  // ----- a whole sequence of calls -----

  ghost function After(margin: int, calls: seq<Call>): Cache {
    if calls == [] then EMPTY else Next(After(margin, calls[..|calls| - 1]), margin, calls[|calls| - 1])
  }

  /** Successful issues. */
  ghost function Issues(margin: int, calls: seq<Call>): nat {
    if calls == [] then 0
    else
      var front, last := calls[..|calls| - 1], calls[|calls| - 1];
      Issues(margin, front) + (if !Fresh(After(margin, front), margin, last.now) && last.issue.Issued? then 1 else 0)
  }

  /** The cached token is the answer of one of the calls, and its expiry the one issued with it. */
  lemma {:induction false} CacheWasIssued(margin: int, calls: seq<Call>)
    requires After(margin, calls).token != ""
    ensures exists i :: 0 <= i < |calls| &&
              calls[i].issue == Issued(After(margin, calls).token, After(margin, calls).expiresAt)
  {
    var front, last := calls[..|calls| - 1], calls[|calls| - 1];
    if !Fresh(After(margin, front), margin, last.now) && last.issue.Issued? {
      assert calls[|calls| - 1].issue == Issued(After(margin, calls).token, After(margin, calls).expiresAt);
    } else {
      CacheWasIssued(margin, front);
      var i :| 0 <= i < |front| && front[i].issue == Issued(After(margin, front).token, After(margin, front).expiresAt);
      assert calls[i] == front[i];
    }
  }

  /**
   A token handed out was just issued, or was issued by an earlier call and is more than the
   margin from its expiry. A call fails only when the issuer was asked and failed, and then the
   cache is as before.
   */
  lemma {:induction false} AnswersAreCurrent(margin: int, calls: seq<Call>, call: Call)
    ensures match Answer(After(margin, calls), margin, call)
      case Some(t) =>
        || (call.issue.Issued? && call.issue.token == t
            && After(margin, calls + [call]) == Cache(t, call.issue.expiresAt))
        || exists i :: 0 <= i < |calls| && calls[i].issue.Issued? &&
              calls[i].issue.token == t && call.now + margin < calls[i].issue.expiresAt
      case None => call.issue.IssueFailed? && After(margin, calls + [call]) == After(margin, calls)
  {
    assert (calls + [call])[..|calls + [call]| - 1] == calls;
    if Fresh(After(margin, calls), margin, call.now) {
      CacheWasIssued(margin, calls);
    }
  }

  ghost predicate NonDecreasing(calls: seq<Call>) {
    forall i, j :: 0 <= i < j < |calls| ==> calls[i].now <= calls[j].now
  }

  /** Every issued token is non-empty and lives at least this long beyond its call. */
  ghost predicate Lives(calls: seq<Call>, life: int) {
    forall c :: c in calls && c.issue.Issued? ==> c.issue.token != "" && c.issue.expiresAt >= c.now + life
  }

  /** What the cache and the issue count owe to a successful issue at the given time. */
  ghost predicate IssuedAt(margin: int, calls: seq<Call>, life: int, at: Time)
    requires calls != []
  {
    && calls[0].now <= at <= calls[|calls| - 1].now
    && After(margin, calls).token != "" && After(margin, calls).expiresAt >= at + life
    && (Issues(margin, calls) - 1) * (life - margin) <= at - calls[0].now
  }

  lemma {:induction false} NextIssue(margin: int, calls: seq<Call>, life: int, at: Time)
    requires |calls| > 1 && NonDecreasing(calls) && Lives(calls, life) && margin < life
    requires IssuedAt(margin, calls[..|calls| - 1], life, at)
    ensures IssuedAt(margin, calls, life, at) || IssuedAt(margin, calls, life, calls[|calls| - 1].now)
  {
    var front, last := calls[..|calls| - 1], calls[|calls| - 1];
    assert last in calls && front[0] == calls[0] && front[|front| - 1] == calls[|calls| - 2];
    if Issues(margin, calls) > Issues(margin, front) {
      var n, d := Issues(margin, front), life - margin;
      assert !Fresh(After(margin, front), margin, last.now);
      assert last.now >= at + d;
      assert n * d == (n - 1) * d + d;
    }
  }

  /** The time of the last successful issue. */
  lemma {:induction false} LastIssue(margin: int, calls: seq<Call>, life: int) returns (at: Time)
    requires NonDecreasing(calls) && Lives(calls, life) && margin < life
    requires Issues(margin, calls) >= 1
    ensures IssuedAt(margin, calls, life, at)
  {
    var front, last := calls[..|calls| - 1], calls[|calls| - 1];
    if Issues(margin, front) == 0 {
      at := last.now;
      assert last in calls;
    } else {
      at := LastIssue(margin, front, life);
      NextIssue(margin, calls, life, at);
      at := if IssuedAt(margin, calls, life, at) then at else last.now;
    }
  }

  /** Calls at non-decreasing times issue at most once, and once more per life-minus-margin of elapsed time. */
  lemma {:induction false} IssueBound(margin: int, calls: seq<Call>, life: int)
    requires calls != [] && NonDecreasing(calls) && Lives(calls, life) && margin < life
    ensures (Issues(margin, calls) - 1) * (life - margin) <= calls[|calls| - 1].now - calls[0].now
    ensures Issues(margin, calls) <= 1 + (calls[|calls| - 1].now - calls[0].now) / (life - margin)
  {
    var d, span := life - margin, calls[|calls| - 1].now - calls[0].now;
    assert span >= 0;
    if Issues(margin, calls) == 0 {
      assert -1 * d <= span;
      DivideBound(0, d, span);
    } else {
      var at := LastIssue(margin, calls, life);
      DivideBound(Issues(margin, calls) - 1, d, span);
    }
  }

  lemma {:induction false} DivideBound(n: nat, d: int, span: int)
    requires d > 0 && n * d <= span
    ensures n <= span / d
  {
    assert span < (span / d + 1) * d;
    if n >= span / d + 1 {
      MultiplyMonotone(span / d + 1, n, d);
    }
  }

  lemma {:induction false} MultiplyMonotone(a: int, b: int, d: int)
    requires a <= b && d > 0
    ensures a * d <= b * d
  {
  }
}
