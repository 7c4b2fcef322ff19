/** handler.go of background-worker-pool: what becomes of one claimed job. */
module WrapupHandler {
  import opened Basics
  import opened JobTable

  const WRAPUP_SYNC: string := "wrapup_sync"

  const MAX_ATTEMPTS: nat := 5

  /** Go durations: signed 64-bit nanoseconds. */
  const BASE_BACKOFF: int := 30_000_000_000
  const MAX_BACKOFF: int := 300_000_000_000
  const NANOS_PER_MICRO: int := 1000

  function Wrap64(x: int): int {
    (x + 0x8000_0000_0000_0000) % 0x1_0000_0000_0000_0000 - 0x8000_0000_0000_0000
  }

  function Delay(attempts: int): int {
    var delay := Wrap64(attempts * BASE_BACKOFF);
    if delay > MAX_BACKOFF then MAX_BACKOFF else delay
  }

  function NextRunAfter(attempts: int, now: Time): Time {
    now + Delay(attempts) / NANOS_PER_MICRO
  }

  /** Up to this many attempts the duration product stays within 64 bits. */
  const LAST_EXACT_ATTEMPT: int := 307_445_734

  lemma {:induction false} ProductExactIff(attempts: nat)
    ensures Wrap64(attempts * BASE_BACKOFF) == attempts * BASE_BACKOFF <==> attempts <= LAST_EXACT_ATTEMPT
  {
  }

  /**
   The delay is 30 seconds per attempt, five minutes at most, exactly when the product fits or the
   wrapped product still reaches the cap: of the attempts beyond the last exact one, the first gives
   a negative delay and others the cap again.
   */
  lemma {:induction false} DelayIsCappedLinear(attempts: nat)
    ensures Delay(attempts) == Min(attempts * BASE_BACKOFF, MAX_BACKOFF) <==>
      attempts <= LAST_EXACT_ATTEMPT || Wrap64(attempts * BASE_BACKOFF) >= MAX_BACKOFF
    ensures Min(attempts * BASE_BACKOFF, MAX_BACKOFF) == if attempts < 10 then attempts * BASE_BACKOFF else MAX_BACKOFF
    ensures Delay(LAST_EXACT_ATTEMPT + 1) < 0 && Delay(700_000_000) == MAX_BACKOFF
  {
    ProductExactIff(attempts);
  }

  /** The attempts a retry can see: 30 seconds per attempt, never the cap. */
  lemma {:induction false} RetryDelayExact(attempts: nat, now: Time)
    requires attempts < MAX_ATTEMPTS
    ensures NextRunAfter(attempts, now) == now + 30 * SECOND * attempts
  {
    DelayIsCappedLinear(attempts);
  }

  datatype Lookup = Found | Missing | LookupFailed

  datatype Http = TransportError | Response(code: int)

  /** Everything the handler meets outside the table. */
  datatype World = World(lookup: Lookup, marshalOk: bool, requestOk: bool, http: Http, now: Time)

  datatype Verdict = Finish | Abandon | Retry(at: Time)

  /** The job reaches the point where the POST is sent. */
  predicate Posts(job: Job, env: World) {
    && job.row.jobType == WRAPUP_SYNC
    && job.row.payload.Wrapup?
    && env.lookup == Found && env.marshalOk && env.requestOk
  }

  predicate Succeeds(env: World) {
    env.http.Response? && 200 <= env.http.code < 300
  }

  /** A failure that a later attempt may not meet. */
  predicate Transient(job: Job, env: World) {
    || (job.row.jobType == WRAPUP_SYNC && job.row.payload.Wrapup? && env.lookup == LookupFailed)
    || (Posts(job, env) && !Succeeds(env))
  }

  function Decide(job: Job, env: World): Verdict {
    if Posts(job, env) && Succeeds(env) then Finish
    else if Transient(job, env) && job.row.attempts < MAX_ATTEMPTS then Retry(NextRunAfter(job.row.attempts, env.now))
    else Abandon
  }

  /** The id-only update that carries a verdict out. */
  function Settled(db: Db, id: nat, v: Verdict, exec: Exec): Db {
    match v
    case Finish => MarkedDone(db, id, exec)
    case Abandon => MarkedFailed(db, id, false, 0, exec)
    case Retry(at) => MarkedFailed(db, id, true, at, exec)
  }

  // ----- the outcome spelled out -----

  /** All checks before the request passed. */
  ghost predicate RequestGoesOut(job: Job, env: World) {
    && job.row.jobType == "wrapup_sync" && job.row.payload.Wrapup?
    && env.lookup == Found && env.marshalOk && env.requestOk
  }

  /** The row a handled job leaves, against the row it found. */
  ghost predicate Outcome(job: Job, env: World, row: Row, after: Row) {
    var accepted := RequestGoesOut(job, env) && env.http.Response? && 200 <= env.http.code <= 299;
    var lookupFailed := job.row.jobType == "wrapup_sync" && job.row.payload.Wrapup? && env.lookup == LookupFailed;
    var again := (lookupFailed || (RequestGoesOut(job, env) && !accepted)) && job.row.attempts < 5;
    && (after.status == Done <==> accepted)
    && (after.status == Pending <==> again)
    && (after.status == Failed <==> !accepted && !again)
    && after.runAfter == (if again then env.now + 30 * SECOND * job.row.attempts else row.runAfter)
    && after == row.(status := after.status, runAfter := after.runAfter)
  }

  /** What Decide and Settled, which the system steps with, come to. */
  lemma {:induction false} DecisionOutcome(db: Db, job: Job, env: World, exec: Exec)
    requires job.id in db.rows
    ensures var t := Settled(db, job.id, Decide(job, env), exec);
      && t.rows.Keys == db.rows.Keys && t.nextId == db.nextId && t.txs == db.txs
      && (forall id :: id in db.rows && id != job.id ==> t.rows[id] == db.rows[id])
      && (if exec == Refused then t == db else Outcome(job, env, db.rows[job.id], t.rows[job.id]))
    ensures Posts(job, env) <==> RequestGoesOut(job, env)
  {
    if job.row.attempts < 5 {
      RetryDelayExact(job.row.attempts, env.now);
    }
  }

  method RetryOrFail(db: Database, job: Job, now: Time, exec: Exec) returns (err: bool)
    modifies db
    ensures db.View() == Settled(old(db.View()), job.id,
      if job.row.attempts < MAX_ATTEMPTS then Retry(NextRunAfter(job.row.attempts, now)) else Abandon, exec)
    ensures err <==> exec != Applied
    ensures db.rows ==
      if exec == Refused || job.id !in old(db.rows) then old(db.rows)
      else if job.row.attempts < 5 then
        old(db.rows)[job.id :=
          old(db.rows)[job.id].(status := Pending, runAfter := now + 30 * SECOND * job.row.attempts)]
      else old(db.rows)[job.id := old(db.rows)[job.id].(status := Failed)]
  {
    if job.row.attempts < 5 {
      RetryDelayExact(job.row.attempts, now);
    }
    if job.row.attempts < MAX_ATTEMPTS {
      var retryAt := NextRunAfter(job.row.attempts, now);
      err := db.MarkFailed(job.id, true, retryAt, exec);
      return;
    }
    err := db.MarkFailed(job.id, false, 0, exec);
  }

  method HandleWrapupSync(db: Database, job: Job, env: World, exec: Exec) returns (err: bool, posted: bool)
    requires job.row.jobType == WRAPUP_SYNC
    modifies db
    ensures db.View() == Settled(old(db.View()), job.id, Decide(job, env), exec)
    ensures err <==> exec != Applied
    ensures posted <==> Posts(job, env)
    ensures job.id !in old(db.rows) || exec == Refused ==> db.View() == old(db.View())
    ensures job.id in old(db.rows) ==>
      && db.nextId == old(db.nextId) && db.txs == old(db.txs) && db.rows.Keys == old(db.rows).Keys
      && (forall id :: id in old(db.rows) && id != job.id ==> db.rows[id] == old(db.rows)[id])
      && (exec != Refused ==> Outcome(job, env, old(db.rows)[job.id], db.rows[job.id]))
    ensures posted <==> RequestGoesOut(job, env)
  {
    ghost var before := db.View();
    if job.id in db.rows {
      DecisionOutcome(before, job, env, exec);
    }
    posted := false;
    if job.row.payload.Undecodable? {
      err := db.MarkFailed(job.id, false, 0, exec);
      return;
    }
    if env.lookup == Missing {
      err := db.MarkFailed(job.id, false, 0, exec);
      return;
    }
    if env.lookup == LookupFailed {
      err := RetryOrFail(db, job, env.now, exec);
      return;
    }
    if !env.marshalOk {
      err := db.MarkFailed(job.id, false, 0, exec);
      return;
    }
    if !env.requestOk {
      err := db.MarkFailed(job.id, false, 0, exec);
      return;
    }
    posted := true;
    match env.http {
      case TransportError =>
        err := RetryOrFail(db, job, env.now, exec);
      case Response(code) =>
        if code < 200 || code >= 300 {
          err := RetryOrFail(db, job, env.now, exec);
        } else {
          err := db.MarkDone(job.id, exec);
        }
    }
  }

  /** The poller's handler: an unknown job type is marked failed. */
  method HandleJob(db: Database, job: Job, env: World, exec: Exec) returns (err: bool, posted: bool)
    modifies db
    ensures db.View() == Settled(old(db.View()), job.id, Decide(job, env), exec)
    ensures err <==> exec != Applied
    ensures posted <==> Posts(job, env)
    ensures job.id !in old(db.rows) || exec == Refused ==> db.View() == old(db.View())
    ensures job.id in old(db.rows) ==>
      && db.nextId == old(db.nextId) && db.txs == old(db.txs) && db.rows.Keys == old(db.rows).Keys
      && (forall id :: id in old(db.rows) && id != job.id ==> db.rows[id] == old(db.rows)[id])
      && (exec != Refused ==> Outcome(job, env, old(db.rows)[job.id], db.rows[job.id]))
    ensures posted <==> RequestGoesOut(job, env)
  {
    ghost var before := db.View();
    if job.id in db.rows {
      DecisionOutcome(before, job, env, exec);
    }
    if job.row.jobType == WRAPUP_SYNC {
      err, posted := HandleWrapupSync(db, job, env, exec);
    } else {
      posted := false;
      err := db.MarkFailed(job.id, false, 0, exec);
    }
  }
}
