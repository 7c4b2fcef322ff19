/** What the invariant of the worker system gives, for every reachable state and every run. */
module QueueTheorems {
  import opened Basics
  import opened JobTable
  import opened QueueSystem
  import H = WrapupHandler

  // ----- exclusive ownership -----

  /** Whoever has a job: an open claim transaction or a handler goroutine. */
  datatype Holder = ByClaim(w: nat) | ByHandler(g: nat)

  ghost predicate Holds(s: Sys, h: Holder, id: nat) {
    match h
    case ByClaim(w) => w in s.db.txs && id in Ids(s.db.txs[w].batch)
    case ByHandler(g) => g in s.gos && s.gos[g].job.id == id
  }

  /**
   At most one holder per job, among all workers' open claims and handlers. A claimed row is
   still committed as pending; a handler's row is in processing and is its snapshot.
   */
  lemma {:induction false} ExclusiveHolder(s: Sys, h1: Holder, h2: Holder, id: nat)
    requires Reachable(s) && Holds(s, h1, id) && Holds(s, h2, id)
    ensures h1 == h2
    ensures id in s.db.rows
    ensures h1.ByClaim? ==> s.db.rows[id].status == Pending
    ensures h1.ByHandler? ==> s.db.rows[id] == s.gos[h1.g].job.row && s.db.rows[id].status == Processing
  {
    ReachableInv(s);
    if h1.ByHandler? {
      assert GoOk(s.db.rows, s.claims[id], s.posts[id], s.gos[h1.g]);
      if h2.ByClaim? {
        HandlersAndClaimsApart(s, h1.g, h2.w);
      }
    } else {
      if h2.ByHandler? {
        HandlersAndClaimsApart(s, h2.g, h1.w);
      }
      var j :| j in s.db.txs[h1.w].batch && j.id == id;
      assert TxOk(s.db.rows, s.clock, s.db.txs[h1.w]);
      assert ClaimOk(s.db.rows, s.db.txs[h1.w].began, j);
    }
  }

  lemma {:induction false} SettleIsFree(s: Sys, g: nat, exec: Exec)
    requires Inv(s) && g in s.gos && s.gos[g].stage.Deciding?
    ensures Enabled(s, Settle(g, exec))
  {
    forall w, j | w in s.db.txs && j in s.db.txs[w].batch ensures j.id != s.gos[g].job.id {
      HandlersAndClaimsApart(s, g, w);
      assert j.id in Ids(s.db.txs[w].batch);
    }
  }

  /**
   The id-only status updates are safe: no lock ever blocks one, it meets the row its handler
   claimed, still in processing with the same attempts, and it changes that row alone.
   */
  lemma {:induction false} UpdatesByIdAreSafe(s: Sys, g: nat, exec: Exec)
    requires Reachable(s) && g in s.gos && s.gos[g].stage.Deciding?
    ensures Enabled(s, Settle(g, exec))
    ensures var t, job := Step(s, Settle(g, exec)), s.gos[g].job;
      && job.id in s.db.rows && s.db.rows[job.id] == job.row && job.row.status == Processing
      && t.db.rows.Keys == s.db.rows.Keys
      && (forall id :: id in s.db.rows && id != job.id ==> t.db.rows[id] == s.db.rows[id])
      && (exec != Refused ==> t.db.rows[job.id].status != Processing)
      && t.db.rows[job.id].attempts == job.row.attempts
  {
    ReachableInv(s);
    SettleIsFree(s, g, exec);
    SettleChanges(s, g, exec);
  }

  // ----- bounded attempts -----

  /**
   Attempts count the committed claims. No row has more than five, none with five is pending,
   and no job is posted more often than it was claimed.
   */
  lemma {:induction false} BoundedAttempts(s: Sys, id: nat)
    requires Reachable(s) && id in s.db.rows
    ensures id in s.claims && s.db.rows[id].attempts == |s.claims[id]| <= 5
    ensures s.db.rows[id].status == Pending ==> s.db.rows[id].attempts <= 4
    ensures s.db.rows[id].jobType != H.WRAPUP_SYNC && s.db.rows[id].status == Pending ==> s.db.rows[id].attempts == 0
    ensures id in s.posts && s.posts[id] <= s.db.rows[id].attempts
  {
    ReachableInv(s);
    assert RowOk(s.db.rows[id], s.claims[id], s.posts[id], s.clock);
  }

  // ----- a measure every claim and every settle spends -----

  function Weight(row: Row): int {
    2 * (5 - row.attempts) + (if row.status == Processing then 1 else 0)
  }

  ghost function Measure(rows: map<nat, Row>, n: nat): int {
    if n == 0 then 0 else Measure(rows, n - 1) + (if n - 1 in rows then Weight(rows[n - 1]) else 0)
  }

  ghost function Total(s: Sys): int {
    Measure(s.db.rows, s.db.nextId)
  }

  /** Rows claimed by a commit that took effect, or settled by an update that did. */
  ghost function Spent(s: Sys, a: Action): nat
    requires Enabled(s, a)
  {
    match a
    case Commit(w, outcome) => if outcome == CommitFailed then 0 else |s.db.txs[w].batch|
    case Settle(_, exec) => if exec == Refused then 0 else 1
    case _ => 0
  }

  ghost function Earned(a: Action): nat {
    if a.Enqueue? && a.exec != Refused then 10 else 0
  }

  lemma {:induction false} MeasureFrame(rows: map<nat, Row>, rows': map<nat, Row>, n: nat)
    requires forall id :: 0 <= id < n ==>
      (id in rows <==> id in rows') && (id in rows ==> Weight(rows[id]) == Weight(rows'[id]))
    ensures Measure(rows, n) == Measure(rows', n)
  {
    if n > 0 {
      MeasureFrame(rows, rows', n - 1);
    }
  }

  lemma {:induction false} MeasureUpdate(rows: map<nat, Row>, n: nat, id: nat, row: Row)
    requires id in rows && id < n
    ensures Measure(rows[id := row], n) == Measure(rows, n) + Weight(row) - Weight(rows[id])
  {
    if id == n - 1 {
      MeasureFrame(rows, rows[id := row], n - 1);
    } else {
      MeasureUpdate(rows, n - 1, id, row);
    }
  }

  lemma {:induction false} MeasureInstall(rows: map<nat, Row>, n: nat, batch: seq<Job>)
    requires DistinctIds(batch)
    requires forall j :: j in batch ==>
      j.id in rows && j.id < n && rows[j.id].status == Pending && j.row == ClaimedRow(rows[j.id])
    ensures Measure(Install(rows, batch), n) == Measure(rows, n) - |batch|
    decreases batch
  {
    if batch != [] {
      var j := batch[0];
      assert j in batch;
      MeasureUpdate(rows, n, j.id, j.row);
      forall k | k in batch[1..] ensures k in batch && k.id != j.id {
        var i :| 0 <= i < |batch[1..]| && batch[1..][i] == k;
        assert batch[i + 1] == k;
      }
      MeasureInstall(rows[j.id := j.row], n, batch[1..]);
    }
  }

  lemma {:induction false} CommitConserves(s: Sys, w: nat, outcome: CommitOutcome)
    requires Inv(s) && w in s.db.txs && outcome != CommitFailed
    ensures Total(CommitStep(s, w, outcome)) + |s.db.txs[w].batch| == Total(s)
  {
    var tx := s.db.txs[w];
    assert TxOk(s.db.rows, s.clock, tx);
    forall j | j in tx.batch
      ensures j.id in s.db.rows && j.id < s.db.nextId && s.db.rows[j.id].status == Pending
      ensures j.row == ClaimedRow(s.db.rows[j.id])
    {
      assert ClaimOk(s.db.rows, tx.began, j);
    }
    MeasureInstall(s.db.rows, s.db.nextId, tx.batch);
  }

  /** A settle replaces one row, by one that weighs one less if the update took effect. */
  lemma {:induction false} SettledRow(s: Sys, g: nat, exec: Exec) returns (row: Row)
    requires Inv(s) && g in s.gos && s.gos[g].stage.Deciding?
    ensures var id := s.gos[g].job.id;
      && id in s.db.rows && id < s.db.nextId
      && SettleStep(s, g, exec).db.rows == s.db.rows[id := row]
      && Weight(row) + (if exec == Refused then 0 else 1) == Weight(s.db.rows[id])
    ensures SettleStep(s, g, exec).db.nextId == s.db.nextId
  {
    SettleChanges(s, g, exec);
    row := SettleStep(s, g, exec).db.rows[s.gos[g].job.id];
  }

  lemma {:induction false} SettleConserves(s: Sys, g: nat, exec: Exec)
    requires Inv(s) && g in s.gos && s.gos[g].stage.Deciding?
    ensures Total(SettleStep(s, g, exec)) + (if exec == Refused then 0 else 1) == Total(s)
  {
    var row := SettledRow(s, g, exec);
    MeasureUpdate(s.db.rows, s.db.nextId, s.gos[g].job.id, row);
  }

  lemma {:induction false} EnqueueConserves(s: Sys, a: Action)
    requires Inv(s) && a.Enqueue? && a.exec != Refused && Enabled(s, a)
    ensures Total(Step(s, a)) == Total(s) + 10
  {
    MeasureFrame(s.db.rows, Step(s, a).db.rows, s.db.nextId);
  }

  lemma {:induction false} StepConserves(s: Sys, a: Action)
    requires Inv(s) && Enabled(s, a)
    ensures Total(Step(s, a)) + Spent(s, a) == Total(s) + Earned(a)
  {
    match a {
      case Enqueue(_, _, _, _, exec) =>
        if exec != Refused {
          EnqueueConserves(s, a);
        }
      case Commit(w, outcome) =>
        if outcome != CommitFailed {
          CommitConserves(s, w, outcome);
        }
      case Settle(g, exec) => SettleConserves(s, g, exec);
      case _ => assert Step(s, a).db.rows == s.db.rows && Step(s, a).db.nextId == s.db.nextId;
    }
  }

  lemma {:induction false} MeasureNonNegative(s: Sys, n: nat)
    requires RowsInv(s.db, s.claims, s.posts, s.clock)
    ensures 0 <= Measure(s.db.rows, n) <= 10 * n
  {
    if n > 0 {
      MeasureNonNegative(s, n - 1);
      if n - 1 in s.db.rows {
        assert RowOk(s.db.rows[n - 1], s.claims[n - 1], s.posts[n - 1], s.clock);
      }
    }
  }

  ghost function TotalSpent(s: Sys, run: seq<Action>): nat
    requires Valid(s, run)
    decreases run
  {
    if run == [] then 0 else Spent(s, run[0]) + TotalSpent(Step(s, run[0]), run[1..])
  }

  ghost function TotalEarned(run: seq<Action>): nat
    decreases run
  {
    if run == [] then 0 else Earned(run[0]) + TotalEarned(run[1..])
  }

  /**
   Over every run, claims and settles spend exactly what the measure loses plus ten for each
   job enqueued; the measure is never negative, so they are bounded by what it started with.
   */
  lemma {:induction false} RunConserves(s: Sys, run: seq<Action>)
    requires Inv(s) && Valid(s, run)
    ensures Total(Run(s, run)) + TotalSpent(s, run) == Total(s) + TotalEarned(run)
    ensures Total(Run(s, run)) >= 0
    ensures TotalSpent(s, run) <= 10 * s.db.nextId + TotalEarned(run)
    decreases run
  {
    MeasureNonNegative(s, s.db.nextId);
    if run != [] {
      StepConserves(s, run[0]);
      StepKeeps(s, run[0]);
      RunConserves(Step(s, run[0]), run[1..]);
    }
  }

  // ----- what a row keeps for good -----

  /** Rows are never removed, keep what they were enqueued with, and done and failed are final. */
  ghost predicate Later(r: Row, r': Row) {
    && r'.tenant == r.tenant && r'.jobType == r.jobType && r'.payload == r.payload && r'.createdAt == r.createdAt
    && r'.attempts >= r.attempts
    && (r.status == Done || r.status == Failed ==> r' == r)
  }

  lemma {:induction false} CommitIsLater(s: Sys, w: nat, outcome: CommitOutcome, id: nat)
    requires Inv(s) && w in s.db.txs && outcome != CommitFailed && id in s.db.rows
    ensures var t := CommitStep(s, w, outcome); id in t.db.rows && Later(s.db.rows[id], t.db.rows[id])
  {
    CommitChanges(s, w, outcome);
    assert TxOk(s.db.rows, s.clock, s.db.txs[w]);
    if id in Ids(s.db.txs[w].batch) {
      var j :| j in s.db.txs[w].batch && j.id == id;
      assert ClaimOk(s.db.rows, s.db.txs[w].began, j);
    }
  }

  lemma {:induction false} SettleIsLater(s: Sys, g: nat, exec: Exec, id: nat)
    requires Inv(s) && g in s.gos && s.gos[g].stage.Deciding? && id in s.db.rows
    ensures var t := SettleStep(s, g, exec); id in t.db.rows && Later(s.db.rows[id], t.db.rows[id])
  {
    SettleChanges(s, g, exec);
  }

  lemma {:induction false} EnqueueIsLater(s: Sys, a: Action, id: nat)
    requires Inv(s) && a.Enqueue? && Enabled(s, a) && id in s.db.rows
    ensures id in Step(s, a).db.rows && Later(s.db.rows[id], Step(s, a).db.rows[id])
  {
  }

  lemma {:induction false} StepIsLater(s: Sys, a: Action, id: nat)
    requires Inv(s) && Enabled(s, a) && id in s.db.rows
    ensures id in Step(s, a).db.rows && Later(s.db.rows[id], Step(s, a).db.rows[id])
  {
    match a {
      case Commit(w, outcome) =>
        if outcome != CommitFailed {
          CommitIsLater(s, w, outcome, id);
        }
      case Settle(g, exec) => SettleIsLater(s, g, exec, id);
      case Enqueue(_, _, _, _, _) => EnqueueIsLater(s, a, id);
      case _ =>
    }
  }

  lemma {:induction false} RowsLast(s: Sys, run: seq<Action>, id: nat)
    requires Inv(s) && Valid(s, run) && id in s.db.rows
    ensures id in Run(s, run).db.rows && Later(s.db.rows[id], Run(s, run).db.rows[id])
    decreases run
  {
    if run != [] {
      StepIsLater(s, run[0], id);
      StepKeeps(s, run[0]);
      RowsLast(Step(s, run[0]), run[1..], id);
    }
  }

  // ----- backoff over a whole life -----

  /** A retry waits exactly 30 seconds per attempt from the decision, later than the row's last run_after. */
  lemma {:induction false} RetryWait(s: Sys, g: nat, env: H.World)
    requires Reachable(s) && Enabled(s, Decide(g, env))
    requires H.Decide(s.gos[g].job, env).Retry?
    ensures var k := s.gos[g].job.row.attempts;
      && 1 <= k <= 4
      && H.Decide(s.gos[g].job, env).at == s.clock + 30 * SECOND * k
      && H.Decide(s.gos[g].job, env).at > s.gos[g].job.row.runAfter
      && H.Wrap64(k * H.BASE_BACKOFF) == k * H.BASE_BACKOFF < H.MAX_BACKOFF
  {
    ReachableInv(s);
    RetryIsSpaced(s, g, env);
  }

  /** The next claim of a job comes at least 30k seconds after its k-th. */
  lemma {:induction false} ClaimsAreSpaced(s: Sys, id: nat, k: nat)
    requires Reachable(s) && id in s.claims && 0 < k < |s.claims[id]|
    ensures s.claims[id][k] >= s.claims[id][k - 1] + 30 * SECOND * k
  {
    ReachableInv(s);
    assert RowOk(s.db.rows[id], s.claims[id], s.posts[id], s.clock);
  }

  /** A fifth claim comes at least five minutes after the first. */
  lemma {:induction false} FifthClaim(s: Sys, id: nat)
    requires Reachable(s) && id in s.claims && |s.claims[id]| == 5
    ensures s.claims[id][4] - s.claims[id][0] >= 300 * SECOND
  {
    forall k: nat | 0 < k < 5 ensures s.claims[id][k] >= s.claims[id][k - 1] + 30 * SECOND * k {
      ClaimsAreSpaced(s, id, k);
    }
    assert s.claims[id][1] >= s.claims[id][0] + 30 * SECOND;
    assert s.claims[id][2] >= s.claims[id][1] + 60 * SECOND;
    assert s.claims[id][3] >= s.claims[id][2] + 90 * SECOND;
  }

  // ----- rollback, and rows nobody holds -----

  /** A claim that rolls back, by choice or crash, leaves every row as it was and claimable again. */
  lemma {:induction false} RolledBackClaimIsUndone(s: Sys, w: nat, j: Job, a: Action)
    requires Reachable(s) && w in s.db.txs && j in s.db.txs[w].batch
    requires a == Rollback(w) || a == Commit(w, CommitFailed) || a == Crash(w)
    ensures Enabled(s, a)
    ensures Step(s, a).db.rows == s.db.rows
    ensures j.id in Eligible(s.db.rows, Locked(Step(s, a).db), s.clock)
    ensures s.db.rows[j.id].attempts == j.row.attempts - 1
  {
    ReachableInv(s);
    var t := Step(s, a);
    assert TxOk(s.db.rows, s.clock, s.db.txs[w]);
    assert ClaimOk(s.db.rows, s.db.txs[w].began, j);
    forall v, i | v in t.db.txs && i in t.db.txs[v].batch ensures i.id != j.id {
      assert i.id in Ids(s.db.txs[v].batch) && j.id in Ids(s.db.txs[w].batch);
    }
  }

  /** In processing, with no handler: its worker crashed after the commit, or its update was refused. */
  ghost predicate Orphan(s: Sys, id: nat) {
    && id in s.db.rows && s.db.rows[id].status == Processing
    && forall g :: g in s.gos ==> s.gos[g].job.id != id
  }

  lemma {:induction false} SpawnedJobs(s: Sys, w: nat, outcome: CommitOutcome, g: nat)
    requires w in s.db.txs && g in CommitStep(s, w, outcome).gos
    ensures (g in s.gos && CommitStep(s, w, outcome).gos[g] == s.gos[g])
      || CommitStep(s, w, outcome).gos[g].job in s.db.txs[w].batch
  {
  }

  lemma {:induction false} OrphanCommit(s: Sys, w: nat, outcome: CommitOutcome, id: nat)
    requires Inv(s) && w in s.db.txs && Orphan(s, id)
    ensures var t := CommitStep(s, w, outcome); Orphan(t, id) && t.db.rows[id] == s.db.rows[id]
  {
    var t, tx := CommitStep(s, w, outcome), s.db.txs[w];
    forall j | j in tx.batch ensures j.id != id {
      assert TxOk(s.db.rows, s.clock, tx) && ClaimOk(s.db.rows, tx.began, j);
    }
    if outcome != CommitFailed {
      CommitChanges(s, w, outcome);
    }
    forall g | g in t.gos ensures t.gos[g].job.id != id {
      SpawnedJobs(s, w, outcome, g);
    }
  }

  lemma {:induction false} OrphanStep(s: Sys, a: Action, id: nat)
    requires Inv(s) && Enabled(s, a) && Orphan(s, id)
    ensures Orphan(Step(s, a), id) && Step(s, a).db.rows[id] == s.db.rows[id]
  {
    match a {
      case Commit(w, outcome) =>
        OrphanCommit(s, w, outcome, id);
      case Settle(g, exec) =>
        SettleChanges(s, g, exec);
      case _ =>
    }
  }

  /** There is no reaper: an orphaned row is in processing, unchanged, ever after. */
  lemma {:induction false} OrphansAreNeverReclaimed(s: Sys, run: seq<Action>, id: nat)
    requires Inv(s) && Valid(s, run) && Orphan(s, id)
    ensures Orphan(Run(s, run), id) && Run(s, run).db.rows[id] == s.db.rows[id]
    decreases run
  {
    if run != [] {
      OrphanStep(s, run[0], id);
      StepKeeps(s, run[0]);
      OrphansAreNeverReclaimed(Step(s, run[0]), run[1..], id);
    }
  }

  /** What is left for a handler to do: start, decide, update its row. */
  ghost function HandlerSteps(s: Sys, g: nat): seq<Action>
    requires g in s.gos
  {
    (if s.gos[g].stage == Queued then [Start(g)] else [])
    + (if s.gos[g].stage.Deciding? then [] else [Decide(g, H.World(H.Missing, true, true, H.TransportError, s.clock))])
    + [Settle(g, Applied)]
  }

  lemma {:induction false} HandlerSettles(s: Sys, g: nat)
    requires Inv(s) && g in s.gos && s.gos[g].stage.Deciding?
    ensures Valid(s, [Settle(g, Applied)])
    ensures var t, id := Run(s, [Settle(g, Applied)]), s.gos[g].job.id;
      id in t.db.rows && t.db.rows[id].status != Processing
  {
    SettleIsFree(s, g, Applied);
    SettleChanges(s, g, Applied);
    var run, t := [Settle(g, Applied)], Step(s, Settle(g, Applied));
    assert run[1..] == [] && Valid(t, []) && Run(t, []) == t;
  }

  lemma {:induction false} HandlerDecides(s: Sys, g: nat, env: H.World)
    requires Inv(s) && g in s.gos && s.gos[g].stage == Running && env.now == s.clock
    ensures var run := [Decide(g, env), Settle(g, Applied)];
      && Valid(s, run)
      && var t, id := Run(s, run), s.gos[g].job.id; id in t.db.rows && t.db.rows[id].status != Processing
  {
    var a, run := Decide(g, env), [Decide(g, env), Settle(g, Applied)];
    assert Enabled(s, a);
    StepKeeps(s, a);
    HandlerSettles(Step(s, a), g);
    assert run[1..] == [Settle(g, Applied)];
  }

  /** A handler that is left to run takes its row out of processing. */
  lemma {:induction false} HandlerFinishes(s: Sys, g: nat)
    requires Inv(s) && g in s.gos
    ensures Valid(s, HandlerSteps(s, g))
    ensures var t, id := Run(s, HandlerSteps(s, g)), s.gos[g].job.id;
      id in t.db.rows && t.db.rows[id].status != Processing
  {
    var env, settle := H.World(H.Missing, true, true, H.TransportError, s.clock), Settle(g, Applied);
    if s.gos[g].stage.Deciding? {
      HandlerSettles(s, g);
      assert HandlerSteps(s, g) == [settle];
    } else if s.gos[g].stage == Running {
      HandlerDecides(s, g, env);
      assert HandlerSteps(s, g) == [Decide(g, env), settle];
    } else {
      var run := [Start(g), Decide(g, env), settle];
      StartKeeps(s, g);
      HandlerDecides(Step(s, Start(g)), g, env);
      assert HandlerSteps(s, g) == run && run[1..] == [Decide(g, env), settle];
    }
  }

  /** A processing row is stuck, in every continuation, exactly when no handler has it. */
  lemma {:induction false} StuckIffOrphan(s: Sys, id: nat)
    requires Reachable(s) && id in s.db.rows && s.db.rows[id].status == Processing
    ensures (forall run :: Valid(s, run) ==> id in Run(s, run).db.rows && Run(s, run).db.rows[id].status == Processing)
      <==> forall g :: g in s.gos ==> s.gos[g].job.id != id
  {
    ReachableInv(s);
    if g :| g in s.gos && s.gos[g].job.id == id {
      HandlerFinishes(s, g);
    } else {
      forall run | Valid(s, run) ensures id in Run(s, run).db.rows && Run(s, run).db.rows[id].status == Processing {
        OrphansAreNeverReclaimed(s, run, id);
      }
    }
  }
}
