/**
 Any number of workers over one background_jobs table: pollers with open claim
 transactions, one goroutine per committed job, crashes, unreported and refused
 statements, and one non-decreasing clock shared by database and workers.
 */
module QueueSystem {
  import opened Basics
  import opened JobTable
  import Poller
  import H = WrapupHandler
  import opened Subjects

  /** A handler goroutine: not yet started, running, or about to run its status update. */
  datatype Stage = Queued | Running | Deciding(verdict: H.Verdict)

  datatype Go = Go(worker: nat, job: Job, stage: Stage)

  /** claims and posts are history: when each job's committed claims began, how often it was posted. */
  datatype Sys = Sys(clock: Time, db: Db, gos: map<nat, Go>, nextGo: nat,
                     claims: map<nat, seq<Time>>, posts: map<nat, nat>)

  datatype Action =
    | Tick(d: nat)
    | Enqueue(tenant: Uuid, jobType: string, payload: Payload, runAfter: Time, exec: Exec)
    | Begin(w: nat)
    | Claim(w: nat, limit: nat, batch: seq<Job>)
    | Rollback(w: nat)
    | Commit(w: nat, outcome: CommitOutcome)
    | Start(g: nat)
    | Decide(g: nat, env: H.World)
    | Settle(g: nat, exec: Exec)
    | Crash(w: nat)

  function Init(clock: Time): Sys {
    Sys(clock, Db(map[], 0, map[]), map[], 0, map[], map[])
  }

  ghost predicate Enabled(s: Sys, a: Action) {
    match a
    case Tick(_) => true
    case Enqueue(_, _, _, _, _) => true
    case Begin(w) => w !in s.db.txs
    case Claim(w, limit, batch) => w in s.db.txs && s.db.txs[w].batch == [] && Claimable(s.db, w, limit, batch)
    case Rollback(w) => w in s.db.txs
    case Commit(w, _) => w in s.db.txs && s.db.txs[w].batch != []
    case Start(g) => g in s.gos && s.gos[g].stage == Queued
    case Decide(g, env) => g in s.gos && s.gos[g].stage == Running && env.now == s.clock && s.gos[g].job.id in s.posts
    case Settle(g, _) => g in s.gos && s.gos[g].stage.Deciding? && s.gos[g].job.id !in Locked(s.db)
    case Crash(_) => true
  }

  function Range(first: nat, n: nat): (r: set<nat>)
    ensures forall g :: g in r <==> first <= g < first + n
  {
    if n == 0 then {} else Range(first, n - 1) + {first + n - 1}
  }

  /** The goroutines one committed batch gives rise to. */
  function Spawned(w: nat, batch: seq<Job>, first: nat): map<nat, Go> {
    map g | g in Range(first, |batch|) :: Go(w, batch[g - first], Queued)
  }

  function Recorded(claims: map<nat, seq<Time>>, batch: seq<Job>, at: Time): map<nat, seq<Time>> {
    map id | id in claims :: if id in Ids(batch) then claims[id] + [at] else claims[id]
  }

  function CommitStep(s: Sys, w: nat, outcome: CommitOutcome): Sys
    requires w in s.db.txs
  {
    var tx := s.db.txs[w];
    var db := CommittedTx(s.db, w, outcome);
    match outcome
    case CommitFailed => s.(db := db)
    case CommitUnreported => s.(db := db, claims := Recorded(s.claims, tx.batch, tx.began))
    case Committed => s.(db := db, claims := Recorded(s.claims, tx.batch, tx.began),
                         gos := s.gos + Spawned(w, tx.batch, s.nextGo), nextGo := s.nextGo + |tx.batch|)
  }

  function DecideStep(s: Sys, g: nat, env: H.World): Sys
    requires g in s.gos && s.gos[g].job.id in s.posts
  {
    var job := s.gos[g].job;
    s.(gos := s.gos[g := s.gos[g].(stage := Deciding(H.Decide(job, env)))],
       posts := if H.Posts(job, env) then s.posts[job.id := s.posts[job.id] + 1] else s.posts)
  }

  function SettleStep(s: Sys, g: nat, exec: Exec): Sys
    requires g in s.gos && s.gos[g].stage.Deciding?
  {
    s.(db := H.Settled(s.db, s.gos[g].job.id, s.gos[g].stage.verdict, exec), gos := s.gos - {g})
  }

  function Step(s: Sys, a: Action): Sys
    requires Enabled(s, a)
  {
    match a
    case Tick(d) => s.(clock := s.clock + d)
    case Enqueue(tenant, jobType, payload, runAfter, exec) =>
      if exec == Refused then s
      else s.(db := Enqueued(s.db, tenant, jobType, payload, runAfter, s.clock, exec),
              claims := s.claims[s.db.nextId := []], posts := s.posts[s.db.nextId := 0])
    case Begin(w) => s.(db := Poller.Begun(s.db, w, s.clock))
    case Claim(w, _, batch) => s.(db := Held(s.db, w, batch))
    case Rollback(w) => s.(db := Released(s.db, w))
    case Commit(w, outcome) => CommitStep(s, w, outcome)
    case Start(g) => s.(gos := s.gos[g := s.gos[g].(stage := Running)])
    case Decide(g, env) => DecideStep(s, g, env)
    case Settle(g, exec) => SettleStep(s, g, exec)
    case Crash(w) =>
      s.(db := Released(s.db, w), gos := map g | g in s.gos && s.gos[g].worker != w :: s.gos[g])
  }

  ghost predicate Valid(s: Sys, run: seq<Action>)
    decreases run
  {
    run == [] || (Enabled(s, run[0]) && Valid(Step(s, run[0]), run[1..]))
  }

  ghost function Run(s: Sys, run: seq<Action>): Sys
    requires Valid(s, run)
    decreases run
  {
    if run == [] then s else Run(Step(s, run[0]), run[1..])
  }

  ghost predicate Reachable(s: Sys) {
    exists clock, run :: Valid(Init(clock), run) && Run(Init(clock), run) == s
  }

  // ----- the invariant -----

  /** Seconds of backoff after the k-th claim. */
  function Backoff(k: nat): int {
    30 * SECOND * k
  }

  ghost predicate Spaced(hist: seq<Time>) {
    forall k :: 0 < k < |hist| ==> hist[k] >= hist[k - 1] + Backoff(k)
  }

  ghost predicate RowOk(row: Row, hist: seq<Time>, posts: nat, clock: Time) {
    && |hist| == row.attempts <= H.MAX_ATTEMPTS
    && posts <= row.attempts
    && Spaced(hist)
    && (forall t :: t in hist ==> t <= clock)
    && (row.status == Pending ==>
          && row.attempts < H.MAX_ATTEMPTS
          && (row.jobType != H.WRAPUP_SYNC ==> row.attempts == 0)
          && (row.attempts > 0 ==> row.runAfter >= hist[|hist| - 1] + Backoff(row.attempts)))
    && (row.status == Processing ==> row.attempts > 0 && row.runAfter <= hist[|hist| - 1])
  }

  ghost predicate RowsInv(db: Db, claims: map<nat, seq<Time>>, posts: map<nat, nat>, clock: Time) {
    && claims.Keys == posts.Keys == db.rows.Keys
    && (forall id :: id in db.rows ==> id < db.nextId)
    && (forall id :: id in db.rows ==> RowOk(db.rows[id], claims[id], posts[id], clock))
  }

  /** A claimed job of an open transaction: its row is committed as pending and due. */
  ghost predicate ClaimOk(rows: map<nat, Row>, began: Time, j: Job) {
    j.id in rows && Due(rows[j.id], began) && j.row == ClaimedRow(rows[j.id])
  }

  ghost predicate TxOk(rows: map<nat, Row>, clock: Time, tx: Tx) {
    && tx.began <= clock
    && DistinctIds(tx.batch)
    && forall j :: j in tx.batch ==> ClaimOk(rows, tx.began, j)
  }

  ghost predicate TxInv(db: Db, clock: Time) {
    && (forall w :: w in db.txs ==> TxOk(db.rows, clock, db.txs[w]))
    && (forall v, w :: v in db.txs && w in db.txs && v != w ==> Ids(db.txs[v].batch) !! Ids(db.txs[w].batch))
  }

  /** A handler's row is in processing and is exactly the handler's snapshot. */
  ghost predicate GoOk(rows: map<nat, Row>, hist: seq<Time>, posts: nat, go: Go) {
    && go.job.id in rows
    && rows[go.job.id] == go.job.row
    && go.job.row.status == Processing
    && (!go.stage.Deciding? ==> posts < go.job.row.attempts)
    && (go.stage.Deciding? && go.stage.verdict.Retry? ==>
          && go.job.row.jobType == H.WRAPUP_SYNC
          && 0 < go.job.row.attempts < H.MAX_ATTEMPTS
          && |hist| == go.job.row.attempts
          && go.stage.verdict.at >= hist[go.job.row.attempts - 1] + Backoff(go.job.row.attempts))
  }

  ghost predicate GoInv(rows: map<nat, Row>, claims: map<nat, seq<Time>>, posts: map<nat, nat>, gos: map<nat, Go>,
                        nextGo: nat)
    requires claims.Keys == posts.Keys == rows.Keys
  {
    && (forall g :: g in gos ==>
          g < nextGo && gos[g].job.id in rows && GoOk(rows, claims[gos[g].job.id], posts[gos[g].job.id], gos[g]))
    && (forall f, g :: f in gos && g in gos && f != g ==> gos[f].job.id != gos[g].job.id)
  }

  ghost predicate Inv(s: Sys) {
    && RowsInv(s.db, s.claims, s.posts, s.clock)
    && TxInv(s.db, s.clock)
    && GoInv(s.db.rows, s.claims, s.posts, s.gos, s.nextGo)
  }

  // ----- every step keeps it -----

  lemma {:induction false} TickKeeps(s: Sys, d: nat)
    requires Inv(s)
    ensures Inv(Step(s, Tick(d)))
  {
    var t := Step(s, Tick(d));
    forall id | id in t.db.rows ensures RowOk(t.db.rows[id], t.claims[id], t.posts[id], t.clock) {
      assert RowOk(s.db.rows[id], s.claims[id], s.posts[id], s.clock);
    }
    forall w | w in t.db.txs ensures TxOk(t.db.rows, t.clock, t.db.txs[w]) {
      assert TxOk(s.db.rows, s.clock, s.db.txs[w]);
    }
  }

  /** A transaction stays as it should be while the rows it holds keep their values. */
  lemma {:induction false} TxOkFrame(rows: map<nat, Row>, rows': map<nat, Row>, clock: Time, tx: Tx)
    requires TxOk(rows, clock, tx)
    requires forall id :: id in Ids(tx.batch) && id in rows ==> id in rows' && rows'[id] == rows[id]
    ensures TxOk(rows', clock, tx)
  {
    forall j | j in tx.batch ensures ClaimOk(rows', tx.began, j) {
      assert ClaimOk(rows, tx.began, j) && j.id in Ids(tx.batch);
    }
  }

  lemma {:induction false} EnqueueKeepsGos(s: Sys, a: Action)
    requires Inv(s) && a.Enqueue? && a.exec != Refused && Enabled(s, a)
    requires s.db.nextId !in s.db.rows
    ensures var t := Step(s, a);
      t.claims.Keys == t.posts.Keys == t.db.rows.Keys && GoInv(t.db.rows, t.claims, t.posts, t.gos, t.nextGo)
  {
    var t := Step(s, a);
    forall g | g in t.gos
      ensures var id := t.gos[g].job.id;
        g < t.nextGo && id in t.db.rows && GoOk(t.db.rows, t.claims[id], t.posts[id], t.gos[g])
    {
      assert GoOk(s.db.rows, s.claims[s.gos[g].job.id], s.posts[s.gos[g].job.id], s.gos[g]);
    }
  }

  lemma {:induction false} EnqueueKeepsTxs(s: Sys, a: Action)
    requires Inv(s) && a.Enqueue? && a.exec != Refused && Enabled(s, a)
    requires s.db.nextId !in s.db.rows
    ensures var t := Step(s, a); TxInv(t.db, t.clock)
  {
    var t := Step(s, a);
    forall w | w in t.db.txs ensures TxOk(t.db.rows, t.clock, t.db.txs[w]) {
      TxOkFrame(s.db.rows, t.db.rows, s.clock, s.db.txs[w]);
    }
  }

  lemma {:induction false} EnqueueKeeps(s: Sys, a: Action)
    requires Inv(s) && a.Enqueue? && a.exec != Refused && Enabled(s, a)
    ensures Inv(Step(s, a))
  {
    var t := Step(s, a);
    assert s.db.nextId !in s.db.rows;
    forall id | id in t.db.rows ensures RowOk(t.db.rows[id], t.claims[id], t.posts[id], t.clock) {
      if id != s.db.nextId {
        assert RowOk(s.db.rows[id], s.claims[id], s.posts[id], s.clock);
      }
    }
    EnqueueKeepsTxs(s, a);
    EnqueueKeepsGos(s, a);
  }

  lemma {:induction false} ClaimKeepsTxs(s: Sys, w0: nat, limit: nat, batch: seq<Job>)
    requires TxInv(s.db, s.clock) && w0 in s.db.txs && Claimable(s.db, w0, limit, batch)
    ensures TxInv(Held(s.db, w0, batch), s.clock)
  {
    var db := Held(s.db, w0, batch);
    assert TxOk(s.db.rows, s.clock, s.db.txs[w0]);
    forall j | j in batch ensures ClaimOk(db.rows, db.txs[w0].began, j) {
      assert j.id in Ids(batch);
    }
    forall w | w in db.txs ensures TxOk(db.rows, s.clock, db.txs[w]) {
      if w != w0 {
        assert TxOk(s.db.rows, s.clock, s.db.txs[w]);
      }
    }
    forall w | w in db.txs && w != w0 ensures Ids(db.txs[w].batch) !! Ids(batch) {
      assert Ids(s.db.txs[w].batch) <= Locked(s.db);
    }
  }

  /** A claimed row after its commit, with the claim in its history. */
  lemma {:induction false} CommittedRowOk(s: Sys, w: nat, j: Job)
    requires RowsInv(s.db, s.claims, s.posts, s.clock) && TxInv(s.db, s.clock)
    requires w in s.db.txs && j in s.db.txs[w].batch
    ensures j.id in s.db.rows && s.db.rows[j.id].status == Pending
    ensures RowOk(j.row, s.claims[j.id] + [s.db.txs[w].began], s.posts[j.id], s.clock)
    ensures s.posts[j.id] < j.row.attempts
    ensures j.row.status == Processing
  {
    assert TxOk(s.db.rows, s.clock, s.db.txs[w]);
    assert ClaimOk(s.db.rows, s.db.txs[w].began, j);
    assert RowOk(s.db.rows[j.id], s.claims[j.id], s.posts[j.id], s.clock);
  }

  /** A commit replaces the batch's rows, extends their histories, and touches nothing else. */
  lemma {:induction false} CommitChanges(s: Sys, w: nat, outcome: CommitOutcome)
    requires s.claims.Keys == s.db.rows.Keys && TxInv(s.db, s.clock) && w in s.db.txs && outcome != CommitFailed
    ensures var t, batch := CommitStep(s, w, outcome), s.db.txs[w].batch;
      && t.db.rows.Keys == t.claims.Keys == s.db.rows.Keys
      && (forall id :: id in s.db.rows && id !in Ids(batch) ==>
            t.db.rows[id] == s.db.rows[id] && t.claims[id] == s.claims[id])
      && (forall j :: j in batch ==> j.id in t.db.rows && t.db.rows[j.id] == j.row
                                     && t.claims[j.id] == s.claims[j.id] + [s.db.txs[w].began])
  {
    var tx := s.db.txs[w];
    assert TxOk(s.db.rows, s.clock, tx);
    InstallMeaning(s.db.rows, tx.batch);
    forall j | j in tx.batch ensures j.id in s.db.rows && j.id in Ids(tx.batch) {
      assert ClaimOk(s.db.rows, tx.began, j);
    }
  }

  lemma {:induction false} CommitKeepsRows(s: Sys, w: nat, outcome: CommitOutcome)
    requires RowsInv(s.db, s.claims, s.posts, s.clock) && TxInv(s.db, s.clock) && w in s.db.txs
    requires outcome != CommitFailed
    ensures var t := CommitStep(s, w, outcome); RowsInv(t.db, t.claims, t.posts, t.clock)
  {
    var t, batch := CommitStep(s, w, outcome), s.db.txs[w].batch;
    CommitChanges(s, w, outcome);
    forall id | id in t.db.rows ensures RowOk(t.db.rows[id], t.claims[id], t.posts[id], t.clock) {
      if id in Ids(batch) {
        var j :| j in batch && j.id == id;
        CommittedRowOk(s, w, j);
      } else {
        assert RowOk(s.db.rows[id], s.claims[id], s.posts[id], s.clock);
      }
    }
  }

  lemma {:induction false} CommitKeepsTxs(s: Sys, w0: nat, outcome: CommitOutcome)
    requires s.claims.Keys == s.db.rows.Keys && TxInv(s.db, s.clock) && w0 in s.db.txs
    ensures var t := CommitStep(s, w0, outcome); TxInv(t.db, t.clock)
  {
    var t := CommitStep(s, w0, outcome);
    if outcome != CommitFailed {
      CommitChanges(s, w0, outcome);
    }
    forall w | w in t.db.txs ensures TxOk(t.db.rows, t.clock, t.db.txs[w]) {
      TxOkFrame(s.db.rows, t.db.rows, s.clock, s.db.txs[w]);
    }
  }

  /** No handler holds a row that an open claim holds: the one is processing, the other pending. */
  lemma {:induction false} HandlersAndClaimsApart(s: Sys, g: nat, w: nat)
    requires Inv(s) && g in s.gos && w in s.db.txs
    ensures s.gos[g].job.id !in Ids(s.db.txs[w].batch)
  {
    var go := s.gos[g];
    assert GoOk(s.db.rows, s.claims[go.job.id], s.posts[go.job.id], go);
    assert TxOk(s.db.rows, s.clock, s.db.txs[w]);
    forall j | j in s.db.txs[w].batch ensures j.id != go.job.id {
      assert ClaimOk(s.db.rows, s.db.txs[w].began, j);
    }
  }

  /** Goroutines whose rows keep their values, histories and post counts stay as they should be. */
  lemma {:induction false} GoOkFrame(s: Sys, t: Sys, g: nat)
    requires Inv(s) && g in s.gos && t.claims.Keys == t.posts.Keys == t.db.rows.Keys
    requires s.gos[g].job.id in t.db.rows
    requires t.db.rows[s.gos[g].job.id] == s.db.rows[s.gos[g].job.id]
    requires t.claims[s.gos[g].job.id] == s.claims[s.gos[g].job.id]
    requires t.posts[s.gos[g].job.id] == s.posts[s.gos[g].job.id]
    ensures var id := s.gos[g].job.id; GoOk(t.db.rows, t.claims[id], t.posts[id], s.gos[g]) && g < s.nextGo
  {
    var id := s.gos[g].job.id;
    assert GoOk(s.db.rows, s.claims[id], s.posts[id], s.gos[g]);
  }

  lemma {:induction false} CommitKeepsGos(s: Sys, w: nat)
    requires Inv(s) && w in s.db.txs
    ensures var t := CommitStep(s, w, CommitUnreported);
      t.claims.Keys == t.posts.Keys == t.db.rows.Keys && GoInv(t.db.rows, t.claims, t.posts, t.gos, t.nextGo)
  {
    var t := CommitStep(s, w, CommitUnreported);
    CommitChanges(s, w, CommitUnreported);
    forall g | g in t.gos
      ensures var id := t.gos[g].job.id;
        g < t.nextGo && id in t.db.rows && GoOk(t.db.rows, t.claims[id], t.posts[id], t.gos[g])
    {
      HandlersAndClaimsApart(s, g, w);
      GoOkFrame(s, t, g);
    }
  }

  /** Fresh goroutines for rows that no other goroutine has. */
  lemma {:induction false} SpawnedGoInv(rows: map<nat, Row>, claims: map<nat, seq<Time>>, posts: map<nat, nat>,
                                        gos: map<nat, Go>, nextGo: nat, w: nat, batch: seq<Job>)
    requires claims.Keys == posts.Keys == rows.Keys && GoInv(rows, claims, posts, gos, nextGo) && DistinctIds(batch)
    requires forall j :: j in batch ==> j.id in rows && GoOk(rows, claims[j.id], posts[j.id], Go(w, j, Queued))
    requires forall g, j :: g in gos && j in batch ==> gos[g].job.id != j.id
    ensures GoInv(rows, claims, posts, gos + Spawned(w, batch, nextGo), nextGo + |batch|)
  {
    var all := gos + Spawned(w, batch, nextGo);
    forall g | g in all
      ensures var id := all[g].job.id; g < nextGo + |batch| && id in rows && GoOk(rows, claims[id], posts[id], all[g])
      ensures if g in gos then g < nextGo && all[g] == gos[g]
              else nextGo <= g < nextGo + |batch| && all[g] == Go(w, batch[g - nextGo], Queued)
    {
      if g !in gos {
        assert batch[g - nextGo] in batch;
      }
    }
    forall f, g | f in all && g in all && f != g ensures all[f].job.id != all[g].job.id {
      assert f !in gos ==> batch[f - nextGo] in batch;
      assert g !in gos ==> batch[g - nextGo] in batch;
    }
  }

  lemma {:induction false} SpawnKeepsGos(s: Sys, w: nat)
    requires Inv(s) && w in s.db.txs
    ensures var t := CommitStep(s, w, Committed);
      t.claims.Keys == t.posts.Keys == t.db.rows.Keys && GoInv(t.db.rows, t.claims, t.posts, t.gos, t.nextGo)
  {
    var u, batch := CommitStep(s, w, CommitUnreported), s.db.txs[w].batch;
    CommitChanges(s, w, CommitUnreported);
    CommitKeepsGos(s, w);
    assert TxOk(s.db.rows, s.clock, s.db.txs[w]);
    forall j | j in batch
      ensures j.id in u.db.rows && GoOk(u.db.rows, u.claims[j.id], u.posts[j.id], Go(w, j, Queued))
    {
      CommittedRowOk(s, w, j);
    }
    forall g, j | g in s.gos && j in batch ensures s.gos[g].job.id != j.id {
      HandlersAndClaimsApart(s, g, w);
      assert j.id in Ids(batch);
    }
    SpawnedGoInv(u.db.rows, u.claims, u.posts, s.gos, s.nextGo, w, batch);
  }

  lemma {:induction false} CommitKeeps(s: Sys, w: nat, outcome: CommitOutcome)
    requires Inv(s) && w in s.db.txs
    ensures Inv(CommitStep(s, w, outcome))
  {
    CommitKeepsTxs(s, w, outcome);
    if outcome != CommitFailed {
      CommitKeepsRows(s, w, outcome);
      CommitKeepsGos(s, w);
      if outcome == Committed {
        SpawnKeepsGos(s, w);
      }
    }
  }

  lemma {:induction false} StartKeeps(s: Sys, g0: nat)
    requires Inv(s) && g0 in s.gos && s.gos[g0].stage == Queued
    ensures Inv(s.(gos := s.gos[g0 := s.gos[g0].(stage := Running)]))
  {
    var t := s.(gos := s.gos[g0 := s.gos[g0].(stage := Running)]);
    forall g | g in t.gos
      ensures var id := t.gos[g].job.id;
        g < t.nextGo && id in t.db.rows && GoOk(t.db.rows, t.claims[id], t.posts[id], t.gos[g])
    {
      GoOkFrame(s, t, g);
    }
  }

  /** A retry is scheduled the full backoff after the claim it follows, and later than before. */
  lemma {:induction false} RetryIsSpaced(s: Sys, g: nat, env: H.World)
    requires Inv(s) && g in s.gos && env.now == s.clock
    ensures var job := s.gos[g].job; H.Decide(job, env).Retry? ==>
      && job.row.jobType == H.WRAPUP_SYNC
      && 0 < job.row.attempts < H.MAX_ATTEMPTS
      && |s.claims[job.id]| == job.row.attempts
      && H.Decide(job, env).at == s.clock + Backoff(job.row.attempts) > job.row.runAfter
      && H.Decide(job, env).at >= s.claims[job.id][job.row.attempts - 1] + Backoff(job.row.attempts)
  {
    var job := s.gos[g].job;
    assert GoOk(s.db.rows, s.claims[job.id], s.posts[job.id], s.gos[g]);
    assert RowOk(s.db.rows[job.id], s.claims[job.id], s.posts[job.id], s.clock);
    if H.Decide(job, env).Retry? {
      H.RetryDelayExact(job.row.attempts, env.now);
      assert s.claims[job.id][job.row.attempts - 1] in s.claims[job.id];
    }
  }

  lemma {:induction false} DecideKeepsRows(s: Sys, g0: nat, env: H.World)
    requires Inv(s) && Enabled(s, Decide(g0, env))
    ensures var t := DecideStep(s, g0, env); RowsInv(t.db, t.claims, t.posts, t.clock)
  {
    var t, id0 := DecideStep(s, g0, env), s.gos[g0].job.id;
    assert GoOk(s.db.rows, s.claims[id0], s.posts[id0], s.gos[g0]);
    forall id | id in t.db.rows ensures RowOk(t.db.rows[id], t.claims[id], t.posts[id], t.clock) {
      assert RowOk(s.db.rows[id], s.claims[id], s.posts[id], s.clock);
    }
  }

  lemma {:induction false} DecidedGoOk(s: Sys, g0: nat, env: H.World)
    requires Inv(s) && Enabled(s, Decide(g0, env))
    ensures var t, id := DecideStep(s, g0, env), s.gos[g0].job.id;
      id in s.db.rows && GoOk(t.db.rows, t.claims[id], t.posts[id], t.gos[g0])
  {
    var id0 := s.gos[g0].job.id;
    assert GoOk(s.db.rows, s.claims[id0], s.posts[id0], s.gos[g0]);
    RetryIsSpaced(s, g0, env);
  }

  lemma {:induction false} DecideKeeps(s: Sys, g0: nat, env: H.World)
    requires Inv(s) && Enabled(s, Decide(g0, env))
    ensures Inv(DecideStep(s, g0, env))
  {
    var t := DecideStep(s, g0, env);
    DecideKeepsRows(s, g0, env);
    DecidedGoOk(s, g0, env);
    forall g | g in t.gos
      ensures var id := t.gos[g].job.id;
        g < t.nextGo && id in t.db.rows && GoOk(t.db.rows, t.claims[id], t.posts[id], t.gos[g])
    {
      if g != g0 {
        assert s.gos[g].job.id != s.gos[g0].job.id;
        GoOkFrame(s, t, g);
      }
    }
  }

  /** The settled row, and that no other changed. */
  lemma {:induction false} SettleChanges(s: Sys, g: nat, exec: Exec)
    requires Inv(s) && g in s.gos && s.gos[g].stage.Deciding?
    ensures var t, go := SettleStep(s, g, exec), s.gos[g];
      && t.db.rows.Keys == s.db.rows.Keys && t.db.txs == s.db.txs && t.db.nextId == s.db.nextId
      && (forall id :: id in s.db.rows && id != go.job.id ==> t.db.rows[id] == s.db.rows[id])
      && go.job.id in s.db.rows && s.db.rows[go.job.id] == go.job.row && go.job.row.status == Processing
      && t.db.rows[go.job.id] ==
           if exec == Refused then go.job.row
           else match go.stage.verdict
             case Finish => go.job.row.(status := Done)
             case Abandon => go.job.row.(status := Failed)
             case Retry(at) => go.job.row.(status := Pending, runAfter := at)
  {
    var id := s.gos[g].job.id;
    assert GoOk(s.db.rows, s.claims[id], s.posts[id], s.gos[g]);
  }

  lemma {:induction false} SettledRowOk(s: Sys, g: nat, exec: Exec)
    requires Inv(s) && g in s.gos && s.gos[g].stage.Deciding?
    ensures var t, id := SettleStep(s, g, exec), s.gos[g].job.id;
      id in t.db.rows && id in t.claims && id in t.posts && RowOk(t.db.rows[id], t.claims[id], t.posts[id], t.clock)
  {
    var id := s.gos[g].job.id;
    SettleChanges(s, g, exec);
    assert GoOk(s.db.rows, s.claims[id], s.posts[id], s.gos[g]);
    assert RowOk(s.db.rows[id], s.claims[id], s.posts[id], s.clock);
  }

  lemma {:induction false} SettleKeepsRows(s: Sys, g0: nat, exec: Exec)
    requires Inv(s) && Enabled(s, Settle(g0, exec))
    ensures var t := SettleStep(s, g0, exec); RowsInv(t.db, t.claims, t.posts, t.clock)
  {
    var t, id0 := SettleStep(s, g0, exec), s.gos[g0].job.id;
    SettleChanges(s, g0, exec);
    SettledRowOk(s, g0, exec);
    forall id | id in t.db.rows ensures RowOk(t.db.rows[id], t.claims[id], t.posts[id], t.clock) {
      if id != id0 {
        assert RowOk(s.db.rows[id], s.claims[id], s.posts[id], s.clock);
      }
    }
  }

  lemma {:induction false} SettleKeepsTxs(s: Sys, g0: nat, exec: Exec)
    requires Inv(s) && Enabled(s, Settle(g0, exec))
    ensures var t := SettleStep(s, g0, exec); TxInv(t.db, t.clock)
  {
    var t := SettleStep(s, g0, exec);
    SettleChanges(s, g0, exec);
    forall w | w in t.db.txs ensures TxOk(t.db.rows, t.clock, t.db.txs[w]) {
      assert Ids(s.db.txs[w].batch) <= Locked(s.db);
      TxOkFrame(s.db.rows, t.db.rows, s.clock, s.db.txs[w]);
    }
  }

  lemma {:induction false} SettleKeepsGos(s: Sys, g0: nat, exec: Exec)
    requires Inv(s) && Enabled(s, Settle(g0, exec))
    ensures var t := SettleStep(s, g0, exec);
      t.claims.Keys == t.posts.Keys == t.db.rows.Keys && GoInv(t.db.rows, t.claims, t.posts, t.gos, t.nextGo)
  {
    var t := SettleStep(s, g0, exec);
    SettleChanges(s, g0, exec);
    forall g | g in t.gos
      ensures var id := t.gos[g].job.id;
        g < t.nextGo && id in t.db.rows && GoOk(t.db.rows, t.claims[id], t.posts[id], t.gos[g])
    {
      GoOkFrame(s, t, g);
    }
  }

  lemma {:induction false} BeginKeeps(s: Sys, w: nat)
    requires Inv(s) && Enabled(s, Begin(w))
    ensures Inv(Step(s, Begin(w)))
  {
    var db := Poller.Begun(s.db, w, s.clock);
    forall v | v in db.txs ensures TxOk(db.rows, s.clock, db.txs[v]) {
      assert v != w ==> TxOk(s.db.rows, s.clock, s.db.txs[v]);
    }
  }

  lemma {:induction false} CrashKeeps(s: Sys, w: nat)
    requires Inv(s)
    ensures Inv(Step(s, Crash(w)))
  {
    var t := Step(s, Crash(w));
    assert TxInv(t.db, t.clock);
    assert GoInv(t.db.rows, t.claims, t.posts, t.gos, t.nextGo);
  }

  lemma {:induction false} StepKeeps(s: Sys, a: Action)
    requires Inv(s) && Enabled(s, a)
    ensures Inv(Step(s, a))
  {
    match a {
      case Tick(d) => TickKeeps(s, d);
      case Enqueue(_, _, _, _, exec) =>
        if exec != Refused {
          EnqueueKeeps(s, a);
        }
      case Begin(w) => BeginKeeps(s, w);
      case Rollback(_) =>
      case Claim(w, limit, batch) => ClaimKeepsTxs(s, w, limit, batch);
      case Commit(w, outcome) => CommitKeeps(s, w, outcome);
      case Start(g) => StartKeeps(s, g);
      case Decide(g, env) => DecideKeeps(s, g, env);
      case Settle(g, exec) =>
        SettleKeepsRows(s, g, exec);
        SettleKeepsTxs(s, g, exec);
        SettleKeepsGos(s, g, exec);
      case Crash(w) => CrashKeeps(s, w);
    }
  }

  lemma {:induction false} RunKeeps(s: Sys, run: seq<Action>)
    requires Inv(s) && Valid(s, run)
    ensures Inv(Run(s, run))
    decreases run
  {
    if run != [] {
      StepKeeps(s, run[0]);
      RunKeeps(Step(s, run[0]), run[1..]);
    }
  }

  /** The invariant holds in every reachable state. */
  lemma {:induction false} ReachableInv(s: Sys)
    requires Reachable(s)
    ensures Inv(s)
  {
    var clock, run :| Valid(Init(clock), run) && Run(Init(clock), run) == s;
    RunKeeps(Init(clock), run);
  }

  lemma {:induction false} RunJoin(s: Sys, first: seq<Action>, second: seq<Action>)
    requires Valid(s, first) && Valid(Run(s, first), second)
    ensures Valid(s, first + second) && Run(s, first + second) == Run(Run(s, first), second)
    decreases first
  {
    if first == [] {
      assert first + second == second;
    } else {
      assert (first + second)[1..] == first[1..] + second;
      RunJoin(Step(s, first[0]), first[1..], second);
    }
  }

  lemma {:induction false} RunMore(s: Sys, run: seq<Action>, a: Action)
    requires Valid(s, run) && Enabled(Run(s, run), a)
    ensures Valid(s, run + [a]) && Run(s, run + [a]) == Step(Run(s, run), a)
  {
    var one := [a];
    assert one[1..] == [];
    RunJoin(s, run, one);
  }
}
