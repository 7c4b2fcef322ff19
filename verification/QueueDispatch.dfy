/** Dispatch and outcome: who handles a claimed job, what becomes of it, and what each step leaves alone. */
module QueueDispatch {
  import opened Basics
  import opened JobTable
  import opened QueueSystem
  import opened QueueTheorems
  import H = WrapupHandler

  /** The claims that open transactions can make are exactly those spelled out. */
  lemma {:induction false} ClaimEnabledExactly(s: Sys, w: nat, limit: nat, batch: seq<Job>)
    ensures Enabled(s, Claim(w, limit, batch)) <==>
      w in s.db.txs && s.db.txs[w].batch == [] && ClaimIs(s.db, w, limit, batch)
  {
    if w in s.db.txs {
      if Claimable(s.db, w, limit, batch) {
        ClaimableIs(s.db, w, limit, batch);
      }
      if ClaimIs(s.db, w, limit, batch) {
        ClaimIsClaimable(s.db, w, limit, batch);
      }
    }
  }

  // ----- every claimed job gets its handler -----

  /** Exactly one handler for the job among gos, started by w and not yet running. */
  ghost predicate OneHandler(gos: map<nat, Go>, w: nat, j: Job) {
    exists g :: g in gos && gos[g] == Go(w, j, Queued) && forall h :: h in gos && gos[h].job.id == j.id ==> h == g
  }

  lemma {:induction false} RangeSize(first: nat, n: nat)
    ensures |Range(first, n)| == n
  {
    if n > 0 {
      RangeSize(first, n - 1);
    }
  }

  lemma {:induction false} MergedSize(a: map<nat, Go>, b: map<nat, Go>)
    requires a.Keys !! b.Keys
    ensures |a + b| == |a| + |b|
  {
    assert (a + b).Keys == a.Keys + b.Keys;
    SumOfDisjoint(a.Keys, b.Keys);
  }

  lemma {:induction false} DispatchedSize(gos: map<nat, Go>, nextGo: nat, w: nat, batch: seq<Job>)
    requires forall g :: g in gos ==> g < nextGo
    ensures |gos + Spawned(w, batch, nextGo)| == |gos| + |batch|
  {
    RangeSize(nextGo, |batch|);
    assert Spawned(w, batch, nextGo).Keys == Range(nextGo, |batch|);
    MergedSize(gos, Spawned(w, batch, nextGo));
  }

  /** One new handler per job of the batch, beside handlers of other jobs. */
  lemma {:induction false} DispatchedOnce(gos: map<nat, Go>, nextGo: nat, w: nat, batch: seq<Job>, i: nat)
    requires forall g :: g in gos ==> g < nextGo
    requires DistinctIds(batch) && i < |batch| && forall g :: g in gos ==> gos[g].job.id != batch[i].id
    ensures OneHandler(gos + Spawned(w, batch, nextGo), w, batch[i])
  {
    var all := gos + Spawned(w, batch, nextGo);
    assert all[nextGo + i] == Go(w, batch[i], Queued);
    forall h | h in all && all[h].job.id == batch[i].id ensures h == nextGo + i {
      assert h !in gos && all[h].job == batch[h - nextGo];
    }
  }

  lemma {:induction false} DispatchedKeeps(gos: map<nat, Go>, nextGo: nat, w: nat, batch: seq<Job>)
    requires forall g :: g in gos ==> g < nextGo
    ensures var all := gos + Spawned(w, batch, nextGo);
      && (forall g :: g in gos ==> g in all && all[g] == gos[g])
      && (forall g :: g in all && g !in gos ==> all[g].job in batch && all[g].worker == w)
  {
  }

  /** The batch's handlers have joined those there were: one for each of its jobs and for nothing else. */
  ghost predicate Dispatched(gos: map<nat, Go>, all: map<nat, Go>, w: nat, batch: seq<Job>) {
    && (forall j :: j in batch ==> OneHandler(all, w, j))
    && (forall g :: g in gos ==> g in all && all[g] == gos[g])
    && (forall g :: g in all && g !in gos ==> all[g].job in batch && all[g].worker == w)
    && |all| == |gos| + |batch|
  }

  lemma {:induction false} SpawnedDispatches(gos: map<nat, Go>, nextGo: nat, w: nat, batch: seq<Job>)
    requires forall g :: g in gos ==> g < nextGo
    requires DistinctIds(batch) && forall g, j :: g in gos && j in batch ==> gos[g].job.id != j.id
    ensures Dispatched(gos, gos + Spawned(w, batch, nextGo), w, batch)
  {
    DispatchedSize(gos, nextGo, w, batch);
    DispatchedKeeps(gos, nextGo, w, batch);
    forall j | j in batch ensures OneHandler(gos + Spawned(w, batch, nextGo), w, j) {
      var i :| 0 <= i < |batch| && batch[i] == j;
      DispatchedOnce(gos, nextGo, w, batch, i);
    }
  }

  /**
   A reported commit dispatches its whole batch: one new handler for each of its jobs and for nothing
   else, and the handlers there were stay as they are.
   */
  lemma {:induction false} CommitDispatches(s: Sys, w: nat)
    requires Inv(s) && Enabled(s, Commit(w, Committed))
    ensures Dispatched(s.gos, Step(s, Commit(w, Committed)).gos, w, s.db.txs[w].batch)
  {
    BatchIsDistinct(s, w);
    forall j | j in s.db.txs[w].batch ensures forall g :: g in s.gos ==> s.gos[g].job.id != j.id {
      NoHandlerYet(s, w, j);
    }
    SpawnedDispatches(s.gos, s.nextGo, w, s.db.txs[w].batch);
  }

  lemma {:induction false} BatchIsDistinct(s: Sys, w: nat)
    requires Inv(s) && w in s.db.txs
    ensures DistinctIds(s.db.txs[w].batch)
  {
    assert TxOk(s.db.rows, s.clock, s.db.txs[w]);
  }

  lemma {:induction false} NoHandlerYet(s: Sys, w: nat, j: Job)
    requires Inv(s) && w in s.db.txs && j in s.db.txs[w].batch
    ensures forall g :: g in s.gos ==> s.gos[g].job.id != j.id
  {
    assert j.id in Ids(s.db.txs[w].batch);
    forall g | g in s.gos ensures s.gos[g].job.id != j.id {
      HandlersAndClaimsApart(s, g, w);
    }
  }

  /** What can lose a job: a crash, an unreported commit, a refused status update. */
  ghost predicate Loses(a: Action) {
    a.Crash? || (a.Commit? && a.outcome == CommitUnreported) || (a.Settle? && a.exec == Refused)
  }

  lemma {:induction false} DispatchedHas(gos: map<nat, Go>, all: map<nat, Go>, w: nat, batch: seq<Job>, id: nat)
    requires Dispatched(gos, all, w, batch) && forall g :: g in all ==> all[g].job.id != id
    ensures id !in Ids(batch) && forall g :: g in gos ==> gos[g].job.id != id
  {
    forall j | j in batch ensures j.id != id {
      assert OneHandler(all, w, j);
    }
    forall g | g in gos ensures gos[g].job.id != id {
      assert all[g] == gos[g];
    }
  }

  lemma {:induction false} CommitOrphansNone(s: Sys, w: nat, id: nat)
    requires Inv(s) && Enabled(s, Commit(w, Committed)) && Orphan(Step(s, Commit(w, Committed)), id)
    ensures Orphan(s, id)
  {
    CommitDispatches(s, w);
    DispatchedHas(s.gos, Step(s, Commit(w, Committed)).gos, w, s.db.txs[w].batch, id);
    CommitChanges(s, w, Committed);
  }

  lemma {:induction false} SettleOrphansNone(s: Sys, g: nat, exec: Exec, id: nat)
    requires Inv(s) && Enabled(s, Settle(g, exec)) && exec != Refused && Orphan(Step(s, Settle(g, exec)), id)
    ensures Orphan(s, id)
  {
    var t := Step(s, Settle(g, exec));
    SettleChanges(s, g, exec);
    forall h | h in s.gos ensures s.gos[h].job.id != id {
      assert h != g ==> h in t.gos && t.gos[h] == s.gos[h];
    }
  }

  /** Steps that change no row but an inserted one, and no handler's job. */
  lemma {:induction false} OtherStepRows(s: Sys, a: Action)
    requires Enabled(s, a) && !Loses(a) && !(a.Commit? && a.outcome == Committed) && !a.Settle?
    ensures forall id :: id in Step(s, a).db.rows && Step(s, a).db.rows[id].status == Processing ==>
      id in s.db.rows && s.db.rows[id] == Step(s, a).db.rows[id]
    ensures forall g :: g in s.gos ==> g in Step(s, a).gos && Step(s, a).gos[g].job == s.gos[g].job
  {
  }

  lemma {:induction false} StepOrphansNone(s: Sys, a: Action, id: nat)
    requires Inv(s) && Enabled(s, a) && !Loses(a) && Orphan(Step(s, a), id)
    ensures Orphan(s, id)
  {
    if a.Commit? && a.outcome == Committed {
      CommitOrphansNone(s, a.w, id);
    } else if a.Settle? {
      SettleOrphansNone(s, a.g, a.exec, id);
    } else {
      OtherStepRows(s, a);
    }
  }

  lemma {:induction false} RunOrphansNone(s: Sys, run: seq<Action>, id: nat)
    requires Inv(s) && Valid(s, run) && forall a :: a in run ==> !Loses(a)
    ensures Orphan(Run(s, run), id) ==> Orphan(s, id)
    decreases run
  {
    if run != [] {
      StepKeeps(s, run[0]);
      RunOrphansNone(Step(s, run[0]), run[1..], id);
      if Orphan(Step(s, run[0]), id) {
        StepOrphansNone(s, run[0], id);
      }
    }
  }

  /** From a reachable state, a run without such a loss leaves no processing row without a handler that had none. */
  lemma {:induction false} NoLossNoOrphan(s: Sys, run: seq<Action>, id: nat)
    requires Reachable(s) && Valid(s, run) && forall a :: a in run ==> !Loses(a)
    ensures Orphan(Run(s, run), id) ==> Orphan(s, id)
  {
    ReachableInv(s);
    RunOrphansNone(s, run, id);
  }

  // ----- what a handler's two steps come to -----

  lemma {:induction false} TwoSteps(s: Sys, a: Action, b: Action)
    requires Enabled(s, a) && Enabled(Step(s, a), b)
    ensures Valid(s, [a, b]) && Run(s, [a, b]) == Step(Step(s, a), b)
  {
    RunMore(s, [], a);
    assert [] + [a] == [a];
    RunMore(s, [a], b);
    assert [a] + [b] == [a, b];
  }

  lemma {:induction false} SettledAfter(db: Db, job: Job, env: H.World, exec: Exec)
    requires job.id in db.rows && exec != Refused
    ensures var t := H.Settled(db, job.id, H.Decide(job, env), exec);
      && t.rows.Keys == db.rows.Keys && H.Outcome(job, env, db.rows[job.id], t.rows[job.id])
      && forall id :: id in db.rows && id != job.id ==> t.rows[id] == db.rows[id]
  {
    H.DecisionOutcome(db, job, env, exec);
  }

  lemma {:induction false} PostedAfter(s: Sys, g: nat, env: H.World)
    requires Enabled(s, Decide(g, env)) && s.gos[g].job.id in s.db.rows
    ensures var id := s.gos[g].job.id;
      DecideStep(s, g, env).posts == s.posts[id := s.posts[id] + if H.RequestGoesOut(s.gos[g].job, env) then 1 else 0]
  {
    H.DecisionOutcome(s.db, s.gos[g].job, env, Applied);
  }

  /** A handler's row, the posts and the handlers, once it has decided and its update has taken effect. */
  ghost predicate HandlerDone(s: Sys, t: Sys, g: nat, env: H.World)
    requires g in s.gos && s.gos[g].job.id in s.posts
  {
    var job := s.gos[g].job;
    && job.id in s.db.rows && t.db.rows.Keys == s.db.rows.Keys
    && H.Outcome(job, env, s.db.rows[job.id], t.db.rows[job.id])
    && (forall id :: id in s.db.rows && id != job.id ==> t.db.rows[id] == s.db.rows[id])
    && t.posts == s.posts[job.id := s.posts[job.id] + if H.RequestGoesOut(job, env) then 1 else 0]
    && t.gos == s.gos - {g}
  }

  lemma {:induction false} DecideThenSettle(s: Sys, g: nat, env: H.World, exec: Exec)
    requires Enabled(s, Decide(g, env)) && s.gos[g].job.id in s.db.rows && exec != Refused
    ensures HandlerDone(s, SettleStep(DecideStep(s, g, env), g, exec), g, env)
  {
    SettledAfter(s.db, s.gos[g].job, env, exec);
    PostedAfter(s, g, env);
  }

  /**
   In every reachable state a handler that decides and whose update takes effect leaves its row as the
   outcome says, counts a post exactly if the request went out, and changes nothing else.
   */
  lemma {:induction false} HandlerOutcome(s: Sys, g: nat, env: H.World, exec: Exec)
    requires Reachable(s) && Enabled(s, Decide(g, env)) && exec != Refused
    ensures Valid(s, [Decide(g, env), Settle(g, exec)])
    ensures HandlerDone(s, Run(s, [Decide(g, env), Settle(g, exec)]), g, env)
  {
    ReachableInv(s);
    var a := Decide(g, env);
    StepKeeps(s, a);
    SettleIsFree(Step(s, a), g, exec);
    TwoSteps(s, a, Settle(g, exec));
    DecideThenSettle(s, g, env, exec);
  }

  // ----- what a step leaves alone -----

  /** A crash ends its worker's transaction and handlers and touches nothing else. */
  lemma {:induction false} CrashIsLocal(s: Sys, w: nat)
    ensures var t := Step(s, Crash(w));
      && t.db.rows == s.db.rows && t.db.nextId == s.db.nextId && t.db.txs == s.db.txs - {w}
      && t.clock == s.clock && t.claims == s.claims && t.posts == s.posts
      && (forall g :: g in t.gos <==> g in s.gos && s.gos[g].worker != w)
      && (forall g :: g in t.gos ==> t.gos[g] == s.gos[g])
  {
  }

  /** Another worker's transaction and handlers are as they were. */
  ghost predicate Untouched(s: Sys, t: Sys, v: nat) {
    && (v in s.db.txs <==> v in t.db.txs) && (v in s.db.txs ==> t.db.txs[v] == s.db.txs[v])
    && forall g :: g in s.gos && s.gos[g].worker == v ==> g in t.gos && t.gos[g] == s.gos[g]
  }

  lemma {:induction false} WorkerStepIsOwn(s: Sys, a: Action, v: nat)
    requires Enabled(s, a) && (a.Begin? || a.Claim? || a.Rollback? || a.Crash?) && a.w != v
    ensures Untouched(s, Step(s, a), v)
  {
  }

  lemma {:induction false} CommitIsOwn(s: Sys, w: nat, outcome: CommitOutcome, v: nat)
    requires Inv(s) && Enabled(s, Commit(w, outcome)) && w != v
    ensures Untouched(s, Step(s, Commit(w, outcome)), v)
  {
    if outcome == Committed {
      CommitDispatches(s, w);
    }
  }

  lemma {:induction false} HandlerStepIsOwn(s: Sys, a: Action, v: nat)
    requires Enabled(s, a) && (a.Start? || a.Decide? || a.Settle?) && s.gos[a.g].worker != v
    ensures Untouched(s, Step(s, a), v)
  {
  }

  lemma {:induction false} ClockAndProducersAreApart(s: Sys, a: Action, v: nat)
    requires Enabled(s, a) && (a.Tick? || a.Enqueue?)
    ensures Untouched(s, Step(s, a), v)
  {
  }

  /** Whose step it is: a worker's, or that of the worker that started the handler; none for clock and producers. */
  function WorkerOf(s: Sys, a: Action): Option<nat>
    requires (a.Start? || a.Decide? || a.Settle?) ==> a.g in s.gos
  {
    if a.Tick? || a.Enqueue? then None
    else if a.Start? || a.Decide? || a.Settle? then Some(s.gos[a.g].worker)
    else Some(a.w)
  }

  /** No step touches another worker's transaction or handlers. */
  lemma {:induction false} StepIsOwn(s: Sys, a: Action, v: nat)
    requires Inv(s) && Enabled(s, a) && WorkerOf(s, a) != Some(v)
    ensures Untouched(s, Step(s, a), v)
  {
    if a.Commit? {
      CommitIsOwn(s, a.w, a.outcome, v);
    } else if a.Tick? || a.Enqueue? {
      ClockAndProducersAreApart(s, a, v);
    } else if a.Start? || a.Decide? || a.Settle? {
      HandlerStepIsOwn(s, a, v);
    } else {
      WorkerStepIsOwn(s, a, v);
    }
  }
}
