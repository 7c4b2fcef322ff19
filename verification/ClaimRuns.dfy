/**
 Overlapping claims in runs of the worker system: workers claim, commit, handle and enqueue in any
 interleaving, and what they claim by some time is together one claim's choice of the starting table.
 */
module ClaimRuns {
  import opened Basics
  import opened JobTable
  import opened QueueSystem
  import O = ClaimOrder

  /**
   No claim is given up, every claim is one at or before the horizon, and no row becomes due by then:
   inserts and retries are for later.
   */
  ghost predicate Quiet(s: Sys, a: Action, horizon: Time)
    requires Enabled(s, a)
  {
    match a
    case Enqueue(_, _, _, runAfter, exec) => exec == Refused || runAfter > horizon
    case Claim(w, _, _) => s.db.txs[w].began <= horizon
    case Rollback(w) => s.db.txs[w].batch == []
    case Crash(w) => w in s.db.txs ==> s.db.txs[w].batch == []
    case Commit(_, outcome) => outcome != CommitFailed
    case Settle(g, exec) => exec == Refused || (s.gos[g].stage.verdict.Retry? ==> s.gos[g].stage.verdict.at > horizon)
    case _ => true
  }

  ghost predicate Window(s: Sys, run: seq<Action>, horizon: Time)
    requires Valid(s, run)
    decreases run
  {
    run != [] ==> Quiet(s, run[0], horizon) && Window(Step(s, run[0]), run[1..], horizon)
  }

  function ClaimNow(s: Sys, a: Action): seq<O.Claim>
    requires a.Claim? ==> a.w in s.db.txs
  {
    if a.Claim? then [O.Claim(s.db.txs[a.w].began, a.limit)] else []
  }

  function TakeNow(a: Action): seq<set<nat>> {
    if a.Claim? then [Ids(a.batch)] else []
  }

  /** The claims of the run, with their transactions' times and their limits, and what each took. */
  ghost function ClaimsIn(s: Sys, run: seq<Action>): seq<O.Claim>
    requires Valid(s, run)
    decreases run
  {
    if run == [] then [] else ClaimNow(s, run[0]) + ClaimsIn(Step(s, run[0]), run[1..])
  }

  ghost function TakesIn(run: seq<Action>): seq<set<nat>>
    decreases run
  {
    if run == [] then [] else TakeNow(run[0]) + TakesIn(run[1..])
  }

  /** The rows claimed in the run, whether still locked or committed by now. */
  ghost function Claimed(run: seq<Action>): set<nat> {
    O.Union(TakesIn(run))
  }

  // ----- what one quiet step does to the due rows -----

  /** A row that is due and unlocked after the step was so before, unchanged. */
  ghost predicate NoneBecomesDue(s: Db, t: Db, horizon: Time) {
    forall id :: id in t.rows && Due(t.rows[id], horizon) && id !in Locked(t) ==>
      id in s.rows && s.rows[id] == t.rows[id] && id !in Locked(s)
  }

  /** A row that is due and unlocked before the step stays so, unchanged, unless the step takes it. */
  ghost predicate DueStays(s: Db, t: Db, taken: set<nat>, horizon: Time) {
    forall id :: id in s.rows && Due(s.rows[id], horizon) && id !in Locked(s) ==>
      id in t.rows && s.rows[id] == t.rows[id] && (id !in taken ==> id !in Locked(t))
  }

  lemma {:induction false} ClaimLocks(db: Db, w: nat, batch: seq<Job>)
    requires w in db.txs && db.txs[w].batch == []
    ensures Locked(Held(db, w, batch)) == Locked(db) + Ids(batch)
  {
    var held := Held(db, w, batch);
    forall id ensures id in Locked(held) <==> id in Locked(db) || id in Ids(batch) {
      if id in Locked(db) {
        var v, j :| v in db.txs && j in db.txs[v].batch && j.id == id;
        assert v in held.txs && j in held.txs[v].batch;
      }
      if id in Ids(batch) {
        var j :| j in batch && j.id == id;
        assert j in held.txs[w].batch;
      }
    }
  }

  lemma {:induction false} ReleaseUnlocks(db: Db, w: nat)
    ensures Locked(db) == Locked(Released(db, w)) + if w in db.txs then Ids(db.txs[w].batch) else {}
  {
    var released := Released(db, w);
    forall id ensures id in Locked(db) <==> id in Locked(released) || (w in db.txs && id in Ids(db.txs[w].batch)) {
      if id in Locked(db) {
        var v, j :| v in db.txs && j in db.txs[v].batch && j.id == id;
        assert v != w ==> v in released.txs && j in released.txs[v].batch;
      }
      if w in db.txs && id in Ids(db.txs[w].batch) {
        var j :| j in db.txs[w].batch && j.id == id;
      }
    }
  }

  function ClaimedRows(rows: map<nat, Row>, ids: set<nat>): map<nat, Row> {
    map id | id in rows :: if id in ids then ClaimedRow(rows[id]) else rows[id]
  }

  lemma {:induction false} InstallIsClaimed(rows: map<nat, Row>, batch: seq<Job>)
    requires DistinctIds(batch) && forall j :: j in batch ==> j.id in rows && j.row == ClaimedRow(rows[j.id])
    ensures Install(rows, batch) == ClaimedRows(rows, Ids(batch))
  {
    InstallMeaning(rows, batch);
    forall id | id in Ids(batch) ensures id in rows && Install(rows, batch)[id] == ClaimedRow(rows[id]) {
      var j :| j in batch && j.id == id;
    }
  }

  /** An effective commit claims exactly the rows its transaction holds, all of them pending until then. */
  lemma {:induction false} CommitClaims(s: Sys, w: nat, outcome: CommitOutcome)
    requires TxInv(s.db, s.clock) && w in s.db.txs && outcome != CommitFailed
    ensures var t, ids := CommitStep(s, w, outcome), Ids(s.db.txs[w].batch);
      && t.db.rows == ClaimedRows(s.db.rows, ids)
      && Locked(s.db) == Locked(t.db) + ids
      && forall id :: id in ids ==> id in s.db.rows && s.db.rows[id].status == Pending
  {
    var tx := s.db.txs[w];
    assert TxOk(s.db.rows, s.clock, tx);
    forall j | j in tx.batch
      ensures j.id in s.db.rows && s.db.rows[j.id].status == Pending && j.row == ClaimedRow(s.db.rows[j.id])
    {
      assert ClaimOk(s.db.rows, tx.began, j);
    }
    InstallIsClaimed(s.db.rows, tx.batch);
    ReleaseUnlocks(s.db, w);
    assert Locked(Released(s.db, w)) == Locked(CommitStep(s, w, outcome).db);
  }

  lemma {:induction false} CommitIsQuiet(s: Sys, w: nat, outcome: CommitOutcome, horizon: Time)
    requires TxInv(s.db, s.clock) && w in s.db.txs && outcome != CommitFailed
    ensures var t := CommitStep(s, w, outcome); NoneBecomesDue(s.db, t.db, horizon) && DueStays(s.db, t.db, {}, horizon)
  {
    CommitClaims(s, w, outcome);
  }

  lemma {:induction false} SettleIsQuiet(s: Sys, g: nat, exec: Exec, horizon: Time)
    requires Inv(s) && Enabled(s, Settle(g, exec)) && Quiet(s, Settle(g, exec), horizon)
    ensures var t := SettleStep(s, g, exec); NoneBecomesDue(s.db, t.db, horizon) && DueStays(s.db, t.db, {}, horizon)
  {
    SettleChanges(s, g, exec);
    assert Locked(SettleStep(s, g, exec).db) == Locked(s.db);
  }

  lemma {:induction false} EnqueueIsQuiet(s: Sys, a: Action, horizon: Time)
    requires Inv(s) && a.Enqueue? && Enabled(s, a) && Quiet(s, a, horizon)
    ensures NoneBecomesDue(s.db, Step(s, a).db, horizon) && DueStays(s.db, Step(s, a).db, {}, horizon)
  {
    assert Locked(Step(s, a).db) == Locked(s.db);
    assert s.db.nextId !in s.db.rows;
  }

  lemma {:induction false} ClaimIsQuiet(s: Sys, a: Action, horizon: Time)
    requires a.Claim? && Enabled(s, a)
    ensures NoneBecomesDue(s.db, Step(s, a).db, horizon) && DueStays(s.db, Step(s, a).db, Ids(a.batch), horizon)
  {
    ClaimLocks(s.db, a.w, a.batch);
  }

  /** The other quiet steps change neither rows nor locks. */
  lemma {:induction false} OthersAreQuiet(s: Sys, a: Action, horizon: Time)
    requires Enabled(s, a) && Quiet(s, a, horizon) && !a.Claim? && !a.Commit? && !a.Settle? && !a.Enqueue?
    ensures Step(s, a).db.rows == s.db.rows && Locked(Step(s, a).db) == Locked(s.db)
  {
    match a {
      case Begin(w) =>
        ReleaseUnlocks(Step(s, a).db, w);
        assert Released(Step(s, a).db, w) == s.db;
      case Rollback(w) => ReleaseUnlocks(s.db, w);
      case Crash(w) => ReleaseUnlocks(s.db, w);
      case _ =>
    }
  }

  function Taken(a: Action): set<nat> {
    if a.Claim? then Ids(a.batch) else {}
  }

  lemma {:induction false} StepIsQuiet(s: Sys, a: Action, horizon: Time)
    requires Inv(s) && Enabled(s, a) && Quiet(s, a, horizon)
    ensures NoneBecomesDue(s.db, Step(s, a).db, horizon) && DueStays(s.db, Step(s, a).db, Taken(a), horizon)
  {
    match a {
      case Claim(_, _, _) => ClaimIsQuiet(s, a, horizon);
      case Commit(w, outcome) => CommitIsQuiet(s, w, outcome, horizon);
      case Settle(g, exec) => SettleIsQuiet(s, g, exec, horizon);
      case Enqueue(_, _, _, _, _) => EnqueueIsQuiet(s, a, horizon);
      case _ => OthersAreQuiet(s, a, horizon);
    }
  }

  // ----- the claims of a whole window -----

  /** The rows due by the horizon that are free now are those of the start, unchanged, that nothing has taken. */
  ghost predicate FreeAre(rows: map<nat, Row>, taken: set<nat>, cur: map<nat, Row>, locked: set<nat>, horizon: Time) {
    && (forall id :: id in cur && Due(cur[id], horizon) && id !in locked ==>
          id in rows && cur[id] == rows[id] && id !in taken)
    && (forall id :: id in rows && Due(rows[id], horizon) && id !in taken ==>
          id in cur && cur[id] == rows[id] && id !in locked)
  }

  /** The step's takes, and the free rows after it. */
  lemma {:induction false} StepFree(s: Sys, a: Action, rows: map<nat, Row>, taken: set<nat>, horizon: Time)
    requires Inv(s) && Enabled(s, a) && Quiet(s, a, horizon)
    requires FreeAre(rows, taken, s.db.rows, Locked(s.db), horizon)
    ensures FreeAre(rows, taken + Taken(a), Step(s, a).db.rows, Locked(Step(s, a).db), horizon)
  {
    StepIsQuiet(s, a, horizon);
    if a.Claim? {
      ClaimLocks(s.db, a.w, a.batch);
    }
    FreeOn(s.db, Step(s, a).db, rows, taken, Taken(a), horizon);
  }

  lemma {:induction false} FreeOn(s: Db, t: Db, rows: map<nat, Row>, taken: set<nat>, more: set<nat>, horizon: Time)
    requires NoneBecomesDue(s, t, horizon) && DueStays(s, t, more, horizon) && more <= Locked(t)
    requires FreeAre(rows, taken, s.rows, Locked(s), horizon)
    ensures FreeAre(rows, taken + more, t.rows, Locked(t), horizon)
  {
  }

  /** A claim now is one of the starting table, with the taken rows locked. */
  lemma {:induction false} SelectionThen(rows: map<nat, Row>, taken: set<nat>, cur: map<nat, Row>, locked: set<nat>,
                                         horizon: Time,
                                         at: Time, limit: nat, t: set<nat>)
    requires FreeAre(rows, taken, cur, locked, horizon) && at <= horizon
    requires Selection(cur, Eligible(cur, locked, at), limit, t)
    ensures Selection(rows, Eligible(rows, taken, at), limit, t)
  {
    forall id ensures id in Eligible(cur, locked, at) <==> id in Eligible(rows, taken, at) {
      assert id in cur && Due(cur[id], at) ==> Due(cur[id], horizon);
      assert id in rows && Due(rows[id], at) ==> Due(rows[id], horizon);
    }
    assert Eligible(cur, locked, at) == Eligible(rows, taken, at);
  }

  lemma {:induction false} TakeOnTop(rows: map<nat, Row>, locked: set<nat>, claims: seq<O.Claim>, takes: seq<set<nat>>,
                                     c: O.Claim, t: set<nat>)
    requires O.Overlapping(rows, locked, claims, takes)
    requires Selection(rows, Eligible(rows, locked + O.Union(takes), c.now), c.limit, t)
    ensures O.Overlapping(rows, locked, claims + [c], takes + [t])
    ensures O.Union(takes + [t]) == O.Union(takes) + t
  {
    assert (claims + [c])[..|claims|] == claims && (takes + [t])[..|takes|] == takes;
  }

  /** These overlapping claims of the given rows have taken what is no longer free. */
  ghost predicate Ongoing(db: Db, rows: map<nat, Row>, locked: set<nat>, claims: seq<O.Claim>, takes: seq<set<nat>>,
                          horizon: Time)
  {
    && O.Overlapping(rows, locked, claims, takes)
    && FreeAre(rows, locked + O.Union(takes), db.rows, Locked(db), horizon)
  }

  lemma {:induction false} ClaimOverlaps(s: Sys, a: Action, rows: map<nat, Row>, locked: set<nat>, claims: seq<O.Claim>,
                                         takes: seq<set<nat>>, horizon: Time)
    requires a.Claim? && Enabled(s, a) && Quiet(s, a, horizon) && Ongoing(s.db, rows, locked, claims, takes, horizon)
    ensures O.Overlapping(rows, locked, claims + ClaimNow(s, a), takes + TakeNow(a))
    ensures O.Union(takes + TakeNow(a)) == O.Union(takes) + Taken(a)
  {
    var c := O.Claim(s.db.txs[a.w].began, a.limit);
    SelectionThen(rows, locked + O.Union(takes), s.db.rows, Locked(s.db), horizon, c.now, c.limit, Ids(a.batch));
    TakeOnTop(rows, locked, claims, takes, c, Ids(a.batch));
  }

  lemma {:induction false} OverlapsOn(s: Sys, a: Action, rows: map<nat, Row>, locked: set<nat>, claims: seq<O.Claim>,
                                      takes: seq<set<nat>>, horizon: Time)
    requires Enabled(s, a) && Quiet(s, a, horizon) && Ongoing(s.db, rows, locked, claims, takes, horizon)
    ensures O.Overlapping(rows, locked, claims + ClaimNow(s, a), takes + TakeNow(a))
    ensures O.Union(takes + TakeNow(a)) == O.Union(takes) + Taken(a)
  {
    if a.Claim? {
      ClaimOverlaps(s, a, rows, locked, claims, takes, horizon);
    } else {
      assert claims + [] == claims && takes + [] == takes;
    }
  }

  lemma {:induction false} StillOngoing(db: Db, rows: map<nat, Row>, locked: set<nat>, union: set<nat>, taken: set<nat>,
                                        claims: seq<O.Claim>, takes: seq<set<nat>>, horizon: Time)
    requires O.Overlapping(rows, locked, claims, takes) && O.Union(takes) == union + taken
    requires FreeAre(rows, locked + union + taken, db.rows, Locked(db), horizon)
    ensures Ongoing(db, rows, locked, claims, takes, horizon)
  {
    assert locked + union + taken == locked + O.Union(takes);
  }

  lemma {:induction false} StepOverlaps(s: Sys, a: Action, rows: map<nat, Row>, locked: set<nat>, claims: seq<O.Claim>,
                                        takes: seq<set<nat>>, horizon: Time)
    requires Inv(s) && Enabled(s, a) && Quiet(s, a, horizon) && Ongoing(s.db, rows, locked, claims, takes, horizon)
    ensures Ongoing(Step(s, a).db, rows, locked, claims + ClaimNow(s, a), takes + TakeNow(a), horizon)
  {
    StepFree(s, a, rows, locked + O.Union(takes), horizon);
    OverlapsOn(s, a, rows, locked, claims, takes, horizon);
    StillOngoing(Step(s, a).db, rows, locked, O.Union(takes), Taken(a), claims + ClaimNow(s, a), takes + TakeNow(a),
                 horizon);
  }

  lemma {:induction false} Regrouped<T>(a: seq<T>, b: seq<T>, c: seq<T>)
    ensures (a + b) + c == a + (b + c)
  {
  }

  /** The claims of a run continue any overlapping claims before it. */
  lemma {:induction false} RunOverlaps(s: Sys, run: seq<Action>, rows: map<nat, Row>, locked: set<nat>,
                                       claims: seq<O.Claim>,
                                       takes: seq<set<nat>>, horizon: Time)
    requires Inv(s) && Valid(s, run) && Window(s, run, horizon) && Ongoing(s.db, rows, locked, claims, takes, horizon)
    ensures Ongoing(Run(s, run).db, rows, locked, claims + ClaimsIn(s, run), takes + TakesIn(run), horizon)
    decreases run
  {
    if run == [] {
      assert claims + [] == claims && takes + [] == takes;
    } else {
      var a, t := run[0], Step(s, run[0]);
      StepOverlaps(s, a, rows, locked, claims, takes, horizon);
      StepKeeps(s, a);
      RunOverlaps(t, run[1..], rows, locked, claims + ClaimNow(s, a), takes + TakeNow(a), horizon);
      Regrouped(claims, ClaimNow(s, a), ClaimsIn(t, run[1..]));
      Regrouped(takes, TakeNow(a), TakesIn(run[1..]));
    }
  }

  lemma {:induction false} WindowOverlaps(s: Sys, run: seq<Action>, horizon: Time)
    requires Inv(s) && Valid(s, run) && Window(s, run, horizon)
    ensures Ongoing(Run(s, run).db, s.db.rows, Locked(s.db), ClaimsIn(s, run), TakesIn(run), horizon)
  {
    assert O.Union([]) == {} && Locked(s.db) + {} == Locked(s.db);
    RunOverlaps(s, run, s.db.rows, Locked(s.db), [], [], horizon);
    assert [] + ClaimsIn(s, run) == ClaimsIn(s, run) && [] + TakesIn(run) == TakesIn(run);
  }

  /**
   From a reachable state, over every window of claims, commits, handlers and inserts: the rows claimed
   are pairwise disjoint takes and together one claim's choice of the starting table, at the latest of
   the claims' times; at the end each is locked or no longer due by the horizon.
   */
  lemma {:induction false} RunClaimsAreOneClaim(s: Sys, run: seq<Action>, horizon: Time)
    requires Reachable(s) && Valid(s, run) && Window(s, run, horizon) && ClaimsIn(s, run) != []
    ensures |Claimed(run)| == O.TotalTaken(TakesIn(run))
    ensures Selection(s.db.rows, Eligible(s.db.rows, Locked(s.db), O.Latest(ClaimsIn(s, run))),
                      |Claimed(run)|, Claimed(run))
    ensures forall id :: id in Claimed(run) && id in Run(s, run).db.rows && Due(Run(s, run).db.rows[id], horizon) ==>
      id in Locked(Run(s, run).db)
  {
    ReachableInv(s);
    WindowOverlaps(s, run, horizon);
    O.OverlappingClaimsAreOneClaim(s.db.rows, Locked(s.db), ClaimsIn(s, run), TakesIn(run));
  }

  /** If all those transactions began at one time, it is what one claim with the summed limit takes then. */
  lemma {:induction false} SameInstantRunClaims(s: Sys, run: seq<Action>, horizon: Time, now: Time)
    requires Reachable(s) && Valid(s, run) && Window(s, run, horizon)
    requires forall c :: c in ClaimsIn(s, run) ==> c.now == now
    ensures Selection(s.db.rows, Eligible(s.db.rows, Locked(s.db), now), O.TotalLimit(ClaimsIn(s, run)), Claimed(run))
  {
    ReachableInv(s);
    WindowOverlaps(s, run, horizon);
    O.SameInstantClaimsAddUp(s.db.rows, Locked(s.db), ClaimsIn(s, run), TakesIn(run), now);
  }

  // ----- claims and commits alone -----

  /** Only commits change rows. */
  ghost predicate OnlyCommits(run: seq<Action>) {
    forall i :: 0 <= i < |run| ==>
      (run[i].Enqueue? || run[i].Settle? ==> run[i].exec == Refused)
  }

  /** The rows that effective commits of the run have claimed. */
  ghost function CommittedIn(s: Sys, run: seq<Action>): set<nat>
    requires Valid(s, run)
    decreases run
  {
    if run == [] then {} else CommittedNow(s, run[0]) + CommittedIn(Step(s, run[0]), run[1..])
  }

  function CommittedNow(s: Sys, a: Action): set<nat>
    requires a.Commit? ==> a.w in s.db.txs
  {
    if a.Commit? && a.outcome != CommitFailed then Ids(s.db.txs[a.w].batch) else {}
  }

  lemma {:induction false} StepCommits(s: Sys, a: Action)
    requires Inv(s) && Enabled(s, a) && (a.Enqueue? || a.Settle? ==> a.exec == Refused)
    ensures Step(s, a).db.rows == ClaimedRows(s.db.rows, CommittedNow(s, a))
    ensures forall id :: id in CommittedNow(s, a) ==> id in s.db.rows && s.db.rows[id].status == Pending
  {
    if a.Commit? && a.outcome != CommitFailed {
      CommitClaims(s, a.w, a.outcome);
    } else {
      RowsStay(s, a);
      assert ClaimedRows(s.db.rows, {}) == s.db.rows;
    }
  }

  lemma {:induction false} RowsStay(s: Sys, a: Action)
    requires Enabled(s, a) && (a.Enqueue? || a.Settle? ==> a.exec == Refused)
    requires (a.Commit? ==> a.outcome == CommitFailed)
    ensures Step(s, a).db.rows == s.db.rows
  {
  }

  lemma {:induction false} ClaimedTwice(rows: map<nat, Row>, a: set<nat>, b: set<nat>)
    requires a !! b
    ensures ClaimedRows(ClaimedRows(rows, a), b) == ClaimedRows(rows, a + b)
  {
  }

  /** Commits of any workers in any order turn exactly the rows they hold into their claimed versions, each once. */
  lemma {:induction false} RunCommits(s: Sys, run: seq<Action>)
    requires Inv(s) && Valid(s, run) && OnlyCommits(run)
    ensures Run(s, run).db.rows == ClaimedRows(s.db.rows, CommittedIn(s, run))
    ensures forall id :: id in CommittedIn(s, run) ==> id in s.db.rows && s.db.rows[id].status == Pending
    decreases run
  {
    if run == [] {
      assert ClaimedRows(s.db.rows, {}) == s.db.rows;
    } else {
      var a, t := run[0], Step(s, run[0]);
      StepCommits(s, a);
      StepKeeps(s, a);
      assert OnlyCommits(run[1..]);
      RunCommits(t, run[1..]);
      ClaimedTwice(s.db.rows, CommittedNow(s, a), CommittedIn(t, run[1..]));
    }
  }

  /**
   Concurrent claims refine one sequential claim: from a reachable state, over every interleaving of
   claims and commits in which what was claimed is what was committed, the table ends as a single claim
   of those rows would have left it, and those rows are a single claim's choice.
   */
  lemma {:induction false} OverlappingClaimsCommitAsOne(s: Sys, run: seq<Action>, horizon: Time, one: seq<Job>)
    requires Reachable(s) && Valid(s, run) && Window(s, run, horizon) && ClaimsIn(s, run) != []
    requires OnlyCommits(run) && CommittedIn(s, run) == Claimed(run)
    requires DistinctIds(one) && Ids(one) == Claimed(run)
    requires forall j :: j in one ==> j.id in s.db.rows && j.row == ClaimedRow(s.db.rows[j.id])
    ensures Run(s, run).db.rows == Install(s.db.rows, one)
    ensures Selection(s.db.rows, Eligible(s.db.rows, Locked(s.db), O.Latest(ClaimsIn(s, run))), |one|, Ids(one))
  {
    ReachableInv(s);
    RunClaimsAreOneClaim(s, run, horizon);
    RunCommits(s, run);
    InstallIsClaimed(s.db.rows, one);
    DistinctIdsCount(one);
  }
}
