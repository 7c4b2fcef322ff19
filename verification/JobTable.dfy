/**
 The background_jobs table of pkg/pgqueue: committed rows, open claim transactions with
 the row locks they hold, and the functions of pgqueue.go that change them.
 */
module JobTable {
  import opened Basics
  import opened Subjects

  datatype Status = Pending | Processing | Done | Failed

  /** Job bytes: either they decode to a wrap-up payload or json.Unmarshal refuses them. */
  datatype Payload = Wrapup(taskId: string, agentId: string, tenantId: Uuid) | Undecodable(bytes: string)

  datatype Row = Row(tenant: Uuid, jobType: string, payload: Payload, status: Status,
                     attempts: nat, runAfter: Time, createdAt: Time)

  /** What a claim returns: a snapshot of the row as the claim left it. */
  datatype Job = Job(id: nat, row: Row)

  /** An open transaction: when it began (its now()) and the jobs it has claimed. */
  datatype Tx = Tx(began: Time, batch: seq<Job>)

  datatype Db = Db(rows: map<nat, Row>, nextId: nat, txs: map<nat, Tx>)

  /** How one autocommitted statement can end: done, done but reported as an error, or not done. */
  datatype Exec = Applied | Unreported | Refused

  datatype CommitOutcome = Committed | CommitUnreported | CommitFailed

  datatype DbError = NegativeLimit | ScanFailed

  // ----- selection -----

  predicate Due(row: Row, now: Time) {
    row.status == Pending && row.runAfter <= now
  }

  function ClaimedRow(row: Row): Row {
    row.(status := Processing, attempts := row.attempts + 1)
  }

  /** Rows some open transaction has locked. */
  function Locked(db: Db): set<nat> {
    set w, j | w in db.txs && j in db.txs[w].batch :: j.id
  }

  function Eligible(rows: map<nat, Row>, locked: set<nat>, now: Time): set<nat> {
    set id | id in rows && id !in locked && Due(rows[id], now)
  }

  /** taken is a least-run_after choice of at most limit of the candidates, as many as there are. */
  ghost predicate Selection(rows: map<nat, Row>, candidates: set<nat>, limit: nat, taken: set<nat>)
    requires candidates <= rows.Keys
  {
    && taken <= candidates
    && |taken| == Min(limit, |candidates|)
    && forall i, j :: i in taken && j in candidates - taken ==> rows[i].runAfter <= rows[j].runAfter
  }

  function Ids(batch: seq<Job>): set<nat> {
    set j | j in batch :: j.id
  }

  ghost predicate DistinctIds(batch: seq<Job>) {
    forall i, k :: 0 <= i < k < |batch| ==> batch[i].id != batch[k].id
  }

  /** batch is one a claim by transaction w with this limit may return; its order is open. */
  ghost predicate Claimable(db: Db, w: nat, limit: nat, batch: seq<Job>)
    requires w in db.txs
  {
    && DistinctIds(batch)
    && (forall j :: j in batch ==> j.id in db.rows && j.row == ClaimedRow(db.rows[j.id]))
    && Selection(db.rows, Eligible(db.rows, Locked(db), db.txs[w].began), limit, Ids(batch))
  }

  // ----- what each operation does to the database -----

  function Enqueued(db: Db, tenant: Uuid, jobType: string, payload: Payload, runAfter: Time, now: Time,
                    exec: Exec): Db {
    if exec == Refused then db
    else db.(rows := db.rows[db.nextId := Row(tenant, jobType, payload, Pending, 0, runAfter, now)],
             nextId := db.nextId + 1)
  }

  function Held(db: Db, w: nat, batch: seq<Job>): Db
    requires w in db.txs
  {
    db.(txs := db.txs[w := db.txs[w].(batch := batch)])
  }

  function Released(db: Db, w: nat): Db {
    db.(txs := db.txs - {w})
  }

  /** The batch's row versions become the committed ones. */
  function Install(rows: map<nat, Row>, batch: seq<Job>): map<nat, Row>
    decreases batch
  {
    if batch == [] then rows else Install(rows[batch[0].id := batch[0].row], batch[1..])
  }

  function CommittedTx(db: Db, w: nat, outcome: CommitOutcome): Db
    requires w in db.txs
  {
    if outcome == CommitFailed then Released(db, w)
    else Released(db, w).(rows := Install(db.rows, db.txs[w].batch))
  }

  function WithRow(db: Db, id: nat, row: Row): Db {
    db.(rows := db.rows[id := row])
  }

  function MarkedDone(db: Db, id: nat, exec: Exec): Db {
    if exec == Refused || id !in db.rows then db
    else WithRow(db, id, db.rows[id].(status := Done))
  }

  function MarkedFailed(db: Db, id: nat, retry: bool, retryAt: Time, exec: Exec): Db {
    if exec == Refused || id !in db.rows then db
    else WithRow(db, id, if retry then db.rows[id].(status := Pending, runAfter := retryAt)
                         else db.rows[id].(status := Failed))
  }

  /** Installing a batch of distinct ids replaces those rows and no other. */
  lemma {:induction false} InstallMeaning(rows: map<nat, Row>, batch: seq<Job>)
    requires DistinctIds(batch)
    ensures Install(rows, batch).Keys == rows.Keys + Ids(batch)
    ensures forall j :: j in batch ==> Install(rows, batch)[j.id] == j.row
    ensures forall id :: id in rows && id !in Ids(batch) ==> Install(rows, batch)[id] == rows[id]
    decreases batch
  {
    if batch != [] {
      InstallMeaning(rows[batch[0].id := batch[0].row], batch[1..]);
      assert batch == [batch[0]] + batch[1..];
      assert forall j :: j in batch[1..] ==> j.id != batch[0].id;
      assert Ids(batch) == {batch[0].id} + Ids(batch[1..]);
    }
  }

  lemma {:induction false} LeastExists(rows: map<nat, Row>, s: set<nat>) returns (m: nat)
    requires s != {} && s <= rows.Keys
    ensures m in s && forall j :: j in s ==> rows[m].runAfter <= rows[j].runAfter
  {
    var x :| x in s;
    m := x;
    if s != {x} {
      assert s - {x} < s;
      var y := LeastExists(rows, s - {x});
      m := if rows[x].runAfter <= rows[y].runAfter then x else y;
    }
  }

  lemma {:induction false} DistinctIdsCount(batch: seq<Job>)
    requires DistinctIds(batch)
    ensures |Ids(batch)| == |batch|
  {
    if batch != [] {
      DistinctIdsCount(batch[1..]);
      assert batch == [batch[0]] + batch[1..];
      assert Ids(batch) == {batch[0].id} + Ids(batch[1..]);
    }
  }

  /** The claim loop's invariant: jobs were taken from the candidates in run_after order. */
  ghost predicate TakenSoFar(rows: map<nat, Row>, candidates: set<nat>, jobs: seq<Job>, left: set<nat>) {
    && candidates <= rows.Keys
    && DistinctIds(jobs)
    && Ids(jobs) <= candidates && left == candidates - Ids(jobs)
    && (forall j :: j in jobs ==> j.id in rows && j.row == ClaimedRow(rows[j.id]))
    && (forall i, k :: i in Ids(jobs) && k in left ==> rows[i].runAfter <= rows[k].runAfter)
  }

  lemma {:induction false} TakeNext(rows: map<nat, Row>, candidates: set<nat>, jobs: seq<Job>, left: set<nat>, id: nat)
    requires TakenSoFar(rows, candidates, jobs, left)
    requires id in left && forall k :: k in left ==> rows[id].runAfter <= rows[k].runAfter
    ensures TakenSoFar(rows, candidates, jobs + [Job(id, ClaimedRow(rows[id]))], left - {id})
  {
    var next := jobs + [Job(id, ClaimedRow(rows[id]))];
    assert forall j :: j in jobs ==> j.id in Ids(jobs);
    assert Ids(next) == Ids(jobs) + {id} by {
      assert forall j :: j in next <==> j in jobs || j == Job(id, ClaimedRow(rows[id]));
    }
    forall i, k | 0 <= i < k < |next| ensures next[i].id != next[k].id {
      assert next[i] in jobs;
    }
  }

  lemma {:induction false} TakenIsSelection(rows: map<nat, Row>, candidates: set<nat>, jobs: seq<Job>, left: set<nat>,
                                            limit: nat)
    requires TakenSoFar(rows, candidates, jobs, left)
    requires |jobs| == limit || (|jobs| <= limit && left == {})
    ensures Selection(rows, candidates, limit, Ids(jobs))
  {
    DistinctIdsCount(jobs);
    assert candidates == left + Ids(jobs);
  }

  /**
   A claim spelled out: distinct rows, each pending, due and held by no open transaction, at most limit
   of them, each returned in processing with one more attempt and nothing else changed; and a row of
   that kind is left behind only when the limit is reached, and then it is due no earlier than any taken.
   */
  ghost predicate ClaimIs(db: Db, w: nat, limit: nat, batch: seq<Job>)
    requires w in db.txs
  {
    && |batch| <= limit
    && (forall i, k :: 0 <= i < k < |batch| ==> batch[i].id != batch[k].id)
    && (forall j :: j in batch ==>
          && Free(db, j.id, db.txs[w].began)
          && j.row == db.rows[j.id].(status := Processing, attempts := db.rows[j.id].attempts + 1))
    && (forall id :: Free(db, id, db.txs[w].began) && (forall j :: j in batch ==> j.id != id) ==>
          && |batch| == limit
          && forall j :: j in batch ==> db.rows[j.id].runAfter <= db.rows[id].runAfter)
  }

  /** Pending, due, and held by no open transaction. */
  ghost predicate Free(db: Db, id: nat, now: Time) {
    && id in db.rows && db.rows[id].status == Pending && db.rows[id].runAfter <= now
    && forall v, j :: v in db.txs && j in db.txs[v].batch ==> j.id != id
  }

  lemma {:induction false} FreeIsEligible(db: Db, id: nat, now: Time)
    ensures Free(db, id, now) <==> id in Eligible(db.rows, Locked(db), now)
  {
  }

  /** Claimable, the condition of the system's claim step, says no less. */
  lemma {:induction false} ClaimableIs(db: Db, w: nat, limit: nat, batch: seq<Job>)
    requires w in db.txs && Claimable(db, w, limit, batch)
    ensures ClaimIs(db, w, limit, batch)
  {
    var due := Eligible(db.rows, Locked(db), db.txs[w].began);
    DistinctIdsCount(batch);
    forall id ensures Free(db, id, db.txs[w].began) <==> id in due {
      FreeIsEligible(db, id, db.txs[w].began);
    }
    forall j | j in batch ensures j.id in due {
      assert j.id in Ids(batch);
    }
    forall id | id in due && forall j :: j in batch ==> j.id != id
      ensures |batch| == limit && forall j :: j in batch ==> db.rows[j.id].runAfter <= db.rows[id].runAfter
    {
      assert id !in Ids(batch);
      assert forall j :: j in batch ==> j.id in Ids(batch);
      if |Ids(batch)| == |due| {
        CardinalityMonotone(Ids(batch), due);
      }
    }
  }

  /** And no more: every claim so spelled out is one the system's claim step may make. */
  lemma {:induction false} ClaimIsClaimable(db: Db, w: nat, limit: nat, batch: seq<Job>)
    requires w in db.txs && ClaimIs(db, w, limit, batch)
    ensures Claimable(db, w, limit, batch)
  {
    var due := Eligible(db.rows, Locked(db), db.txs[w].began);
    DistinctIdsCount(batch);
    forall id ensures Free(db, id, db.txs[w].began) <==> id in due {
      FreeIsEligible(db, id, db.txs[w].began);
    }
    assert Ids(batch) <= due;
    CardinalityMonotone(Ids(batch), due);
    if |batch| < limit {
      forall id | id in due ensures id in Ids(batch) {
        assert Free(db, id, db.txs[w].began);
      }
      assert Ids(batch) == due;
    }
    forall i, k | i in Ids(batch) && k in due - Ids(batch) ensures db.rows[i].runAfter <= db.rows[k].runAfter {
      var j :| j in batch && j.id == i;
      assert Free(db, k, db.txs[w].began) && forall x :: x in batch ==> x.id in Ids(batch);
    }
  }

  /** The database as pgqueue.go uses it. */
  class Database {
    var rows: map<nat, Row>
    var nextId: nat
    var txs: map<nat, Tx>

    function View(): Db
      reads this
    {
      Db(rows, nextId, txs)
    }

    method Enqueue(tenant: Uuid, jobType: string, payload: Payload, runAfter: Time, now: Time, exec: Exec)
      returns (err: bool)
      modifies this
      ensures View() == Enqueued(old(View()), tenant, jobType, payload, runAfter, now, exec)
      ensures txs == old(txs) && nextId == old(nextId) + if exec == Refused then 0 else 1
      ensures rows ==
        if exec == Refused then old(rows)
        else old(rows)[old(nextId) := Row(tenant, jobType, payload, Pending, 0, runAfter, now)]
      ensures err <==> exec != Applied
    {
      if exec != Refused {
        rows := rows[nextId := Row(tenant, jobType, payload, Pending, 0, runAfter, now)];
        nextId := nextId + 1;
      }
      err := exec != Applied;
    }

    method Begin(w: nat, now: Time)
      requires w !in txs
      modifies this
      ensures View() == old(View()).(txs := old(txs)[w := Tx(now, [])])
    {
      txs := txs[w := Tx(now, [])];
    }

    /**
     Claims up to limit jobs in transaction w. A scan error leaves the statement's locks
     and writes in place for the caller's rollback.
     */
    method ClaimJobs(w: nat, limit: int, scanOk: bool) returns (r: Result<seq<Job>, DbError>)
      requires w in txs && txs[w].batch == []
      modifies this
      ensures limit < 0 ==> r == Err(NegativeLimit) && View() == old(View())
      ensures limit >= 0 ==>
        && w in txs
        && Claimable(old(View()), w, limit, txs[w].batch)
        && View() == Held(old(View()), w, txs[w].batch)
        && r == if scanOk then Ok(txs[w].batch) else Err(ScanFailed)
      ensures limit >= 0 ==> ClaimIs(old(View()), w, limit, txs[w].batch)
    {
      if limit < 0 {
        return Err(NegativeLimit);
      }
      var now := txs[w].began;
      ghost var candidates := Eligible(rows, Locked(View()), now);
      var left := Eligible(rows, Locked(View()), now);
      var jobs: seq<Job> := [];
      assert Ids(jobs) == {};
      while |jobs| < limit && left != {}
        invariant unchanged(this)
        invariant |jobs| <= limit
        invariant TakenSoFar(rows, candidates, jobs, left)
        decreases left
      {
        ghost var least := LeastExists(rows, left);
        var id :| id in left && forall k :: k in left ==> rows[id].runAfter <= rows[k].runAfter;
        TakeNext(rows, candidates, jobs, left, id);
        jobs := jobs + [Job(id, ClaimedRow(rows[id]))];
        left := left - {id};
      }
      TakenIsSelection(rows, candidates, jobs, left, limit);
      ClaimableIs(View(), w, limit, jobs);
      txs := txs[w := txs[w].(batch := jobs)];
      r := if scanOk then Ok(jobs) else Err(ScanFailed);
    }

    method Rollback(w: nat)
      modifies this
      ensures View() == Released(old(View()), w)
      ensures rows == old(rows) && nextId == old(nextId) && txs == old(txs) - {w}
    {
      txs := txs - {w};
    }

    method Commit(w: nat, outcome: CommitOutcome) returns (err: bool)
      requires w in txs
      modifies this
      ensures View() == CommittedTx(old(View()), w, outcome)
      ensures nextId == old(nextId) && txs == old(txs) - {w}
      ensures outcome == CommitFailed ==> rows == old(rows)
      ensures outcome != CommitFailed && DistinctIds(old(txs)[w].batch) ==>
        && (forall j :: j in old(txs)[w].batch ==> j.id in rows && rows[j.id] == j.row)
        && (forall id :: id in old(rows) && (forall j :: j in old(txs)[w].batch ==> j.id != id) ==>
              id in rows && rows[id] == old(rows)[id])
      ensures err <==> outcome != Committed
    {
      if outcome != CommitFailed {
        if DistinctIds(txs[w].batch) {
          InstallMeaning(rows, txs[w].batch);
        }
        rows := Install(rows, txs[w].batch);
      }
      txs := txs - {w};
      err := outcome != Committed;
    }

    /** UPDATE ... WHERE id = $1: no guard on the status, and no error when no row has the id. */
    method MarkDone(id: nat, exec: Exec) returns (err: bool)
      modifies this
      ensures View() == MarkedDone(old(View()), id, exec)
      ensures txs == old(txs) && nextId == old(nextId)
      ensures rows ==
        if exec == Refused || id !in old(rows) then old(rows)
        else old(rows)[id := old(rows)[id].(status := Done)]
      ensures err <==> exec != Applied
    {
      if exec != Refused && id in rows {
        rows := rows[id := rows[id].(status := Done)];
      }
      err := exec != Applied;
    }

    method MarkFailed(id: nat, retry: bool, retryAt: Time, exec: Exec) returns (err: bool)
      modifies this
      ensures View() == MarkedFailed(old(View()), id, retry, retryAt, exec)
      ensures txs == old(txs) && nextId == old(nextId)
      ensures rows ==
        if exec == Refused || id !in old(rows) then old(rows)
        else if retry then old(rows)[id := old(rows)[id].(status := Pending, runAfter := retryAt)]
        else old(rows)[id := old(rows)[id].(status := Failed)]
      ensures err <==> exec != Applied
    {
      if exec != Refused && id in rows {
        if retry {
          rows := rows[id := rows[id].(status := Pending, runAfter := retryAt)];
        } else {
          rows := rows[id := rows[id].(status := Failed)];
        }
      }
      err := exec != Applied;
    }
  }
}
