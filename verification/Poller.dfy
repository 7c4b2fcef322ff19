/** One poll of pkg/pgqueue's Poller: claim in a transaction, commit, then hand the jobs over. */
module Poller {
  import opened Basics
  import opened JobTable

  /** Run's default for a batch size that is not positive. */
  function BatchSize(configured: int): (n: nat)
    ensures n > 0 && n == (if configured > 0 then configured else 20)
  {
    if configured <= 0 then 20 else configured
  }

  function Begun(db: Db, w: nat, now: Time): Db {
    db.(txs := db.txs[w := Tx(now, [])])
  }

  /**
   Jobs are handed over only once their claim is committed and reported so; on every other
   path the transaction is closed, and unless the commit took effect unreported the table is
   as it was.
   */
  method PollOnce(db: Database, w: nat, configured: int, now: Time, beginOk: bool, scanOk: bool, commit: CommitOutcome)
    returns (err: bool, dispatched: seq<Job>, ghost batch: seq<Job>)
    requires w !in db.txs
    modifies db
    ensures w !in db.txs
    ensures beginOk ==> Claimable(Begun(old(db.View()), w, now), w, BatchSize(configured), batch)
    ensures beginOk ==> ClaimIs(Begun(old(db.View()), w, now), w, if configured <= 0 then 20 else configured, batch)
    ensures !beginOk ==> batch == []
    ensures db.nextId == old(db.nextId) && db.txs == old(db.txs)
    ensures beginOk && scanOk && commit != CommitFailed ==>
      && (forall j :: j in batch ==> j.id in db.rows && db.rows[j.id] == j.row)
      && (forall id :: id in old(db.rows) && (forall j :: j in batch ==> j.id != id) ==>
            id in db.rows && db.rows[id] == old(db.rows)[id])
    ensures db.View() ==
      if beginOk && scanOk && batch != [] && commit != CommitFailed
      then old(db.View()).(rows := Install(old(db.rows), batch))
      else old(db.View())
    ensures dispatched == if beginOk && scanOk && commit == Committed then batch else []
    ensures err <==> !beginOk || !scanOk || (batch != [] && commit != Committed)
  {
    err, dispatched, batch := false, [], [];
    if !beginOk {
      return true, [], [];
    }
    assert db.txs[w := Tx(now, [])] - {w} == db.txs;
    db.Begin(w, now);
    assert db.View() == Begun(old(db.View()), w, now);
    var claimed := db.ClaimJobs(w, BatchSize(configured), scanOk);
    batch := db.txs[w].batch;
    assert db.txs - {w} == old(db.txs);
    if claimed.Err? || claimed.value == [] {
      err := claimed.Err?;
      db.Rollback(w);
      return;
    }
    err := db.Commit(w, commit);
    if !err {
      dispatched := claimed.value;
    }
  }
}
