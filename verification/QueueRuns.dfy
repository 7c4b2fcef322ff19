/** Runs of the worker system in full: a job that fails five times, and three that are left stuck. */
module QueueRuns {
  import opened Basics
  import opened JobTable
  import opened QueueSystem
  import H = WrapupHandler
  import T = QueueTheorems
  import S = Subjects

  /** The run leads from one state to the other. */
  ghost predicate Leads(s: Sys, run: seq<Action>, t: Sys) {
    Valid(s, run) && Run(s, run) == t
  }

  lemma {:induction false} LeadsOn(s: Sys, run: seq<Action>, t: Sys, a: Action, u: Sys)
    requires Leads(s, run, t) && Enabled(t, a) && Step(t, a) == u
    ensures Leads(s, run + [a], u)
  {
    RunMore(s, run, a);
  }

  // ----- one job, retried as soon as it is due -----

  /** When the job is claimed for the k+1-st time: each retry waits 30 seconds more than the last. */
  function ClaimTime(k: nat): Time {
    if k == 0 then 0 else ClaimTime(k - 1) + 30 * SECOND * k
  }

  function ClaimTimes(k: nat): seq<Time> {
    seq(k, i requires 0 <= i => ClaimTime(i))
  }

  lemma {:induction false} OneMoreClaim(k: nat)
    ensures ClaimTimes(k) + [ClaimTime(k)] == ClaimTimes(k + 1)
  {
  }

  function JobRow(tenant: S.Uuid, status: Status, attempts: nat, runAfter: Time): Row {
    Row(tenant, H.WRAPUP_SYNC, Wrapup("t", "a", tenant), status, attempts, runAfter, 0)
  }

  function ClaimedJob(tenant: S.Uuid, k: nat): Job {
    Job(0, JobRow(tenant, Processing, k + 1, ClaimTime(k)))
  }

  /** The system with this one job, claimed and posted so often. */
  function With(clock: Time, row: Row, txs: map<nat, Tx>, gos: map<nat, Go>, nextGo: nat, claims: nat,
                posts: nat): Sys {
    Sys(clock, Db(map[0 := row], 1, txs), gos, nextGo, map[0 := ClaimTimes(claims)], map[0 := posts])
  }

  /** The job is due for its k+1-st claim. */
  function DueState(tenant: S.Uuid, k: nat): Sys {
    With(ClaimTime(k), JobRow(tenant, Pending, k, ClaimTime(k)), map[], map[], k, k, k)
  }

  function HeldState(tenant: S.Uuid, k: nat): Sys {
    DueState(tenant, k).(db := DueState(tenant, k).db.(txs := map[0 := Tx(ClaimTime(k), [ClaimedJob(tenant, k)])]))
  }

  function HandlerState(tenant: S.Uuid, k: nat, stage: Stage, posts: nat): Sys {
    With(ClaimTime(k), ClaimedJob(tenant, k).row, map[], map[k := Go(0, ClaimedJob(tenant, k), stage)],
         k + 1, k + 1, posts)
  }

  /** The POST fails on the wire. */
  function Unreachable(k: nat): H.World {
    H.World(H.Found, true, true, H.TransportError, ClaimTime(k))
  }

  function VerdictOf(k: nat): H.Verdict {
    if k < 4 then H.Retry(ClaimTime(k + 1)) else H.Abandon
  }

  function SettledState(tenant: S.Uuid, k: nat): Sys {
    With(ClaimTime(k),
         if k < 4 then JobRow(tenant, Pending, k + 1, ClaimTime(k + 1))
         else JobRow(tenant, Failed, k + 1, ClaimTime(k)),
         map[], map[], k + 1, k + 1, k + 1)
  }

  function ClaimSteps(tenant: S.Uuid, k: nat): seq<Action> {
    [Begin(0), Claim(0, 1, [ClaimedJob(tenant, k)])]
  }

  function HandlerPart(k: nat): seq<Action> {
    [Commit(0, Committed), Start(k), Decide(k, Unreachable(k))]
  }

  function HandleSteps(k: nat): seq<Action> {
    HandlerPart(k) + [Settle(k, Applied)]
  }

  lemma {:induction false} OnlyJobSelected(tenant: S.Uuid, k: nat)
    ensures var s, batch := DueState(tenant, k), [ClaimedJob(tenant, k)];
      && Eligible(s.db.rows, {}, s.clock) == {0}
      && Ids(batch) == {0} && DistinctIds(batch)
      && Selection(s.db.rows, {0}, 1, {0})
  {
  }

  lemma {:induction false} ClaimOnce(tenant: S.Uuid, k: nat)
    ensures Leads(DueState(tenant, k), ClaimSteps(tenant, k), HeldState(tenant, k))
  {
    var s, batch := DueState(tenant, k), [ClaimedJob(tenant, k)];
    var b, c := Begin(0), Claim(0, 1, batch);
    var t := s.(db := s.db.(txs := map[0 := Tx(ClaimTime(k), [])]));
    assert Leads(s, [], s);
    LeadsOn(s, [], s, b, t);
    assert [] + [b] == [b];
    OnlyJobSelected(tenant, k);
    assert Locked(t.db) == {};
    LeadsOn(s, [b], t, c, HeldState(tenant, k));
    assert [b] + [c] == ClaimSteps(tenant, k);
  }

  lemma {:induction false} CommitOnce(tenant: S.Uuid, k: nat)
    ensures var s, a := HeldState(tenant, k), Commit(0, Committed);
      Enabled(s, a) && Step(s, a) == HandlerState(tenant, k, Queued, k)
  {
    var s, batch := HeldState(tenant, k), [ClaimedJob(tenant, k)];
    OneMoreClaim(k);
    assert Ids(batch) == {0} by {
      OnlyJobSelected(tenant, k);
    }
    assert batch[1..] == [];
    assert Install(s.db.rows, batch) == map[0 := batch[0].row];
    assert Recorded(s.claims, batch, ClaimTime(k)) == map[0 := ClaimTimes(k + 1)];
    assert Spawned(0, batch, k) == map[k := Go(0, batch[0], Queued)];
    assert s.gos + Spawned(0, batch, k) == map[k := Go(0, batch[0], Queued)];
  }

  lemma {:induction false} Verdicts(tenant: S.Uuid, k: nat)
    requires k < 5
    ensures H.Posts(ClaimedJob(tenant, k), Unreachable(k))
    ensures H.Decide(ClaimedJob(tenant, k), Unreachable(k)) == VerdictOf(k)
  {
    if k < 4 {
      H.RetryDelayExact(k + 1, ClaimTime(k));
    }
  }

  lemma {:induction false} StartOnce(tenant: S.Uuid, k: nat)
    ensures var s, a := HandlerState(tenant, k, Queued, k), Start(k);
      Enabled(s, a) && Step(s, a) == HandlerState(tenant, k, Running, k)
  {
    var s := HandlerState(tenant, k, Queued, k);
    assert s.gos[k := s.gos[k].(stage := Running)] == map[k := Go(0, ClaimedJob(tenant, k), Running)];
  }

  lemma {:induction false} DecideOnce(tenant: S.Uuid, k: nat)
    requires k < 5
    ensures var s, a := HandlerState(tenant, k, Running, k), Decide(k, Unreachable(k));
      Enabled(s, a) && Step(s, a) == HandlerState(tenant, k, Deciding(VerdictOf(k)), k + 1)
  {
    var s := HandlerState(tenant, k, Running, k);
    Verdicts(tenant, k);
    assert s.gos[k := s.gos[k].(stage := Deciding(VerdictOf(k)))] ==
      map[k := Go(0, ClaimedJob(tenant, k), Deciding(VerdictOf(k)))];
    assert s.posts[0 := k + 1] == map[0 := k + 1];
  }

  lemma {:induction false} SettleOnce(tenant: S.Uuid, k: nat)
    requires k < 5
    ensures var s, a := HandlerState(tenant, k, Deciding(VerdictOf(k)), k + 1), Settle(k, Applied);
      Enabled(s, a) && Step(s, a) == SettledState(tenant, k)
  {
    var s := HandlerState(tenant, k, Deciding(VerdictOf(k)), k + 1);
    assert s.gos - {k} == map[];
    assert Step(s, Settle(k, Applied)).db.rows == SettledState(tenant, k).db.rows;
  }

  lemma {:induction false} DecidedOnce(tenant: S.Uuid, k: nat)
    requires k < 5
    ensures Leads(HeldState(tenant, k), HandlerPart(k), HandlerState(tenant, k, Deciding(VerdictOf(k)), k + 1))
  {
    var s, run := HeldState(tenant, k), HandlerPart(k);
    var t0, t1 := HandlerState(tenant, k, Queued, k), HandlerState(tenant, k, Running, k);
    assert Leads(s, [], s);
    CommitOnce(tenant, k);
    LeadsOn(s, [], s, run[0], t0);
    assert [] + [run[0]] == run[..1];
    StartOnce(tenant, k);
    LeadsOn(s, run[..1], t0, run[1], t1);
    assert run[..1] + [run[1]] == run[..2];
    DecideOnce(tenant, k);
    LeadsOn(s, run[..2], t1, run[2], HandlerState(tenant, k, Deciding(VerdictOf(k)), k + 1));
    assert run[..2] + [run[2]] == run;
  }

  lemma {:induction false} HandleOnce(tenant: S.Uuid, k: nat)
    requires k < 5
    ensures Leads(HeldState(tenant, k), HandleSteps(k), SettledState(tenant, k))
  {
    DecidedOnce(tenant, k);
    SettleOnce(tenant, k);
    LeadsOn(HeldState(tenant, k), HandlerPart(k), HandlerState(tenant, k, Deciding(VerdictOf(k)), k + 1),
            Settle(k, Applied), SettledState(tenant, k));
  }

  // ----- five claims -----

  function EnqueueStep(tenant: S.Uuid): Action {
    Enqueue(tenant, H.WRAPUP_SYNC, Wrapup("t", "a", tenant), 0, Applied)
  }

  /** Up to the moment the job is due for its k+1-st claim. */
  function UpTo(tenant: S.Uuid, k: nat): seq<Action> {
    if k == 0 then [EnqueueStep(tenant)]
    else UpTo(tenant, k - 1) + ClaimSteps(tenant, k - 1) + HandleSteps(k - 1) + [Tick(30 * SECOND * k)]
  }

  lemma {:induction false} EnqueueOnce(tenant: S.Uuid)
    ensures Leads(Init(0), [EnqueueStep(tenant)], DueState(tenant, 0))
  {
    var a := EnqueueStep(tenant);
    assert ClaimTimes(0) == [] && ClaimTime(0) == 0;
    assert Leads(Init(0), [], Init(0));
    LeadsOn(Init(0), [], Init(0), a, DueState(tenant, 0));
    assert [] + [a] == [a];
  }

  lemma {:induction false} Claimed(tenant: S.Uuid, k: nat)
    requires Leads(Init(0), UpTo(tenant, k), DueState(tenant, k))
    ensures Leads(Init(0), UpTo(tenant, k) + ClaimSteps(tenant, k), HeldState(tenant, k))
  {
    ClaimOnce(tenant, k);
    RunJoin(Init(0), UpTo(tenant, k), ClaimSteps(tenant, k));
  }

  lemma {:induction false} Handled(tenant: S.Uuid, k: nat)
    requires k < 5 && Leads(Init(0), UpTo(tenant, k), DueState(tenant, k))
    ensures Leads(Init(0), UpTo(tenant, k) + ClaimSteps(tenant, k) + HandleSteps(k), SettledState(tenant, k))
  {
    Claimed(tenant, k);
    HandleOnce(tenant, k);
    RunJoin(Init(0), UpTo(tenant, k) + ClaimSteps(tenant, k), HandleSteps(k));
  }

  lemma {:induction false} Waited(tenant: S.Uuid, k: nat, s: Sys, part: seq<Action>)
    requires k < 4 && Leads(s, part, SettledState(tenant, k))
    ensures Leads(s, part + [Tick(30 * SECOND * (k + 1))], DueState(tenant, k + 1))
  {
    LeadsOn(s, part, SettledState(tenant, k), Tick(30 * SECOND * (k + 1)), DueState(tenant, k + 1));
  }

  lemma {:induction false} ReachesDue(tenant: S.Uuid, k: nat)
    requires k <= 4
    ensures Leads(Init(0), UpTo(tenant, k), DueState(tenant, k))
  {
    if k == 0 {
      EnqueueOnce(tenant);
    } else {
      ReachesDue(tenant, k - 1);
      Handled(tenant, k - 1);
      Waited(tenant, k - 1, Init(0), UpTo(tenant, k - 1) + ClaimSteps(tenant, k - 1) + HandleSteps(k - 1));
    }
  }

  /**
   The bounds are reached: a job whose POST always fails is claimed and posted five times, at 0, 30,
   90, 180 and 300 seconds, and its fifth failure is final.
   */
  lemma {:induction false} FifthFailureIsFinal(tenant: S.Uuid)
    ensures var run := UpTo(tenant, 4) + ClaimSteps(tenant, 4) + HandleSteps(4);
      && Valid(Init(0), run)
      && var s := Run(Init(0), run);
         && s.db.rows == map[0 := JobRow(tenant, Failed, 5, 300 * SECOND)]
         && s.claims == map[0 := [0, 30 * SECOND, 90 * SECOND, 180 * SECOND, 300 * SECOND]]
         && s.posts == map[0 := 5]
  {
    ReachesDue(tenant, 4);
    Handled(tenant, 4);
    FiveTimes();
  }

  lemma {:induction false} FiveTimes()
    ensures ClaimTimes(5) == [0, 30 * SECOND, 90 * SECOND, 180 * SECOND, 300 * SECOND] && ClaimTime(4) == 300 * SECOND
  {
    assert ClaimTime(0) == 0;
    assert ClaimTime(1) == 30 * SECOND;
    assert ClaimTime(2) == 90 * SECOND;
    assert ClaimTime(3) == 180 * SECOND;
    assert ClaimTime(4) == 300 * SECOND;
  }

  // ----- three ways to be stuck -----

  /** What leaves a claimed job's row in processing with no handler. */
  function StuckBy(way: nat): seq<Action> {
    match way
    case 0 => [Commit(0, Committed), Crash(0)]
    case 1 => [Commit(0, CommitUnreported)]
    case _ => HandlerPart(0) + [Settle(0, Refused)]
  }

  /** A worker crash after the commit, a commit not reported, and a refused update each leave an orphan. */
  lemma {:induction false} OrphansAreReached(tenant: S.Uuid, way: nat)
    ensures var run := UpTo(tenant, 0) + ClaimSteps(tenant, 0) + StuckBy(way);
      Valid(Init(0), run) && T.Orphan(Run(Init(0), run), 0)
  {
    EnqueueOnce(tenant);
    Claimed(tenant, 0);
    var s := HeldState(tenant, 0);
    match way {
      case 0 => StuckByCrash(tenant);
      case 1 => StuckByCommit(tenant);
      case _ => StuckByUpdate(tenant, 0);
    }
    RunJoin(Init(0), UpTo(tenant, 0) + ClaimSteps(tenant, 0), StuckBy(way));
  }

  lemma {:induction false} StuckByCrash(tenant: S.Uuid)
    ensures Valid(HeldState(tenant, 0), StuckBy(0)) && T.Orphan(Run(HeldState(tenant, 0), StuckBy(0)), 0)
  {
    var s, t := HeldState(tenant, 0), HandlerState(tenant, 0, Queued, 0);
    CommitOnce(tenant, 0);
    var u := Step(t, Crash(0));
    assert Leads(s, [], s);
    LeadsOn(s, [], s, Commit(0, Committed), t);
    LeadsOn(s, [] + [Commit(0, Committed)], t, Crash(0), u);
    assert [] + [Commit(0, Committed)] + [Crash(0)] == StuckBy(0);
    assert T.Orphan(u, 0);
  }

  lemma {:induction false} StuckByCommit(tenant: S.Uuid)
    ensures Valid(HeldState(tenant, 0), StuckBy(1)) && T.Orphan(Run(HeldState(tenant, 0), StuckBy(1)), 0)
  {
    var s, a := HeldState(tenant, 0), Commit(0, CommitUnreported);
    CommitOnce(tenant, 0);
    assert Step(s, a).db == Step(s, Commit(0, Committed)).db;
    assert Leads(s, [], s);
    LeadsOn(s, [], s, a, Step(s, a));
    assert [] + [a] == StuckBy(1);
  }

  /** In processing after its k+1-st claim and post, and no handler left. */
  function StuckState(tenant: S.Uuid, k: nat): Sys {
    With(ClaimTime(k), ClaimedJob(tenant, k).row, map[], map[], k + 1, k + 1, k + 1)
  }

  lemma {:induction false} RefusedOnce(tenant: S.Uuid, k: nat)
    ensures var t, a := HandlerState(tenant, k, Deciding(VerdictOf(k)), k + 1), Settle(k, Refused);
      Enabled(t, a) && Step(t, a) == StuckState(tenant, k)
  {
    assert HandlerState(tenant, k, Deciding(VerdictOf(k)), k + 1).gos - {k} == map[];
  }

  lemma {:induction false} StuckByUpdate(tenant: S.Uuid, k: nat)
    requires k < 5
    ensures Leads(HeldState(tenant, k), HandlerPart(k) + [Settle(k, Refused)], StuckState(tenant, k))
    ensures T.Orphan(StuckState(tenant, k), 0)
  {
    DecidedOnce(tenant, k);
    RefusedOnce(tenant, k);
    LeadsOn(HeldState(tenant, k), HandlerPart(k), HandlerState(tenant, k, Deciding(VerdictOf(k)), k + 1),
            Settle(k, Refused), StuckState(tenant, k));
  }
}
