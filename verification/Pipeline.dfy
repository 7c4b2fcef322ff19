/**
 The whole wrap-up pipeline: the durable task.completed consumer fills the background_jobs
 table that any number of workers drain.
 */
module Pipeline {
  import opened Basics
  import opened Subjects
  import opened Events
  import J = JobTable
  import H = WrapupHandler
  import I = Ingest
  import Q = QueueSystem
  import T = QueueTheorems

  datatype State = State(inbox: I.State<Msg, Completed>, sys: Q.Sys)

  ghost function Decoder(lib: UuidParser): Msg -> Option<Completed> {
    m => JobFor(lib, m)
  }

  ghost function HistoryDecoder(lib: UuidParser): Msg -> Option<Ingested> {
    m => EventFor(lib, m)
  }

  /** A step of the consumer side, or one of the workers or of another producer. */
  datatype Action = Consume(c: I.Action<Msg>) | Work(q: Q.Action)

  /** The insert a handler's step carries out, for a message that decodes. */
  ghost function Insert(lib: UuidParser, s: State, c: I.Action<Msg>): Option<Q.Action>
    requires I.Enabled(s.inbox, c)
  {
    if c.Handle? then
      match JobFor(lib, s.inbox.log[s.inbox.handlings[c.h].msg])
      case None => None
      case Some(rec) => Some(Q.Enqueue(rec.tenant, H.WRAPUP_SYNC, JobPayload(rec), s.sys.clock, c.exec))
    else None
  }

  ghost predicate Enabled(lib: UuidParser, s: State, a: Action) {
    match a
    case Consume(c) => I.Enabled(s.inbox, c) && (c.Handle? ==> c.key == s.sys.db.nextId)
    case Work(q) => Q.Enabled(s.sys, q)
  }

  ghost function Step(lib: UuidParser, s: State, a: Action): State
    requires Enabled(lib, s, a)
  {
    match a
    case Work(q) => s.(sys := Q.Step(s.sys, q))
    case Consume(c) =>
      var insert := Insert(lib, s, c);
      State(I.Step(Decoder(lib), s.inbox, c), if insert.Some? then Q.Step(s.sys, insert.value) else s.sys)
  }

  ghost function Init(clock: Time): State {
    State(I.Init<Msg, Completed>(), Q.Init(clock))
  }

  /** Every record of the inbox is a row of the table that still carries its tenant and payload. */
  ghost predicate Linked(rows: map<nat, J.Row>, stored: map<nat, I.Entry<Completed>>) {
    forall id :: id in stored ==> id in rows && Carries(rows[id], stored[id].rec)
  }

  ghost predicate Carries(row: J.Row, rec: Completed) {
    row.tenant == rec.tenant && row.jobType == H.WRAPUP_SYNC && row.payload == JobPayload(rec)
  }

  ghost predicate Inv(lib: UuidParser, s: State) {
    I.Inv(Decoder(lib), s.inbox) && Q.Inv(s.sys) && Linked(s.sys.db.rows, s.inbox.stored)
  }

  /** No step of the workers, and no other producer's insert, takes a linked row's contents away. */
  lemma {:induction false} QueueStepKeepsLink(sys: Q.Sys, q: Q.Action, stored: map<nat, I.Entry<Completed>>)
    requires Q.Inv(sys) && Q.Enabled(sys, q) && Linked(sys.db.rows, stored)
    ensures Linked(Q.Step(sys, q).db.rows, stored)
  {
    forall id | id in stored
      ensures id in Q.Step(sys, q).db.rows && Carries(Q.Step(sys, q).db.rows[id], stored[id].rec)
    {
      assert Carries(sys.db.rows[id], stored[id].rec);
      T.StepIsLater(sys, q, id);
    }
  }

  lemma {:induction false} HandleKeepsLink(lib: UuidParser, s: State, c: I.Action<Msg>)
    requires Inv(lib, s) && Enabled(lib, s, Consume(c)) && Insert(lib, s, c).Some?
    ensures var t := Step(lib, s, Consume(c)); Linked(t.sys.db.rows, t.inbox.stored)
  {
    var q, t := Insert(lib, s, c).value, Step(lib, s, Consume(c));
    QueueStepKeepsLink(s.sys, q, s.inbox.stored);
    var rec := JobFor(lib, s.inbox.log[s.inbox.handlings[c.h].msg]);
    assert rec == Decoder(lib)(s.inbox.log[s.inbox.handlings[c.h].msg]);
    if c.exec != J.Refused {
      assert t.inbox.stored == s.inbox.stored[c.key := I.Entry(s.inbox.handlings[c.h].msg, rec.value)];
      assert Carries(t.sys.db.rows[c.key], rec.value);
    }
  }

  /** A consumer step that inserts adds exactly its message's job, due and created now; other messages add none. */
  lemma {:induction false} ConsumeInserts(lib: UuidParser, s: State, h: nat, key: nat, exec: J.Exec)
    requires Enabled(lib, s, Consume(I.Handle(h, key, exec)))
    ensures var m, t := s.inbox.log[s.inbox.handlings[h].msg], Step(lib, s, Consume(I.Handle(h, key, exec)));
      && (forall tenant, taskId, agentId :: AsksFor(lib, m, tenant, taskId, agentId) && exec != J.Refused ==>
            t.sys.db.rows == s.sys.db.rows[key :=
              J.Row(tenant, "wrapup_sync", J.Wrapup(taskId, agentId, tenant), J.Pending, 0, s.sys.clock, s.sys.clock)])
      && (exec == J.Refused || (forall tenant, taskId, agentId :: !AsksFor(lib, m, tenant, taskId, agentId)) ==>
            t.sys == s.sys)
  {
    var m := s.inbox.log[s.inbox.handlings[h].msg];
    NoJobAsked(lib, m);
    forall tenant, t, a ensures AsksFor(lib, m, tenant, t, a) <==> JobFor(lib, m) == Some(Completed(tenant, t, a)) {
      AskedJob(lib, m, tenant, t, a);
    }
  }

  lemma {:induction false} StepKeeps(lib: UuidParser, s: State, a: Action)
    requires Inv(lib, s) && Enabled(lib, s, a)
    ensures Inv(lib, Step(lib, s, a))
  {
    match a {
      case Work(q) =>
        Q.StepKeeps(s.sys, q);
        QueueStepKeepsLink(s.sys, q, s.inbox.stored);
      case Consume(c) =>
        I.StepKeeps(Decoder(lib), s.inbox, c);
        var insert := Insert(lib, s, c);
        if insert.Some? {
          Q.StepKeeps(s.sys, insert.value);
          HandleKeepsLink(lib, s, c);
        } else if c.Handle? {
          assert Decoder(lib)(s.inbox.log[s.inbox.handlings[c.h].msg]) == None;
        }
    }
  }

  ghost predicate Valid(lib: UuidParser, s: State, run: seq<Action>)
    decreases run
  {
    run == [] || (Enabled(lib, s, run[0]) && Valid(lib, Step(lib, s, run[0]), run[1..]))
  }

  ghost function Run(lib: UuidParser, s: State, run: seq<Action>): State
    requires Valid(lib, s, run)
    decreases run
  {
    if run == [] then s else Run(lib, Step(lib, s, run[0]), run[1..])
  }

  lemma {:induction false} RunKeeps(lib: UuidParser, s: State, run: seq<Action>)
    requires Inv(lib, s) && Valid(lib, s, run)
    ensures Inv(lib, Run(lib, s, run))
    decreases run
  {
    if run != [] {
      StepKeeps(lib, s, run[0]);
      RunKeeps(lib, Step(lib, s, run[0]), run[1..]);
    }
  }

  ghost predicate Reachable(lib: UuidParser, s: State) {
    exists clock, run :: Valid(lib, Init(clock), run) && Run(lib, Init(clock), run) == s
  }

  lemma {:induction false} ReachableInv(lib: UuidParser, s: State)
    requires Reachable(lib, s)
    ensures Inv(lib, s)
  {
    var clock, run :| Valid(lib, Init(clock), run) && Run(lib, Init(clock), run) == s;
    RunKeeps(lib, Init(clock), run);
  }

  /** The wrap-up jobs of one message. */
  ghost function JobsOf(s: State, msg: nat): set<nat> {
    I.KeysOf(s.inbox.stored, msg)
  }

  /** The row is the wrap-up job of a message published for the tenant: its whole payload, read off the fields. */
  ghost predicate JobHasEvent(s: State, msg: nat, tenant: Uuid, id: nat)
    requires msg < |s.inbox.log|
  {
    var data := s.inbox.log[msg].data;
    && id in s.sys.db.rows
    && data.Struct? && "taskId" in data.fields && data.fields["taskId"].Str? && data.fields["taskId"].s != ""
    && s.sys.db.rows[id].tenant == tenant
    && s.sys.db.rows[id].jobType == "wrapup_sync"
    && s.sys.db.rows[id].payload ==
         J.Wrapup(data.fields["taskId"].s,
                  if "agentId" in data.fields && data.fields["agentId"].Str? then data.fields["agentId"].s else "",
                  tenant)
    && s.sys.db.rows[id].attempts <= 5
  }

  lemma {:induction false} PublishedAsks(lib: UuidParser, m: Msg, tenant: Uuid, rec: Completed)
    requires Inverts(lib) && m.subject == Subject(tenant, "task", "completed") && JobFor(lib, m) == Some(rec)
    ensures AsksFor(lib, m, tenant, rec.taskId, rec.agentId) && rec.tenant == tenant
  {
    AskedJob(lib, m, rec.tenant, rec.taskId, rec.agentId);
    SubjectRoundTrip(lib, tenant, "task", "completed");
  }

  lemma {:induction false} JobCarriesEvent(lib: UuidParser, s: State, msg: nat, tenant: Uuid, id: nat)
    requires Inv(lib, s) && Inverts(lib) && msg < |s.inbox.log| && id in JobsOf(s, msg)
    requires s.inbox.log[msg].subject == Subject(tenant, "task", "completed")
    ensures JobHasEvent(s, msg, tenant, id)
  {
    var rec := s.inbox.stored[id].rec;
    assert Decoder(lib)(s.inbox.log[msg]) == Some(rec);
    PublishedAsks(lib, s.inbox.log[msg], tenant, rec);
    assert Carries(s.sys.db.rows[id], rec);
    assert Q.RowOk(s.sys.db.rows[id], s.sys.claims[id], s.sys.posts[id], s.sys.clock);
  }

  /**
   No acked task.completed event is lost: in every reachable state, whatever the workers did
   meanwhile, it has a wrap-up job with the tenant of its subject and its taskId, with at most
   five attempts; and no message has more jobs than deliveries.
   */
  lemma {:induction false} EveryAckedEventHasItsJob(lib: UuidParser, s: State, msg: nat, tenant: Uuid)
    requires Reachable(lib, s) && Inverts(lib) && msg < |s.inbox.log|
    requires s.inbox.log[msg].subject == Subject(tenant, "task", "completed")
    ensures |s.inbox.deliveries| == |s.inbox.log| && |JobsOf(s, msg)| <= s.inbox.deliveries[msg]
    ensures msg in s.inbox.acked ==> exists id :: id in JobsOf(s, msg) && id in s.sys.db.rows
    ensures forall id :: id in JobsOf(s, msg) ==> JobHasEvent(s, msg, tenant, id)
  {
    ReachableInv(lib, s);
    forall id | id in JobsOf(s, msg) ensures JobHasEvent(s, msg, tenant, id) {
      JobCarriesEvent(lib, s, msg, tenant, id);
    }
    if msg in s.inbox.acked {
      var id :| id in JobsOf(s, msg);
      assert JobHasEvent(s, msg, tenant, id);
    }
  }

  /** Historical Reporting: an acked event is stored under the three parts it was published with. */
  lemma {:induction false} EveryAckedEventIsInTheHistory(lib: UuidParser, run: seq<I.Action<Msg>>, msg: nat,
                                                         tenant: Uuid, domain: string, eventType: string)
    requires Inverts(lib) && domain != "" && '.' !in domain && eventType != ""
    requires I.Valid(HistoryDecoder(lib), I.Init<Msg, Ingested>(), run)
    requires msg < |I.Run(HistoryDecoder(lib), I.Init<Msg, Ingested>(), run).log|
    requires I.Run(HistoryDecoder(lib), I.Init<Msg, Ingested>(), run).log[msg].subject ==
      Subject(tenant, domain, eventType)
    requires msg in I.Run(HistoryDecoder(lib), I.Init<Msg, Ingested>(), run).acked
    ensures var s := I.Run(HistoryDecoder(lib), I.Init<Msg, Ingested>(), run);
      exists key :: key in s.stored && s.stored[key].msg == msg
        && s.log[msg].data.Struct?
        && s.stored[key].rec == Ingested(tenant, domain, eventType, s.log[msg].subject, s.log[msg].data.fields)
  {
    var decode := HistoryDecoder(lib);
    I.AckedIsStored(decode, run, msg);
    SubjectRoundTrip(lib, tenant, domain, eventType);
    var s := I.Run(decode, I.Init<Msg, Ingested>(), run);
    var key :| key in s.stored && s.stored[key].msg == msg;
    assert key in I.KeysOf(s.stored, msg);
    ToldEvent(lib, s.log[msg], s.stored[key].rec);
  }

  // ----- what the post count owes to the deliveries -----

  /** Posts of a message's jobs with ids below n. */
  ghost function PostsBelow(s: State, msg: nat, n: nat): nat {
    if n == 0 then 0
    else PostsBelow(s, msg, n - 1) + (if n - 1 in JobsOf(s, msg) && n - 1 in s.sys.posts then s.sys.posts[n - 1] else 0)
  }

  ghost function JobsBelow(s: State, msg: nat, n: nat): set<nat> {
    set id | id in JobsOf(s, msg) && id < n
  }

  lemma {:induction false} PostsBelowBounded(s: State, msg: nat, n: nat)
    requires Q.Inv(s.sys)
    ensures PostsBelow(s, msg, n) <= 5 * |JobsBelow(s, msg, n)|
  {
    if n > 0 {
      PostsBelowBounded(s, msg, n - 1);
      if n - 1 in JobsOf(s, msg) {
        assert JobsBelow(s, msg, n) == JobsBelow(s, msg, n - 1) + {n - 1};
        if n - 1 in s.sys.posts {
          assert Q.RowOk(s.sys.db.rows[n - 1], s.sys.claims[n - 1], s.sys.posts[n - 1], s.sys.clock);
        }
      } else {
        assert JobsBelow(s, msg, n) == JobsBelow(s, msg, n - 1);
      }
    }
  }

  /** In every reachable state a message's jobs were posted, all together, at most five times per delivery. */
  lemma {:induction false} PostsPerDelivery(lib: UuidParser, s: State, msg: nat)
    requires Reachable(lib, s) && msg < |s.inbox.log|
    ensures forall id :: id in JobsOf(s, msg) ==> id < s.sys.db.nextId && id in s.sys.posts
    ensures |s.inbox.deliveries| == |s.inbox.log|
    ensures PostsBelow(s, msg, s.sys.db.nextId) <= 5 * s.inbox.deliveries[msg]
  {
    ReachableInv(lib, s);
    JobsAreRows(lib, s, msg);
    PostsBelowBounded(s, msg, s.sys.db.nextId);
    assert JobsBelow(s, msg, s.sys.db.nextId) == JobsOf(s, msg);
  }

  lemma {:induction false} JobsAreRows(lib: UuidParser, s: State, msg: nat)
    requires Inv(lib, s)
    ensures forall id :: id in JobsOf(s, msg) ==> id < s.sys.db.nextId && id in s.sys.posts
  {
    forall id | id in JobsOf(s, msg) ensures id in s.sys.db.rows {
      assert Carries(s.sys.db.rows[id], s.inbox.stored[id].rec);
    }
  }

  // ----- which messages can be acked -----

  lemma {:induction false} LogGrows(lib: UuidParser, s: State, run: seq<Action>)
    requires Valid(lib, s, run)
    ensures s.inbox.log <= Run(lib, s, run).inbox.log
    decreases run
  {
    if run != [] {
      LogGrows(lib, Step(lib, s, run[0]), run[1..]);
    }
  }

  /** One delivery whose insert succeeds, and the ack. */
  function AckSteps(s: State, msg: nat): seq<Action> {
    [Consume(I.Deliver(msg)), Consume(I.Handle(s.inbox.next, s.sys.db.nextId, J.Applied)),
     Consume(I.Finish(s.inbox.next))]
  }

  lemma {:induction false} StorableCanBeAcked(lib: UuidParser, s: State, msg: nat)
    requires Inv(lib, s) && msg < |s.inbox.log| && msg !in s.inbox.acked && JobFor(lib, s.inbox.log[msg]).Some?
    ensures Valid(lib, s, AckSteps(s, msg)) && msg in Run(lib, s, AckSteps(s, msg)).inbox.acked
  {
    var run := AckSteps(s, msg);
    var h := s.inbox.next;
    assert s.sys.db.nextId !in s.inbox.stored by {
      assert s.sys.db.nextId !in s.sys.db.rows;
    }
    var t := Step(lib, s, run[0]);
    assert Enabled(lib, t, run[1]);
    var u := Step(lib, t, run[1]);
    assert Decoder(lib)(t.inbox.log[msg]).Some?;
    assert u.inbox.handlings[h] == I.Handling(msg, I.ReturnedNil);
    var v := Step(lib, u, run[2]);
    assert run[1..][1..] == [run[2]] && run[1..][1..][1..] == [];
    assert Valid(lib, v, []) && Run(lib, v, []) == v;
    assert Valid(lib, u, [run[2]]) && Run(lib, u, [run[2]]) == v;
    assert Valid(lib, t, run[1..]) && Run(lib, t, run[1..]) == v;
  }

  /**
   In a reachable state an unacked task event stays unacked in every continuation exactly when the
   table can store no job for it: it does not parse or decode, lacks a taskId, or holds U+0000.
   */
  lemma {:induction false} NeverAckedIffNoJob(lib: UuidParser, s: State, msg: nat)
    requires Reachable(lib, s) && msg < |s.inbox.log| && msg !in s.inbox.acked
    ensures (forall run :: Valid(lib, s, run) ==> msg !in Run(lib, s, run).inbox.acked)
      <==> forall tenant, t, a :: !AsksFor(lib, s.inbox.log[msg], tenant, t, a)
  {
    ReachableInv(lib, s);
    NoJobAsked(lib, s.inbox.log[msg]);
    if JobFor(lib, s.inbox.log[msg]).Some? {
      StorableCanBeAcked(lib, s, msg);
    } else {
      forall run | Valid(lib, s, run) ensures msg !in Run(lib, s, run).inbox.acked {
        RunKeeps(lib, s, run);
        LogGrows(lib, s, run);
        assert Run(lib, s, run).inbox.log[msg] == s.inbox.log[msg];
        NoJobNotAcked(lib, Run(lib, s, run), msg);
      }
    }
  }

  lemma {:induction false} NoJobNotAcked(lib: UuidParser, s: State, msg: nat)
    requires Inv(lib, s) && msg < |s.inbox.log| && JobFor(lib, s.inbox.log[msg]) == None
    ensures msg !in s.inbox.acked
  {
    assert Decoder(lib)(s.inbox.log[msg]) == None;
  }
}
