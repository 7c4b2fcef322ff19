/** Event messages and what each consumer makes of one. */
module Events {
  import opened Basics
  import opened Subjects
  import opened JobTable
  import H = WrapupHandler

  /** A field of a decoded structpb.Struct; only strings are read. storable: JSONB accepts its JSON text. */
  datatype Value = Str(s: string) | Other(storable: bool)

  /** Message bytes: a protobuf Struct, or bytes that do not decode to one. */
  datatype Data = Garbage | Struct(fields: map<string, Value>)

  datatype Msg = Msg(subject: string, data: Data)

  function FieldString(fields: map<string, Value>, name: string): string {
    if name in fields && fields[name].Str? then fields[name].s else ""
  }

  // ----- background-worker-pool's wrapupsync consumer -----

  datatype Completed = Completed(tenant: Uuid, taskId: string, agentId: string)

  /** What handle enqueues for a message; None where it returns an error before the insert. */
  function DecodeCompleted(lib: UuidParser, m: Msg): Option<Completed> {
    var parsed := ParseSubject(lib, m.subject);
    if parsed.Err? || m.data.Garbage? then None
    else
      var taskId := FieldString(m.data.fields, "taskId");
      if taskId == "" then None
      else Some(Completed(parsed.value.tenant, taskId, FieldString(m.data.fields, "agentId")))
  }

  /** PostgreSQL's TEXT and JSONB columns refuse U+0000, in any form. */
  predicate StorableText(text: string) {
    '\0' !in text
  }

  predicate StorableJob(c: Completed) {
    StorableText(c.taskId) && StorableText(c.agentId)
  }

  /** The job an insert for the message can store, if it can store any. */
  function JobFor(lib: UuidParser, m: Msg): Option<Completed> {
    var c := DecodeCompleted(lib, m);
    if c.Some? && StorableJob(c.value) then c else None
  }

  function JobPayload(c: Completed): Payload {
    Wrapup(c.taskId, c.agentId, c.tenant)
  }

  /** The message asks for this job and the table can store it, read off its subject and fields. */
  ghost predicate AsksFor(lib: UuidParser, m: Msg, tenant: Uuid, taskId: string, agentId: string) {
    && ParseSubject(lib, m.subject).Ok? && ParseSubject(lib, m.subject).value.tenant == tenant
    && m.data.Struct?
    && "taskId" in m.data.fields && m.data.fields["taskId"] == Str(taskId) && taskId != ""
    && agentId == (if "agentId" in m.data.fields && m.data.fields["agentId"].Str? then m.data.fields["agentId"].s
                   else "")
    && '\0' !in taskId && '\0' !in agentId
  }

  lemma {:induction false} AskedJob(lib: UuidParser, m: Msg, tenant: Uuid, taskId: string, agentId: string)
    ensures AsksFor(lib, m, tenant, taskId, agentId) <==> JobFor(lib, m) == Some(Completed(tenant, taskId, agentId))
  {
  }

  lemma {:induction false} NoJobAsked(lib: UuidParser, m: Msg)
    ensures JobFor(lib, m) == None <==> forall tenant, t, a :: !AsksFor(lib, m, tenant, t, a)
  {
    forall tenant, t, a ensures AsksFor(lib, m, tenant, t, a) ==> JobFor(lib, m).Some? {
      AskedJob(lib, m, tenant, t, a);
    }
    if JobFor(lib, m).Some? {
      var c := JobFor(lib, m).value;
      AskedJob(lib, m, c.tenant, c.taskId, c.agentId);
    }
  }

  /**
   handle: one pending job, due at once, for a well-formed message whose texts the column takes. Any
   other is an error, before the insert or from it, and asks for redelivery.
   */
  method HandleCompleted(db: Database, lib: UuidParser, m: Msg, now: Time, exec: Exec) returns (err: bool)
    modifies db
    ensures forall tenant, t, a :: AsksFor(lib, m, tenant, t, a) ==>
      && db.txs == old(db.txs)
      && db.nextId == old(db.nextId) + (if exec == Refused then 0 else 1)
      && db.rows == (
           if exec == Refused then old(db.rows)
           else old(db.rows)[old(db.nextId) := Row(tenant, "wrapup_sync", Wrapup(t, a, tenant), Pending, 0, now, now)])
      && (err <==> exec != Applied)
    ensures (forall tenant, t, a :: !AsksFor(lib, m, tenant, t, a)) ==> db.View() == old(db.View()) && err
    ensures match JobFor(lib, m)
      case None => db.View() == old(db.View()) && err
      case Some(c) =>
        && db.View() == Enqueued(old(db.View()), c.tenant, H.WRAPUP_SYNC, JobPayload(c), now, now, exec)
        && (err <==> exec != Applied)
  {
    NoJobAsked(lib, m);
    forall tenant, t, a ensures AsksFor(lib, m, tenant, t, a) ==> JobFor(lib, m) == Some(Completed(tenant, t, a)) {
      AskedJob(lib, m, tenant, t, a);
    }
    var parsed := ParseSubject(lib, m.subject);
    if parsed.Err? {
      return true;
    }
    if m.data.Garbage? {
      return true;
    }
    var taskId := FieldString(m.data.fields, "taskId");
    if taskId == "" {
      return true;
    }
    var agentId := FieldString(m.data.fields, "agentId");
    var fate := if StorableText(taskId) && StorableText(agentId) then exec else Refused;
    err := db.Enqueue(parsed.value.tenant, H.WRAPUP_SYNC, Wrapup(taskId, agentId, parsed.value.tenant), now, now, fate);
  }

  // ----- historical-reporting's eventconsumer -----

  datatype Ingested = Ingested(tenant: Uuid, domain: string, eventType: string, subject: string,
                               fields: map<string, Value>)

  /** The historical_events row of a message; None where handle returns an error before the insert. */
  function DecodeEvent(lib: UuidParser, m: Msg): Option<Ingested> {
    var parsed := ParseSubject(lib, m.subject);
    if parsed.Err? || m.data.Garbage? then None
    else Some(Ingested(parsed.value.tenant, parsed.value.domain, parsed.value.eventType, m.subject, m.data.fields))
  }

  predicate StorableEvent(e: Ingested) {
    && StorableText(e.subject)
    && forall name :: name in e.fields ==>
        StorableText(name) && (if e.fields[name].Str? then StorableText(e.fields[name].s) else e.fields[name].storable)
  }

  /** The event an insert for the message can store, if it can store any. */
  function EventFor(lib: UuidParser, m: Msg): Option<Ingested> {
    var e := DecodeEvent(lib, m);
    if e.Some? && StorableEvent(e.value) then e else None
  }

  /** The message tells this event and the table can store it, read off its subject and fields. */
  ghost predicate Tells(lib: UuidParser, m: Msg, e: Ingested) {
    && ParseSubject(lib, m.subject) == Ok(Parsed(e.tenant, e.domain, e.eventType))
    && m.data == Struct(e.fields) && e.subject == m.subject
    && '\0' !in m.subject
    && forall name :: name in e.fields ==>
        && '\0' !in name
        && match e.fields[name]
           case Str(text) => '\0' !in text
           case Other(storable) => storable
  }

  lemma {:induction false} ToldEvent(lib: UuidParser, m: Msg, e: Ingested)
    ensures Tells(lib, m, e) <==> EventFor(lib, m) == Some(e)
  {
  }

  /** The historical_events table; rows are only ever appended. */
  class EventStore {
    var events: seq<Ingested>

    method InsertEvent(e: Ingested, exec: Exec) returns (err: bool)
      modifies this
      ensures events == if exec == Refused then old(events) else old(events) + [e]
      ensures err <==> exec != Applied
    {
      if exec != Refused {
        events := events + [e];
      }
      err := exec != Applied;
    }
  }

  method HandleEvent(store: EventStore, lib: UuidParser, m: Msg, exec: Exec) returns (err: bool)
    modifies store
    ensures forall e :: Tells(lib, m, e) ==>
      && store.events == (if exec == Refused then old(store.events) else old(store.events) + [e])
      && (err <==> exec != Applied)
    ensures (forall e :: !Tells(lib, m, e)) ==> store.events == old(store.events) && err
    ensures match EventFor(lib, m)
      case None => store.events == old(store.events) && err
      case Some(e) =>
        && store.events == (if exec == Refused then old(store.events) else old(store.events) + [e])
        && (err <==> exec != Applied)
  {
    forall e ensures Tells(lib, m, e) <==> EventFor(lib, m) == Some(e) {
      ToldEvent(lib, m, e);
    }
    var parsed := ParseSubject(lib, m.subject);
    if parsed.Err? {
      return true;
    }
    if m.data.Garbage? {
      return true;
    }
    var e := Ingested(parsed.value.tenant, parsed.value.domain, parsed.value.eventType, m.subject, m.data.fields);
    err := store.InsertEvent(e, if StorableEvent(e) then exec else Refused);
  }
}
