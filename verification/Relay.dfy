/**
 The presence relay: every replica receives the whole event stream, subscribes lazily to a
 tenant's pub/sub channel, publishes every forwarded event to it, and writes what it receives
 to the connections of its own registry. Assumed of the channel: once Subscribe has returned,
 the subscription receives every later publish, once and in order.
 */
module Relay {
  import opened Basics
  import opened Subjects
  import opened Events
  import R = Registry

  // ----- from a stream message to an envelope -----

  datatype Envelope = Envelope(kind: EventType, agent: string, payload: map<string, Value>)

  function BuildEnvelope(kind: EventType, fields: map<string, Value>): Option<Envelope> {
    var agent := FieldString(fields, "agentId");
    if agent == "" then None else Some(Envelope(kind, agent, fields))
  }

  /** The tenant and envelope a message is forwarded as. */
  datatype Forward = Forward(tenant: string, env: Envelope)

  /** What handle makes of a message; None where it drops it. */
  function Forwarded(m: Msg): Option<Forward> {
    match Classify(m.subject)
    case None => None
    case Some((kind, tenant)) =>
      if m.data.Garbage? then None
      else match BuildEnvelope(kind, m.data.fields)
        case None => None
        case Some(env) => Some(Forward(tenant, env))
  }

  /** The message is of this kind, for this tenant and agent, read off its tokens and fields. */
  ghost predicate Announces(m: Msg, e: EventType, tenant: string, agent: string) {
    && Matches(FilterTokens(e), Split(m.subject)) && tenant == Split(m.subject)[1]
    && m.data.Struct?
    && "agentId" in m.data.fields && m.data.fields["agentId"] == Str(agent) && agent != ""
  }

  /** The subject has a tenant token and it is empty, which no filter lets through. */
  ghost predicate TenantMissing(m: Msg) {
    |Split(m.subject)| >= 2 && Split(m.subject)[1] == ""
  }

  /** An announced message is forwarded as its own kind, to its tenant and agent, with all its fields. */
  lemma {:induction false} AnnouncedIsForwarded(m: Msg, e: EventType, tenant: string, agent: string)
    requires Announces(m, e, tenant, agent)
    ensures Forwarded(m) == Some(Forward(tenant, Envelope(e, agent, m.data.fields)))
  {
    ClassifyAgreesWithFilters(m.subject, e);
  }

  /** Unless its tenant token is empty, a message is dropped exactly when it announces nothing. */
  lemma {:induction false} DroppedIffUnannounced(m: Msg)
    requires !TenantMissing(m)
    ensures Forwarded(m) == None <==> forall e, tenant, agent :: !Announces(m, e, tenant, agent)
  {
    forall e, tenant, agent ensures Announces(m, e, tenant, agent) ==> Forwarded(m).Some? {
      if Announces(m, e, tenant, agent) {
        AnnouncedIsForwarded(m, e, tenant, agent);
      }
    }
    if Forwarded(m).Some? {
      var (e, tenant) := Classify(m.subject).value;
      ClassifyAgreesWithFilters(m.subject, e);
      assert Announces(m, e, tenant, m.data.fields["agentId"].s);
    }
  }

  /** With an empty tenant token it is forwarded, to the empty tenant, exactly as with another in its place. */
  lemma {:induction false} TenantMissingForwarded(m: Msg, f: Forward)
    requires TenantMissing(m)
    ensures Forwarded(m) == Some(f) <==>
      && f.tenant == "" && Matches(FilterTokens(f.env.kind), Split(m.subject)[1 := "t"])
      && m.data.Struct? && f.env.payload == m.data.fields
      && "agentId" in m.data.fields && m.data.fields["agentId"] == Str(f.env.agent) && f.env.agent != ""
  {
    EmptyTenantKinds(m.subject, f.env.kind);
  }

  // ----- replicas -----

  /** A published envelope; event, the stream message behind it, is history. */
  datatype Pub = Pub(event: nat, env: Envelope)

  /** since (the channel's length when subscribed) and seen (messages popped) are history. */
  datatype Sub = Sub(since: nat, seen: nat, queue: seq<Pub>)

  /** One Send on a connection. */
  datatype Write = Write(tenant: string, conn: R.ConnId, pub: Pub)

  datatype Replica = Replica(seenTenants: set<string>, subs: map<string, Sub>, conns: map<R.Key, R.ConnId>,
                             writes: seq<Write>)

  /** A handle call between its decoding and its publish. */
  datatype Handling = Handling(rep: nat, event: nat, subscribed: bool)

  /**
   stream: per message, what handle makes of it. channels: everything ever published per tenant.
   deliveries: handle calls per message, of all replicas.
   */
  datatype State = State(stream: seq<Option<Forward>>, deliveries: seq<nat>, handlings: map<nat, Handling>, next: nat,
                         channels: map<string, seq<Pub>>, replicas: map<nat, Replica>)

  datatype Sent = Delivered | DeliveredUnreported | Lost

  datatype Action =
    | Join(r: nat)
    | Emit(m: Msg)
    | Deliver(r: nat, event: nat)
    | EnsureSubscribed(h: nat)
    | Publish(h: nat, sent: Sent)
    | Pop(r: nat, tenant: string)
    | Connection(r: nat, e: R.Event)
    | Crash(r: nat)

  const FRESH: Replica := Replica({}, map[], map[], [])

  const INIT: State := State([], [], map[], 0, map[], map[])

  function ChannelOf(channels: map<string, seq<Pub>>, tenant: string): seq<Pub> {
    if tenant in channels then channels[tenant] else []
  }

  function Channel(s: State, tenant: string): seq<Pub> {
    ChannelOf(s.channels, tenant)
  }

  predicate Enabled(s: State, a: Action) {
    match a
    case Join(r) => r !in s.replicas
    case Emit(_) => true
    case Deliver(r, event) => r in s.replicas && event < |s.stream| == |s.deliveries|
    case EnsureSubscribed(h) => Handles(s, h) && !s.handlings[h].subscribed
    case Publish(h, _) => Handles(s, h) && s.handlings[h].subscribed
    case Pop(r, tenant) => r in s.replicas && tenant in s.replicas[r].subs && s.replicas[r].subs[tenant].queue != []
    case Connection(r, _) => r in s.replicas
    case Crash(r) => r in s.replicas
  }

  predicate Handles(s: State, h: nat) {
    && h in s.handlings
    && s.handlings[h].rep in s.replicas
    && s.handlings[h].event < |s.stream|
    && s.stream[s.handlings[h].event].Some?
  }

  function TenantOf(s: State, h: nat): string
    requires Handles(s, h)
  {
    s.stream[s.handlings[h].event].value.tenant
  }

  function PubOf(s: State, h: nat): Pub
    requires Handles(s, h)
  {
    Pub(s.handlings[h].event, s.stream[s.handlings[h].event].value.env)
  }

  /** ensureSubscribed under its mutex: the first sight of a tenant subscribes. */
  function Subscribed(p: Replica, tenant: string, length: nat): Replica {
    if tenant in p.seenTenants then p
    else p.(seenTenants := p.seenTenants + {tenant}, subs := p.subs[tenant := Sub(length, 0, [])])
  }

  function Received(p: Replica, tenant: string, pub: Pub): Replica {
    if tenant in p.subs then
      p.(subs := p.subs[tenant := p.subs[tenant].(queue := p.subs[tenant].queue + [pub])])
    else p
  }

  /** The receive loop takes the next message and deliverIfLocal writes it to the slot's occupant. */
  function Popped(p: Replica, tenant: string): Replica
    requires tenant in p.subs && p.subs[tenant].queue != []
  {
    var sub := p.subs[tenant];
    var pub, k := sub.queue[0], R.Key(tenant, sub.queue[0].env.agent);
    p.(subs := p.subs[tenant := Sub(sub.since, sub.seen + 1, sub.queue[1..])],
       writes := if k in p.conns then p.writes + [Write(tenant, p.conns[k], pub)] else p.writes)
  }

  function Published(s: State, h: nat, sent: Sent): State
    requires Handles(s, h)
  {
    var tenant, pub := TenantOf(s, h), PubOf(s, h);
    var done := s.(handlings := s.handlings - {h});
    if sent == Lost then done
    else done.(channels := s.channels[tenant := Channel(s, tenant) + [pub]],
               replicas := map q | q in s.replicas :: Received(s.replicas[q], tenant, pub))
  }

  function Step(s: State, a: Action): State
    requires Enabled(s, a)
  {
    match a
    case Join(r) => s.(replicas := s.replicas[r := FRESH])
    case Emit(m) => s.(stream := s.stream + [Forwarded(m)], deliveries := s.deliveries + [0])
    case Deliver(r, event) =>
      var d := s.(deliveries := s.deliveries[event := s.deliveries[event] + 1]);
      if s.stream[event].None? then d
      else d.(handlings := s.handlings[s.next := Handling(r, event, false)], next := s.next + 1)
    case EnsureSubscribed(h) =>
      var g, t := s.handlings[h], TenantOf(s, h);
      s.(handlings := s.handlings[h := g.(subscribed := true)],
         replicas := s.replicas[g.rep := Subscribed(s.replicas[g.rep], t, |Channel(s, t)|)])
    case Publish(h, sent) => Published(s, h, sent)
    case Pop(r, tenant) => s.(replicas := s.replicas[r := Popped(s.replicas[r], tenant)])
    case Connection(r, e) => s.(replicas := s.replicas[r := s.replicas[r].(conns := R.Apply(s.replicas[r].conns, e))])
    case Crash(r) =>
      s.(replicas := s.replicas[r := FRESH],
         handlings := map h | h in s.handlings && s.handlings[h].rep != r :: s.handlings[h])
  }

  ghost predicate Valid(s: State, run: seq<Action>)
    decreases run
  {
    run == [] || (Enabled(s, run[0]) && Valid(Step(s, run[0]), run[1..]))
  }

  ghost function Run(s: State, run: seq<Action>): State
    requires Valid(s, run)
    decreases run
  {
    if run == [] then s else Run(Step(s, run[0]), run[1..])
  }

  // ----- the invariant -----

  ghost predicate SubOk(channel: seq<Pub>, sub: Sub) {
    sub.since + sub.seen <= |channel| && sub.queue == channel[sub.since + sub.seen..]
  }

  /** seenTenants is what the replica is subscribed to; each queue is the unseen end of its channel. */
  ghost predicate ReplicaOk(channels: map<string, seq<Pub>>, p: Replica) {
    && p.seenTenants == p.subs.Keys
    && forall t :: t in p.subs ==> SubOk(ChannelOf(channels, t), p.subs[t])
  }

  /** A handling that has passed ensureSubscribed belongs to a replica subscribed to its tenant. */
  ghost predicate HandlingOk(stream: seq<Option<Forward>>, replicas: map<nat, Replica>, g: Handling) {
    && g.rep in replicas && g.event < |stream| && stream[g.event].Some?
    && (g.subscribed ==> stream[g.event].value.tenant in replicas[g.rep].subs)
  }

  ghost predicate PubsOk(stream: seq<Option<Forward>>, channels: map<string, seq<Pub>>) {
    forall t, i :: t in channels && 0 <= i < |channels[t]| ==>
      channels[t][i].event < |stream| && stream[channels[t][i].event] == Some(Forward(t, channels[t][i].env))
  }

  ghost function HandlingsOf(handlings: map<nat, Handling>, event: nat): set<nat> {
    set h | h in handlings && handlings[h].event == event
  }

  ghost function OfEvent(event: nat): Pub -> bool {
    (p: Pub) => p.event == event
  }

  /** Publishes of an event and handlings still to publish it are no more than its deliveries. */
  ghost predicate CountOk(f: Option<Forward>, event: nat, channels: map<string, seq<Pub>>,
                          handlings: map<nat, Handling>, deliveries: nat) {
    f.Some? ==>
      Count(ChannelOf(channels, f.value.tenant), OfEvent(event)) + |HandlingsOf(handlings, event)| <= deliveries
  }

  ghost predicate Inv(s: State) {
    && |s.stream| == |s.deliveries|
    && (forall h :: h in s.handlings ==> h < s.next && HandlingOk(s.stream, s.replicas, s.handlings[h]))
    && (forall r :: r in s.replicas ==> ReplicaOk(s.channels, s.replicas[r]))
    && PubsOk(s.stream, s.channels)
    && (forall e :: 0 <= e < |s.stream| ==> CountOk(s.stream[e], e, s.channels, s.handlings, s.deliveries[e]))
  }
}
