/** One replica's relay as it is written: a Consumer over a Fanout, each step one of Relay's. */
module RelayReplica {
  import opened Basics
  import opened Subjects
  import opened Events
  import opened Relay
  import R = Registry

  /** The pub/sub server: per tenant what was published, per replica its subscriptions. */
  class Redis {
    var channels: map<string, seq<Pub>>
    var subs: map<nat, map<string, Sub>>
  }

  function ReceivedSubs(subs: map<string, Sub>, tenant: string, pub: Pub): map<string, Sub> {
    if tenant in subs then subs[tenant := subs[tenant].(queue := subs[tenant].queue + [pub])] else subs
  }

  /** The receive loop's first n turns on one subscription. */
  ghost predicate CanPop(p: Replica, tenant: string, n: nat) {
    n == 0 || (tenant in p.subs && |p.subs[tenant].queue| >= n)
  }

  ghost function PoppedTimes(p: Replica, tenant: string, n: nat): Replica
    requires CanPop(p, tenant, n)
    decreases n
  {
    if n == 0 then p else PoppedTimes(Popped(p, tenant), tenant, n - 1)
  }

  class Fanout {
    const id: nat
    const redis: Redis
    const registry: R.Registry
    var writes: seq<Write>

    constructor (id: nat, redis: Redis, registry: R.Registry)
      ensures this.id == id && this.redis == redis && this.registry == registry && writes == []
    {
      this.id, this.redis, this.registry, writes := id, redis, registry, [];
    }

    ghost predicate Valid()
      reads this, redis, registry
    {
      id in redis.subs && registry.Valid()
    }

    ghost function View(): Replica
      requires Valid()
      reads this, redis, registry
    {
      Replica(redis.subs[id].Keys, redis.subs[id], registry.conns, writes)
    }

    /** A publish reaches every subscription to the channel, of this replica and the others, or none. */
    method Publish(tenant: string, pub: Pub, sent: Sent) returns (err: bool)
      modifies redis
      ensures err <==> sent != Delivered
      ensures sent == Lost ==> redis.channels == old(redis.channels) && redis.subs == old(redis.subs)
      ensures sent != Lost ==>
        && redis.channels == old(redis.channels)[tenant := ChannelOf(old(redis.channels), tenant) + [pub]]
        && redis.subs == map q | q in old(redis.subs) :: ReceivedSubs(old(redis.subs[q]), tenant, pub)
    {
      if sent != Lost {
        redis.channels := redis.channels[tenant := ChannelOf(redis.channels, tenant) + [pub]];
        redis.subs := map q | q in redis.subs :: ReceivedSubs(redis.subs[q], tenant, pub);
      }
      err := sent != Delivered;
    }

    method Subscribe(tenant: string)
      requires id in redis.subs
      modifies redis
      ensures redis.channels == old(redis.channels)
      ensures redis.subs ==
        old(redis.subs)[id := old(redis.subs[id])[tenant := Sub(|ChannelOf(redis.channels, tenant)|, 0, [])]]
    {
      redis.subs := redis.subs[id := redis.subs[id][tenant := Sub(|ChannelOf(redis.channels, tenant)|, 0, [])]];
    }

    /** The message goes to the slot's occupant here, if there is one. */
    method DeliverIfLocal(tenant: string, pub: Pub)
      requires registry.Valid()
      modifies this
      ensures var k := R.Key(tenant, pub.env.agent);
        writes == if k in registry.conns then old(writes) + [Write(tenant, registry.conns[k], pub)] else old(writes)
    {
      var conn := registry.Lookup(tenant, pub.env.agent);
      if conn == None {
        return;
      }
      writes := writes + [Write(tenant, conn.value, pub)];
    }

    /** n turns of the subscription's receive loop. */
    method Receive(tenant: string, n: nat)
      requires Valid() && CanPop(View(), tenant, n)
      modifies this, redis
      ensures Valid() && redis.channels == old(redis.channels) && redis.subs.Keys == old(redis.subs.Keys)
      ensures View() == PoppedTimes(old(View()), tenant, n)
    {
      var i := 0;
      while i < n
        invariant i <= n && Valid() && redis.channels == old(redis.channels) && redis.subs.Keys == old(redis.subs.Keys)
        invariant CanPop(View(), tenant, n - i)
        invariant PoppedTimes(View(), tenant, n - i) == PoppedTimes(old(View()), tenant, n)
      {
        ghost var before := View();
        var sub := redis.subs[id][tenant];
        redis.subs := redis.subs[id := redis.subs[id][tenant := Sub(sub.since, sub.seen + 1, sub.queue[1..])]];
        DeliverIfLocal(tenant, sub.queue[0]);
        assert redis.subs[id].Keys == before.seenTenants;
        assert View() == Popped(before, tenant);
        i := i + 1;
      }
    }
  }

  class Consumer {
    const fanout: Fanout
    var seenTenants: set<string>

    constructor (fanout: Fanout)
      requires fanout.Valid() && fanout.redis.subs[fanout.id] == map[]
      ensures this.fanout == fanout && seenTenants == {} && Valid()
    {
      this.fanout := fanout;
      seenTenants := {};
    }

    /** seenTenants is exactly what this replica is subscribed to. */
    ghost predicate Valid()
      reads this, fanout, fanout.redis, fanout.registry
    {
      fanout.Valid() && seenTenants == fanout.redis.subs[fanout.id].Keys
    }

    /** This replica as Relay's steps see it. */
    ghost function View(): Replica
      requires fanout.Valid()
      reads this, fanout, fanout.redis, fanout.registry
    {
      Replica(seenTenants, fanout.redis.subs[fanout.id], fanout.registry.conns, fanout.writes)
    }

    method EnsureSubscribed(tenant: string)
      requires Valid()
      modifies this, fanout.redis
      ensures Valid() && fanout.redis.channels == old(fanout.redis.channels)
      ensures View() == Subscribed(old(View()), tenant, |ChannelOf(fanout.redis.channels, tenant)|)
      ensures forall q :: q != fanout.id ==> (q in fanout.redis.subs <==> q in old(fanout.redis.subs))
      ensures forall q :: q != fanout.id && q in fanout.redis.subs ==> fanout.redis.subs[q] == old(fanout.redis.subs)[q]
    {
      if tenant in seenTenants {
        return;
      }
      seenTenants := seenTenants + {tenant};
      fanout.Subscribe(tenant);
    }

    /**
     handle subscribes, then publishes: a publish that takes effect is in this replica's own queue
     when handle returns. Only a failed or unreported publish asks for redelivery.
     */
    method Handle(m: Msg, event: nat, sent: Sent) returns (err: bool)
      requires Valid()
      modifies this, fanout.redis
      ensures Valid()
      ensures forall e, tenant, agent :: Announces(m, e, tenant, agent) ==>
        && (err <==> sent != Delivered)
        && fanout.redis.channels == (
             if sent == Lost then old(fanout.redis.channels)
             else old(fanout.redis.channels)[tenant :=
               ChannelOf(old(fanout.redis.channels), tenant) + [Pub(event, Envelope(e, agent, m.data.fields))]])
      ensures !TenantMissing(m) && (forall e, tenant, agent :: !Announces(m, e, tenant, agent)) ==>
        !err && View() == old(View()) && fanout.redis.channels == old(fanout.redis.channels)
      ensures match Forwarded(m)
        case None => !err && View() == old(View()) && fanout.redis.channels == old(fanout.redis.channels)
        case Some(f) =>
          var channel := ChannelOf(old(fanout.redis.channels), f.tenant);
          var pub, p := Pub(event, f.env), Subscribed(old(View()), f.tenant, |channel|);
          && (err <==> sent != Delivered)
          && View() == (if sent == Lost then p else Received(p, f.tenant, pub))
          && fanout.redis.channels ==
               if sent == Lost then old(fanout.redis.channels)
               else old(fanout.redis.channels)[f.tenant := channel + [pub]]
      ensures forall q :: q != fanout.id && q in old(fanout.redis.subs) ==>
        && q in fanout.redis.subs
        && fanout.redis.subs[q] ==
             match Forwarded(m)
             case None => old(fanout.redis.subs)[q]
             case Some(f) =>
               if sent == Lost then old(fanout.redis.subs)[q]
               else ReceivedSubs(old(fanout.redis.subs)[q], f.tenant, Pub(event, f.env))
    {
      forall e, tenant, agent
        ensures Announces(m, e, tenant, agent) ==>
          Forwarded(m) == Some(Forward(tenant, Envelope(e, agent, m.data.fields)))
      {
        if Announces(m, e, tenant, agent) {
          AnnouncedIsForwarded(m, e, tenant, agent);
        }
      }
      if !TenantMissing(m) {
        DroppedIffUnannounced(m);
      }
      var classified := Classify(m.subject);
      if classified == None {
        return false;
      }
      var (kind, tenant) := classified.value;
      if m.data.Garbage? {
        return false;
      }
      var env := BuildEnvelope(kind, m.data.fields);
      if env == None {
        return false;
      }
      EnsureSubscribed(tenant);
      err := fanout.Publish(tenant, Pub(event, env.value), sent);
    }
  }
}
