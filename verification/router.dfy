/**
 * The topic registry: topics by id, each holding its subscribers' connection handles,
 * and the commands that change it or fan a message out through it.
 */
module Router {
  import opened Wrappers
  import opened Ws

  /** One request against the registry, as it travels through the command channel. */
  datatype RouterCommand =
    | CreateTopic(topicId: string)
    | Subscribe(topicId: string, subscriberId: string, sender: Handle)
    | Send(topicId: string, senderId: string, message: Message)
    | Broadcast(topicId: string, message: Message)
    | Unsubscribe(topicId: string, subscriberId: string)

  /** A topic's subscribers: subscriber id to connection handle. */
  type Subscribers = map<string, Handle>

  /** What the registry holds, seen as a value: topic id to that topic's subscribers. */
  type Topics = map<string, Subscribers>

  /** The ids a `send` from `senderId` goes to: every subscriber but the sender. */
  function Recipients(subs: Subscribers, senderId: string): set<string> {
    subs.Keys - {senderId}
  }

  /** The ids among `ids` whose subscription uses the handle `h`. */
  function HoldersOf(subs: Subscribers, ids: set<string>, h: Handle): set<string> {
    set k | k in ids && k in subs && subs[k] == h
  }

  /**
   * One send of `m` through the handle of each subscriber in `ids`, in no particular order
   * (the source iterates over a hash map).
   */
  ghost function FanOut(subs: Subscribers, ids: set<string>, m: Message): multiset<Delivery>
    requires ids <= subs.Keys
    decreases ids
  {
    if ids == {} then multiset{}
    else
      var k :| k in ids;
      FanOut(subs, ids - {k}, m) + multiset{Delivery(subs[k], m)}
  }

  /** The fan-out does not depend on which subscriber is taken first. */
  lemma {:induction false} FanOutRemove(subs: Subscribers, ids: set<string>, k: string, m: Message)
    requires ids <= subs.Keys && k in ids
    ensures FanOut(subs, ids, m) == FanOut(subs, ids - {k}, m) + multiset{Delivery(subs[k], m)}
    decreases ids
  {
    var j :| j in ids && FanOut(subs, ids, m) == FanOut(subs, ids - {j}, m) + multiset{Delivery(subs[j], m)};
    if j != k {
      var rest := ids - {j} - {k};
      var dj, dk := multiset{Delivery(subs[j], m)}, multiset{Delivery(subs[k], m)};
      FanOutRemove(subs, ids - {j}, k, m);
      FanOutRemove(subs, ids - {k}, j, m);
      assert ids - {k} - {j} == rest;
      calc {
        FanOut(subs, ids, m);
        FanOut(subs, ids - {j}, m) + dj;
        (FanOut(subs, rest, m) + dk) + dj;
        (FanOut(subs, rest, m) + dj) + dk;
        FanOut(subs, ids - {k}, m) + dk;
      }
    }
  }

  /** One step of a fan-out loop: sending to `k` moves its delivery from the pending part to the sent part. */
  lemma FanOutStep(subs: Subscribers, pending: set<string>, k: string, m: Message, out: multiset<Delivery>, total: multiset<Delivery>)
    requires pending <= subs.Keys && k in pending
    requires out + FanOut(subs, pending, m) == total
    ensures (out + multiset{Delivery(subs[k], m)}) + FanOut(subs, pending - {k}, m) == total
  {
    FanOutRemove(subs, pending, k, m);
  }

  /**
   * A handle receives `m` once for every subscriber in `ids` that uses it, and nothing
   * else is sent.
   */
  lemma {:induction false} FanOutCount(subs: Subscribers, ids: set<string>, m: Message, d: Delivery)
    requires ids <= subs.Keys
    ensures FanOut(subs, ids, m)[d] == if d.message == m then |HoldersOf(subs, ids, d.to)| else 0
    decreases ids
  {
    if ids == {} {
      assert HoldersOf(subs, ids, d.to) == {};
    } else {
      var k :| k in ids;
      FanOutRemove(subs, ids, k, m);
      FanOutCount(subs, ids - {k}, m, d);
      HoldersRemove(subs, ids, k, d.to);
    }
  }

  /** Taking one id out of `ids` takes it out of the holders of its handle, and no other. */
  lemma HoldersRemove(subs: Subscribers, ids: set<string>, k: string, h: Handle)
    requires k in ids && k in subs
    ensures k !in HoldersOf(subs, ids - {k}, h)
    ensures HoldersOf(subs, ids, h) ==
      if subs[k] == h then HoldersOf(subs, ids - {k}, h) + {k} else HoldersOf(subs, ids - {k}, h)
  {
  }

  /** Exactly one send per subscriber in `ids`. */
  lemma {:induction false} FanOutSize(subs: Subscribers, ids: set<string>, m: Message)
    requires ids <= subs.Keys
    ensures |FanOut(subs, ids, m)| == |ids|
    decreases ids
  {
    if ids != {} {
      var k :| k in ids;
      FanOutRemove(subs, ids, k, m);
      FanOutSize(subs, ids - {k}, m);
    }
  }

  /** The effect of one command on the registry's contents. */
  function Apply(ts: Topics, c: RouterCommand): Topics {
    match c
    case CreateTopic(tid) => ts[tid := map[]]
    case Subscribe(tid, sid, s) => ts[tid := (if tid in ts then ts[tid] else map[])[sid := s]]
    case Unsubscribe(tid, sid) => if tid in ts then ts[tid := ts[tid] - {sid}] else ts
    case Send(_, _, _) => ts
    case Broadcast(_, _) => ts
  }

  /** The sends one command makes through the stored handles. */
  ghost function Deliveries(ts: Topics, c: RouterCommand): multiset<Delivery> {
    match c
    case Send(tid, sid, m) =>
      if tid in ts then FanOut(ts[tid], Recipients(ts[tid], sid), m) else multiset{}
    case Broadcast(tid, m) =>
      if tid in ts then FanOut(ts[tid], ts[tid].Keys, m) else multiset{}
    case CreateTopic(_) => multiset{}
    case Subscribe(_, _, _) => multiset{}
    case Unsubscribe(_, _) => multiset{}
  }

  /** The contents after applying `cs` in order, as the registry's consumer loop does. */
  function ApplyAll(ts: Topics, cs: seq<RouterCommand>): Topics
    decreases |cs|
  {
    if cs == [] then ts else Apply(ApplyAll(ts, cs[..|cs| - 1]), cs[|cs| - 1])
  }

  /** All sends made while applying `cs` in order. */
  ghost function DeliveriesAll(ts: Topics, cs: seq<RouterCommand>): multiset<Delivery>
    decreases |cs|
  {
    if cs == [] then multiset{}
    else DeliveriesAll(ts, cs[..|cs| - 1]) + Deliveries(ApplyAll(ts, cs[..|cs| - 1]), cs[|cs| - 1])
  }

  /**
   * Only create and subscribe add a topic, and no command removes one: the ids after a
   * command are the ids before it plus, for those two, the command's topic id.
   */
  lemma ApplyTopicIds(ts: Topics, c: RouterCommand)
    ensures Apply(ts, c).Keys == if c.CreateTopic? || c.Subscribe? then ts.Keys + {c.topicId} else ts.Keys
  {
  }

  /** Along any sequence of commands the set of topic ids only grows. */
  lemma {:induction false} TopicIdsOnlyGrow(ts: Topics, cs: seq<RouterCommand>)
    ensures ts.Keys <= ApplyAll(ts, cs).Keys
    decreases |cs|
  {
    if cs != [] {
      TopicIdsOnlyGrow(ts, cs[..|cs| - 1]);
      ApplyTopicIds(ApplyAll(ts, cs[..|cs| - 1]), cs[|cs| - 1]);
    }
  }

  /**
   * After `create_topic(tid)` the topic exists with no subscribers, whatever it held
   * before; every other topic is unchanged.
   */
  lemma CreateTopicEffect(ts: Topics, tid: string)
    ensures var r := Apply(ts, CreateTopic(tid));
      && tid in r && r[tid] == map[]
      && (forall u :: u != tid ==> (u in r <==> u in ts))
      && (forall u :: u != tid && u in ts ==> r[u] == ts[u])
  {
  }

  /** Creating a topic that already has a subscriber drops that subscriber. */
  lemma RecreateDropsSubscribers(ts: Topics, tid: string, sid: string, h: Handle)
    ensures var subscribed := Apply(ts, Subscribe(tid, sid, h));
      && sid in subscribed[tid]
      && sid !in Apply(subscribed, CreateTopic(tid))[tid]
  {
  }

  /**
   * `subscribe(tid, sid, h)` keeps the topic's other subscribers (an absent topic starts
   * empty), maps `sid` to `h`, and leaves every other topic unchanged.
   */
  lemma SubscribeEffect(ts: Topics, tid: string, sid: string, h: Handle)
    ensures var r := Apply(ts, Subscribe(tid, sid, h));
      && tid in r && sid in r[tid] && r[tid][sid] == h
      && (forall k :: k != sid ==> (k in r[tid] <==> tid in ts && k in ts[tid]))
      && (forall k :: k != sid && k in r[tid] ==> r[tid][k] == ts[tid][k])
      && (forall u :: u != tid ==> (u in r <==> u in ts))
      && (forall u :: u != tid && u in ts ==> r[u] == ts[u])
  {
  }

  /** A later subscribe with the same topic and subscriber id replaces the earlier handle. */
  lemma ResubscribeReplaces(ts: Topics, tid: string, sid: string, h1: Handle, h2: Handle)
    ensures Apply(Apply(ts, Subscribe(tid, sid, h1)), Subscribe(tid, sid, h2)) == Apply(ts, Subscribe(tid, sid, h2))
  {
    var once := Apply(ts, Subscribe(tid, sid, h1));
    var base := if tid in ts then ts[tid] else map[];
    assert once[tid][sid := h2] == base[sid := h2];
  }

  /**
   * `unsubscribe(tid, sid)` removes `sid` from an existing topic and touches nothing else;
   * removing an id that is not subscribed changes nothing.
   */
  lemma UnsubscribeEffect(ts: Topics, tid: string, sid: string)
    ensures var r := Apply(ts, Unsubscribe(tid, sid));
      && r.Keys == ts.Keys
      && (tid in ts ==> r[tid] == ts[tid] - {sid})
      && (forall u :: u != tid && u in ts ==> r[u] == ts[u])
      && (tid in ts && sid !in ts[tid] ==> r == ts)
  {
    if tid in ts && sid !in ts[tid] {
      assert ts[tid] - {sid} == ts[tid];
    }
  }

  /**
   * Unsubscribe, send and broadcast for a topic that does not exist leave the contents
   * unchanged and send nothing.
   */
  lemma UnknownTopicIsIgnored(ts: Topics, c: RouterCommand)
    requires c.Unsubscribe? || c.Send? || c.Broadcast?
    requires c.topicId !in ts
    ensures Apply(ts, c) == ts
    ensures Deliveries(ts, c) == multiset{}
  {
  }

  /** Send and broadcast never change the registry; the other commands never send. */
  lemma CommandKinds(ts: Topics, c: RouterCommand)
    ensures c.Send? || c.Broadcast? ==> Apply(ts, c) == ts
    ensures c.CreateTopic? || c.Subscribe? || c.Unsubscribe? ==> Deliveries(ts, c) == multiset{}
  {
  }

  /**
   * `send(tid, sid, m)` on an existing topic sends `m` once per subscriber other than `sid`:
   * every other subscriber's handle gets it, the sender's handle gets it only if another
   * subscriber id shares that handle, and nothing but `m` is sent.
   */
  lemma SendSkipsSender(ts: Topics, tid: string, sid: string, m: Message)
    requires tid in ts
    ensures var out := Deliveries(ts, Send(tid, sid, m));
      && |out| == |ts[tid].Keys - {sid}|
      && (forall k :: k in ts[tid] && k != sid ==> Delivery(ts[tid][k], m) in out)
      && ((sid in ts[tid] && forall k :: k in ts[tid] && k != sid ==> ts[tid][k] != ts[tid][sid]) ==>
            Delivery(ts[tid][sid], m) !in out)
      && (forall d :: d in out ==> d.message == m)
  {
    var subs := ts[tid];
    var targets := Recipients(subs, sid);
    var out := Deliveries(ts, Send(tid, sid, m));
    assert out == FanOut(subs, targets, m);
    FanOutSize(subs, targets, m);
    forall k | k in subs && k != sid
      ensures Delivery(subs[k], m) in out
    {
      FanOutCount(subs, targets, m, Delivery(subs[k], m));
      assert k in HoldersOf(subs, targets, subs[k]);
    }
    if sid in subs && (forall k :: k in subs && k != sid ==> subs[k] != subs[sid]) {
      FanOutCount(subs, targets, m, Delivery(subs[sid], m));
      assert HoldersOf(subs, targets, subs[sid]) == {};
    }
    forall d | d in out
      ensures d.message == m
    {
      FanOutCount(subs, targets, m, d);
    }
  }

  /**
   * `broadcast(tid, m)` on an existing topic sends `m` once per subscriber, so every
   * subscriber's handle gets it, and nothing but `m` is sent.
   */
  lemma BroadcastReachesAll(ts: Topics, tid: string, m: Message)
    requires tid in ts
    ensures var out := Deliveries(ts, Broadcast(tid, m));
      && |out| == |ts[tid].Keys|
      && (forall k :: k in ts[tid] ==> Delivery(ts[tid][k], m) in out)
      && (forall d :: d in out ==> d.message == m)
  {
    var subs := ts[tid];
    var out := Deliveries(ts, Broadcast(tid, m));
    FanOutSize(subs, subs.Keys, m);
    forall k | k in subs
      ensures Delivery(subs[k], m) in out
    {
      FanOutCount(subs, subs.Keys, m, Delivery(subs[k], m));
      assert k in HoldersOf(subs, subs.Keys, subs[k]);
    }
    forall d | d in out
      ensures d.message == m
    {
      FanOutCount(subs, subs.Keys, m, d);
    }
  }

  /**
   * Two connections subscribe to one topic under ids "A" and "B"; a send from "A" reaches
   * B's connection once and A's not at all.
   */
  lemma TwoSubscriberSend(ha: Handle, hb: Handle, m: Message)
    requires ha != hb
    ensures var ts := ApplyAll(map[], [Subscribe("room1", "A", ha), Subscribe("room1", "B", hb)]);
      Deliveries(ts, Send("room1", "A", m)) == multiset{Delivery(hb, m)}
  {
    var cs := [Subscribe("room1", "A", ha), Subscribe("room1", "B", hb)];
    assert cs[..1] == [cs[0]] && cs[..1][..0] == [];
    var first := ApplyAll(map[], cs[..1]);
    assert ApplyAll(map[], cs[..1][..0]) == map[];
    assert first == Apply(map[], cs[0]);
    assert first == map["room1" := map["A" := ha]];
    var ts := ApplyAll(map[], cs);
    assert ts == Apply(first, cs[1]);
    assert ts == map["room1" := map["A" := ha, "B" := hb]];
    var subs := ts["room1"];
    assert Recipients(subs, "A") == {"B"};
    FanOutRemove(subs, {"B"}, "B", m);
    assert {"B"} - {"B"} == {};
  }

  /** One topic: its id and its subscribers. */
  class Topic {
    const id: string
    var subscribers: Subscribers

    /** A new topic with the given id and no subscribers. */
    constructor (id: string)
      ensures this.id == id && Id() == id
      ensures subscribers == map[]
    {
      this.id := id;
      subscribers := map[];
    }

    /** The topic's id, as given when it was made. */
    function Id(): (r: string)
      ensures r == id
    {
      id
    }

    /** Maps `sid` to `sender`, replacing any handle it had; no other subscriber changes. */
    method AddSubscriber(sid: string, sender: Handle)
      modifies this
      ensures subscribers == old(subscribers)[sid := sender]
      ensures sid in subscribers && subscribers[sid] == sender
    {
      subscribers := subscribers[sid := sender];
    }

    /** Removes `sid` if it is a subscriber; otherwise nothing changes. */
    method RemoveSubscriber(sid: string)
      modifies this
      ensures subscribers == old(subscribers) - {sid}
      ensures sid !in old(subscribers) ==> subscribers == old(subscribers)
      ensures sid !in subscribers
    {
      subscribers := subscribers - {sid};
    }

    /** The handle of subscriber `sid`, if it is one. */
    function GetSubscriber(sid: string): (r: Option<Handle>)
      reads this
      ensures r.Some? <==> sid in subscribers
      ensures r.Some? ==> r.value == subscribers[sid]
    {
      if sid in subscribers then Some(subscribers[sid]) else None
    }

    /**
     * Sends `m` through the handle of every subscriber whose id differs from `senderId`;
     * a failed send is ignored and does not stop the others.
     */
    method Send(senderId: string, m: Message) returns (out: multiset<Delivery>)
      ensures out == FanOut(subscribers, Recipients(subscribers, senderId), m)
    {
      var subs := subscribers;
      var targets := Recipients(subs, senderId);
      var todo := subs.Keys;
      ghost var pending := targets;
      out := multiset{};
      while todo != {}
        invariant todo <= subs.Keys
        invariant pending == todo - {senderId}
        invariant out + FanOut(subs, pending, m) == FanOut(subs, targets, m)
        decreases todo
      {
        var k :| k in todo;
        if k != senderId {
          FanOutStep(subs, pending, k, m, out, FanOut(subs, targets, m));
          out := out + multiset{Delivery(subs[k], m)};
          pending := pending - {k};
        }
        todo := todo - {k};
      }
    }

    /** Sends `m` through the handle of every subscriber; failed sends are ignored. */
    method Broadcast(m: Message) returns (out: multiset<Delivery>)
      ensures out == FanOut(subscribers, subscribers.Keys, m)
    {
      var subs := subscribers;
      var todo := subs.Keys;
      out := multiset{};
      while todo != {}
        invariant todo <= subs.Keys
        invariant out + FanOut(subs, todo, m) == FanOut(subs, subs.Keys, m)
        decreases todo
      {
        var k :| k in todo;
        FanOutStep(subs, todo, k, m, out, FanOut(subs, subs.Keys, m));
        out := out + multiset{Delivery(subs[k], m)};
        todo := todo - {k};
      }
    }
  }

  /** The registry: topic id to topic, mutated only by the single consumer of the command channel. */
  class Registry {
    var topics: map<string, Topic>
    /** The registry's contents as a value: topic id to that topic's subscribers. */
    ghost var contents: Topics
    /** Every topic object the registry has stored. */
    ghost var Repr: set<Topic>

    /**
     * Every topic is stored under its own id (so no two ids share one topic object), and
     * `contents` holds each topic's subscribers.
     */
    ghost predicate Valid()
      reads this, Repr
    {
      && (forall t :: t in topics <==> t in contents)
      && forall t :: t in topics ==> topics[t] in Repr && topics[t].id == t && topics[t].subscribers == contents[t]
    }

    /** A registry with no topics. */
    constructor ()
      ensures Valid() && contents == map[] && Repr == {}
    {
      topics := map[];
      contents := map[];
      Repr := {};
    }

    /**
     * Stores a new, empty topic under `id`. An existing topic of that id is replaced,
     * and with it its subscribers; every other topic is left as it was.
     */
    method CreateTopic(id: string)
      requires Valid()
      modifies this
      ensures Valid() && fresh(Repr - old(Repr))
      ensures contents == Apply(old(contents), RouterCommand.CreateTopic(id))
    {
      var t := new Topic(id);
      topics := topics[id := t];
      contents := contents[id := map[]];
      Repr := Repr + {t};
    }

    /**
     * The topic stored under `topicId`; an absent topic is first stored new and empty, an
     * existing one is returned as it is.
     */
    method Entry(topicId: string) returns (t: Topic)
      requires Valid()
      modifies this
      ensures Valid() && fresh(Repr - old(Repr))
      ensures topicId in topics && t == topics[topicId]
      ensures contents == old(contents)[topicId := if topicId in old(contents) then old(contents)[topicId] else map[]]
    {
      if topicId !in topics {
        t := new Topic(topicId);
        topics := topics[topicId := t];
        contents := contents[topicId := map[]];
        Repr := Repr + {t};
      } else {
        t := topics[topicId];
      }
    }

    /**
     * Looks up topic `topicId`, creating it empty if it is absent (an existing topic
     * keeps its subscribers), then maps `subscriberId` to `sender` in it.
     */
    method Subscribe(topicId: string, subscriberId: string, sender: Handle)
      requires Valid()
      modifies this, Repr
      ensures Valid() && fresh(Repr - old(Repr))
      ensures contents == Apply(old(contents), RouterCommand.Subscribe(topicId, subscriberId, sender))
    {
      var t := Entry(topicId);
      ghost var subs := contents[topicId];
      t.AddSubscriber(subscriberId, sender);
      contents := old(contents)[topicId := subs[subscriberId := sender]];
      forall u | u in topics && u != topicId
        ensures topics[u] != t
      {
        assert topics[u].id == u;
      }
    }

    /** Removes `subscriberId` from topic `topicId`; nothing happens if the topic is absent. */
    method Unsubscribe(topicId: string, subscriberId: string)
      requires Valid()
      modifies this, Repr
      ensures Valid() && Repr == old(Repr)
      ensures contents == Apply(old(contents), RouterCommand.Unsubscribe(topicId, subscriberId))
    {
      if topicId in topics {
        var t := topics[topicId];
        t.RemoveSubscriber(subscriberId);
        contents := contents[topicId := contents[topicId] - {subscriberId}];
        forall u | u in topics && u != topicId
          ensures topics[u] != t
        {
          assert topics[u].id == u;
        }
      }
    }

    /**
     * Sends `m` to every subscriber of topic `topicId` except `senderId`; a message for an
     * absent topic is dropped.
     */
    method Send(topicId: string, senderId: string, m: Message) returns (out: multiset<Delivery>)
      requires Valid()
      ensures out == Deliveries(contents, RouterCommand.Send(topicId, senderId, m))
    {
      if topicId in topics {
        out := topics[topicId].Send(senderId, m);
      } else {
        out := multiset{};
      }
    }

    /** Sends `m` to every subscriber of topic `topicId`; a message for an absent topic is dropped. */
    method Broadcast(topicId: string, m: Message) returns (out: multiset<Delivery>)
      requires Valid()
      ensures out == Deliveries(contents, RouterCommand.Broadcast(topicId, m))
    {
      if topicId in topics {
        out := topics[topicId].Broadcast(m);
      } else {
        out := multiset{};
      }
    }

    /** Applies one command: each variant goes to the operation of the same name with the same arguments. */
    method ParseCommand(c: RouterCommand) returns (out: multiset<Delivery>)
      requires Valid()
      modifies this, Repr
      ensures Valid() && fresh(Repr - old(Repr))
      ensures contents == Apply(old(contents), c)
      ensures out == Deliveries(old(contents), c)
    {
      match c
      case CreateTopic(tid) =>
        CreateTopic(tid);
        out := multiset{};
      case Subscribe(tid, sid, s) =>
        Subscribe(tid, sid, s);
        out := multiset{};
      case Broadcast(tid, m) =>
        out := Broadcast(tid, m);
      case Send(tid, sid, m) =>
        out := Send(tid, sid, m);
      case Unsubscribe(tid, sid) =>
        Unsubscribe(tid, sid);
        out := multiset{};
    }

    /** The consumer loop: applies the commands received from the channel, in order. */
    method ApplyCommands(cs: seq<RouterCommand>) returns (out: multiset<Delivery>)
      requires Valid()
      modifies this, Repr
      ensures Valid() && fresh(Repr - old(Repr))
      ensures contents == ApplyAll(old(contents), cs)
      ensures out == DeliveriesAll(old(contents), cs)
    {
      ghost var start := contents;
      out := multiset{};
      var i := 0;
      while i < |cs|
        invariant 0 <= i <= |cs|
        invariant Valid() && fresh(Repr - old(Repr))
        invariant contents == ApplyAll(start, cs[..i])
        invariant out == DeliveriesAll(start, cs[..i])
      {
        assert cs[..i + 1][..i] == cs[..i];
        var d := ParseCommand(cs[i]);
        out := out + d;
        i := i + 1;
      }
      assert cs[..|cs|] == cs;
    }
  }
}
