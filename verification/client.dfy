/**
 The operations of client.go: the hub's client lifecycle, a client's private
 topics, its topic views, subscription, publishing, and the envelopes it
 pushes onto its own stream.

 A client operation works on the client and the hub's public topics (which
 the client shares by reference) and returns both, updated, with the error
 it reports. Locks are left out: every operation is one atomic step.
 */
module Clients {
  import opened Common
  import opened Wire
  import opened Topics
  import opened Registry

  /** What a client operation leaves behind. */
  datatype Step = Step(client: Client, publicTopics: map<string, Topic>, err: Option<Error>)

  /** Writes a client step back into the hub, under the client's key. */
  function Commit(h: Hub, key: string, s: Step): (h': Hub)
    ensures h'.clients.Keys == h.clients.Keys + {key}
    ensures h'.clients[key] == s.client && h'.publicTopics == s.publicTopics
    ensures forall k :: k in h.clients && k != key ==> h'.clients[k] == h.clients[k]
    ensures h'.timeoutSeconds == h.timeoutSeconds
    ensures h'.clientIdQueryParameter == h.clientIdQueryParameter
    ensures h'.topicQueryParameter == h.topicQueryParameter
  {
    h.(clients := h.clients[key := s.client], publicTopics := s.publicTopics)
  }

  // ---------------------------------------------------------------------
  // Client lifecycle (methods of the hub)
  // ---------------------------------------------------------------------

  /**
   NewClient: an empty id is replaced by `freshId` (the generated uuid). An
   id already known returns that client and leaves the hub as it is;
   otherwise exactly one Waiting client with no private topic and an empty
   stream is added.
   */
  function NewClient(h: Hub, id: string, freshId: string): (r: (Hub, Client))
    ensures var key := if id == "" then freshId else id;
            && (key !in h.clients || Valid(h) ==> r.1.id == key)
            && r.0.clients.Keys == h.clients.Keys + {key}
            && r.0.clients[key] == r.1
            && r.0.publicTopics == h.publicTopics
            && (key in h.clients ==> r.0 == h && r.1 == h.clients[key])
            && (key !in h.clients ==>
                  && r.1.status == Waiting && r.1.privateTopics == map[] && r.1.stream == []
                  && forall k :: k in h.clients ==> r.0.clients[k] == h.clients[k])
    ensures Valid(h) ==> Valid(r.0)
  {
    var key := if id == "" then freshId else id;
    if key in h.clients then (h, h.clients[key])
    else
      var cl := Client(key, Waiting, map[], []);
      (h.(clients := h.clients[key := cl]), cl)
  }

  /** getClient: the client stored under `id`, or ClientNotFound. */
  function GetClient(h: Hub, id: string): (r: Result<Client, Error>)
    ensures r.Success? <==> id in h.clients
    ensures r.Success? ==> r.value == h.clients[id]
    ensures r.Failure? ==> r.error == ClientNotFound(id)
  {
    if id in h.clients then Success(h.clients[id]) else Failure(ClientNotFound(id))
  }

  /** The `Name` of every topic of `m`, in the iteration order `order` of its keys. */
  function NamesInOrder(m: map<string, Topic>, order: seq<string>): (names: seq<string>)
    requires forall i :: 0 <= i < |order| ==> order[i] in m
    ensures |names| == |order|
    ensures forall i :: 0 <= i < |order| ==> names[i] == m[order[i]].name
  {
    seq(|order|, i requires 0 <= i < |order| => m[order[i]].name)
  }

  /** The range loops of RemoveClient: Unsub every name in turn, ignoring the errors. */
  function UnsubAll(c: Client, pub: map<string, Topic>, names: seq<string>): (r: (Client, map<string, Topic>))
    ensures r.0.id == c.id && r.0.status == c.status
    ensures r.0.privateTopics.Keys == c.privateTopics.Keys
    ensures r.1.Keys == pub.Keys
    ensures forall k :: k in pub ==> SameIdentity(pub[k], r.1[k]) && r.1[k].subscribers <= pub[k].subscribers
    ensures forall k :: k in pub ==> pub[k].subscribers - {c.id} <= r.1[k].subscribers
    decreases |names|
  {
    if names == [] then (c, pub)
    else
      var s := Unsub(c, pub, names[0]);
      UnsubShrinks(c, pub, names[0]);
      UnsubAll(s.client, s.publicTopics, names[1..])
  }

  /** One Unsub of the cascade: a public topic can only lose the client's own id. */
  lemma UnsubShrinks(c: Client, pub: map<string, Topic>, name: string)
    ensures var s := Unsub(c, pub, name);
            && s.client.privateTopics.Keys == c.privateTopics.Keys
            && s.publicTopics.Keys == pub.Keys
            && forall k :: k in pub ==>
                 && SameIdentity(pub[k], s.publicTopics[k])
                 && s.publicTopics[k].subscribers <= pub[k].subscribers
                 && pub[k].subscribers - {c.id} <= s.publicTopics[k].subscribers
  {
  }

  /**
   RemoveClient: an unknown id is ClientNotFound and changes nothing.
   Otherwise the client Unsubs the name of each of its private topics and
   then of each public topic, and is dropped from the hub. A public topic
   can only lose this client's id; no other subscriber is touched.
   */
  function RemoveClient(h: Hub, id: string, privOrder: seq<string>, pubOrder: seq<string>): (r: (Hub, Option<Error>))
    requires id in h.clients ==> Enumerates(privOrder, h.clients[id].privateTopics.Keys)
    requires Enumerates(pubOrder, h.publicTopics.Keys)
    ensures id !in h.clients ==> r == (h, Some(ClientNotFound(id)))
    ensures id in h.clients ==>
              && r.1 == None
              && r.0.clients == h.clients - {id}
              && r.0.publicTopics.Keys == h.publicTopics.Keys
              && forall k :: k in h.publicTopics ==>
                   && SameIdentity(h.publicTopics[k], r.0.publicTopics[k])
                   && r.0.publicTopics[k].subscribers <= h.publicTopics[k].subscribers
                   && h.publicTopics[k].subscribers - {h.clients[id].id} <= r.0.publicTopics[k].subscribers
  {
    match GetClient(h, id)
    case Failure(e) => (h, Some(e))
    case Success(cl) =>
      assert forall i :: 0 <= i < |privOrder| ==> privOrder[i] in cl.privateTopics;
      assert forall i :: 0 <= i < |pubOrder| ==> pubOrder[i] in h.publicTopics;
      var names := NamesInOrder(cl.privateTopics, privOrder) + NamesInOrder(h.publicTopics, pubOrder);
      var s := UnsubAll(cl, h.publicTopics, names);
      (h.(clients := h.clients - {id}, publicTopics := s.1), None)
  }

  /**
   RemoveClient as evidently intended: the client's id leaves every public
   topic directly, whatever private topic shadows the name, and the client
   (with its private topics) is dropped from the hub.
   */
  function RemoveClientCorrected(h: Hub, id: string): (r: (Hub, Option<Error>))
    ensures id !in h.clients ==> r == (h, Some(ClientNotFound(id)))
    ensures id in h.clients ==>
              && r.1 == None
              && r.0.clients == h.clients - {id}
              && r.0.publicTopics.Keys == h.publicTopics.Keys
              && forall k :: k in h.publicTopics ==>
                   && SameIdentity(h.publicTopics[k], r.0.publicTopics[k])
                   && !IsSubscribed(r.0.publicTopics[k], id)
                   && forall x :: x != id ==> (IsSubscribed(r.0.publicTopics[k], x) <==> IsSubscribed(h.publicTopics[k], x))
  {
    if id !in h.clients then (h, Some(ClientNotFound(id)))
    else
      var pub := map k | k in h.publicTopics :: Topics.RemoveClient(h.publicTopics[k], id);
      (h.(clients := h.clients - {id}, publicTopics := pub), None)
  }

  // ---------------------------------------------------------------------
  // Topic views
  // ---------------------------------------------------------------------

  /**
   GetTopics: every topic the client can see, public and private, by name.
   A private topic shadows a public one of the same name. (Go re-keys each
   topic by its Name; topics are stored under their names, see KeyedByName.)
   */
  function GetTopics(c: Client, pub: map<string, Topic>): (topics: map<string, Topic>)
    ensures topics.Keys == pub.Keys + c.privateTopics.Keys
    ensures forall n :: n in c.privateTopics ==> topics[n] == c.privateTopics[n]
    ensures forall n :: n in pub && n !in c.privateTopics ==> topics[n] == pub[n]
  {
    pub + c.privateTopics
  }

  /** GetSubscribedTopics: the visible topics that have this client as a subscriber. */
  function GetSubscribedTopics(c: Client, pub: map<string, Topic>): (subs: map<string, Topic>)
    ensures subs.Keys <= GetTopics(c, pub).Keys
    ensures forall n :: n in subs <==> n in GetTopics(c, pub) && IsSubscribed(GetTopics(c, pub)[n], c.id)
    ensures forall n :: n in subs ==> subs[n] == GetTopics(c, pub)[n]
  {
    var topics := GetTopics(c, pub);
    map n | n in topics && IsSubscribed(topics[n], c.id) :: topics[n]
  }

  // ---------------------------------------------------------------------
  // Envelopes and the status-guarded push
  // ---------------------------------------------------------------------

  /** The push at the end of every send helper: only a Receving client gets the envelope. */
  function Send(c: Client, e: Envelope): (c': Client)
    ensures Pushed(c, c', e) && c'.privateTopics == c.privateTopics
  {
    if c.status == Receving then c.(stream := c.stream + [e]) else c
  }

  /** `list` names every topic of `topics` exactly once, each with its type. */
  ghost predicate ListsTopics(list: seq<ListEntry>, topics: map<string, Topic>)
  {
    && (forall e :: e in list <==> e.name in topics && e.ttype == TypeName(topics[e.name].ttype))
    && (forall i, j :: 0 <= i < j < |list| ==> list[i].name != list[j].name)
  }

  /** `list` names every subscribed topic exactly once, without a type. */
  ghost predicate ListsNames(list: seq<ListEntry>, names: set<string>)
  {
    && (forall e :: e in list <==> e.name in names && e.ttype == "")
    && (forall i, j :: 0 <= i < j < |list| ==> list[i].name != list[j].name)
  }

  /** The "topics" list of `topics`, in the iteration order `order`. */
  function TopicsList(topics: map<string, Topic>, order: seq<string>): (list: seq<ListEntry>)
    requires Enumerates(order, topics.Keys)
    ensures |list| == |order|
    ensures forall i :: 0 <= i < |order| ==> list[i] == ListEntry(order[i], TypeName(topics[order[i]].ttype))
    ensures ListsTopics(list, topics)
  {
    var list := seq(|order|, i requires 0 <= i < |order| => ListEntry(order[i], TypeName(topics[order[i]].ttype)));
    assert forall n :: n in topics ==> ListEntry(n, TypeName(topics[n].ttype)) in list by {
      forall n | n in topics
        ensures ListEntry(n, TypeName(topics[n].ttype)) in list
      {
        var i :| 0 <= i < |order| && order[i] == n;
        assert list[i] == ListEntry(n, TypeName(topics[n].ttype));
      }
    }
    list
  }

  /** A "subscribed" list of `names`, in the iteration order `order`. */
  function NameList(names: set<string>, order: seq<string>): (list: seq<ListEntry>)
    requires Enumerates(order, names)
    ensures |list| == |order|
    ensures forall i :: 0 <= i < |order| ==> list[i] == ListEntry(order[i], "")
    ensures ListsNames(list, names)
  {
    var list := seq(|order|, i requires 0 <= i < |order| => ListEntry(order[i], ""));
    assert forall n :: n in names ==> ListEntry(n, "") in list by {
      forall n | n in names
        ensures ListEntry(n, "") in list
      {
        var i :| 0 <= i < |order| && order[i] == n;
        assert list[i] == ListEntry(n, "");
      }
    }
    list
  }

  /** sendUpdate: one envelope with a single update for `to`, pushed if Receving. */
  function SendUpdate(c: Client, to: Topic, data: Payload): (c': Client)
    ensures Pushed(c, c', UpdateEnvelope(to.name, data)) && c'.privateTopics == c.privateTopics
  {
    Send(c, UpdateEnvelope(to.name, data))
  }

  /**
   sendNewTopicsList: one envelope whose system list is empty when the client
   sees no topic and otherwise a single "topics" entry listing them all,
   pushed if Receving.
   */
  function TopicsListEnvelope(topics: map<string, Topic>, order: seq<string>): (e: Envelope)
    requires Enumerates(order, topics.Keys)
    ensures e.updates == []
    ensures topics == map[] <==> e.sys == []
    ensures topics != map[] ==> |e.sys| == 1 && e.sys[0].kind == TopicsKind && ListsTopics(e.sys[0].list, topics)
  {
    if |topics| > 0 then Envelope([SysEntry(TopicsKind, TopicsList(topics, order))], [])
    else Envelope([], [])
  }

  function SendNewTopicsList(c: Client, pub: map<string, Topic>, order: seq<string>): (c': Client)
    requires Enumerates(order, GetTopics(c, pub).Keys)
    ensures Pushed(c, c', TopicsListEnvelope(GetTopics(c, pub), order)) && c'.privateTopics == c.privateTopics
  {
    Send(c, TopicsListEnvelope(GetTopics(c, pub), order))
  }

  /** sendNewSubscribedTopic: one "subscribed" entry naming `top`, pushed if Receving. */
  function SendNewSubscribedTopic(c: Client, top: Topic): (c': Client)
    ensures Pushed(c, c', SubscriptionEnvelope(SubscribedKind, top.name)) && c'.privateTopics == c.privateTopics
  {
    Send(c, SubscriptionEnvelope(SubscribedKind, top.name))
  }

  /** sendUnsubscribedTopic: one "unsubscribed" entry naming `top`, pushed if Receving. */
  function SendUnsubscribedTopic(c: Client, top: Topic): (c': Client)
    ensures Pushed(c, c', SubscriptionEnvelope(UnsubscribedKind, top.name)) && c'.privateTopics == c.privateTopics
  {
    Send(c, SubscriptionEnvelope(UnsubscribedKind, top.name))
  }

  /**
   generateInit: the envelope sent when a stream opens. Sys[0] is appended
   when the client sees a topic and Sys[1] when it is subscribed to one; the
   loops then fill Sys[0] with "topics" and Sys[1] with "subscribed". Every
   index is in range because a subscribed topic is always a visible one.
   */
  method GenerateInit(c: Client, pub: map<string, Topic>, topicOrder: seq<string>, subOrder: seq<string>)
    returns (env: Envelope)
    requires Enumerates(topicOrder, GetTopics(c, pub).Keys)
    requires Enumerates(subOrder, GetSubscribedTopics(c, pub).Keys)
    ensures env.updates == []
    ensures GetTopics(c, pub) == map[] ==> env.sys == []
    ensures GetTopics(c, pub) != map[] ==>
              && 1 <= |env.sys| <= 2
              && env.sys[0].kind == TopicsKind
              && ListsTopics(env.sys[0].list, GetTopics(c, pub))
    ensures |env.sys| == 2 <==> GetSubscribedTopics(c, pub) != map[]
    ensures |env.sys| == 2 ==>
              && env.sys[1].kind == SubscribedKind
              && ListsNames(env.sys[1].list, GetSubscribedTopics(c, pub).Keys)
    ensures GetTopics(c, pub) != map[] ==> env.sys[0] == TopicsListEnvelope(GetTopics(c, pub), topicOrder).sys[0]
  {
    var topics := GetTopics(c, pub);
    var subtopics := GetSubscribedTopics(c, pub);
    var sys := InitSys(topics, subtopics, topicOrder, subOrder);
    env := Envelope(sys, []);
  }

  /** The system entries of generateInit, built the way the Go code builds them. */
  method InitSys(topics: map<string, Topic>, subtopics: map<string, Topic>, topicOrder: seq<string>, subOrder: seq<string>)
    returns (sys: seq<SysEntry>)
    requires subtopics.Keys <= topics.Keys
    requires Enumerates(topicOrder, topics.Keys)
    requires Enumerates(subOrder, subtopics.Keys)
    ensures topics == map[] ==> sys == []
    ensures topics != map[] ==> 1 <= |sys| <= 2 && sys[0] == SysEntry(TopicsKind, TopicsList(topics, topicOrder))
    ensures |sys| == 2 <==> subtopics != map[]
    ensures |sys| == 2 ==> sys[1] == SysEntry(SubscribedKind, NameList(subtopics.Keys, subOrder))
  {
    EnumeratesEmpty(topicOrder, topics);
    EnumeratesEmpty(subOrder, subtopics);
    SubMapNonEmpty(subtopics, topics);

    sys := [];
    if |topics| > 0 {
      sys := sys + [SysEntry("", [])];
    }
    if |subtopics| > 0 {
      sys := sys + [SysEntry("", [])];
    }
    sys := FillTopics(sys, topics, topicOrder);
    sys := FillSubscribed(sys, subtopics.Keys, subOrder);
  }

  /** The first loop of generateInit: every visible topic, with its type, into Sys[0]. */
  method FillTopics(sys: seq<SysEntry>, topics: map<string, Topic>, topicOrder: seq<string>)
    returns (sys': seq<SysEntry>)
    requires Enumerates(topicOrder, topics.Keys)
    requires |topicOrder| > 0 ==> |sys| >= 1 && sys[0] == SysEntry("", [])
    ensures |sys'| == |sys| && forall k :: 1 <= k < |sys| ==> sys'[k] == sys[k]
    ensures |topicOrder| == 0 ==> sys' == sys
    ensures |topicOrder| > 0 ==> sys'[0] == SysEntry(TopicsKind, TopicsList(topics, topicOrder))
  {
    sys' := sys;
    var i := 0;
    while i < |topicOrder|
      invariant 0 <= i <= |topicOrder|
      invariant |sys'| == |sys| && forall k :: 1 <= k < |sys| ==> sys'[k] == sys[k]
      invariant i == 0 ==> sys' == sys
      invariant i > 0 ==> sys'[0].kind == TopicsKind
      invariant |topicOrder| > 0 ==> |sys'[0].list| == i
      invariant |topicOrder| > 0 ==> forall k :: 0 <= k < i ==>
                  sys'[0].list[k] == ListEntry(topicOrder[k], TypeName(topics[topicOrder[k]].ttype))
    {
      var name := topicOrder[i];
      var t := ListEntry(name, TypeName(topics[name].ttype));
      sys' := sys'[0 := SysEntry(TopicsKind, sys'[0].list + [t])];
      i := i + 1;
    }
    if |topicOrder| > 0 {
      assert sys'[0].list == TopicsList(topics, topicOrder);
    }
  }

  /** The second loop of generateInit: every subscribed topic, without type, into Sys[1]. */
  method FillSubscribed(sys: seq<SysEntry>, names: set<string>, subOrder: seq<string>)
    returns (sys': seq<SysEntry>)
    requires Enumerates(subOrder, names)
    requires |subOrder| > 0 ==> |sys| >= 2 && sys[1] == SysEntry("", [])
    ensures |sys'| == |sys|
    ensures |subOrder| == 0 ==> sys' == sys
    ensures |subOrder| > 0 ==> sys'[0] == sys[0] && sys'[1] == SysEntry(SubscribedKind, NameList(names, subOrder))
  {
    sys' := sys;
    var j := 0;
    while j < |subOrder|
      invariant 0 <= j <= |subOrder|
      invariant |sys'| == |sys|
      invariant j == 0 ==> sys' == sys
      invariant j > 0 ==> sys'[0] == sys[0] && sys'[1].kind == SubscribedKind
      invariant |subOrder| > 0 ==> |sys'[1].list| == j
      invariant |subOrder| > 0 ==> forall k :: 0 <= k < j ==> sys'[1].list[k] == ListEntry(subOrder[k], "")
    {
      var t := ListEntry(subOrder[j], "");
      sys' := sys'[1 := SysEntry(SubscribedKind, sys'[1].list + [t])];
      j := j + 1;
    }
    if |subOrder| > 0 {
      assert sys'[1].list == NameList(names, subOrder);
    }
  }

  // ---------------------------------------------------------------------
  // Private topics, subscription, publishing (methods of the client)
  // ---------------------------------------------------------------------

  /**
   NewPrivateTopic: a name already private is TopicExists and changes
   nothing. Otherwise a Private topic with no subscriber (the owner is not
   subscribed) is added and the new topic list is sent to the client.
   `order` is the iteration order of the client's topics afterwards. The
   topic literal of client.go sets no id, so the id is Go's zero value.
   */
  function NewPrivateTopic(c: Client, pub: map<string, Topic>, name: string, order: seq<string>): (r: Step)
    requires Enumerates(order, GetTopics(c, pub).Keys + {name})
    ensures name in c.privateTopics ==> r == Step(c, pub, Some(TopicExists(name)))
    ensures name !in c.privateTopics ==>
              && r.err == None
              && r.publicTopics == pub
              && r.client.privateTopics == c.privateTopics[name := NewTopic(name, Private, "")]
              && !IsSubscribed(r.client.privateTopics[name], c.id)
              && GetTopics(r.client, pub).Keys == GetTopics(c, pub).Keys + {name}
              && Pushed(c, r.client, TopicsListEnvelope(GetTopics(r.client, pub), order))
  {
    if name in c.privateTopics then Step(c, pub, Some(TopicExists(name)))
    else
      var top := NewTopic(name, Private, "");
      var c1 := c.(privateTopics := c.privateTopics[name := top]);
      assert GetTopics(c1, pub).Keys == GetTopics(c, pub).Keys + {name};
      Step(SendNewTopicsList(c1, pub, order), pub, None)
  }

  /**
   Sub: the name is looked up in the private topics first, then in the public
   ones; a name found in neither is TopicNotFound and changes nothing.
   Otherwise the client's id is added to the resolved topic (again, if it
   was already there) and a "subscribed" entry is sent to the client.
   */
  function Sub(c: Client, pub: map<string, Topic>, name: string): (r: Step)
    ensures name !in GetTopics(c, pub) ==> r == Step(c, pub, Some(TopicNotFound(name)))
    ensures name in GetTopics(c, pub) ==>
              var t := GetTopics(c, pub)[name];
              && r.err == None
              && Pushed(c, r.client, SubscriptionEnvelope(SubscribedKind, t.name))
    ensures name in c.privateTopics ==>
              r.publicTopics == pub && r.client.privateTopics == c.privateTopics[name := AddClient(c.privateTopics[name], c.id)]
    ensures name !in c.privateTopics && name in pub ==>
              r.client.privateTopics == c.privateTopics && r.publicTopics == pub[name := AddClient(pub[name], c.id)]
    ensures KeyedByName(c.privateTopics) && OwnerOnly(c) && KeyedByName(pub) ==>
              KeyedByName(r.client.privateTopics) && OwnerOnly(r.client) && KeyedByName(r.publicTopics)
  {
    if name in c.privateTopics then
      var t := AddClient(c.privateTopics[name], c.id);
      Step(SendNewSubscribedTopic(c.(privateTopics := c.privateTopics[name := t]), t), pub, None)
    else if name in pub then
      var t := AddClient(pub[name], c.id);
      Step(SendNewSubscribedTopic(c, t), pub[name := t], None)
    else
      Step(c, pub, Some(TopicNotFound(name)))
  }

  /**
   Unsub: the same resolution as Sub. An unknown name is TopicNotFound, a
   topic without this client is NotSubscribed, and both change nothing.
   Otherwise only this client's id leaves only the resolved topic, and an
   "unsubscribed" entry is sent to the client.
   */
  function Unsub(c: Client, pub: map<string, Topic>, name: string): (r: Step)
    ensures name !in GetTopics(c, pub) ==> r == Step(c, pub, Some(TopicNotFound(name)))
    ensures name in GetTopics(c, pub) && !IsSubscribed(GetTopics(c, pub)[name], c.id) ==>
              r == Step(c, pub, Some(NotSubscribed(c.id, name)))
    ensures name in GetTopics(c, pub) && IsSubscribed(GetTopics(c, pub)[name], c.id) ==>
              && r.err == None
              && Pushed(c, r.client, SubscriptionEnvelope(UnsubscribedKind, GetTopics(c, pub)[name].name))
    ensures r.err == None && name in c.privateTopics ==>
              && r.publicTopics == pub
              && r.client.privateTopics == c.privateTopics[name := Topics.RemoveClient(c.privateTopics[name], c.id)]
    ensures r.err == None && name !in c.privateTopics ==>
              && r.client.privateTopics == c.privateTopics
              && r.publicTopics == pub[name := Topics.RemoveClient(pub[name], c.id)]
    ensures r.client.id == c.id && r.client.status == c.status
    ensures KeyedByName(c.privateTopics) && OwnerOnly(c) && KeyedByName(pub) ==>
              KeyedByName(r.client.privateTopics) && OwnerOnly(r.client) && KeyedByName(r.publicTopics)
  {
    if name in c.privateTopics then
      var topic := c.privateTopics[name];
      if !IsSubscribed(topic, c.id) then Step(c, pub, Some(NotSubscribed(c.id, name)))
      else
        var t := Topics.RemoveClient(topic, c.id);
        Step(SendUnsubscribedTopic(c.(privateTopics := c.privateTopics[name := t]), t), pub, None)
    else if name in pub then
      var topic := pub[name];
      if !IsSubscribed(topic, c.id) then Step(c, pub, Some(NotSubscribed(c.id, name)))
      else
        var t := Topics.RemoveClient(topic, c.id);
        Step(SendUnsubscribedTopic(c, t), pub[name := t], None)
    else
      Step(c, pub, Some(TopicNotFound(name)))
  }

  /**
   RemovePrivateTopic: a name that is not private is TopicNotFound and
   changes nothing. Otherwise the owner Unsubs from it (the error, if it was
   not subscribed, is ignored) and the topic is deleted; public topics and
   the other private topics are untouched.
   */
  function RemovePrivateTopic(c: Client, pub: map<string, Topic>, name: string): (r: Step)
    ensures name !in c.privateTopics ==> r == Step(c, pub, Some(TopicNotFound(name)))
    ensures name in c.privateTopics ==>
              && r.err == None
              && r.publicTopics == pub
              && r.client.privateTopics.Keys == c.privateTopics.Keys - {name}
              && (forall n :: n in r.client.privateTopics ==> r.client.privateTopics[n] == c.privateTopics[n])
              && (IsSubscribed(c.privateTopics[name], c.id) ==>
                    Pushed(c, r.client, SubscriptionEnvelope(UnsubscribedKind, c.privateTopics[name].name)))
              && (!IsSubscribed(c.privateTopics[name], c.id) ==> r.client == c.(privateTopics := r.client.privateTopics))
    ensures KeyedByName(c.privateTopics) && OwnerOnly(c) ==> KeyedByName(r.client.privateTopics) && OwnerOnly(r.client)
  {
    if name !in c.privateTopics then Step(c, pub, Some(TopicNotFound(name)))
    else
      var s := Unsub(c, pub, name);
      Step(s.client.(privateTopics := s.client.privateTopics - {name}), s.publicTopics, None)
  }

  /**
   Pub (client side): a Waiting client gets NotReceiving, a name that is not
   one of its private topics gets TopicNotFound, and neither changes
   anything. Otherwise exactly one envelope, with no system entry and the
   single update {topic, message}, is appended to the client's own stream.
   */
  function Pub(c: Client, pub: map<string, Topic>, to: string, message: Payload): (r: Step)
    ensures c.status == Waiting ==> r == Step(c, pub, Some(NotReceiving(c.id)))
    ensures c.status == Receving && to !in c.privateTopics ==> r == Step(c, pub, Some(TopicNotFound(to)))
    ensures c.status == Receving && to in c.privateTopics ==>
              && r.err == None
              && r.publicTopics == pub
              && r.client == c.(stream := c.stream + [UpdateEnvelope(c.privateTopics[to].name, message)])
  {
    if c.status == Waiting then Step(c, pub, Some(NotReceiving(c.id)))
    else if to !in c.privateTopics then Step(c, pub, Some(TopicNotFound(to)))
    else Step(SendUpdate(c, c.privateTopics[to], message), pub, None)
  }
}
