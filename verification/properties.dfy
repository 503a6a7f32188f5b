/**
 Properties that relate several operations of the model: subscription round
 trips, the agreement between Sub/Unsub and the topic views, the invariant
 every operation keeps, the client removal cascade, and a worked publish
 scenario.
 */
module Properties {
  import opened Common
  import opened Wire
  import opened Topics
  import opened Registry
  import opened Clients
  import Handler

  // ---------------------------------------------------------------------
  // Sub / Unsub against the topic views
  // ---------------------------------------------------------------------

  /** Sub seen through the client's topic view: only the resolved topic gains the client. */
  lemma SubView(c: Client, pub: map<string, Topic>, name: string)
    requires name in GetTopics(c, pub)
    ensures var s := Sub(c, pub, name);
            GetTopics(s.client, s.publicTopics) == GetTopics(c, pub)[name := AddClient(GetTopics(c, pub)[name], c.id)]
  {
    var s := Sub(c, pub, name);
    if name in c.privateTopics {
      assert s.publicTopics == pub;
    } else {
      assert s.client.privateTopics == c.privateTopics;
    }
  }

  /** A successful Unsub seen through the client's topic view: only the resolved topic loses the client. */
  lemma UnsubView(c: Client, pub: map<string, Topic>, name: string)
    requires name in GetTopics(c, pub) && IsSubscribed(GetTopics(c, pub)[name], c.id)
    ensures var s := Unsub(c, pub, name);
            GetTopics(s.client, s.publicTopics) == GetTopics(c, pub)[name := Topics.RemoveClient(GetTopics(c, pub)[name], c.id)]
  {
    var s := Unsub(c, pub, name);
    if name in c.privateTopics {
      assert s.publicTopics == pub;
    } else {
      assert s.client.privateTopics == c.privateTopics;
    }
  }

  /** After a successful Sub the topic shows up among the subscribed topics; no other subscription changes. */
  lemma SubMakesSubscribed(c: Client, pub: map<string, Topic>, name: string)
    requires name in GetTopics(c, pub)
    ensures var s := Sub(c, pub, name);
            && name in GetSubscribedTopics(s.client, s.publicTopics)
            && forall n :: n != name ==>
                 (n in GetSubscribedTopics(s.client, s.publicTopics) <==> n in GetSubscribedTopics(c, pub))
  {
    var s := Sub(c, pub, name);
    assert s.client.id == c.id;
  }

  /** After a successful Unsub the topic has left the subscribed topics; no other subscription changes. */
  lemma UnsubMakesUnsubscribed(c: Client, pub: map<string, Topic>, name: string)
    requires name in GetSubscribedTopics(c, pub)
    ensures var s := Unsub(c, pub, name);
            && s.err == None
            && name in GetTopics(s.client, s.publicTopics)
            && name !in GetSubscribedTopics(s.client, s.publicTopics)
            && forall n :: n != name ==>
                 (n in GetSubscribedTopics(s.client, s.publicTopics) <==> n in GetSubscribedTopics(c, pub))
  {
    UnsubView(c, pub, name);
  }

  /**
   Round trip: Sub then Unsub on a topic the client was not subscribed to
   restores every topic, and a further Unsub fails with NotSubscribed. A
   Receving client has been told both, in order.
   */
  lemma SubUnsubRoundTrip(c: Client, pub: map<string, Topic>, name: string)
    requires name in GetTopics(c, pub) && !IsSubscribed(GetTopics(c, pub)[name], c.id)
    ensures var s1 := Sub(c, pub, name);
            var s2 := Unsub(s1.client, s1.publicTopics, name);
            && s1.err == None && s2.err == None
            && s2.client.privateTopics == c.privateTopics
            && s2.publicTopics == pub
            && (c.status == Receving ==>
                  var topicName := GetTopics(c, pub)[name].name;
                  s2.client.stream == c.stream + [SubscriptionEnvelope(SubscribedKind, topicName),
                                                  SubscriptionEnvelope(UnsubscribedKind, topicName)])
            && Unsub(s2.client, s2.publicTopics, name).err == Some(NotSubscribed(c.id, name))
  {
    var s1 := Sub(c, pub, name);
    var s2 := Unsub(s1.client, s1.publicTopics, name);
    if name in c.privateTopics {
      PrivateRoundTrip(c, pub, name);
    } else {
      PublicRoundTrip(c, pub, name);
    }
    SubUnsubNotifies(c, pub, name);
    assert GetTopics(s2.client, s2.publicTopics) == GetTopics(c, pub);
  }

  /** The round trip restores the topics when the name resolves to one of the client's private topics. */
  lemma PrivateRoundTrip(c: Client, pub: map<string, Topic>, name: string)
    requires name in c.privateTopics && !IsSubscribed(c.privateTopics[name], c.id)
    ensures var s1 := Sub(c, pub, name);
            var s2 := Unsub(s1.client, s1.publicTopics, name);
            s2.client.privateTopics == c.privateTopics && s2.publicTopics == pub
  {
    RemoveUndoesAdd(c.privateTopics[name], c.id);
  }

  /** The round trip restores the topics when the name resolves to a public topic. */
  lemma PublicRoundTrip(c: Client, pub: map<string, Topic>, name: string)
    requires name !in c.privateTopics && name in pub && !IsSubscribed(pub[name], c.id)
    ensures var s1 := Sub(c, pub, name);
            var s2 := Unsub(s1.client, s1.publicTopics, name);
            s2.client.privateTopics == c.privateTopics && s2.publicTopics == pub
  {
    RemoveUndoesAdd(pub[name], c.id);
  }

  /** Both halves of the round trip succeed, and a Receving client is told "subscribed" then "unsubscribed". */
  lemma SubUnsubNotifies(c: Client, pub: map<string, Topic>, name: string)
    requires name in GetTopics(c, pub) && !IsSubscribed(GetTopics(c, pub)[name], c.id)
    ensures var s1 := Sub(c, pub, name);
            var s2 := Unsub(s1.client, s1.publicTopics, name);
            && s1.err == None && s2.err == None
            && s2.client.id == c.id && s2.client.status == c.status
            && (c.status == Receving ==>
                  var topicName := GetTopics(c, pub)[name].name;
                  s2.client.stream == c.stream + [SubscriptionEnvelope(SubscribedKind, topicName),
                                                  SubscriptionEnvelope(UnsubscribedKind, topicName)])
  {
    var t := GetTopics(c, pub)[name];
    var s1 := Sub(c, pub, name);
    SubView(c, pub, name);
    assert s1.client.id == c.id;
    assert GetTopics(s1.client, s1.publicTopics)[name] == AddClient(t, c.id);
  }

  /** Subscribing again succeeds, changes no topic, and tells a Receving client once more. */
  lemma ResubscribeNotifiesAgain(c: Client, pub: map<string, Topic>, name: string)
    requires name in GetTopics(c, pub)
    ensures var s1 := Sub(c, pub, name);
            var s2 := Sub(s1.client, s1.publicTopics, name);
            && s2.err == None
            && GetTopics(s2.client, s2.publicTopics) == GetTopics(s1.client, s1.publicTopics)
            && (c.status == Receving ==>
                  var e := SubscriptionEnvelope(SubscribedKind, GetTopics(c, pub)[name].name);
                  s2.client.stream == c.stream + [e, e])
            && (c.status == Waiting ==> s2.client.stream == c.stream)
  {
    var s1 := Sub(c, pub, name);
    var t := GetTopics(c, pub)[name];
    AddClientIdempotent(t, c.id);
    SubView(c, pub, name);
    assert s1.client.id == c.id;
    var v1 := GetTopics(s1.client, s1.publicTopics);
    assert v1[name] == AddClient(t, c.id);
    SubView(s1.client, s1.publicTopics, name);
    assert v1[name := AddClient(v1[name], c.id)] == v1;
  }

  /**
   Only the owner can subscribe to its private topic, so the owner's Unsub
   leaves the topic without any subscriber: the single Unsub in
   RemovePrivateTopic does unsubscribe every client.
   */
  lemma OwnerUnsubEmptiesPrivateTopic(c: Client, pub: map<string, Topic>, name: string)
    requires OwnerOnly(c) && name in c.privateTopics
    ensures var s := Unsub(c, pub, name);
            name in s.client.privateTopics && GetClients(s.client.privateTopics[name]) == {}
  {
    var t := c.privateTopics[name];
    assert t.subscribers <= {c.id};
    if !IsSubscribed(t, c.id) {
      assert t.subscribers == {};
    }
  }

  /**
   A private topic created and then removed leaves the client's topics and
   the public topics as they were; the removal tells the client nothing,
   since nobody is subscribed to a new topic.
   */
  lemma NewThenRemovePrivateTopic(c: Client, pub: map<string, Topic>, name: string, order: seq<string>)
    requires name !in c.privateTopics
    requires Enumerates(order, GetTopics(c, pub).Keys + {name})
    ensures var s1 := NewPrivateTopic(c, pub, name, order);
            var s2 := RemovePrivateTopic(s1.client, s1.publicTopics, name);
            && s1.err == None && s2.err == None
            && s2.client.privateTopics == c.privateTopics
            && s2.publicTopics == pub
            && s2.client.stream == s1.client.stream
  {
    var s1 := NewPrivateTopic(c, pub, name, order);
    UpdateThenRemove(c.privateTopics, name, NewTopic(name, Private, ""));
    RemoveUnsubscribedPrivateTopic(s1.client, pub, name);
  }

  /** Removing a private topic the owner is not subscribed to just deletes it, silently. */
  lemma RemoveUnsubscribedPrivateTopic(c: Client, pub: map<string, Topic>, name: string)
    requires name in c.privateTopics && !IsSubscribed(c.privateTopics[name], c.id)
    ensures RemovePrivateTopic(c, pub, name) == Step(c.(privateTopics := c.privateTopics - {name}), pub, None)
  {
    var r := RemovePrivateTopic(c, pub, name);
    assert r.client.privateTopics == c.privateTopics - {name};
  }

  /**
   A client added under a fresh id and removed again leaves the hub as it
   was, provided no public topic still lists that id.
   */
  lemma NewClientThenRemove(h: Hub, id: string, freshId: string, pubOrder: seq<string>)
    requires (if id == "" then freshId else id) !in h.clients
    requires forall k :: k in h.publicTopics ==> !IsSubscribed(h.publicTopics[k], if id == "" then freshId else id)
    requires Enumerates(pubOrder, h.publicTopics.Keys)
    ensures var key := if id == "" then freshId else id;
            Clients.RemoveClient(NewClient(h, id, freshId).0, key, [], pubOrder) == (h, None)
  {
    var key := if id == "" then freshId else id;
    var h1 := NewClient(h, id, freshId).0;
    var r := Clients.RemoveClient(h1, key, [], pubOrder).0;
    forall k | k in h.publicTopics
      ensures r.publicTopics[k] == h.publicTopics[k]
    {
      UnchangedWithoutClient(h.publicTopics[k], r.publicTopics[k], key);
    }
    assert r.publicTopics == h.publicTopics;
    assert r.clients == h.clients;
  }

  // ---------------------------------------------------------------------
  // The invariant Valid
  // ---------------------------------------------------------------------

  /** Writing back a client step keeps Valid when the step keeps the client's own invariant. */
  lemma CommitKeepsValid(h: Hub, key: string, s: Step)
    requires Valid(h)
    requires ClientValid(key, s.client) && KeyedByName(s.publicTopics)
    ensures Valid(Commit(h, key, s))
  {
  }

  /** The Subscribe handler keeps the hub invariant, whatever it answers. */
  lemma SubscribeKeepsValid(h: Hub, clientId: string, topic: string)
    requires Valid(h)
    ensures Valid(Handler.Subscribe(h, clientId, topic).hub)
  {
    if clientId in h.clients && topic in GetTopics(h.clients[clientId], h.publicTopics) {
      var s := Sub(h.clients[clientId], h.publicTopics, topic);
      assert s.client.id == clientId;
      CommitKeepsValid(h, clientId, s);
    }
  }

  /** The Unsubscribe handler keeps the hub invariant, whatever it answers. */
  lemma UnsubscribeKeepsValid(h: Hub, clientId: string, topic: string)
    requires Valid(h)
    ensures Valid(Handler.Unsubscribe(h, clientId, topic).hub)
  {
    if clientId in h.clients && topic in GetTopics(h.clients[clientId], h.publicTopics) {
      var s := Unsub(h.clients[clientId], h.publicTopics, topic);
      CommitKeepsValid(h, clientId, s);
    }
  }

  /** A new private topic is stored under its name and has no subscriber, so the invariant holds afterwards. */
  lemma NewPrivateTopicKeepsValid(h: Hub, clientId: string, name: string, order: seq<string>)
    requires Valid(h) && clientId in h.clients
    requires Enumerates(order, GetTopics(h.clients[clientId], h.publicTopics).Keys + {name})
    ensures Valid(Commit(h, clientId, NewPrivateTopic(h.clients[clientId], h.publicTopics, name, order)))
  {
    var c := h.clients[clientId];
    var s := NewPrivateTopic(c, h.publicTopics, name, order);
    if name !in c.privateTopics {
      var top := NewTopic(name, Private, "");
      assert s.client.privateTopics == c.privateTopics[name := top];
      assert top.name == name && top.subscribers == {};
      assert s.client.id == clientId;
      assert KeyedByName(s.client.privateTopics) by {
        forall k | k in s.client.privateTopics
          ensures s.client.privateTopics[k].name == k
        {
          if k != name {
            assert s.client.privateTopics[k] == c.privateTopics[k];
          }
        }
      }
      assert OwnerOnly(s.client) by {
        forall k | k in s.client.privateTopics
          ensures s.client.privateTopics[k].subscribers <= {s.client.id}
        {
          if k != name {
            assert s.client.privateTopics[k] == c.privateTopics[k];
          }
        }
      }
    }
    CommitKeepsValid(h, clientId, s);
  }

  /** Deleting a private topic keeps the hub invariant. */
  lemma RemovePrivateTopicKeepsValid(h: Hub, clientId: string, name: string)
    requires Valid(h) && clientId in h.clients
    ensures Valid(Commit(h, clientId, RemovePrivateTopic(h.clients[clientId], h.publicTopics, name)))
  {
    var c := h.clients[clientId];
    var s := RemovePrivateTopic(c, h.publicTopics, name);
    if name in c.privateTopics {
      var u := Unsub(c, h.publicTopics, name);
      assert s.client.id == clientId;
    }
    CommitKeepsValid(h, clientId, s);
  }

  /** Removing a client keeps the hub invariant: the remaining clients are untouched and public topics keep their names. */
  lemma RemoveClientKeepsValid(h: Hub, id: string, privOrder: seq<string>, pubOrder: seq<string>)
    requires Valid(h)
    requires id in h.clients ==> Enumerates(privOrder, h.clients[id].privateTopics.Keys)
    requires Enumerates(pubOrder, h.publicTopics.Keys)
    ensures Valid(Clients.RemoveClient(h, id, privOrder, pubOrder).0)
  {
  }

  /**
   No client keeps its status changed by an operation: Receving is only ever
   set outside the registry (by the streaming side).
   */
  lemma OperationsKeepStatus(c: Client, pub: map<string, Topic>, name: string, data: Payload)
    ensures Sub(c, pub, name).client.status == c.status
    ensures Unsub(c, pub, name).client.status == c.status
    ensures RemovePrivateTopic(c, pub, name).client.status == c.status
    ensures Clients.Pub(c, pub, name, data).client.status == c.status
  {
  }

  // ---------------------------------------------------------------------
  // The RemoveClient cascade
  // ---------------------------------------------------------------------

  /**
   When no private topic of the client shadows a public one, Unsub-ing a
   list of names takes the client out of every public topic the list names.
   */
  lemma {:induction false} UnsubAllClears(c: Client, pub: map<string, Topic>, names: seq<string>)
    requires c.privateTopics.Keys !! pub.Keys
    ensures forall n :: n in names && n in pub ==> !IsSubscribed(UnsubAll(c, pub, names).1[n], c.id)
    decreases |names|
  {
    if names != [] {
      var s := Unsub(c, pub, names[0]);
      assert s.client.privateTopics.Keys == c.privateTopics.Keys;
      assert s.publicTopics.Keys == pub.Keys;
      UnsubAllClears(s.client, s.publicTopics, names[1..]);
      var r := UnsubAll(c, pub, names);
      assert r == UnsubAll(s.client, s.publicTopics, names[1..]);
      if names[0] in pub {
        assert !IsSubscribed(s.publicTopics[names[0]], c.id);
      }
      forall n | n in names && n in pub
        ensures !IsSubscribed(r.1[n], c.id)
      {
        if n != names[0] {
          assert n in names[1..];
        }
      }
    }
  }

  /**
   The cascade of RemoveClient: provided the client's private topic names
   and the public topic names are disjoint, its id is left in no public
   topic.
   */
  lemma RemoveClientClearsSubscriptions(h: Hub, id: string, privOrder: seq<string>, pubOrder: seq<string>)
    requires Valid(h) && id in h.clients
    requires h.clients[id].privateTopics.Keys !! h.publicTopics.Keys
    requires Enumerates(privOrder, h.clients[id].privateTopics.Keys)
    requires Enumerates(pubOrder, h.publicTopics.Keys)
    ensures var r := Clients.RemoveClient(h, id, privOrder, pubOrder).0;
            forall k :: k in r.publicTopics ==> !IsSubscribed(r.publicTopics[k], id)
  {
    var cl := h.clients[id];
    var privNames := NamesInOrder(cl.privateTopics, privOrder);
    PublicNamesListed(privNames, h.publicTopics, pubOrder);
    UnsubAllClears(cl, h.publicTopics, privNames + NamesInOrder(h.publicTopics, pubOrder));
  }

  /** The cascade's list of names covers every public topic, whatever comes before it. */
  lemma PublicNamesListed(prefix: seq<string>, m: map<string, Topic>, order: seq<string>)
    requires KeyedByName(m) && Enumerates(order, m.Keys)
    ensures forall i :: 0 <= i < |order| ==> order[i] in m
    ensures forall k :: k in m ==> k in prefix + NamesInOrder(m, order)
  {
    var names := NamesInOrder(m, order);
    forall k | k in m
      ensures k in prefix + names
    {
      var i :| 0 <= i < |order| && order[i] == k;
      assert (prefix + names)[|prefix| + i] == k;
    }
  }

  /** Under that same disjointness, RemoveClient as written and as corrected agree. */
  lemma RemoveClientAgreesWithCorrected(h: Hub, id: string, privOrder: seq<string>, pubOrder: seq<string>)
    requires Valid(h) && id in h.clients
    requires h.clients[id].privateTopics.Keys !! h.publicTopics.Keys
    requires Enumerates(privOrder, h.clients[id].privateTopics.Keys)
    requires Enumerates(pubOrder, h.publicTopics.Keys)
    ensures Clients.RemoveClient(h, id, privOrder, pubOrder) == RemoveClientCorrected(h, id)
  {
    RemovalsAgreeOnPublicTopics(h, id, privOrder, pubOrder);
  }

  /** The public topics the two removals leave behind are the same, topic by topic. */
  lemma RemovalsAgreeOnPublicTopics(h: Hub, id: string, privOrder: seq<string>, pubOrder: seq<string>)
    requires Valid(h) && id in h.clients
    requires h.clients[id].privateTopics.Keys !! h.publicTopics.Keys
    requires Enumerates(privOrder, h.clients[id].privateTopics.Keys)
    requires Enumerates(pubOrder, h.publicTopics.Keys)
    ensures Clients.RemoveClient(h, id, privOrder, pubOrder).0.publicTopics == RemoveClientCorrected(h, id).0.publicTopics
  {
    var r := Clients.RemoveClient(h, id, privOrder, pubOrder).0;
    var q := RemoveClientCorrected(h, id).0;
    RemoveClientClearsSubscriptions(h, id, privOrder, pubOrder);
    forall k | k in h.publicTopics
      ensures r.publicTopics[k] == q.publicTopics[k]
    {
      var t := h.publicTopics[k];
      RemovedExactly(t, r.publicTopics[k], id);
      RemovedExactly(t, q.publicTopics[k], id);
    }
  }

  /**
   The counterexample: a client subscribed to the public topic "x" that then
   creates a private topic "x" is removed from the hub while the public "x"
   still lists it, because every Unsub("x") of the cascade resolves to the
   private topic first.
   */
  lemma ShadowedSubscriptionSurvives()
    ensures var h0 := ShadowStart();
            var s1 := Sub(h0.clients["c"], h0.publicTopics, "x");
            var h1 := Commit(h0, "c", s1);
            var s2 := NewPrivateTopic(h1.clients["c"], h1.publicTopics, "x", ["x"]);
            var h2 := Commit(h1, "c", s2);
            var r := Clients.RemoveClient(h2, "c", ["x"], ["x"]);
            && Valid(h2)
            && s1.err == None && s2.err == None && r.1 == None
            && "c" !in r.0.clients
            && IsSubscribed(r.0.publicTopics["x"], "c")
            && !IsSubscribed(RemoveClientCorrected(h2, "c").0.publicTopics["x"], "c")
  {
    ShadowSubscribe();
    ShadowCreate();
    ShadowRemoval();
  }

  /** The hub of the counterexample before anything happens: client "c" and an empty public "x". */
  function ShadowStart(): Hub
  {
    Hub(map["c" := Client("c", Waiting, map[], [])],
        map["x" := Topic("x", "t1", Public, {})], 10, "client_id", "topic")
  }

  /** The hub of the counterexample once "c" is subscribed to the public "x". */
  function SubscribedHub(): Hub
  {
    Hub(map["c" := Client("c", Waiting, map[], [])],
        map["x" := Topic("x", "t1", Public, {"c"})], 10, "client_id", "topic")
  }

  /** The hub of the counterexample once "c" is subscribed to the public "x" and owns a private "x". */
  function ShadowedHub(): Hub
  {
    Hub(map["c" := Client("c", Waiting, map["x" := Topic("x", "", Private, {})], [])],
        map["x" := Topic("x", "t1", Public, {"c"})], 10, "client_id", "topic")
  }

  lemma ShadowSubscribe()
    ensures var h0 := ShadowStart();
            var s1 := Sub(h0.clients["c"], h0.publicTopics, "x");
            s1.err == None && Commit(h0, "c", s1) == SubscribedHub()
  {
    var h0 := ShadowStart();
    var c0 := h0.clients["c"];
    var s1 := Sub(c0, h0.publicTopics, "x");
    assert "x" !in c0.privateTopics && c0.id == "c";
    assert AddClient(h0.publicTopics["x"], "c") == Topic("x", "t1", Public, {"c"});
    assert s1.publicTopics == map["x" := Topic("x", "t1", Public, {"c"})];
    assert s1.client == c0;
  }

  lemma ShadowCreate()
    ensures var h1 := SubscribedHub();
            var s2 := NewPrivateTopic(h1.clients["c"], h1.publicTopics, "x", ["x"]);
            s2.err == None && Commit(h1, "c", s2) == ShadowedHub()
  {
  }

  lemma ShadowRemoval()
    ensures var h2 := ShadowedHub();
            var r := Clients.RemoveClient(h2, "c", ["x"], ["x"]);
            && Valid(h2)
            && r.1 == None
            && "c" !in r.0.clients
            && IsSubscribed(r.0.publicTopics["x"], "c")
            && !IsSubscribed(RemoveClientCorrected(h2, "c").0.publicTopics["x"], "c")
  {
    var h2 := ShadowedHub();
    var cl := h2.clients["c"];
    var names := NamesInOrder(cl.privateTopics, ["x"]) + NamesInOrder(h2.publicTopics, ["x"]);
    assert names == ["x", "x"];
    var u1 := Unsub(cl, h2.publicTopics, "x");
    assert u1.err == Some(NotSubscribed("c", "x"));
    var u2 := Unsub(u1.client, u1.publicTopics, "x");
    assert u2.publicTopics == h2.publicTopics;
    assert UnsubAll(cl, h2.publicTopics, names) == (u2.client, u2.publicTopics);
  }

  /**
   As corrected, removing a client leaves its id in no topic that any
   remaining client can see, public or private.
   */
  lemma CorrectedRemovalLeavesNoSubscription(h: Hub, id: string)
    requires Valid(h) && id in h.clients
    ensures var h' := RemoveClientCorrected(h, id).0;
            && Valid(h')
            && forall other, n :: other in h'.clients && n in GetTopics(h'.clients[other], h'.publicTopics) ==>
                 !IsSubscribed(GetTopics(h'.clients[other], h'.publicTopics)[n], id)
  {
    var h' := RemoveClientCorrected(h, id).0;
    forall other, n | other in h'.clients && n in GetTopics(h'.clients[other], h'.publicTopics)
      ensures !IsSubscribed(GetTopics(h'.clients[other], h'.publicTopics)[n], id)
    {
      var c := h'.clients[other];
      assert other != id && c == h.clients[other];
      if n in c.privateTopics {
        assert c.privateTopics[n].subscribers <= {other};
      }
    }
  }

  // ---------------------------------------------------------------------
  // The handlers
  // ---------------------------------------------------------------------

  /** Adding the same non-empty client id twice leaves the hub as the first addition left it. */
  lemma AddClientRequestIdempotent(h: Hub, id: string, fresh1: string, fresh2: string)
    requires id != ""
    ensures var h1 := Handler.AddClient(h, id, fresh1).hub;
            Handler.AddClient(h1, id, fresh2) == Handler.Response(h1, Handler.StatusOK)
  {
  }

  /** The Subscribe handler's topic check is exactly Sub's failure condition: past it, Sub never fails. */
  lemma SubscribeCheckMatchesSub(h: Hub, clientId: string, topic: string)
    requires clientId in h.clients
    ensures Handler.Subscribe(h, clientId, topic).status == Handler.StatusNotFound
            <==> Sub(h.clients[clientId], h.publicTopics, topic).err.Some?
  {
  }

  // ---------------------------------------------------------------------
  // Scenarios
  // ---------------------------------------------------------------------

  /**
   A Receving client "c1" creates the private topic "orders", subscribes to
   it and publishes on it: its own stream holds the topic list, the
   "subscribed" entry and the update, in that order. A second creation of
   "orders" is TopicExists.
   */
  lemma OrdersScenario(data: Payload)
    ensures var c := Client("c1", Receving, map[], []);
            var s1 := NewPrivateTopic(c, map[], "orders", ["orders"]);
            var s2 := Sub(s1.client, s1.publicTopics, "orders");
            var s3 := Clients.Pub(s2.client, s2.publicTopics, "orders", data);
            && s1.err == None && s2.err == None && s3.err == None
            && s3.client.stream == [
                 Envelope([SysEntry(TopicsKind, [ListEntry("orders", "private")])], []),
                 Envelope([SysEntry(SubscribedKind, [ListEntry("orders", "")])], []),
                 Envelope([], [Update("orders", data)])]
            && NewPrivateTopic(s3.client, s3.publicTopics, "orders", ["orders"]).err == Some(TopicExists("orders"))
  {
    OrdersCreated();
  }

  /** The first step of the scenario: "orders" exists, and the client has been sent the topic list naming it. */
  lemma OrdersCreated()
    ensures NewPrivateTopic(Client("c1", Receving, map[], []), map[], "orders", ["orders"]) ==
              Step(Client("c1", Receving, map["orders" := NewTopic("orders", Private, "")],
                          [Envelope([SysEntry(TopicsKind, [ListEntry("orders", "private")])], [])]),
                   map[], None)
  {
    var top := NewTopic("orders", Private, "");
    var r := NewPrivateTopic(Client("c1", Receving, map[], []), map[], "orders", ["orders"]);
    assert GetTopics(r.client, map[]) == map["orders" := top];
    assert TopicsList(map["orders" := top], ["orders"]) == [ListEntry("orders", "private")];
  }

  /** A client's publish writes only its own stream: every other client of the hub is untouched. */
  lemma ClientPubTouchesNoOtherClient(h: Hub, publisher: string, to: string, data: Payload)
    requires publisher in h.clients
    ensures var s := Clients.Pub(h.clients[publisher], h.publicTopics, to, data);
            var h' := Commit(h, publisher, s);
            && h'.publicTopics == h.publicTopics
            && forall other :: other in h.clients && other != publisher ==> h'.clients[other] == h.clients[other]
  {
  }
}
