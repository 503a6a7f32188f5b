/**
 A topic (topic.go): a named channel with a visibility class and the set of
 ids of the clients subscribed to it. Go keeps the subscribers as a map from
 client id to client pointer; a client is identified by its id, so the model
 keeps the key set. Every operation is atomic: the topic's mutex only
 serialises them.
 */
module Topics {
  import opened Common
  import opened Wire

  datatype Topic = Topic(name: string, id: string, ttype: TopicType, subscribers: set<string>)

  /** newTopic: a topic of the given name and type with no subscriber; `id` is the generated uuid. */
  function NewTopic(name: string, ttype: TopicType, id: string): (t: Topic)
    ensures GetName(t) == name && GetID(t) == id && GetType(t) == TypeName(ttype)
    ensures forall c :: !IsSubscribed(t, c)
  {
    Topic(name, id, ttype, {})
  }

  function GetName(t: Topic): string { t.name }

  function GetID(t: Topic): string { t.id }

  function GetType(t: Topic): string { TypeName(t.ttype) }

  /** True iff the client with id `c` is a subscriber. */
  predicate IsSubscribed(t: Topic, c: string)
  {
    c in t.subscribers
  }

  /** The fields a subscriber change must leave alone. */
  predicate SameIdentity(t: Topic, u: Topic)
  {
    t.name == u.name && t.id == u.id && t.ttype == u.ttype
  }

  /** addClient: afterwards `c` is subscribed; no other subscriber entry changes. */
  function AddClient(t: Topic, c: string): (r: Topic)
    ensures SameIdentity(t, r)
    ensures IsSubscribed(r, c)
    ensures forall x :: x != c ==> (IsSubscribed(r, x) <==> IsSubscribed(t, x))
  {
    t.(subscribers := t.subscribers + {c})
  }

  /** removeClient: afterwards `c` is not subscribed; no other subscriber entry changes. */
  function RemoveClient(t: Topic, c: string): (r: Topic)
    ensures SameIdentity(t, r)
    ensures !IsSubscribed(r, c)
    ensures forall x :: x != c ==> (IsSubscribed(r, x) <==> IsSubscribed(t, x))
  {
    t.(subscribers := t.subscribers - {c})
  }

  /** GetClients: a copy of the subscriber ids taken now. */
  function GetClients(t: Topic): (snapshot: set<string>)
    ensures forall x :: x in snapshot <==> IsSubscribed(t, x)
  {
    t.subscribers
  }

  lemma AddClientIdempotent(t: Topic, c: string)
    ensures AddClient(AddClient(t, c), c) == AddClient(t, c)
  {
  }

  lemma RemoveAbsentClientIsNoOp(t: Topic, c: string)
    requires !IsSubscribed(t, c)
    ensures RemoveClient(t, c) == t
  {
  }

  /** Removing a client undoes adding it, when it was not subscribed before. */
  lemma RemoveUndoesAdd(t: Topic, c: string)
    requires !IsSubscribed(t, c)
    ensures RemoveClient(AddClient(t, c), c) == t
  {
  }

  /**
   RemoveClient is the only change that keeps the topic's identity, drops
   `c` and keeps every other subscriber entry as it was.
   */
  lemma RemovedExactly(t: Topic, u: Topic, c: string)
    requires SameIdentity(t, u) && !IsSubscribed(u, c)
    requires forall x :: x != c ==> (IsSubscribed(u, x) <==> IsSubscribed(t, x))
    ensures u == RemoveClient(t, c)
  {
    forall x
      ensures x in u.subscribers <==> x in t.subscribers - {c}
    {
      if x != c {
        assert IsSubscribed(u, x) <==> IsSubscribed(t, x);
      }
    }
  }

  /** A change that only may drop `c` leaves a topic `c` was never in as it was. */
  lemma UnchangedWithoutClient(t: Topic, u: Topic, c: string)
    requires SameIdentity(t, u) && !IsSubscribed(t, c)
    requires u.subscribers <= t.subscribers && t.subscribers - {c} <= u.subscribers
    ensures u == t
  {
    assert t.subscribers - {c} == t.subscribers;
  }

  /** One call of Client.send made by a publish: the recipient id and the envelope handed over. */
  datatype Attempt = Attempt(to: string, envelope: Envelope)

  /**
   Pub: builds the envelope `{updates: [{topic: name, data: msg}]}` once and
   hands it to every client of the subscriber snapshot, in the map's
   iteration order `order`. `sendFails` is the opaque outcome of Client.send
   for each recipient: a failure is logged (its id lands in `logged`) and the
   loop goes on. Pub always returns nil.
   */
  method Pub(t: Topic, msg: Payload, order: seq<string>, sendFails: string -> bool)
    returns (err: Option<Error>, attempts: seq<Attempt>, logged: seq<string>)
    requires Enumerates(order, GetClients(t))
    ensures err == None
    ensures |attempts| == |order|
    ensures forall i :: 0 <= i < |attempts| ==> attempts[i].envelope == UpdateEnvelope(GetName(t), msg)
    ensures forall x :: (exists i :: 0 <= i < |attempts| && attempts[i].to == x) <==> IsSubscribed(t, x)
    ensures forall i, j :: 0 <= i < j < |attempts| ==> attempts[i].to != attempts[j].to
    ensures forall x :: x in logged <==> IsSubscribed(t, x) && sendFails(x)
  {
    var env := UpdateEnvelope(GetName(t), msg);
    var snapshot := GetClients(t);
    attempts, logged := [], [];
    var i := 0;
    while i < |order|
      invariant 0 <= i <= |order|
      invariant |attempts| == i
      invariant forall k :: 0 <= k < i ==> attempts[k] == Attempt(order[k], env)
      invariant forall x :: x in logged <==> x in order[..i] && sendFails(x)
    {
      var c := order[i];
      attempts := attempts + [Attempt(c, env)];
      if sendFails(c) {
        logged := logged + [c];
      }
      i := i + 1;
    }
    assert order[..i] == order;
    assert forall x :: (exists k :: 0 <= k < |attempts| && attempts[k].to == x) ==> x in order;
    assert forall x :: x in order ==> exists k :: 0 <= k < |attempts| && attempts[k].to == x;
    err := None;
  }
}
