/**
 The hub of handler.go: its initial state, the public publish, and the
 decision logic of the AddClient, Subscribe and Unsubscribe HTTP handlers,
 reduced to the status code they answer and the state they leave. Query
 parsing, headers and response bodies are not modelled.
 */
module Handler {
  import opened Common
  import opened Wire
  import opened Topics
  import opened Registry
  import opened Clients

  const StatusOK: int := 200
  const StatusNotFound: int := 404

  /** The hub after a request, and the HTTP status the handler wrote. */
  datatype Response = Response(hub: Hub, status: int)

  /** NewSSEPubSubHandler: no client, no public topic, a 10 s timeout, and the two query parameter names. */
  function NewSSEPubSubHandler(): (h: Hub)
    ensures h.clients == map[] && h.publicTopics == map[]
    ensures h.timeoutSeconds == 10
    ensures h.clientIdQueryParameter == "client_id" && h.topicQueryParameter == "topic"
    ensures Valid(h)
  {
    Hub(map[], map[], 10, "client_id", "topic")
  }

  /** AddClient: always 200, with the effect of NewClient. */
  function AddClient(h: Hub, clientId: string, freshId: string): (r: Response)
    ensures r.status == StatusOK
    ensures r.hub == NewClient(h, clientId, freshId).0
    ensures Valid(h) ==> Valid(r.hub)
  {
    Response(NewClient(h, clientId, freshId).0, StatusOK)
  }

  /**
   Subscribe: an unknown client is 404, then a topic the client cannot see
   is 404, both without any change; otherwise the client Subs and the answer
   is 200.
   */
  function Subscribe(h: Hub, clientId: string, topic: string): (r: Response)
    ensures clientId !in h.clients ==> r == Response(h, StatusNotFound)
    ensures clientId in h.clients && topic !in GetTopics(h.clients[clientId], h.publicTopics) ==>
              r == Response(h, StatusNotFound)
    ensures clientId in h.clients && topic in GetTopics(h.clients[clientId], h.publicTopics) ==>
              && r.status == StatusOK
              && r.hub == Commit(h, clientId, Sub(h.clients[clientId], h.publicTopics, topic))
              && Sub(h.clients[clientId], h.publicTopics, topic).err == None
  {
    if clientId !in h.clients then Response(h, StatusNotFound)
    else
      var client := h.clients[clientId];
      if topic !in GetTopics(client, h.publicTopics) then Response(h, StatusNotFound)
      else Response(Commit(h, clientId, Sub(client, h.publicTopics, topic)), StatusOK)
  }

  /**
   Unsubscribe: the same checks in the same order; then the client Unsubs
   and the answer is 200 whatever Unsub returned (its error is dropped, so a
   client that was not subscribed also gets 200).
   */
  function Unsubscribe(h: Hub, clientId: string, topic: string): (r: Response)
    ensures clientId !in h.clients ==> r == Response(h, StatusNotFound)
    ensures clientId in h.clients && topic !in GetTopics(h.clients[clientId], h.publicTopics) ==>
              r == Response(h, StatusNotFound)
    ensures clientId in h.clients && topic in GetTopics(h.clients[clientId], h.publicTopics) ==>
              && r.status == StatusOK
              && r.hub == Commit(h, clientId, Unsub(h.clients[clientId], h.publicTopics, topic))
    ensures clientId in h.clients && topic in GetTopics(h.clients[clientId], h.publicTopics)
            && !IsSubscribed(GetTopics(h.clients[clientId], h.publicTopics)[topic], h.clients[clientId].id) ==>
              r.status == StatusOK && r.hub.publicTopics == h.publicTopics && r.hub.clients == h.clients
  {
    if clientId !in h.clients then Response(h, StatusNotFound)
    else
      var client := h.clients[clientId];
      if topic !in GetTopics(client, h.publicTopics) then Response(h, StatusNotFound)
      else Response(Commit(h, clientId, Unsub(client, h.publicTopics, topic)), StatusOK)
  }

  /**
   The client `c` after the hub's publish has pushed to it: one envelope if
   it is among the first `done` subscribers of the iteration order, else none.
   */
  ghost predicate PubPushed(c: Client, c': Client, id: string, order: seq<string>, done: nat,
                            build: (string, Payload) -> Result<Envelope, string>, message: Payload)
    requires done <= |order|
  {
    && c'.id == c.id && c'.status == c.status && c'.privateTopics == c.privateTopics
    && (id in order[..done] ==> build(id, message).Success? && c'.stream == c.stream + [build(id, message).value])
    && (id !in order[..done] ==> c'.stream == c.stream)
  }

  /**
   Pub (hub side): a name that is not a public topic is TopicNotFound and
   pushes nothing. Otherwise each subscriber of the topic, in the map's
   iteration order `order`, gets one envelope from the opaque payload
   builder (generateUpdateData), pushed whatever its status. The first build
   error is returned and the remaining subscribers get nothing. `build(id, message)`
   is the builder's answer for the subscriber `id` and the published message.
   The envelope goes to the hub's current client of that id; a subscriber id
   that is no longer a client of the hub receives nothing observable.
   */
  method Pub(h: Hub, topic: string, message: Payload, order: seq<string>,
             build: (string, Payload) -> Result<Envelope, string>)
    returns (h': Hub, err: Option<Error>)
    requires topic in h.publicTopics ==> Enumerates(order, GetClients(h.publicTopics[topic]))
    ensures topic !in h.publicTopics ==> h' == h && err == Some(TopicNotFound(topic))
    ensures topic in h.publicTopics ==>
              var k := FirstFailing(order, id => build(id, message).Failure?);
              && h'.publicTopics == h.publicTopics
              && h'.clients.Keys == h.clients.Keys
              && (err == None <==> k == |order|)
              && (k < |order| ==> err == Some(BuildFailed(build(order[k], message).error)))
              && forall id :: id in h.clients ==> PubPushed(h.clients[id], h'.clients[id], id, order, k, build, message)
    ensures topic in h.publicTopics && err == None ==>
              forall id :: id in h.clients ==>
                && (IsSubscribed(h.publicTopics[topic], id) ==>
                      h'.clients[id] == h.clients[id].(stream := h.clients[id].stream + [build(id, message).value]))
                && (!IsSubscribed(h.publicTopics[topic], id) ==> h'.clients[id] == h.clients[id])
  {
    if topic !in h.publicTopics {
      return h, Some(TopicNotFound(topic));
    }
    ghost var k := FirstFailing(order, id => build(id, message).Failure?);
    var clients := h.clients;
    var i := 0;
    while i < |order|
      invariant 0 <= i <= k
      invariant clients.Keys == h.clients.Keys
      invariant forall id :: id in h.clients ==> PubPushed(h.clients[id], clients[id], id, order, i, build, message)
    {
      var id := order[i];
      var r := build(id, message);
      if r.Failure? {
        return h.(clients := clients), Some(BuildFailed(r.error));
      }
      if id in clients {
        clients := clients[id := clients[id].(stream := clients[id].stream + [r.value])];
      }
      assert order[..i + 1] == order[..i] + [id];
      i := i + 1;
    }
    assert order[..i] == order;
    return h.(clients := clients), None;
  }
}
