/**
 The shared state of the hub (sSEPubSubHandler): the clients by id and the
 public topics by name. A client keeps its status, its own private topics
 and its outbound stream; its `publicTopics` field in Go is the hub's map
 itself (the same reference), so the model does not copy it: client
 operations read and write the hub's public topics directly.
 */
module Registry {
  import opened Wire
  import opened Topics

  /** Receving (sic) is set by the streaming loop, which is not part of this model. */
  datatype Status = Waiting | Receving

  /** The outbound stream is the sequence of envelopes pushed so far. */
  datatype Client = Client(id: string, status: Status, privateTopics: map<string, Topic>, stream: seq<Envelope>)

  datatype Hub = Hub(
    clients: map<string, Client>,
    publicTopics: map<string, Topic>,
    timeoutSeconds: nat,
    clientIdQueryParameter: string,
    topicQueryParameter: string)

  /** Every topic is stored under its own name. */
  ghost predicate KeyedByName(m: map<string, Topic>)
  {
    forall k :: k in m ==> m[k].name == k
  }

  /**
   Only the owner can ever subscribe to a private topic: Sub resolves names
   in the caller's own private topics, never in another client's.
   */
  ghost predicate OwnerOnly(c: Client)
  {
    forall k :: k in c.privateTopics ==> c.privateTopics[k].subscribers <= {c.id}
  }

  ghost predicate ClientValid(key: string, c: Client)
  {
    c.id == key && KeyedByName(c.privateTopics) && OwnerOnly(c)
  }

  /** The invariant every operation of the model keeps. */
  ghost predicate Valid(h: Hub)
  {
    && KeyedByName(h.publicTopics)
    && forall id :: id in h.clients ==> ClientValid(id, h.clients[id])
  }

  /**
   `c'` is `c` after a status-guarded push of `e`: the envelope is appended
   when the client is Receving and dropped when it is Waiting. Identity and
   status are untouched.
   */
  predicate Pushed(c: Client, c': Client, e: Envelope)
  {
    && c'.id == c.id
    && c'.status == c.status
    && (c.status == Receving ==> c'.stream == c.stream + [e])
    && (c.status == Waiting ==> c'.stream == c.stream)
  }
}
