# pubsub-sse core in Dafny

A model of the core of a Go publish/subscribe library that feeds
Server-Sent-Event streams: the hub (`sSEPubSubHandler`) with its clients
and public topics, each client's private topics and topic views, the
Sub/Unsub/Pub operations, the client removal cascade, the JSON envelope
`{sys, updates}` every stream carries, and the decision logic of the HTTP
handlers for adding clients and (un)subscribing.

The model is purely functional. State is a `Hub` value. A client operation
takes the client and the hub's public-topic map, which Go shares by
reference between the hub and every client. It returns both, updated,
together with the error the Go code returns (`Clients.Step`).
`Clients.Commit` writes the result back. A client's outbound channel is the
sequence of envelopes pushed onto it so far. The status-guarded push of the
send helpers is `Registry.Pushed`: the envelope is appended if the client is
`Receving` and dropped if it is `Waiting`.

Go leaves map iteration order unspecified. Every operation that ranges over
a map therefore takes the order as a parameter and requires it to be one
(`Common.Enumerates`). Its results are stated for any such order.

Modules, following the source files:

- `Common` (common.dfy): `Option`, `Result`, the error kinds, `Enumerates`, `FirstFailing`.
- `Wire` (wire.dfy): topic types and the envelope.
- `Topics` (topic.dfy): topic.go.
- `Registry` (registry.dfy): the client and hub state and the invariant `Valid`.
- `Clients` (client.dfy): client.go.
- `Handler` (handler.dfy): handler.go.
- `Properties` (properties.dfy): lemmas relating several operations.

client.go and topic.go disagree on names. client.go has `topic`/`Clients`/`Type`/`Name` in package `main`; topic.go has `Topic`/`clients`/`ttype`/`name` in package `pubsubsse`. The model has one topic type for both.

Behaviour of the code worth noting:

- Hub `Pub` (handler.go:168-189) does not delegate to the topic's `Pub`. It iterates the subscribers itself and pushes whatever the client's status. The first payload error aborts the rest.
- `RemovePrivateTopic` Unsubs only the owner. The invariant `OwnerOnly` shows that this empties the topic.
- No code shown ever sets a client `Receving`, because the `Event` loop does not. In every state reachable through the model, client `Pub` answers `NotReceiving` and every status-guarded push is dropped. The contracts are still stated for both statuses.
- The removal cascade can leave a subscription behind (see Findings).

## Model

| member | source | states |
|---|---|---|
| Wire.TypeName | topic.go:13-17 | the wire strings of the three topic types are "public", "private" and "group"; each string belongs to exactly one type |
| Wire.SubscriptionEnvelope | client.go:396-448 | a "subscribed"/"unsubscribed" notification has one system entry of that kind whose list is a single element naming the topic, without a type, and no update |
| Wire.UpdateEnvelope | client.go:291-301 | a data frame has no system entry and exactly one update carrying the topic name and the data unchanged |
| Topics.NewTopic | topic.go:29-36 | a new topic reports the given name, id and type through its getters and has no subscriber |
| Topics.IsSubscribed | topic.go:91-98 | a client is subscribed exactly when its id is a key of the topic's subscriber map; the contracts of AddClient, RemoveClient, GetClients and NewTopic are stated through it |
| Topics.AddClient | topic.go:63-68 | afterwards the client is subscribed; name, id, type and every other subscriber entry are unchanged |
| Topics.RemoveClient | topic.go:71-76 | afterwards the client is not subscribed; name, id, type and every other subscriber entry are unchanged |
| Topics.GetClients | topic.go:79-89 | the snapshot contains exactly the subscribed client ids |
| Topics.AddClientIdempotent | topic.go:63-68 | subscribing a client twice is the same as subscribing it once |
| Topics.RemoveAbsentClientIsNoOp | topic.go:71-76 | removing a client that is not subscribed changes nothing |
| Topics.RemoveUndoesAdd | topic.go:63-76 | removing a client undoes adding it, when it was not subscribed before |
| Topics.RemovedExactly | topic.go:71-76 | removeClient is the only change that keeps the topic's identity, drops the client and keeps every other subscriber |
| Topics.Pub | topic.go:121-141 | one send per subscriber of the snapshot, each recipient exactly once, all with the same update envelope; a failed send is logged and the loop goes on; the result is always nil |
| Common.FirstFailing | handler.go:178-183 | the position of the first subscriber whose payload cannot be built: every subscriber before it builds, the one at it does not |
| Clients.NewClient | client.go:30-57 | an empty id is replaced by the generated one; a known id returns the existing client and leaves the hub unchanged; otherwise exactly one Waiting client with no private topic and an empty stream is added; the invariant is kept |
| Clients.GetClient | client.go:67-75 | succeeds exactly when the id is a client, with that client; otherwise ClientNotFound(id) |
| Clients.UnsubAll | client.go:88-96 | the cascade of Unsubs keeps the client's identity, status and topic names, and a public topic can only lose this client's id |
| Clients.UnsubShrinks | client.go:213-245 | one Unsub of the cascade can only take the client's own id out of a public topic |
| Clients.RemoveClient | client.go:78-101 | an unknown id is ClientNotFound and changes nothing; otherwise the client is gone from the hub, every other client is unchanged, and public topics keep their identity and can lose only this client's id |
| Clients.RemoveClientCorrected | client.go:78-101 | as intended: the client is gone and its id is in no public topic, whatever private topic shadows the name; every other subscriber stays |
| Clients.GetTopics | client.go:151-164 | the view has exactly the public and private topic names; a private topic shadows a public one of the same name |
| Clients.GetSubscribedTopics | client.go:167-179 | exactly the visible topics that have this client as a subscriber, with the same topics |
| Clients.Send | client.go:308-312 | the envelope is appended to a Receving client's stream and dropped for a Waiting one |
| Clients.TopicsList | client.go:371-379 | the "topics" list names every visible topic exactly once, each with its type string, in iteration order |
| Clients.NameList | client.go:343-351 | the "subscribed" list names every subscribed topic exactly once, without a type, in iteration order |
| Clients.SendUpdate | client.go:291-315 | a Receving client is sent exactly the update envelope for the topic; its topics are unchanged |
| Clients.TopicsListEnvelope | client.go:364-380 | the system list is empty exactly when the client sees no topic, else it is a single "topics" entry listing them all |
| Clients.SendNewTopicsList | client.go:361-394 | a Receving client is sent the topic-list envelope of its current view |
| Clients.SendNewSubscribedTopic | client.go:396-421 | a Receving client is sent the "subscribed" notification naming the topic |
| Clients.SendUnsubscribedTopic | client.go:423-448 | a Receving client is sent the "unsubscribed" notification naming the topic |
| Clients.GenerateInit | client.go:317-359 | the init frame's Sys[0] lists every visible topic with its type (the same entry sendNewTopicsList sends); Sys[1] exists exactly when the client is subscribed to something and lists those names; every index the loops write is in range |
| Clients.InitSys | client.go:322-351 | the blank entries appended and then filled give "topics" at 0 and "subscribed" at 1, present exactly when those maps are non-empty |
| Clients.FillTopics | client.go:332-340 | the first loop leaves Sys[0] holding the "topics" list and touches no other entry |
| Clients.FillSubscribed | client.go:343-351 | the second loop leaves Sys[1] holding the "subscribed" list and Sys[0] as it was |
| Clients.NewPrivateTopic | client.go:104-129 | an existing private name is TopicExists and changes nothing; otherwise a private topic of that name with no subscriber is added and the new topic list is sent |
| Clients.Sub | client.go:182-210 | private topics are looked up before public ones; an unknown name is TopicNotFound and changes nothing; otherwise only the resolved topic gains the client's id and a "subscribed" notification is sent; the invariants are kept |
| Clients.Unsub | client.go:213-245 | the same lookup; unknown is TopicNotFound and not subscribed is NotSubscribed, both without change; otherwise only the resolved topic loses the client's id and an "unsubscribed" notification is sent |
| Clients.RemovePrivateTopic | client.go:132-148 | a non-private name is TopicNotFound; otherwise the topic is deleted, public and other private topics are untouched, and the owner is told "unsubscribed" iff it was subscribed |
| Clients.Pub | client.go:248-269 | a Waiting client gets NotReceiving and a name that is not its private topic gets TopicNotFound, without change; otherwise exactly one update frame is appended to its own stream |
| Handler.NewSSEPubSubHandler | handler.go:24-33 | no client, no public topic, a 10 s timeout, the query parameters "client_id" and "topic"; the invariant holds |
| Handler.AddClient | handler.go:36-47 | always 200, with the effect of NewClient |
| Handler.Subscribe | handler.go:50-85 | unknown client 404, then topic not in the client's view 404, both without change; otherwise 200 and the hub after Sub, which succeeds |
| Handler.Unsubscribe | handler.go:88-123 | the same two 404 checks; otherwise 200 whatever Unsub returned, so a client that was not subscribed also gets 200 and nothing changes |
| Handler.Pub | handler.go:168-189 | an unknown public topic is TopicNotFound; otherwise each subscriber in iteration order gets one payload built from its id and the published message, whatever its status, until the first build error, which is returned; with no error exactly the subscribers gain one envelope and every other client is unchanged |
| Properties.SubView | client.go:182-210 | through the topic view, Sub changes only the resolved topic, by adding the client |
| Properties.UnsubView | client.go:213-245 | through the topic view, a successful Unsub changes only the resolved topic, by removing the client |
| Properties.SubMakesSubscribed | client.go:182-210 | after Sub the topic is among the subscribed topics and no other subscription changed |
| Properties.UnsubMakesUnsubscribed | client.go:213-245 | after Unsub of a subscribed topic it is still visible, no longer subscribed, and no other subscription changed |
| Properties.SubUnsubRoundTrip | client.go:182-245 | Sub then Unsub of a topic the client was not in restores every topic, a Receving client is told "subscribed" then "unsubscribed", and another Unsub is NotSubscribed |
| Properties.PrivateRoundTrip | client.go:190-193 | the round trip through a private topic restores all topics |
| Properties.PublicRoundTrip | client.go:221-224 | the round trip through a public topic restores all topics |
| Properties.SubUnsubNotifies | client.go:206-242 | both halves of the round trip succeed and the notifications arrive in call order |
| Properties.ResubscribeNotifiesAgain | client.go:199-207 | subscribing again succeeds and changes no topic; a Receving client's stream gains the same "subscribed" notification for that topic twice, a Waiting client's nothing |
| Properties.OwnerUnsubEmptiesPrivateTopic | client.go:141-142 | because only the owner can subscribe to a private topic, the owner's single Unsub leaves it without subscriber |
| Properties.NewThenRemovePrivateTopic | client.go:104-148 | creating then removing a private topic restores the client's and the public topics and sends nothing on removal |
| Properties.RemoveUnsubscribedPrivateTopic | client.go:132-148 | removing a private topic the owner is not in just deletes it, silently |
| Properties.NewClientThenRemove | client.go:30-101 | adding a client under a fresh id and removing it again gives back the hub, when no public topic still lists that id |
| Properties.CommitKeepsValid | client.go:25-26 | writing a client's step back keeps the hub invariant when the step keeps the client's |
| Properties.SubscribeKeepsValid | handler.go:50-85 | the Subscribe handler keeps the invariant |
| Properties.UnsubscribeKeepsValid | handler.go:88-123 | the Unsubscribe handler keeps the invariant |
| Properties.NewPrivateTopicKeepsValid | client.go:104-129 | creating a private topic keeps the invariant |
| Properties.RemovePrivateTopicKeepsValid | client.go:132-148 | deleting a private topic keeps the invariant |
| Properties.RemoveClientKeepsValid | client.go:78-101 | removing a client keeps the invariant |
| Properties.OperationsKeepStatus | client.go:182-269 | Sub, Unsub, RemovePrivateTopic and Pub never change the client's status |
| Properties.UnsubAllClears | client.go:88-96 | without shadowing, the cascade takes the client out of every public topic it names |
| Properties.PublicNamesListed | client.go:94-96 | the cascade's list of names covers every public topic |
| Properties.RemoveClientClearsSubscriptions | client.go:78-101 | when no private name shadows a public one, the removed id is in no public topic |
| Properties.RemovalsAgreeOnPublicTopics | client.go:93-96 | without shadowing, both removals leave the same public topics |
| Properties.RemoveClientAgreesWithCorrected | client.go:78-101 | without shadowing, RemoveClient as written and as corrected give the same hub |
| Properties.ShadowedSubscriptionSurvives | client.go:88-96 | a client subscribed to public "x" that creates private "x" is removed while public "x" still lists it; the corrected removal clears it |
| Properties.CorrectedRemovalLeavesNoSubscription | client.go:78-101 | after the corrected removal the removed id is in no topic any remaining client can see, and the invariant holds |
| Properties.AddClientRequestIdempotent | handler.go:36-47 | adding the same non-empty client id twice answers 200 and leaves the hub as the first request left it |
| Properties.SubscribeCheckMatchesSub | handler.go:68-79 | the handler answers 404 exactly when Sub itself would fail |
| Properties.OrdersScenario | client.go:248-269 | a Receving client that creates "orders", subscribes and publishes has the topic list, the "subscribed" entry and the update on its stream in that order; creating "orders" again is TopicExists |
| Properties.OrdersCreated | client.go:104-129 | creating "orders" stores it and sends the list naming it as private |
| Properties.ClientPubTouchesNoOtherClient | client.go:248-269 | a client's publish writes only its own stream: the public topics and every other client are unchanged |

## Left out

- The `Event` handler (handler.go:125-165) is out: it is the SSE streaming loop, with HTTP headers, flushing and a sleep-poll.
- `Event` never sets a client `Receving`, so nothing in the model does either; the status is an input of every contract.
- Locks and concurrency are out. Every operation is one atomic step.
- Clients.RemovePrivateTopic: models the sequential intent. In Go the call deadlocks: it holds the client's mutex (client.go:138-139) and then calls `Unsub`, which locks the same non-reentrant mutex (client.go:142, 214).
- Unbuffered channels are out: a send on `stream` blocks in Go until the reader takes it. The model appends to a sequence.
- Handler.Pub: topics keep subscriber ids, not client pointers, and the model delivers to the hub's current client of each id (handler.go:178-185 sends through the pointer the topic stored). The two differ when a removed client's id was left in a public topic (see Findings) and the id is later added again: the model appends to the new client's stream, while Go writes to the old client's channel and the new client gets nothing.
- Handler.Pub: for a subscriber id that is no longer a client of the hub the model pushes nothing. Go still sends on the removed client's channel. If that client's `Event` stream was ever opened, the loop of handler.go:150-164 never returns and keeps reading it. If it was never opened, the unbuffered send blocks `Pub` while it holds the hub's read lock.
- Clients.SendUpdate: JSON encoding is out. `json.Marshal` failures of the send helpers are not modelled. Envelopes are datatypes, not bytes.
- Clients.Pub: never returns the marshal error that client.go:263-266 passes on, since the model has no encoding step that can fail.
- The payload builder `generateUpdateData` of hub `Pub` is not part of this model. It is the parameter `build` of `Handler.Pub`.
- `Client.send`, called by topic `Pub`, is not part of this model. It is the parameter `sendFails` of `Topics.Pub`.
- UUID generation is out. The generated client id is the parameter `freshId` and a topic's id is an argument of `NewTopic`.
- The private-topic literal of client.go:110-115 sets no id, so its id is Go's zero value "".
- Go's map iteration order is an explicit `order` parameter that must enumerate the map's keys.
- Clients.GetTopics: Go re-keys every topic by its `Name`. The model returns the merged map. The two agree under `KeyedByName` (each topic stored under its own name), which is part of `Valid`, and every operation keeps it. Public topics are registered outside this core.
- Hub `GetClients` (client.go:60-64) returns the map itself. It is the field `Hub.clients`.
- Topics.GetName, `GetID` and `GetType` have no contract of their own. They return fields, and `NewTopic`'s contract states them.
- HTTP details are out: query parsing, headers and response bodies. The topic 404 body prints the client id (handler.go:74, 112); that is not modelled.
- The `Timeout` field is carried but unused, as in the source.
- Group topics are declared but never created by the code shown.

## Findings

| source | as written | input that shows it | evidently intended | confidence | as-written member | corrected member |
|---|---|---|---|---|---|---|
| client.go:88-96 | RemoveClient Unsubs each public topic by its name, and Unsub resolves a name to the client's private topic first | client "c" subscribes to public "x", then creates private "x", then is removed: both Unsub("x") calls hit the private topic, and public "x" still lists "c" after "c" is gone | removing a client takes its id out of every public topic | not executed | Properties.ShadowedSubscriptionSurvives | Clients.RemoveClientCorrected |
