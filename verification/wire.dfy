/**
 The envelope every stream carries: `{sys: [...], updates: [...]}`.
 System entries report topic lists and (un)subscriptions, updates carry
 published data. JSON bytes are not modelled. A list or string that Go's
 `omitempty` would drop is represented by the empty value, and so is a nil
 `sys` or `updates` slice, which has no `omitempty` and is marshalled as
 `null` rather than `[]`.
 */
module Wire {

  /** A published message: any JSON value the caller hands in. The core never looks inside it. */
  datatype Payload = Payload(value: string)

  /** The visibility class of a topic. */
  datatype TopicType = Public | Private | Group

  /** The string form of a topic type, as it appears on the wire. */
  function TypeName(t: TopicType): (s: string)
    ensures s == "public" || s == "private" || s == "group"
    ensures s == "public" <==> t == Public
    ensures s == "private" <==> t == Private
  {
    match t
    case Public => "public"
    case Private => "private"
    case Group => "group"
  }

  /** The `type` field of a system entry. */
  const TopicsKind: string := "topics"
  const SubscribedKind: string := "subscribed"
  const UnsubscribedKind: string := "unsubscribed"

  /** One element of a system entry's list; `ttype == ""` is the omitted `type` field. */
  datatype ListEntry = ListEntry(name: string, ttype: string)

  /** A system entry; `kind == ""` is an entry whose type was never filled in. */
  datatype SysEntry = SysEntry(kind: string, list: seq<ListEntry>)

  /** A data update for one topic. */
  datatype Update = Update(topic: string, data: Payload)

  datatype Envelope = Envelope(sys: seq<SysEntry>, updates: seq<Update>)

  /** The names a system entry lists. */
  function ListedNames(list: seq<ListEntry>): (names: set<string>)
    ensures forall i :: 0 <= i < |list| ==> list[i].name in names
    ensures forall n :: n in names ==> exists i :: 0 <= i < |list| && list[i].name == n
  {
    set i | 0 <= i < |list| :: list[i].name
  }

  /** The envelope announcing a single topic subscribed to or unsubscribed from. */
  function SubscriptionEnvelope(kind: string, name: string): (e: Envelope)
    ensures |e.sys| == 1 && e.updates == []
    ensures e.sys[0].kind == kind && ListedNames(e.sys[0].list) == {name}
    ensures |e.sys[0].list| == 1
    ensures forall i :: 0 <= i < |e.sys[0].list| ==> e.sys[0].list[i].ttype == ""
  {
    var list := [ListEntry(name, "")];
    assert list[0].name == name;
    Envelope([SysEntry(kind, list)], [])
  }

  /** The envelope carrying one published message and no system entry. */
  function UpdateEnvelope(topic: string, data: Payload): (e: Envelope)
    ensures e.sys == [] && |e.updates| == 1
    ensures e.updates[0].topic == topic && e.updates[0].data == data
  {
    Envelope([], [Update(topic, data)])
  }
}
