/**
 Shared vocabulary of the pub/sub model: the optional and failure-carrying
 results every operation returns, the error kinds the registry reports, and
 the way an iteration over a Go map is made explicit.
 */
module Common {

  datatype Option<+T> = None | Some(value: T)

  datatype Result<+R, +E> = Success(value: R) | Failure(error: E)

  /** The errors the registry, the clients and the hub hand back to their callers. */
  datatype Error =
    | ClientNotFound(client: string)                // no client has this id
    | TopicExists(topic: string)                    // a private topic of this name already exists
    | TopicNotFound(topic: string)                  // the client sees no topic of this name
    | NotSubscribed(client: string, topic: string)  // the client is not a subscriber of the topic
    | NotReceiving(client: string)                  // the client's stream is not being read yet
    | BuildFailed(reason: string)                   // an error from the opaque payload builder

  /**
   `order` is one possible iteration order of a Go map whose key set is
   `keys`: every key exactly once, nothing else. Go leaves the order
   unspecified, so operations that range over a map take it as a parameter.
   */
  ghost predicate Enumerates(order: seq<string>, keys: set<string>)
  {
    && (forall i, j :: 0 <= i < j < |order| ==> order[i] != order[j])
    && (forall x :: x in order <==> x in keys)
  }

  /** The first position of `order` whose element `failing` rejects, or |order|. */
  function FirstFailing(order: seq<string>, failing: string -> bool): (k: nat)
    ensures k <= |order|
    ensures forall j :: 0 <= j < k ==> !failing(order[j])
    ensures k < |order| ==> failing(order[k])
    decreases |order|
  {
    if order == [] then 0
    else if failing(order[0]) then 0
    else 1 + FirstFailing(order[1..], failing)
  }

  /** A map has no key exactly when every iteration order of it is empty. */
  lemma EnumeratesEmpty<V>(order: seq<string>, m: map<string, V>)
    requires Enumerates(order, m.Keys)
    ensures |order| == 0 <==> |m| == 0
  {
    if |order| > 0 {
      assert order[0] in m.Keys;
    }
    if |m| > 0 {
      var k :| k in m.Keys;
      assert k in order;
    }
  }

  /** Adding a fresh key and deleting it again gives back the map. */
  lemma UpdateThenRemove<V>(m: map<string, V>, k: string, v: V)
    requires k !in m
    ensures m[k := v] - {k} == m
  {
    assert m[k := v] - {k} == m;
  }

  /** A map whose keys include those of a non-empty map is non-empty. */
  lemma SubMapNonEmpty<V>(sub: map<string, V>, m: map<string, V>)
    requires sub.Keys <= m.Keys
    ensures |sub| > 0 ==> |m| > 0
  {
    if |sub| > 0 {
      var k :| k in sub.Keys;
      assert k in m.Keys;
    }
  }
}
