/**
 * The subscription registry: the connector's `topics` dictionary, keyed
 * by pattern, insertion-ordered like a Python `dict`, holding for each
 * pattern its QoS, callback, compiled matcher and decode flag. Also the
 * broker subscribe calls that resubscription derives from it.
 */
module Subscriptions {
  import TopicMatcher
  import FetchAdapter
  import BrokerClient

  /** A registered callback: the fetch adapter's closure, or caller code the model does not see. */
  datatype Callback = FetchCallback(handler: FetchAdapter.FetchHandler) | ExternalCallback(id: nat)

  /** The metadata stored under one pattern (`qos`, `callback`, `regex`, `parser_kwargs`). */
  datatype Entry = Entry(qos: int, callback: Callback, regex: seq<TopicMatcher.Token>, decodePayload: bool)

  /** The entry `subscribe` writes for a pattern. */
  function NewEntry(topic: string, callback: Callback, qos: int, decodePayload: bool): Entry
  {
    Entry(qos, callback, TopicMatcher.Compile(topic), decodePayload)
  }

  predicate Distinct<T(==)>(s: seq<T>)
  {
    forall i, j :: 0 <= i < j < |s| ==> s[i] != s[j]
  }

  /** The key order of a `dict` after `d[key] = …`: a new key goes last, an existing one keeps its place. */
  function Insert(keys: seq<string>, key: string): seq<string>
  {
    if key in keys then keys else keys + [key]
  }

  lemma InsertKeepsOrder(keys: seq<string>, key: string)
    requires Distinct(keys)
    ensures Distinct(Insert(keys, key))
    ensures forall k :: k in Insert(keys, key) <==> k in keys || k == key
    ensures keys <= Insert(keys, key) && |Insert(keys, key)| <= |keys| + 1
  {
  }

  /** `dict.items()` of the registry. */
  function ItemsOf(keys: seq<string>, entries: map<string, Entry>): (items: seq<(string, Entry)>)
    requires forall k :: k in keys ==> k in entries
    ensures |items| == |keys|
    ensures forall i :: 0 <= i < |keys| ==> items[i] == (keys[i], entries[keys[i]])
  {
    seq(|keys|, i requires 0 <= i < |keys| => (keys[i], entries[keys[i]]))
  }

  /**
   * One entry per distinct pattern, `keys` recording the insertion order
   * of exactly the stored patterns, and every entry holding the matcher
   * compiled from its own pattern (the only entries `subscribe` writes).
   */
  ghost predicate WellFormed(keys: seq<string>, entries: map<string, Entry>)
  {
    && Distinct(keys)
    && (forall k :: k in entries <==> k in keys)
    && (forall k :: k in entries ==> entries[k].regex == TopicMatcher.Compile(k))
  }

  class Registry {
    var keys: seq<string>
    var entries: map<string, Entry>

    ghost predicate Valid()
      reads this
    {
      WellFormed(keys, entries)
    }

    constructor ()
      ensures Valid() && keys == [] && entries == map[]
    {
      keys := [];
      entries := map[];
    }

    /** `self.topics[key] = entry`: last write wins, every other pattern keeps its entry and place. */
    method Put(key: string, entry: Entry)
      requires Valid() && entry.regex == TopicMatcher.Compile(key)
      modifies this
      ensures Valid()
      ensures entries == old(entries)[key := entry]
      ensures keys == Insert(old(keys), key)
    {
      if key !in entries {
        keys := keys + [key];
      }
      entries := entries[key := entry];
    }

    function Items(): seq<(string, Entry)>
      reads this
      requires Valid()
    {
      ItemsOf(keys, entries)
    }
  }

  // ---------------------------------------------------------------------
  // Resubscription
  // ---------------------------------------------------------------------

  /** The broker subscribe calls of the on-connect loop, one per item, in order. */
  function ResubscribeCalls(items: seq<(string, Entry)>): seq<BrokerClient.Call>
  {
    if items == [] then []
    else ResubscribeCalls(items[..|items| - 1]) + [BrokerClient.Subscribe(items[|items| - 1].0, items[|items| - 1].1.qos)]
  }

  lemma {:induction false} ResubscribeCallsPointwise(items: seq<(string, Entry)>)
    ensures |ResubscribeCalls(items)| == |items|
    ensures forall i :: 0 <= i < |items| ==>
      ResubscribeCalls(items)[i] == BrokerClient.Subscribe(items[i].0, items[i].1.qos)
  {
    if items != [] {
      var init := items[..|items| - 1];
      ResubscribeCallsPointwise(init);
      assert forall i :: 0 <= i < |init| ==> init[i] == items[i];
    }
  }

  /**
   * Resubscribing from a valid registry subscribes each stored pattern
   * exactly once, with its stored QoS, in insertion order, and makes no
   * other call.
   */
  lemma ResubscriptionMirrorsRegistry(keys: seq<string>, entries: map<string, Entry>)
    requires Distinct(keys) && (forall k :: k in entries <==> k in keys)
    ensures var calls := ResubscribeCalls(ItemsOf(keys, entries));
      && |calls| == |keys|
      && (forall i :: 0 <= i < |keys| ==> calls[i] == BrokerClient.Subscribe(keys[i], entries[keys[i]].qos))
      && (forall k :: k in entries ==> BrokerClient.Subscribe(k, entries[k].qos) in calls)
      && (forall c :: c in calls ==> c.Subscribe? && c.topic in entries && c.qos == entries[c.topic].qos)
      && (forall i, j :: 0 <= i < j < |calls| ==> calls[i].topic != calls[j].topic)
  {
    var items := ItemsOf(keys, entries);
    ResubscribeCallsPointwise(items);
    var calls := ResubscribeCalls(items);
    forall k | k in entries
      ensures BrokerClient.Subscribe(k, entries[k].qos) in calls
    {
      var i :| 0 <= i < |keys| && keys[i] == k;
      assert calls[i] == BrokerClient.Subscribe(k, entries[k].qos);
    }
  }
}
