/** The part of Deno KV the service uses: two-part keys (namespace, id), `set`, `delete`
    and listing by namespace prefix. */
module KvStore {
  import opened Records

  const SUBSCRIPTIONS := "subscriptions"
  const NOTIFICATIONS := "notifications"

  /** A key `[ns, id]`. */
  datatype Key = Key(ns: string, id: string)

  /** What the service stores under its two namespaces. */
  datatype Record =
    | SubscriptionRecord(sub: Subscription)
    | NotificationRecord(note: Notification)

  /** One listed key with its value. */
  datatype Entry = Entry(key: Key, value: Record)

  /** The keys of a namespace. */
  function NsKeys(entries: map<Key, Record>, ns: string): set<Key> {
    set k | k in entries && k.ns == ns
  }

  /** The keys of a listing. */
  ghost function ListedKeys(listed: seq<Entry>): set<Key> {
    set i | 0 <= i < |listed| :: listed[i].key
  }

  /** A listing of one namespace: each key once, every key of the namespace, with its value. */
  ghost predicate IsListing(listed: seq<Entry>, entries: map<Key, Record>, ns: string) {
    && (forall i :: 0 <= i < |listed| ==>
          listed[i].key in entries && listed[i].key.ns == ns && entries[listed[i].key] == listed[i].value)
    && (forall i, j :: 0 <= i < j < |listed| ==> listed[i].key != listed[j].key)
    && ListedKeys(listed) == NsKeys(entries, ns)
    && |listed| == |NsKeys(entries, ns)|
  }

  lemma ListedKeysSnoc(listed: seq<Entry>, e: Entry)
    ensures ListedKeys(listed + [e]) == ListedKeys(listed) + {e.key}
  {
    var l := listed + [e];
    forall x | x in ListedKeys(l) ensures x in ListedKeys(listed) + {e.key} {
      var i :| 0 <= i < |l| && l[i].key == x;
      if i < |listed| { assert l[i] == listed[i]; }
    }
    forall x | x in ListedKeys(listed) ensures x in ListedKeys(l) {
      var i :| 0 <= i < |listed| && listed[i].key == x;
      assert l[i] == listed[i];
    }
    assert l[|listed|] == e;
  }

  class Store {
    var entries: map<Key, Record>

    constructor(initial: map<Key, Record>)
      ensures entries == initial
    {
      entries := initial;
    }

    /** `kv.set(key, value)`. */
    method Set(key: Key, value: Record)
      modifies this
      ensures entries == old(entries)[key := value]
    {
      entries := entries[key := value];
    }

    /** `kv.delete(key)`: deleting an absent key is a no-op. */
    method Delete(key: Key)
      modifies this
      ensures entries == old(entries) - {key}
    {
      entries := entries - {key};
    }

    /** `kv.list({ prefix: [ns] })`, drained: every entry of the namespace exactly once.
        The order Deno KV lists keys in is not modelled; any order may come out. */
    method List(ns: string) returns (listed: seq<Entry>)
      ensures IsListing(listed, entries, ns)
    {
      listed := [];
      var remaining := NsKeys(entries, ns);
      while remaining != {}
        invariant Partial(listed, remaining, entries, ns)
        decreases |remaining|
      {
        var k :| k in remaining;
        ListStep(listed, remaining, entries, ns, k);
        listed := listed + [Entry(k, entries[k])];
        remaining := remaining - {k};
      }
    }
  }

  /** A listing in progress: what is listed so far, and the keys still to come. */
  ghost predicate Partial(listed: seq<Entry>, remaining: set<Key>, entries: map<Key, Record>, ns: string) {
    && (forall i :: 0 <= i < |listed| ==>
          listed[i].key in entries && listed[i].key.ns == ns && entries[listed[i].key] == listed[i].value)
    && (forall i, j :: 0 <= i < j < |listed| ==> listed[i].key != listed[j].key)
    && ListedKeys(listed) * remaining == {}
    && ListedKeys(listed) + remaining == NsKeys(entries, ns)
    && |listed| + |remaining| == |NsKeys(entries, ns)|
  }

  lemma ListStep(listed: seq<Entry>, remaining: set<Key>, entries: map<Key, Record>, ns: string, k: Key)
    requires Partial(listed, remaining, entries, ns) && k in remaining
    ensures k in entries
    ensures Partial(listed + [Entry(k, entries[k])], remaining - {k}, entries, ns)
  {
    assert k !in ListedKeys(listed) by {
      assert k !in ListedKeys(listed) * remaining;
    }
    ListedKeysSnoc(listed, Entry(k, entries[k]));
    SnocDistinct(listed, Entry(k, entries[k]));
  }

  /** Appending a key not yet listed keeps the listed keys distinct. */
  lemma SnocDistinct(listed: seq<Entry>, e: Entry)
    requires forall i, j :: 0 <= i < j < |listed| ==> listed[i].key != listed[j].key
    requires e.key !in ListedKeys(listed)
    ensures forall i, j :: 0 <= i < j < |listed + [e]| ==> (listed + [e])[i].key != (listed + [e])[j].key
  {
    var l := listed + [e];
    forall i, j | 0 <= i < j < |l| ensures l[i].key != l[j].key {
      assert l[i] == listed[i];
      if j < |listed| {
        assert l[j] == listed[j];
      } else {
        assert listed[i].key in ListedKeys(listed);
      }
    }
  }
}
