/** How the service's records sit in the store, how the in-memory lists mirror it, and the
    facts about the store that the handlers rely on. */
module Persistence {
  import opened Records
  import opened Retention
  import opened KvStore

  lemma NamespacesDiffer()
    ensures SUBSCRIPTIONS != NOTIFICATIONS
  {
    assert SUBSCRIPTIONS[0] != NOTIFICATIONS[0];
  }

  /** Every record sits under its own kind's namespace, keyed by its own id; this is what
      the casts `entry.value as Subscription` and `as Notification` take for granted. */
  ghost predicate WellFormed(entries: map<Key, Record>) {
    forall k :: k in entries ==>
      && (k.ns == SUBSCRIPTIONS ==> entries[k].SubscriptionRecord? && entries[k].sub.id == k.id)
      && (k.ns == NOTIFICATIONS ==> entries[k].NotificationRecord? && entries[k].note.id == k.id)
  }

  ghost predicate NoteStored(entries: map<Key, Record>, n: Notification) {
    Key(NOTIFICATIONS, n.id) in entries && entries[Key(NOTIFICATIONS, n.id)] == NotificationRecord(n)
  }

  ghost predicate SubStored(entries: map<Key, Record>, s: Subscription) {
    Key(SUBSCRIPTIONS, s.id) in entries && entries[Key(SUBSCRIPTIONS, s.id)] == SubscriptionRecord(s)
  }

  ghost function SubIds(subs: seq<Subscription>): set<string> {
    set i | 0 <= i < |subs| :: subs[i].id
  }

  ghost predicate DistinctSubIds(subs: seq<Subscription>) {
    forall i, j :: 0 <= i < j < |subs| ==> subs[i].id != subs[j].id
  }

  /** The store keys of a run of notifications. */
  ghost function NoteKeys(log: seq<Notification>): set<Key> {
    set i | 0 <= i < |log| :: Key(NOTIFICATIONS, log[i].id)
  }

  /** Stored notifications that are not in the kept log. */
  ghost function StaleKeys(entries: map<Key, Record>, keep: seq<Notification>): set<Key> {
    set k | k in entries && k.ns == NOTIFICATIONS && k.id !in Ids(keep)
  }

  /** Stored subscriptions whose lease has run out at time now. */
  ghost function ExpiredKeys(entries: map<Key, Record>, now: int): set<Key> {
    set k | k in entries && k.ns == SUBSCRIPTIONS && entries[k].SubscriptionRecord?
                         && !IsLive(entries[k].sub, now)
  }

  /** The in-memory lists hold exactly what the store holds, each record under its key. */
  ghost predicate Mirrors(entries: map<Key, Record>, notes: seq<Notification>, subs: seq<Subscription>) {
    && (forall i :: 0 <= i < |notes| ==> NoteStored(entries, notes[i]))
    && (forall k :: k in entries && k.ns == NOTIFICATIONS ==> k.id in Ids(notes))
    && (forall i :: 0 <= i < |subs| ==> SubStored(entries, subs[i]))
    && (forall k :: k in entries && k.ns == SUBSCRIPTIONS ==> k.id in SubIds(subs))
  }

  /** The service's invariant: a well-formed store that the two lists mirror, no
      duplicate ids, and the cap on the notification log. */
  ghost predicate Consistent(entries: map<Key, Record>, notes: seq<Notification>, subs: seq<Subscription>) {
    && WellFormed(entries)
    && |notes| <= MAX_NOTIFICATIONS
    && DistinctIds(notes)
    && DistinctSubIds(subs)
    && Mirrors(entries, notes, subs)
  }

  /** What startup keeps of the stored notifications: min(N, 100) of them, each once and
      as stored, newest first, and none of the stored ones left out is newer than any kept. */
  ghost predicate NewestKept(start: map<Key, Record>, keep: seq<Notification>) {
    && |keep| == Min(|NsKeys(start, NOTIFICATIONS)|, MAX_NOTIFICATIONS)
    && NewestFirst(keep) && DistinctIds(keep)
    && (forall i :: 0 <= i < |keep| ==> NoteStored(start, keep[i]))
    && (forall n, i :: NoteStored(start, n) && n.id !in Ids(keep) && 0 <= i < |keep| ==>
          keep[i].receivedAt >= n.receivedAt)
  }

  lemma NoteKeysIds(log: seq<Notification>)
    ensures forall x: Key :: x in NoteKeys(log) <==> x.ns == NOTIFICATIONS && x.id in Ids(log)
  {
    forall x: Key | x.ns == NOTIFICATIONS && x.id in Ids(log) ensures x in NoteKeys(log) {
      var i :| 0 <= i < |log| && log[i].id == x.id;
      assert x == Key(NOTIFICATIONS, log[i].id);
    }
  }

  lemma NoteKeysSnoc(log: seq<Notification>, n: Notification)
    ensures NoteKeys(log + [n]) == NoteKeys(log) + {Key(NOTIFICATIONS, n.id)}
  {
    IdsOfConcat(log, [n]);
    NoteKeysIds(log + [n]);
    NoteKeysIds(log);
    assert Ids([n]) == {n.id} by { assert [n][0] == n; }
  }

  lemma SubIdsSnoc(subs: seq<Subscription>, s: Subscription)
    ensures SubIds(subs + [s]) == SubIds(subs) + {s.id}
  {
    var l := subs + [s];
    forall x | x in SubIds(l) ensures x in SubIds(subs) + {s.id} {
      var i :| 0 <= i < |l| && l[i].id == x;
      if i < |subs| { assert l[i] == subs[i]; }
    }
    forall x | x in SubIds(subs) ensures x in SubIds(l) {
      var i :| 0 <= i < |subs| && subs[i].id == x;
      assert l[i] == subs[i];
    }
    assert l[|subs|] == s;
  }

  /** A fresh notification key names no notification of a mirrored log. */
  lemma FreshNote(entries: map<Key, Record>, log: seq<Notification>, id: string)
    requires forall i :: 0 <= i < |log| ==> NoteStored(entries, log[i])
    requires Key(NOTIFICATIONS, id) !in entries
    ensures id !in Ids(log)
  {
    forall i | 0 <= i < |log| ensures log[i].id != id {
      assert NoteStored(entries, log[i]);
    }
  }

  /** POST /webhook with a parsed feed keeps the store well formed and mirrored: storing
      the new record and deleting exactly the evicted ones leaves the store holding the
      admitted log. */
  lemma AdmitMirrors(entries: map<Key, Record>, log: seq<Notification>, subs: seq<Subscription>,
                     n: Notification)
    requires Consistent(entries, log, subs)
    requires Key(NOTIFICATIONS, n.id) !in entries
    ensures Consistent(entries[Key(NOTIFICATIONS, n.id) := NotificationRecord(n)]
                       - NoteKeys(Evicted(log, n)), Admit(log, n), subs)
  {
    var key := Key(NOTIFICATIONS, n.id);
    var grown := entries[key := NotificationRecord(n)];
    var r, e := Admit(log, n), Evicted(log, n);
    var after := grown - NoteKeys(e);
    FreshNote(entries, log, n.id);
    AdmitKeepsDistinct(log, n);
    NoteKeysIds(e);
    NamespacesDiffer();
    var g := [n] + log;
    assert g == r + e;
    forall i | 0 <= i < |r| ensures NoteStored(after, r[i]) {
      assert r[i] == g[i];
      if i > 0 { assert g[i] == log[i - 1]; assert NoteStored(entries, log[i - 1]); }
      assert r[i].id in Ids(r);
    }
    forall k | k in after && k.ns == NOTIFICATIONS ensures k.id in Ids(r) {
      assert k.id in Ids(log) + {n.id};
      assert k == Key(NOTIFICATIONS, k.id);
    }
    forall i | 0 <= i < |subs| ensures SubStored(after, subs[i]) {
      assert SubStored(entries, subs[i]);
    }
  }

  /** POST /subscribe with the hub's consent keeps the store well formed and mirrored. */
  lemma SubscribeMirrors(entries: map<Key, Record>, notes: seq<Notification>, subs: seq<Subscription>,
                         s: Subscription)
    requires Consistent(entries, notes, subs)
    requires Key(SUBSCRIPTIONS, s.id) !in entries
    ensures Consistent(entries[Key(SUBSCRIPTIONS, s.id) := SubscriptionRecord(s)], notes, subs + [s])
  {
    var after := entries[Key(SUBSCRIPTIONS, s.id) := SubscriptionRecord(s)];
    var subs' := subs + [s];
    NamespacesDiffer();
    forall i | 0 <= i < |subs| ensures subs[i].id != s.id {
      assert SubStored(entries, subs[i]);
    }
    SubIdsSnoc(subs, s);
    forall i | 0 <= i < |notes| ensures NoteStored(after, notes[i]) {
      assert NoteStored(entries, notes[i]);
    }
    forall i | 0 <= i < |subs'| ensures SubStored(after, subs'[i]) {
      if i < |subs| { assert subs'[i] == subs[i] && SubStored(entries, subs[i]); }
    }
  }

  /** Progress of the subscription restore after the first i listed entries. */
  ghost predicate SubsRestored(start: map<Key, Record>, now: int, listed: seq<Entry>, i: nat,
                               entries: map<Key, Record>, subs: seq<Subscription>)
    requires i <= |listed|
  {
    && entries == start - (ExpiredKeys(start, now) * ListedKeys(listed[..i]))
    && DistinctSubIds(subs)
    && (forall s :: s in subs <==>
          SubStored(start, s) && IsLive(s, now) && Key(SUBSCRIPTIONS, s.id) in ListedKeys(listed[..i]))
  }

  /** One step of the subscription restore: a live record is pushed, an expired one deleted. */
  lemma SubsStep(start: map<Key, Record>, now: int, listed: seq<Entry>, i: nat,
                 entries: map<Key, Record>, subs: seq<Subscription>)
    requires WellFormed(start) && IsListing(listed, start, SUBSCRIPTIONS)
    requires i < |listed| && SubsRestored(start, now, listed, i, entries, subs)
    ensures listed[i].value.SubscriptionRecord?
    ensures IsLive(listed[i].value.sub, now) ==>
      SubsRestored(start, now, listed, i + 1, entries, subs + [listed[i].value.sub])
    ensures !IsLive(listed[i].value.sub, now) ==>
      SubsRestored(start, now, listed, i + 1, entries - {listed[i].key}, subs)
  {
    var e := listed[i];
    assert e.key in start && e.key.ns == SUBSCRIPTIONS && start[e.key] == e.value;
    var s := e.value.sub;
    assert e.key == Key(SUBSCRIPTIONS, s.id);
    assert listed[..i + 1] == listed[..i] + [e];
    ListedKeysSnoc(listed[..i], e);
    assert e.key !in ListedKeys(listed[..i]) by {
      forall j | 0 <= j < i ensures listed[..i][j].key != e.key {
        assert listed[..i][j] == listed[j];
      }
    }
    if IsLive(s, now) {
      assert e.key !in ExpiredKeys(start, now);
      var subs' := subs + [s];
      forall a, b | 0 <= a < b < |subs'| ensures subs'[a].id != subs'[b].id {
        if b == |subs| {
          assert subs'[a] == subs[a] && subs[a] in subs;
        } else {
          assert subs'[a] == subs[a] && subs'[b] == subs[b];
        }
      }
    } else {
      assert e.key in ExpiredKeys(start, now);
      forall x | x in subs ensures x.id != s.id {
        assert Key(SUBSCRIPTIONS, x.id) in ListedKeys(listed[..i]);
      }
    }
  }

  /** The subscription restore at the end of the listing: the live records are in memory and
      exactly the expired keys are gone from the store. */
  lemma SubsDone(start: map<Key, Record>, now: int, listed: seq<Entry>,
                 entries: map<Key, Record>, subs: seq<Subscription>)
    requires IsListing(listed, start, SUBSCRIPTIONS)
    requires SubsRestored(start, now, listed, |listed|, entries, subs)
    ensures entries == start - ExpiredKeys(start, now)
    ensures forall s :: s in subs <==> SubStored(start, s) && IsLive(s, now)
  {
    assert listed[..|listed|] == listed;
    assert ExpiredKeys(start, now) * ListedKeys(listed) == ExpiredKeys(start, now);
  }

  /** The notifications gathered from a listing, in listing order. */
  ghost predicate Collected(listed: seq<Entry>, temp: seq<Notification>) {
    && |temp| == |listed|
    && forall j :: 0 <= j < |listed| ==> listed[j].value == NotificationRecord(temp[j])
  }

  /** What the gathered notifications are: each stored record once. */
  lemma CollectedFacts(start: map<Key, Record>, listed: seq<Entry>, temp: seq<Notification>)
    requires WellFormed(start) && IsListing(listed, start, NOTIFICATIONS) && Collected(listed, temp)
    ensures DistinctIds(temp)
    ensures forall j :: 0 <= j < |temp| ==> NoteStored(start, temp[j])
    ensures forall k :: k in start && k.ns == NOTIFICATIONS ==> start[k].note in temp
    ensures |temp| == |NsKeys(start, NOTIFICATIONS)|
  {
    forall j | 0 <= j < |temp| ensures NoteStored(start, temp[j]) && listed[j].key == Key(NOTIFICATIONS, temp[j].id) {
      assert listed[j].key in start;
    }
    forall a, b | 0 <= a < b < |temp| ensures temp[a].id != temp[b].id {
      assert listed[a].key == Key(NOTIFICATIONS, temp[a].id);
      assert listed[b].key == Key(NOTIFICATIONS, temp[b].id);
    }
    forall k | k in start && k.ns == NOTIFICATIONS ensures start[k].note in temp {
      assert k in ListedKeys(listed);
      var j :| 0 <= j < |listed| && listed[j].key == k;
      assert temp[j] == start[k].note;
    }
  }

  /** The sorted notifications split at 100: every element is a stored record. */
  lemma SortedStored(start: map<Key, Record>, temp: seq<Notification>, p: nat)
    requires forall j :: 0 <= j < |temp| ==> NoteStored(start, temp[j])
    requires p < |SortNewestFirst(temp)|
    ensures NoteStored(start, SortNewestFirst(temp)[p])
  {
    var x := SortNewestFirst(temp)[p];
    assert x in multiset(SortNewestFirst(temp));
    assert x in multiset(temp);
    var j :| 0 <= j < |temp| && temp[j] == x;
  }

  /** A gathered notification whose id startup does not keep is among the purged ones. */
  lemma NotKeptIsPurged(temp: seq<Notification>, x: Notification)
    requires x in temp && x.id !in Ids(Retained(SortNewestFirst(temp)))
    ensures x in Purged(SortNewestFirst(temp))
  {
    var sorted := SortNewestFirst(temp);
    assert x in multiset(temp);
    assert x in multiset(sorted);
    NotInPrefix(sorted, Min(|sorted|, MAX_NOTIFICATIONS), x);
  }

  /** An entry whose id is not among the first m lies past them. */
  lemma NotInPrefix(s: seq<Notification>, m: nat, x: Notification)
    requires m <= |s| && x in s && x.id !in Ids(s[..m])
    ensures x in s[m..]
  {
    var p :| 0 <= p < |s| && s[p] == x;
    forall i | 0 <= i < m ensures s[i] != x {
      assert s[..m][i] == s[i];
      assert s[..m][i].id in Ids(s[..m]);
    }
    assert s[m..][p - m] == x;
  }

  /** A stored notification that startup does not keep sits among the purged ones. */
  lemma StaleIsPurged(start: map<Key, Record>, temp: seq<Notification>, k: Key)
    requires WellFormed(start)
    requires forall k :: k in start && k.ns == NOTIFICATIONS ==> start[k].note in temp
    requires k in StaleKeys(start, Retained(SortNewestFirst(temp)))
    ensures start[k].note in Purged(SortNewestFirst(temp))
  {
    NotKeptIsPurged(temp, start[k].note);
  }

  /** A purged notification is stored and not kept. */
  lemma PurgedIsStale(start: map<Key, Record>, sorted: seq<Notification>, q: nat)
    requires DistinctIds(sorted)
    requires forall p :: 0 <= p < |sorted| ==> NoteStored(start, sorted[p])
    requires q < |Purged(sorted)|
    ensures Key(NOTIFICATIONS, Purged(sorted)[q].id) in StaleKeys(start, Retained(sorted))
  {
    var keep, purged := Retained(sorted), Purged(sorted);
    assert purged[q] == sorted[|keep| + q];
    assert NoteStored(start, sorted[|keep| + q]);
    assert purged[q].id !in Ids(keep) by {
      forall i | 0 <= i < |keep| ensures keep[i].id != purged[q].id {
        assert keep[i] == sorted[i];
      }
    }
  }

  lemma StaleAreNoteKeys(start: map<Key, Record>, temp: seq<Notification>)
    requires WellFormed(start)
    requires forall k :: k in start && k.ns == NOTIFICATIONS ==> start[k].note in temp
    ensures StaleKeys(start, Retained(SortNewestFirst(temp))) <= NoteKeys(Purged(SortNewestFirst(temp)))
  {
    var purged := Purged(SortNewestFirst(temp));
    forall x | x in StaleKeys(start, Retained(SortNewestFirst(temp))) ensures x in NoteKeys(purged) {
      StaleIsPurged(start, temp, x);
      var q :| 0 <= q < |purged| && purged[q] == start[x].note;
      assert x == Key(NOTIFICATIONS, purged[q].id);
    }
  }

  /** The keys startup purges are exactly the stored notifications it does not keep. */
  lemma PurgedAreStale(start: map<Key, Record>, temp: seq<Notification>)
    requires WellFormed(start) && DistinctIds(temp)
    requires forall j :: 0 <= j < |temp| ==> NoteStored(start, temp[j])
    requires forall k :: k in start && k.ns == NOTIFICATIONS ==> start[k].note in temp
    ensures NoteKeys(Purged(SortNewestFirst(temp))) == StaleKeys(start, Retained(SortNewestFirst(temp)))
  {
    SortKeepsDistinct(temp);
    AllSortedStored(start, temp);
    PurgedKeysStale(start, SortNewestFirst(temp));
    StaleAreNoteKeys(start, temp);
  }

  lemma AllSortedStored(start: map<Key, Record>, temp: seq<Notification>)
    requires forall j :: 0 <= j < |temp| ==> NoteStored(start, temp[j])
    ensures forall p :: 0 <= p < |SortNewestFirst(temp)| ==> NoteStored(start, SortNewestFirst(temp)[p])
  {
    forall p | 0 <= p < |SortNewestFirst(temp)| ensures NoteStored(start, SortNewestFirst(temp)[p]) {
      SortedStored(start, temp, p);
    }
  }

  /** Every purged key is a stored notification that is not kept. */
  lemma PurgedKeysStale(start: map<Key, Record>, sorted: seq<Notification>)
    requires DistinctIds(sorted)
    requires forall p :: 0 <= p < |sorted| ==> NoteStored(start, sorted[p])
    ensures NoteKeys(Purged(sorted)) <= StaleKeys(start, Retained(sorted))
  {
    var purged := Purged(sorted);
    forall x | x in NoteKeys(purged) ensures x in StaleKeys(start, Retained(sorted)) {
      var q :| 0 <= q < |purged| && x == Key(NOTIFICATIONS, purged[q].id);
      PurgedIsStale(start, sorted, q);
    }
  }

  /** The notifications gathered at startup: every stored notification exactly once. */
  ghost predicate GatheredAll(start: map<Key, Record>, temp: seq<Notification>) {
    && DistinctIds(temp)
    && |temp| == |NsKeys(start, NOTIFICATIONS)|
    && (forall j :: 0 <= j < |temp| ==> NoteStored(start, temp[j]))
    && (forall k :: k in start && k.ns == NOTIFICATIONS ==> start[k].NotificationRecord? && start[k].note in temp)
  }

  /** Startup's notification restore, stated on the gathered notifications: the kept log
      is the newest min(N, 100) records, and the purged keys are exactly the stored
      notifications not kept. */
  lemma RestoreNotes(start: map<Key, Record>, temp: seq<Notification>)
    requires WellFormed(start) && GatheredAll(start, temp)
    ensures NewestKept(start, Retained(SortNewestFirst(temp)))
    ensures NoteKeys(Purged(SortNewestFirst(temp))) == StaleKeys(start, Retained(SortNewestFirst(temp)))
  {
    RetainedShape(temp);
    KeptStored(start, temp);
    LeftOutAreOlder(start, temp);
    PurgedAreStale(start, temp);
  }

  lemma KeptStored(start: map<Key, Record>, temp: seq<Notification>)
    requires forall j :: 0 <= j < |temp| ==> NoteStored(start, temp[j])
    ensures forall i :: 0 <= i < |Retained(SortNewestFirst(temp))| ==>
      NoteStored(start, Retained(SortNewestFirst(temp))[i])
  {
    var sorted := SortNewestFirst(temp);
    forall i | 0 <= i < |Retained(sorted)| ensures NoteStored(start, Retained(sorted)[i]) {
      SortedStored(start, temp, i);
    }
  }

  lemma LeftOutAreOlder(start: map<Key, Record>, temp: seq<Notification>)
    requires WellFormed(start)
    requires forall k :: k in start && k.ns == NOTIFICATIONS ==> start[k].note in temp
    ensures var keep := Retained(SortNewestFirst(temp));
      forall n, i :: NoteStored(start, n) && n.id !in Ids(keep) && 0 <= i < |keep| ==>
        keep[i].receivedAt >= n.receivedAt
  {
    var keep := Retained(SortNewestFirst(temp));
    forall n, i | NoteStored(start, n) && n.id !in Ids(keep) && 0 <= i < |keep|
      ensures keep[i].receivedAt >= n.receivedAt
    {
      LeftOutIsOlder(start, temp, n, i);
    }
  }

  /** A stored notification that startup leaves out is no newer than any kept one. */
  lemma LeftOutIsOlder(start: map<Key, Record>, temp: seq<Notification>, n: Notification, i: nat)
    requires WellFormed(start)
    requires forall k :: k in start && k.ns == NOTIFICATIONS ==> start[k].note in temp
    requires NoteStored(start, n) && n.id !in Ids(Retained(SortNewestFirst(temp)))
    requires i < |Retained(SortNewestFirst(temp))|
    ensures Retained(SortNewestFirst(temp))[i].receivedAt >= n.receivedAt
  {
    var sorted := SortNewestFirst(temp);
    var purged := Purged(sorted);
    NotKeptIsPurged(temp, n);
    var q :| 0 <= q < |purged| && purged[q] == n;
    RetainedAreNewest(temp);
  }

  /** A listing of the notification namespace of a well-formed store holds notifications. */
  lemma ListedNotes(start: map<Key, Record>, listed: seq<Entry>)
    requires WellFormed(start) && IsListing(listed, start, NOTIFICATIONS)
    ensures forall j :: 0 <= j < |listed| ==> listed[j].value.NotificationRecord?
  {
    forall j | 0 <= j < |listed| ensures listed[j].value.NotificationRecord? {
      assert listed[j].key in start;
    }
  }

  /** Gathering a listing of the notification namespace gathers every stored notification. */
  lemma GatheredFromListing(start: map<Key, Record>, listed: seq<Entry>, temp: seq<Notification>)
    requires WellFormed(start) && IsListing(listed, start, NOTIFICATIONS) && Collected(listed, temp)
    ensures GatheredAll(start, temp)
  {
    CollectedFacts(start, listed, temp);
  }
}
