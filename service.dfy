/** The webhub service: the two in-memory lists, the store behind them, and the handlers
    that change them (POST /subscribe, POST /webhook, and the restore at startup). */
module Webhub {
  import opened Records
  import opened Retention
  import opened KvStore
  import opened Persistence

  const FAILED_TO_SUBSCRIBE := "Failed to subscribe"
  const OK := "OK"

  /** The JSON body of a POST /subscribe answer. */
  datatype SubscribeReply =
    | Subscribed(subscription: Subscription)
    | SubscribeError(error: string)

  /** Startup restores in the order the service runs it: subscriptions, then notifications.
      The notification half works on the store the subscription half left; these are the
      facts that say it sees the same notifications. */
  lemma ExpiryKeepsNotes(start: map<Key, Record>, now: int, keep: seq<Notification>)
    requires WellFormed(start)
    ensures WellFormed(start - ExpiredKeys(start, now))
    ensures NsKeys(start - ExpiredKeys(start, now), NOTIFICATIONS) == NsKeys(start, NOTIFICATIONS)
    ensures StaleKeys(start - ExpiredKeys(start, now), keep) == StaleKeys(start, keep)
    ensures forall n :: NoteStored(start - ExpiredKeys(start, now), n) <==> NoteStored(start, n)
    ensures NewestKept(start - ExpiredKeys(start, now), keep) ==> NewestKept(start, keep)
  {
    NamespacesDiffer();
  }

  /** After startup the lists mirror the store: the live subscriptions and the kept
      notifications are exactly what is left in it. */
  lemma RestoredMirrors(start: map<Key, Record>, now: int, keep: seq<Notification>,
                        subs: seq<Subscription>)
    requires WellFormed(start) && NewestKept(start, keep) && DistinctSubIds(subs)
    requires forall s :: s in subs <==> SubStored(start, s) && IsLive(s, now)
    ensures Consistent(start - ExpiredKeys(start, now) - StaleKeys(start, keep), keep, subs)
  {
    NamespacesDiffer();
    var final := start - ExpiredKeys(start, now) - StaleKeys(start, keep);
    forall i | 0 <= i < |keep| ensures NoteStored(final, keep[i]) {
      assert keep[i].id in Ids(keep);
    }
    forall i | 0 <= i < |subs| ensures SubStored(final, subs[i]) {
      assert subs[i] in subs;
    }
    forall k | k in final && k.ns == SUBSCRIPTIONS ensures k.id in SubIds(subs) {
      var s := start[k].sub;
      assert k == Key(SUBSCRIPTIONS, s.id);
      assert s in subs;
      var i :| 0 <= i < |subs| && subs[i] == s;
    }
  }

  /** The state the notification restore leaves, from the gathered records. */
  lemma RestoreOutcome(start: map<Key, Record>, temp: seq<Notification>,
                       notes: seq<Notification>, final: map<Key, Record>)
    requires WellFormed(start) && GatheredAll(start, temp)
    requires notes == [] + Retained(SortNewestFirst(temp))
    requires final == start - NoteKeys(Purged(SortNewestFirst(temp)))
    ensures NewestKept(start, notes)
    ensures final == start - StaleKeys(start, notes)
  {
    RestoreNotes(start, temp);
    assert notes == Retained(SortNewestFirst(temp));
  }

  /** The branch of the handlers where nothing passes the cap: deleting the keys of no
      notifications leaves the store as it was. */
  lemma NothingEvicted(entries: map<Key, Record>)
    ensures entries == entries - NoteKeys([])
  {
    assert NoteKeys([]) == {};
  }

  class Service {
    /** Newest first, at most 100. */
    var notifications: seq<Notification>
    var subscriptions: seq<Subscription>
    const kv: Store

    /** The state every handler keeps: a well-formed store that the two lists mirror, no
        duplicate ids, and the cap on the notification log. */
    ghost predicate Valid()
      reads this, kv
    {
      Consistent(kv.entries, notifications, subscriptions)
    }

    /** The module-level state before startup: both lists empty, the store as found. */
    constructor(store: Store)
      ensures kv == store && notifications == [] && subscriptions == []
    {
      kv := store;
      notifications := [];
      subscriptions := [];
    }

    /** POST /subscribe. The record is built first; `hubOk` is whether the hub accepted
        the request. Only then is it stored and listed, one new entry in each. */
    method Subscribe(channelId: string, channelTitle: string, id: string, now: int, hubOk: bool)
      returns (status: int, reply: SubscribeReply)
      requires Valid()
      requires Key(SUBSCRIPTIONS, id) !in kv.entries
      modifies this, kv
      ensures Valid()
      ensures notifications == old(notifications)
      ensures hubOk ==>
        var s := NewSubscription(id, channelId, channelTitle, now);
        && status == 200 && reply == Subscribed(s)
        && subscriptions == old(subscriptions) + [s]
        && kv.entries == old(kv.entries)[Key(SUBSCRIPTIONS, id) := SubscriptionRecord(s)]
        && |kv.entries| == old(|kv.entries|) + 1
      ensures !hubOk ==>
        && status == 500 && reply == SubscribeError(FAILED_TO_SUBSCRIBE)
        && subscriptions == old(subscriptions) && kv.entries == old(kv.entries)
    {
      var s := NewSubscription(id, channelId, channelTitle, now);
      if hubOk {
        SubscribeMirrors(kv.entries, notifications, subscriptions, s);
        kv.Set(Key(SUBSCRIPTIONS, s.id), SubscriptionRecord(s));
        subscriptions := subscriptions + [s];
        status, reply := 200, Subscribed(s);
      } else {
        status, reply := 500, SubscribeError(FAILED_TO_SUBSCRIBE);
      }
    }

    /** POST /webhook with a pushed feed. A feed with the three mandatory fields becomes a
        notification at the front of the log; whatever falls past the 100th place is
        deleted from the store too. Anything else changes nothing. The answer is always
        "OK". */
    method ReceiveNotification(body: string, id: string, now: int, nowText: string)
      returns (reply: string)
      requires Valid()
      requires Key(NOTIFICATIONS, id) !in kv.entries
      modifies this, kv
      ensures Valid()
      ensures reply == "OK"
      ensures subscriptions == old(subscriptions)
      ensures ParseFeed(body).None? ==>
        notifications == old(notifications) && kv.entries == old(kv.entries)
      ensures ParseFeed(body).Some? ==>
        var n := NewNotification(ParseFeed(body).value, id, now, nowText);
        && notifications == Admit(old(notifications), n)
        && kv.entries == old(kv.entries)[Key(NOTIFICATIONS, id) := NotificationRecord(n)]
                         - NoteKeys(Evicted(old(notifications), n))
      ensures NewestFirst(old(notifications)) && NoNewerThan(old(notifications), now) ==>
        NewestFirst(notifications)
    {
      var parsed := ParseFeed(body);
      if parsed.Some? {
        var n := NewNotification(parsed.value, id, now, nowText);
        ghost var log, start := notifications, kv.entries;
        AdmitMirrors(start, log, subscriptions, n);
        if NewestFirst(log) && NoNewerThan(log, now) {
          AdmitKeepsOrder(log, n);
        }
        AdmitSplits(log, n);
        kv.Set(Key(NOTIFICATIONS, n.id), NotificationRecord(n));
        notifications := [n] + notifications;
        if |notifications| > MAX_NOTIFICATIONS {
          var removed := notifications[MAX_NOTIFICATIONS..];
          notifications := notifications[..MAX_NOTIFICATIONS];
          DeleteNotifications(removed);
        } else {
          NothingEvicted(kv.entries);
        }
      }
      reply := OK;
    }

    /** Delete each given notification's key from the store, one `kv.delete` at a time. */
    method DeleteNotifications(doomed: seq<Notification>)
      modifies kv
      ensures kv.entries == old(kv.entries) - NoteKeys(doomed)
    {
      var i := 0;
      while i < |doomed|
        invariant 0 <= i <= |doomed|
        invariant kv.entries == old(kv.entries) - NoteKeys(doomed[..i])
      {
        assert doomed[..i + 1] == doomed[..i] + [doomed[i]];
        NoteKeysSnoc(doomed[..i], doomed[i]);
        kv.Delete(Key(NOTIFICATIONS, doomed[i].id));
        i := i + 1;
      }
      assert doomed[..|doomed|] == doomed;
    }

    /** Gather the listed notification records into a list, in listing order. */
    method Gather(listed: seq<Entry>) returns (temp: seq<Notification>)
      requires forall j :: 0 <= j < |listed| ==> listed[j].value.NotificationRecord?
      ensures Collected(listed, temp)
    {
      temp := [];
      var i := 0;
      while i < |listed|
        invariant 0 <= i <= |listed|
        invariant Collected(listed[..i], temp)
      {
        assert listed[..i + 1] == listed[..i] + [listed[i]];
        temp := temp + [listed[i].value.note];
        i := i + 1;
      }
      assert listed[..|listed|] == listed;
    }

    /** Startup, first half: every stored subscription is listed; a live one goes into
        memory, an expired one is deleted from the store. */
    method RestoreSubscriptions(now: int)
      requires subscriptions == [] && WellFormed(kv.entries)
      modifies this, kv
      ensures notifications == old(notifications)
      ensures kv.entries == old(kv.entries) - ExpiredKeys(old(kv.entries), now)
      ensures DistinctSubIds(subscriptions)
      ensures forall s :: s in subscriptions <==> SubStored(old(kv.entries), s) && IsLive(s, now)
    {
      var listed := kv.List(SUBSCRIPTIONS);
      ghost var start := kv.entries;
      var i := 0;
      assert ListedKeys(listed[..0]) == {};
      while i < |listed|
        invariant 0 <= i <= |listed|
        invariant notifications == old(notifications)
        invariant SubsRestored(start, now, listed, i, kv.entries, subscriptions)
      {
        SubsStep(start, now, listed, i, kv.entries, subscriptions);
        var sub := listed[i].value.sub;
        if IsLive(sub, now) {
          subscriptions := subscriptions + [sub];
        } else {
          kv.Delete(listed[i].key);
        }
        i := i + 1;
      }
      SubsDone(start, now, listed, kv.entries, subscriptions);
    }

    /** Startup, second half: every stored notification is gathered, sorted newest first,
        the first 100 go into memory and the rest are deleted from the store. */
    method RestoreNotifications()
      requires notifications == [] && WellFormed(kv.entries)
      modifies this, kv
      ensures subscriptions == old(subscriptions)
      ensures NewestKept(old(kv.entries), notifications)
      ensures kv.entries == old(kv.entries) - StaleKeys(old(kv.entries), notifications)
    {
      ghost var start := kv.entries;
      var temp := GatherNotifications();
      var sorted := SortNewestFirst(temp);
      notifications := notifications + Retained(sorted);
      PurgeBeyondCap(sorted);
      RestoreOutcome(start, temp, notifications, kv.entries);
    }

    /** List the notification namespace and gather the records, in listing order. */
    method GatherNotifications() returns (temp: seq<Notification>)
      requires WellFormed(kv.entries)
      ensures GatheredAll(kv.entries, temp)
    {
      var listed := kv.List(NOTIFICATIONS);
      ListedNotes(kv.entries, listed);
      temp := Gather(listed);
      GatheredFromListing(kv.entries, listed, temp);
    }

    /** Delete from the store the sorted notifications past the 100th, if there are any. */
    method PurgeBeyondCap(sorted: seq<Notification>)
      modifies kv
      ensures kv.entries == old(kv.entries) - NoteKeys(Purged(sorted))
    {
      if |sorted| > MAX_NOTIFICATIONS {
        DeleteNotifications(sorted[MAX_NOTIFICATIONS..]);
      } else {
        assert Purged(sorted) == [];
        NothingEvicted(kv.entries);
      }
    }

    /** Startup (`initializeData`): restore the live subscriptions and the newest 100
        notifications, and delete from the store what is not restored. */
    method Initialize(now: int)
      requires notifications == [] && subscriptions == [] && WellFormed(kv.entries)
      modifies this, kv
      ensures Valid()
      ensures forall s :: s in subscriptions <==> SubStored(old(kv.entries), s) && IsLive(s, now)
      ensures NewestKept(old(kv.entries), notifications)
      ensures kv.entries == old(kv.entries) - ExpiredKeys(old(kv.entries), now)
                            - StaleKeys(old(kv.entries), notifications)
    {
      ghost var start := kv.entries;
      RestoreSubscriptions(now);
      ExpiryKeepsNotes(start, now, []);
      RestoreNotifications();
      ExpiryKeepsNotes(start, now, notifications);
      RestoredMirrors(start, now, notifications, subscriptions);
    }
  }
}
