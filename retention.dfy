/** The newest-first notification log and its cap of 100 entries: what one push keeps and
    evicts, what a run of pushes leaves, and the newest-first order restored at startup. */
module Retention {
  import opened Records

  const MAX_NOTIFICATIONS := 100

  function Min(a: int, b: int): int { if a <= b then a else b }

  /** Newest first: receive times never increase along the log. */
  ghost predicate NewestFirst(log: seq<Notification>) {
    forall i, j :: 0 <= i < j < |log| ==> log[i].receivedAt >= log[j].receivedAt
  }

  /** No two entries share an id. */
  ghost predicate DistinctIds(log: seq<Notification>) {
    forall i, j :: 0 <= i < j < |log| ==> log[i].id != log[j].id
  }

  /** The ids of a log. */
  ghost function Ids(log: seq<Notification>): set<string> {
    set i | 0 <= i < |log| :: log[i].id
  }

  /** The log after `unshift(n)` followed by `splice(100)`: the new entry at the front and
      as much of the old log behind it as fits under the cap. */
  function Admit(log: seq<Notification>, n: Notification): (r: seq<Notification>)
    ensures |r| == Min(|log| + 1, MAX_NOTIFICATIONS)
    ensures r[0] == n && r[1..] == log[..|r| - 1]
  {
    var grown := [n] + log;
    if |grown| > MAX_NOTIFICATIONS then grown[..MAX_NOTIFICATIONS] else grown
  }

  /** The entries `splice(100)` cuts off: with what is kept, they are the grown log, and
      from a log within the cap at most its last entry goes. */
  function Evicted(log: seq<Notification>, n: Notification): (r: seq<Notification>)
    ensures Admit(log, n) + r == [n] + log
    ensures |log| < MAX_NOTIFICATIONS ==> r == []
    ensures |log| == MAX_NOTIFICATIONS ==> r == [log[MAX_NOTIFICATIONS - 1]]
  {
    var grown := [n] + log;
    if |grown| > MAX_NOTIFICATIONS then grown[MAX_NOTIFICATIONS..] else []
  }

  /** `unshift` then `splice(100)` on the array, in terms of the grown log. */
  lemma AdmitSplits(log: seq<Notification>, n: Notification)
    ensures |[n] + log| > MAX_NOTIFICATIONS ==>
      Admit(log, n) == ([n] + log)[..MAX_NOTIFICATIONS] && Evicted(log, n) == ([n] + log)[MAX_NOTIFICATIONS..]
    ensures |[n] + log| <= MAX_NOTIFICATIONS ==>
      Admit(log, n) == [n] + log && Evicted(log, n) == []
  {
  }

  /** A push stamped no earlier than the newest entry keeps the log newest first. */
  lemma AdmitKeepsOrder(log: seq<Notification>, n: Notification)
    requires NewestFirst(log)
    requires forall i :: 0 <= i < |log| ==> log[i].receivedAt <= n.receivedAt
    ensures NewestFirst(Admit(log, n))
  {
    var r := Admit(log, n);
    forall i, j | 0 <= i < j < |r| ensures r[i].receivedAt >= r[j].receivedAt {
      assert r[j] == log[j - 1];
      if i > 0 { assert r[i] == log[i - 1]; }
    }
  }

  /** A push with a fresh id keeps the ids distinct. */
  lemma AdmitKeepsDistinct(log: seq<Notification>, n: Notification)
    requires DistinctIds(log) && n.id !in Ids(log)
    ensures DistinctIds(Admit(log, n))
    ensures Ids(Admit(log, n)) + Ids(Evicted(log, n)) == Ids(log) + {n.id}
    ensures Ids(Admit(log, n)) * Ids(Evicted(log, n)) == {}
  {
    var r, e := Admit(log, n), Evicted(log, n);
    var g := [n] + log;
    assert g == r + e;
    forall i, j | 0 <= i < j < |g| ensures g[i].id != g[j].id {
      assert g[j] == log[j - 1];
      if i > 0 { assert g[i] == log[i - 1]; } else { assert log[j - 1].id in Ids(log); }
    }
    forall i, j | 0 <= i < j < |r| ensures r[i].id != r[j].id {
      assert r[i] == g[i] && r[j] == g[j];
    }
    forall i, j | 0 <= i < |r| && 0 <= j < |e| ensures r[i].id != e[j].id {
      assert r[i] == g[i] && e[j] == g[|r| + j];
    }
    IdsOfConcat(r, e);
    IdsOfConcat([n], log);
  }

  lemma IdsOfConcat(a: seq<Notification>, b: seq<Notification>)
    ensures Ids(a + b) == Ids(a) + Ids(b)
  {
    var c := a + b;
    forall x | x in Ids(c) ensures x in Ids(a) + Ids(b) {
      var i :| 0 <= i < |c| && c[i].id == x;
      if i < |a| { assert c[i] == a[i]; } else { assert c[i] == b[i - |a|]; }
    }
    forall x | x in Ids(a) + Ids(b) ensures x in Ids(c) {
      if x in Ids(a) {
        var i :| 0 <= i < |a| && a[i].id == x;
        assert c[i] == a[i];
      } else {
        var i :| 0 <= i < |b| && b[i].id == x;
        assert c[|a| + i] == b[i];
      }
    }
  }

  /** The sequence backwards. */
  function Reversed(s: seq<Notification>): (r: seq<Notification>)
    ensures |r| == |s|
    ensures forall i :: 0 <= i < |s| ==> r[i] == s[|s| - 1 - i]
  {
    if s == [] then [] else Reversed(s[1..]) + [s[0]]
  }

  /** The log left by pushing the given notifications one by one, oldest first, onto an
      empty log. */
  function Replay(arrivals: seq<Notification>): seq<Notification> {
    if arrivals == [] then []
    else Admit(Replay(arrivals[..|arrivals| - 1]), arrivals[|arrivals| - 1])
  }

  /** After any run of pushes the log holds the latest min(N, 100) of them, newest first. */
  lemma {:induction false} ReplayKeepsLatest(arrivals: seq<Notification>)
    ensures Replay(arrivals) == Reversed(arrivals)[..Min(|arrivals|, MAX_NOTIFICATIONS)]
  {
    if arrivals != [] {
      var k := |arrivals|;
      var a, n := arrivals[..k - 1], arrivals[k - 1];
      assert arrivals == a + [n];
      ReplayKeepsLatest(a);
      AdmitReversed(a, n);
    }
  }

  /** One more push onto the latest arrivals gives the latest arrivals with it. */
  lemma AdmitReversed(a: seq<Notification>, n: Notification)
    ensures Admit(Reversed(a)[..Min(|a|, MAX_NOTIFICATIONS)], n)
         == Reversed(a + [n])[..Min(|a| + 1, MAX_NOTIFICATIONS)]
  {
    ReversedSnoc(a, n);
    AdmitCapped(Reversed(a), n);
  }

  lemma ReversedSnoc(a: seq<Notification>, n: Notification)
    ensures Reversed(a + [n]) == [n] + Reversed(a)
  {
    var l, r := Reversed(a + [n]), [n] + Reversed(a);
    forall i | 0 <= i < |l| ensures l[i] == r[i] {
      if i > 0 { assert (a + [n])[|a| - i] == a[|a| - i]; }
    }
  }

  /** Pushing onto a log cut to the cap is pushing and then cutting. */
  lemma AdmitCapped(log: seq<Notification>, n: Notification)
    ensures Admit(log[..Min(|log|, MAX_NOTIFICATIONS)], n) == ([n] + log)[..Min(|log| + 1, MAX_NOTIFICATIONS)]
  {
    var prev := log[..Min(|log|, MAX_NOTIFICATIONS)];
    var r, want := Admit(prev, n), ([n] + log)[..Min(|log| + 1, MAX_NOTIFICATIONS)];
    forall i | 0 <= i < |r| ensures r[i] == want[i] {
      if i > 0 { assert r[i] == r[1..][i - 1]; }
    }
  }

  /** Insert x in front of the first entry that is not newer than it, so that among equal
      receive times the inserted one comes first. */
  function Insert(x: Notification, s: seq<Notification>): (r: seq<Notification>)
    ensures multiset(r) == multiset(s) + multiset{x}
  {
    if s == [] then [x]
    else if s[0].receivedAt <= x.receivedAt then [x] + s
    else
      assert s == [s[0]] + s[1..];
      [s[0]] + Insert(x, s[1..])
  }

  /** Nothing in the log was received after time v. */
  ghost predicate NoNewerThan(log: seq<Notification>, v: int) {
    forall i :: 0 <= i < |log| ==> log[i].receivedAt <= v
  }

  lemma {:induction false} InsertBelow(x: Notification, s: seq<Notification>, v: int)
    requires NoNewerThan(s, v) && x.receivedAt <= v
    ensures NoNewerThan(Insert(x, s), v)
  {
    if s != [] && s[0].receivedAt > x.receivedAt {
      InsertBelow(x, s[1..], v);
    }
  }

  /** Inserting into a newest-first log keeps it newest first. */
  lemma {:induction false} InsertKeepsOrder(x: Notification, s: seq<Notification>)
    requires NewestFirst(s)
    ensures NewestFirst(Insert(x, s))
  {
    if s != [] && s[0].receivedAt > x.receivedAt {
      var t := Insert(x, s[1..]);
      InsertKeepsOrder(x, s[1..]);
      InsertBelow(x, s[1..], s[0].receivedAt);
      var r := [s[0]] + t;
      forall i, j | 0 <= i < j < |r| ensures r[i].receivedAt >= r[j].receivedAt {
        assert r[j] == t[j - 1];
        if i > 0 { assert r[i] == t[i - 1]; }
      }
    }
  }

  /** The log order `Array.prototype.sort` produces with the comparator
      `b.receivedAt - a.receivedAt`: a stable sort, newest first. */
  function SortNewestFirst(s: seq<Notification>): (r: seq<Notification>)
    ensures NewestFirst(r)
    ensures multiset(r) == multiset(s)
  {
    if s == [] then []
    else
      assert s == [s[0]] + s[1..];
      var t := SortNewestFirst(s[1..]);
      InsertKeepsOrder(s[0], t);
      Insert(s[0], t)
  }

  /** Two logs holding the same entries have the same ids. */
  lemma SameIds(a: seq<Notification>, b: seq<Notification>)
    requires multiset(a) == multiset(b)
    ensures Ids(a) == Ids(b)
  {
    forall x | x in Ids(a) ensures x in Ids(b) {
      var i :| 0 <= i < |a| && a[i].id == x;
      assert a[i] in multiset(b);
    }
    forall x | x in Ids(b) ensures x in Ids(a) {
      var i :| 0 <= i < |b| && b[i].id == x;
      assert b[i] in multiset(a);
    }
  }

  lemma DistinctCons(x: Notification, s: seq<Notification>)
    requires DistinctIds(s) && x.id !in Ids(s)
    ensures DistinctIds([x] + s)
  {
    var r := [x] + s;
    forall i, j | 0 <= i < j < |r| ensures r[i].id != r[j].id {
      assert r[j] == s[j - 1];
      if i > 0 { assert r[i] == s[i - 1]; } else { assert s[j - 1].id in Ids(s); }
    }
  }

  lemma {:induction false} InsertKeepsDistinct(x: Notification, s: seq<Notification>)
    requires DistinctIds(s) && x.id !in Ids(s)
    ensures DistinctIds(Insert(x, s))
  {
    if s == [] {
    } else if s[0].receivedAt <= x.receivedAt {
      DistinctCons(x, s);
    } else {
      var t := Insert(x, s[1..]);
      assert s == [s[0]] + s[1..];
      IdsOfConcat([s[0]], s[1..]);
      assert DistinctIds(s[1..]) by {
        forall i, j | 0 <= i < j < |s[1..]| ensures s[1..][i].id != s[1..][j].id {
          assert s[1..][i] == s[i + 1] && s[1..][j] == s[j + 1];
        }
      }
      InsertKeepsDistinct(x, s[1..]);
      assert multiset(t) == multiset(s[1..] + [x]);
      SameIds(t, s[1..] + [x]);
      IdsOfConcat(s[1..], [x]);
      assert s[0].id !in Ids(s[1..]) by {
        forall i | 0 <= i < |s[1..]| ensures s[1..][i].id != s[0].id {
          assert s[1..][i] == s[i + 1];
        }
      }
      assert s[0].id != x.id by { assert s[0].id in Ids(s); }
      DistinctCons(s[0], t);
    }
  }

  /** The sort neither loses nor duplicates ids. */
  lemma {:induction false} SortKeepsDistinct(s: seq<Notification>)
    requires DistinctIds(s)
    ensures DistinctIds(SortNewestFirst(s))
    ensures Ids(SortNewestFirst(s)) == Ids(s)
  {
    SameIds(SortNewestFirst(s), s);
    if s != [] {
      assert s == [s[0]] + s[1..];
      IdsOfConcat([s[0]], s[1..]);
      assert DistinctIds(s[1..]) by {
        forall i, j | 0 <= i < j < |s[1..]| ensures s[1..][i].id != s[1..][j].id {
          assert s[1..][i] == s[i + 1] && s[1..][j] == s[j + 1];
        }
      }
      assert s[0].id !in Ids(s[1..]) by {
        forall i | 0 <= i < |s[1..]| ensures s[1..][i].id != s[0].id {
          assert s[1..][i] == s[i + 1];
        }
      }
      SortKeepsDistinct(s[1..]);
      InsertKeepsDistinct(s[0], SortNewestFirst(s[1..]));
    }
  }

  /** The part of the sorted notifications kept at startup, and the part deleted. */
  function Retained(sorted: seq<Notification>): (r: seq<Notification>)
    ensures |r| == Min(|sorted|, MAX_NOTIFICATIONS)
    ensures forall i :: 0 <= i < |r| ==> r[i] == sorted[i]
  {
    sorted[..Min(|sorted|, MAX_NOTIFICATIONS)]
  }

  function Purged(sorted: seq<Notification>): (r: seq<Notification>)
    ensures Retained(sorted) + r == sorted
    ensures r == [] <==> |sorted| <= MAX_NOTIFICATIONS
  {
    sorted[Min(|sorted|, MAX_NOTIFICATIONS)..]
  }

  /** What startup keeps: min(N, 100) entries, newest first, with ids as distinct as the
      stored ones. */
  lemma RetainedShape(stored: seq<Notification>)
    ensures |Retained(SortNewestFirst(stored))| == Min(|stored|, MAX_NOTIFICATIONS)
    ensures NewestFirst(Retained(SortNewestFirst(stored)))
    ensures DistinctIds(stored) ==> DistinctIds(Retained(SortNewestFirst(stored)))
  {
    var sorted := SortNewestFirst(stored);
    var keep := Retained(sorted);
    assert |sorted| == |stored| by {
      assert |multiset(sorted)| == |multiset(stored)|;
    }
    if DistinctIds(stored) {
      SortKeepsDistinct(stored);
      forall a, b | 0 <= a < b < |keep| ensures keep[a].id != keep[b].id {
        assert keep[a] == sorted[a] && keep[b] == sorted[b];
      }
    }
  }

  /** Nothing startup deletes is newer than anything it keeps. */
  lemma RetainedAreNewest(stored: seq<Notification>)
    ensures var sorted := SortNewestFirst(stored);
      forall i, j :: 0 <= i < |Retained(sorted)| && 0 <= j < |Purged(sorted)| ==>
        Retained(sorted)[i].receivedAt >= Purged(sorted)[j].receivedAt
  {
    var sorted := SortNewestFirst(stored);
    var k := |Retained(sorted)|;
    forall i, j | 0 <= i < k && 0 <= j < |Purged(sorted)|
      ensures Retained(sorted)[i].receivedAt >= Purged(sorted)[j].receivedAt
    {
      assert Retained(sorted)[i] == sorted[i] && Purged(sorted)[j] == sorted[k + j];
    }
  }

  /** What startup keeps and what it deletes are, together, exactly what was stored. */
  lemma RetainedAndPurged(stored: seq<Notification>)
    ensures var sorted := SortNewestFirst(stored);
      multiset(Retained(sorted)) + multiset(Purged(sorted)) == multiset(stored)
  {
    var sorted := SortNewestFirst(stored);
    assert sorted == Retained(sorted) + Purged(sorted);
  }
}
