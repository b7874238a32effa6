# Webhub: a verified model of the YouTube WebSub receiver

The service subscribes to YouTube channel feeds through a WebSub hub. It receives the
pushed Atom feeds, keeps the newest 100 video notifications, and serves them. It keeps
two in-memory lists, `notifications` (newest first) and `subscriptions`, and mirrors both
in a Deno KV store under the keys `["notifications", id]` and `["subscriptions", id]`.

This project models in Dafny the logic of `main.ts`:

- **The feed field extractor.** Five fixed patterns `/<tag>([^<]+)<\/tag>/` run over the
  pushed body (module `TagPattern`, with `Records.ParseFeed`).
  - `MatchesAt`/`MatchFrom` give the match semantics of a non-global
    `String.prototype.match`: the capture of the leftmost position where the pattern matches.
  - `Occurs` states the same thing declaratively, without any search.
  - `FeedSample` proves that the sample feed used by the project's own tests parses to the
    expected fields.
- **Notification ingest with the cap of 100.** `unshift`, then `splice(100)`, then a loop
  of `kv.delete` calls (`Retention.Admit`/`Evicted`, `Webhub.Service.ReceiveNotification`).
- **Subscription creation.** Hub topic, lease and expiry, and the success and failure
  branches on the hub's answer (`Records.NewSubscription`, `Webhub.Service.Subscribe`).
- **The challenge echo.** `GET /webhook` (`Records.ChallengeResponse`), which is the
  verification step of section 5.3 of the W3C WebSub Recommendation.
- **Startup reconciliation** (`initializeData`, `Webhub.Service.Initialize`):
  - live subscriptions are restored and expired ones are deleted;
  - notifications are gathered, sorted newest first, and cut to 100;
  - the rest are deleted from the store.

The Deno KV store is a class over `map<Key, Record>` with `Set`, `Delete` and a
namespace `List` (module `KvStore`). The service is a class with the two lists as
`seq` fields and the store as a field (module `Webhub`).

The service invariant is `Persistence.Consistent`, reached through `Webhub.Service.Valid`:

- every record sits under its own namespace and its own id;
- the lists hold exactly the records of the store;
- ids are distinct;
- the notification log holds at most 100 entries.

Every handler keeps this invariant, and startup establishes it.

Timestamps are integers (milliseconds since the epoch). The clock reading, the fresh
UUID and the hub's answer are parameters of the handlers.

## Model

| member | source | states |
|---|---|---|
| Records.HubTopic | main.ts:37 | the topic is the fixed feed URL prefix followed by exactly the channel id |
| Records.TopicRoundTrip | main.ts:37 | reading the channel id back out of a hub topic gives the channel id it was built from |
| Records.HubTopicInjective | main.ts:37 | two channels with the same hub topic are the same channel |
| Records.NewSubscription | main.ts:40-48 | the record carries the given id, channel id and title, a topic naming that channel, a lease of 432000 s, and an expiry exactly 432000*1000 ms after its creation time |
| Records.IsLive | main.ts:151 | a stored subscription is live while its expiry is after the clock reading; its lease arithmetic is proved in NewSubscriptionLive |
| Records.NewSubscriptionLive | main.ts:151 | a new subscription counts as live at startup exactly while the clock is before the end of its five-day lease |
| Records.OrElse | main.ts:93-94 | JavaScript `x || fallback` on an optional string: a present non-empty value is kept; an absent or empty one gives the fallback |
| Records.ChallengeResponse | main.ts:116-123 | a present non-empty `hub.challenge` is echoed unchanged; an absent or empty one gives "No challenge" |
| TagPattern.RunEnd | main.ts:81-85 | the greedy `[^<]+` run stops at the first `<` at or after its start, or at the end of the text |
| TagPattern.MatchFrom | main.ts:81-85 | the result is a match at or after the start position with its capture, and no position before it matches; no result means no position matches |
| TagPattern.FirstCapture | main.ts:81-85 | a capture is never empty and never contains `<` |
| TagPattern.OccursIff | main.ts:81-85 | `<tag>v</tag>` with a non-empty, `<`-free `v` stands at position p if and only if the pattern matches at p and captures v |
| TagPattern.FirstCaptureIsLeftmost | main.ts:81-85 | what `match(...)?.[1]` returns is the capture of the leftmost occurrence of `<tag>v</tag>` |
| TagPattern.FirstCaptureAbsent | main.ts:81-85 | `match` fails if and only if the pattern occurs nowhere in the body |
| TagPattern.LeftmostIsFound | main.ts:81-85 | conversely, the capture of the leftmost occurrence is what `match` returns |
| Records.ParseFeed | main.ts:81-87 | a notification is built if and only if the video id, title and channel id patterns all occur in the body; the published time and author name are present if and only if their patterns occur |
| Records.ParseFeedSpec | main.ts:81-87 | every field extracted from the body is non-empty, `<`-free and the capture of the leftmost occurrence of its pattern |
| Records.NewNotification | main.ts:88-96 | the record carries the fresh id, the receive time and the extracted video id, title and channel id; a present non-empty published time or author name is kept; a missing published time gives the receive time as text, and a missing author name gives "Unknown Channel" |
| Records.NotificationFields | main.ts:88-96 | the notification carries the fresh id, the receive time and the extracted fields unchanged; a found published time or author name is never replaced by a default |
| Records.NotificationDefaults | main.ts:93-94 | a missing `<published>` gives the receive time as text; a missing `<name>` gives "Unknown Channel" |
| FeedSample.SampleParses | test.ts:59-69 | the sample feed yields video id "test-video-id", title "Test Video Title", channel id "UC123456789", published "2024-01-01T00:00:00Z" and author "Test Channel" |
| Retention.Admit | main.ts:100-104 | after `unshift` and `splice(100)`, the log has min(old length + 1, 100) entries, the new one at index 0 and the old log's first entries after it in order |
| Retention.Evicted | main.ts:103-104 | the kept log followed by the cut-off entries is the grown log; below the cap nothing is cut, and at the cap exactly the old last entry is cut |
| Retention.AdmitKeepsOrder | main.ts:100 | a push whose receive time is not older than anything in a newest-first log keeps the log newest first |
| Retention.AdmitKeepsDistinct | main.ts:99-104 | a push with a fresh id keeps ids distinct; the kept and cut-off ids together are the old ids plus the new one, and no kept id is also cut off |
| Retention.ReplayKeepsLatest | main.ts:98-109 | after any run of pushes onto an empty log, the log is the latest min(N, 100) of them, newest first |
| Retention.SortNewestFirst | main.ts:167 | the comparator sort yields a newest-first permutation of the gathered notifications |
| Retention.SortKeepsDistinct | main.ts:167 | sorting keeps the ids distinct and the set of ids the same |
| Retention.Retained | main.ts:170 | `slice(0, 100)`: the first min(N, 100) sorted notifications, in order |
| Retention.Purged | main.ts:174-177 | the sorted notifications from index 100 on: following the kept ones they give back the whole sorted list, and there are none exactly when at most 100 were sorted |
| Retention.RetainedShape | main.ts:170-171 | `slice(0, 100)` of the sorted notifications has min(N, 100) entries, is newest first, and has distinct ids when the stored ones do |
| Retention.RetainedAreNewest | main.ts:166-178 | no notification deleted at startup is newer than any kept one |
| Retention.RetainedAndPurged | main.ts:170-178 | the kept and deleted notifications together are exactly the gathered ones (as a multiset) |
| KvStore.Store.Set | main.ts:67 | `kv.set` maps the key to the value and changes nothing else |
| KvStore.Store.Delete | main.ts:107 | `kv.delete` removes the key and changes nothing else |
| KvStore.Store.List | main.ts:160-164 | a prefix listing yields every entry of the namespace exactly once, with its stored value |
| Persistence.AdmitMirrors | main.ts:98-109 | storing the new notification and deleting exactly the evicted ones leaves a consistent store that mirrors the admitted log |
| Persistence.SubscribeMirrors | main.ts:65-68 | storing and appending a subscription with a fresh id keeps the store consistent with the lists |
| Persistence.RestoreNotes | main.ts:159-178 | the sorted and sliced gathered notifications are the newest min(N, 100) of the stored ones, and the deleted keys are exactly the stored notifications not kept |
| Webhub.ExpiryKeepsNotes | main.ts:146-164 | deleting expired subscriptions leaves the notification records untouched, so the notification restore sees the same notifications |
| Webhub.RestoredMirrors | main.ts:143-181 | after startup the lists are consistent with what is left in the store |
| Webhub.Service.constructor | main.ts:24-28 | the service starts with both lists empty and the store as found |
| Webhub.Service.Subscribe | main.ts:33-74 | when the hub accepts: status 200 with the new subscription, exactly one new store entry under its key, and the record appended to the list; otherwise: status 500, "Failed to subscribe", and no change; the invariant is kept either way |
| Webhub.Service.ReceiveNotification | main.ts:77-113 | the reply is always "OK"; an unparseable body changes nothing; otherwise the log becomes `Admit(old, n)` and the store gains the new record and loses exactly the evicted ones; the invariant is kept and a newest-first log stays newest first |
| Webhub.Service.DeleteNotifications | main.ts:106-108 | the loop deletes exactly the store keys of the given notifications |
| Webhub.Service.Gather | main.ts:161-164 | the loop collects the listed notification records in listing order |
| Webhub.Service.GatherNotifications | main.ts:160-164 | the gathered list holds every stored notification exactly once |
| Webhub.Service.RestoreSubscriptions | main.ts:146-157 | the list holds exactly the stored subscriptions that are live at `now`, each once; the store loses exactly the expired ones; notifications are untouched |
| Webhub.Service.RestoreNotifications | main.ts:159-178 | the log holds the newest min(N, 100) stored notifications, newest first; the store loses exactly the stored notifications not kept |
| Webhub.Service.PurgeBeyondCap | main.ts:173-178 | the index loop from 100 onward deletes exactly the sorted notifications past the 100th |
| Webhub.Service.Initialize | main.ts:143-181 | startup leaves the invariant holding; the subscriptions are exactly the live stored ones; the notifications are the newest min(N, 100); the store loses exactly the expired subscriptions and the unkept notifications |

## Left out

- The oak application, router, request body decoding, `app.listen` and the `PORT` setting (main.ts:1-2, 186-192) are framework plumbing. Each handler is a method, and its decoded body is a parameter.
- The outbound `fetch` to the hub (main.ts:51-63) is not modelled. Only its outcome, `subscribeResponse.ok`, enters `Subscribe`, as the parameter `hubOk`. The form encoding of the request belongs to the web platform. A `fetch` that throws is not modelled.
- `crypto.randomUUID` is replaced by an `id` parameter. A precondition says that the key is not yet in the store, which a fresh UUID gives.
- Clocks and dates are integer milliseconds:
  - `Date.now` and `new Date()` are one `now` parameter per handler. The source reads the clock twice in `/subscribe` (main.ts:46-47) and in `/webhook` (main.ts:93, 95); the model takes both readings as equal.
  - ISO-8601 formatting and `new Date(...)` parsing are not modelled. For the default `publishedAt` the handler takes the text of `now` as the parameter `nowText`.
  - Dates are compared as numbers, so an unparseable date string (NaN in JavaScript) is not modelled.
- Retention.SortNewestFirst: models `Array.prototype.sort` as a value-level stable insertion sort on a sequence, not as an in-place sort of an array. The ensures states newest-first order and permutation. It does not state which of two equal receive times comes first.
- KvStore.Store.List: the order in which Deno KV lists keys is not modelled; the listing may come out in any order. This is why `Initialize` is specified by what it keeps and deletes, not by the order of the restored subscriptions.
- The `await`s and concurrency between requests: each handler runs as one atomic step.
- Deno KV internals, versionstamps and atomic operations: the store is a map from `(namespace, id)` to a record.
- The JSON typing of the `/subscribe` body: `channelId` and `channelTitle` are taken to be strings.
- The `/api/notifications` and `/api/subscriptions` readers, which return the lists unchanged, and the static `index.html` route (main.ts:125-140).
- Console logging (main.ts:144, 180).
- The general regular-expression engine: only the five fixed tag patterns are modelled.
- Webhub.Service.Initialize: requires that every stored record sits under its own kind's namespace and its own id. This is the assumption behind the casts `entry.value as Subscription` and `as Notification`. A store written by other code is not modelled.
