/** The two records the service keeps, how each is built from a request, and the answer
    to the hub's verification request. Timestamps are integer milliseconds since the epoch;
    the service stores them as ISO-8601 text, whose order is the order of these numbers. */
module Records {
  import opened Wrappers
  import opened TagPattern

  /** One received push, newest first in the service's log. */
  datatype Notification = Notification(
    id: string,
    channelId: string,
    videoId: string,
    title: string,
    publishedAt: string,
    channelTitle: string,
    receivedAt: int)

  /** One subscription that the hub acknowledged. */
  datatype Subscription = Subscription(
    id: string,
    channelId: string,
    channelTitle: string,
    hubTopic: string,
    leaseSeconds: int,
    expiresAt: int,
    createdAt: int)

  const TOPIC_PREFIX := "https://www.youtube.com/xml/feeds/videos.xml?channel_id="
  /** The lease the service asks for: five days. */
  const LEASE_SECONDS := 432000
  const LEASE_MILLIS := LEASE_SECONDS * 1000
  const UNKNOWN_CHANNEL := "Unknown Channel"
  const NO_CHALLENGE := "No challenge"

  const VIDEO_ID_TAG := "yt:videoId"
  const TITLE_TAG := "title"
  const CHANNEL_ID_TAG := "yt:channelId"
  const PUBLISHED_TAG := "published"
  const NAME_TAG := "name"

  /** The hub topic of a channel: the channel's video feed URL. */
  function HubTopic(channelId: string): (topic: string)
    ensures |topic| == |TOPIC_PREFIX| + |channelId|
    ensures topic[..|TOPIC_PREFIX|] == TOPIC_PREFIX && topic[|TOPIC_PREFIX|..] == channelId
  {
    TOPIC_PREFIX + channelId
  }

  /** The channel a topic URL names, if it is a channel feed URL at all. */
  function TopicChannel(topic: string): (r: Option<string>)
    ensures r.Some? <==> |topic| >= |TOPIC_PREFIX| && topic[..|TOPIC_PREFIX|] == TOPIC_PREFIX
  {
    if |topic| >= |TOPIC_PREFIX| && topic[..|TOPIC_PREFIX|] == TOPIC_PREFIX
    then Some(topic[|TOPIC_PREFIX|..])
    else None
  }

  /** The topic determines the channel: reading the channel back from its topic gives it. */
  lemma TopicRoundTrip(channelId: string)
    ensures TopicChannel(HubTopic(channelId)) == Some(channelId)
  {
    var t := HubTopic(channelId);
    assert t[..|TOPIC_PREFIX|] == TOPIC_PREFIX;
  }

  /** Different channels never share a topic. */
  lemma HubTopicInjective(a: string, b: string)
    requires HubTopic(a) == HubTopic(b)
    ensures a == b
  {
    TopicRoundTrip(a);
    TopicRoundTrip(b);
  }

  /** The record built before the hub is asked, from one reading of the clock. */
  function NewSubscription(id: string, channelId: string, channelTitle: string, now: int)
    : (s: Subscription)
    ensures s.id == id && s.channelId == channelId && s.channelTitle == channelTitle
    ensures TopicChannel(s.hubTopic) == Some(channelId)
    ensures s.leaseSeconds == 432000
    ensures s.createdAt == now && s.expiresAt - s.createdAt == s.leaseSeconds * 1000
  {
    TopicRoundTrip(channelId);
    Subscription(id, channelId, channelTitle, HubTopic(channelId), LEASE_SECONDS,
                 now + LEASE_MILLIS, now)
  }

  /** A stored subscription is restored at startup only while it has not expired. */
  predicate IsLive(s: Subscription, now: int) {
    s.expiresAt > now
  }

  /** A new subscription stays live for exactly the five days of its lease. */
  lemma NewSubscriptionLive(id: string, channelId: string, channelTitle: string, now: int, t: int)
    ensures IsLive(NewSubscription(id, channelId, channelTitle, now), t)
        <==> t < now + 432000 * 1000
  {
  }

  /** JavaScript's `x || fallback` on an optional string: an absent or empty string is falsy. */
  function OrElse(x: Option<string>, fallback: string): (r: string)
    ensures x.Some? && x.value != "" ==> r == x.value
    ensures x.None? || x.value == "" ==> r == fallback
  {
    if x.Some? && x.value != "" then x.value else fallback
  }

  /** The GET /webhook answer: the `hub.challenge` parameter echoed back, or a fixed text
      when the parameter is absent or empty. */
  function ChallengeResponse(challenge: Option<string>): (body: string)
    ensures challenge.Some? && challenge.value != "" ==> body == challenge.value
    ensures challenge.None? || challenge.value == "" ==> body == "No challenge"
  {
    OrElse(challenge, NO_CHALLENGE)
  }

  /** The fields the handler pulls out of a pushed feed; the last two are optional. */
  datatype FeedEntry = FeedEntry(
    videoId: string,
    title: string,
    channelId: string,
    published: Option<string>,
    author: Option<string>)

  /** Run the five patterns; without a video id, a title and a channel id there is no entry. */
  function ParseFeed(body: string): (r: Option<FeedEntry>)
    ensures r.Some? <==>
      Present(body, VIDEO_ID_TAG) && Present(body, TITLE_TAG) && Present(body, CHANNEL_ID_TAG)
    ensures r.Some? ==>
      && (r.value.published.Some? <==> Present(body, PUBLISHED_TAG))
      && (r.value.author.Some? <==> Present(body, NAME_TAG))
  {
    FirstCaptureAbsent(body, VIDEO_ID_TAG);
    FirstCaptureAbsent(body, TITLE_TAG);
    FirstCaptureAbsent(body, CHANNEL_ID_TAG);
    FirstCaptureAbsent(body, PUBLISHED_TAG);
    FirstCaptureAbsent(body, NAME_TAG);
    var videoId := FirstCapture(body, VIDEO_ID_TAG);
    var title := FirstCapture(body, TITLE_TAG);
    var channelId := FirstCapture(body, CHANNEL_ID_TAG);
    if videoId.Some? && title.Some? && channelId.Some? then
      Some(FeedEntry(videoId.value, title.value, channelId.value,
                     FirstCapture(body, PUBLISHED_TAG), FirstCapture(body, NAME_TAG)))
    else None
  }

  /** The notification built from a parsed entry; `nowText` is the receive time `now`
      written as ISO-8601 text, which stands in for a missing publication time. */
  function NewNotification(e: FeedEntry, id: string, now: int, nowText: string): (n: Notification)
    ensures n.id == id && n.receivedAt == now
    ensures n.videoId == e.videoId && n.title == e.title && n.channelId == e.channelId
    ensures e.published.Some? && e.published.value != "" ==> n.publishedAt == e.published.value
    ensures e.published.None? ==> n.publishedAt == nowText
    ensures e.author.Some? && e.author.value != "" ==> n.channelTitle == e.author.value
    ensures e.author.None? ==> n.channelTitle == "Unknown Channel"
  {
    Notification(id, e.channelId, e.videoId, e.title,
                 OrElse(e.published, nowText), OrElse(e.author, UNKNOWN_CHANNEL), now)
  }

  /** A field of the feed is the capture of the leftmost `<tag>...</tag>` in it. */
  ghost predicate LeftmostField(body: string, tag: string, v: string) {
    |v| > 0 && '<' !in v && exists p: nat :: IsLeftmost(body, tag, p, v)
  }

  lemma FirstCaptureField(body: string, tag: string)
    ensures FirstCapture(body, tag).Some? ==> LeftmostField(body, tag, FirstCapture(body, tag).value)
    ensures FirstCapture(body, tag).None? <==> !Present(body, tag)
  {
    FirstCaptureIsLeftmost(body, tag);
    FirstCaptureAbsent(body, tag);
  }

  /** Every field a push yields is the leftmost capture of its pattern. */
  lemma ParseFeedSpec(body: string)
    ensures ParseFeed(body).Some? ==>
      var e := ParseFeed(body).value;
      && LeftmostField(body, VIDEO_ID_TAG, e.videoId)
      && LeftmostField(body, TITLE_TAG, e.title)
      && LeftmostField(body, CHANNEL_ID_TAG, e.channelId)
      && (e.published.Some? ==> LeftmostField(body, PUBLISHED_TAG, e.published.value))
      && (e.author.Some? ==> LeftmostField(body, NAME_TAG, e.author.value))
  {
    FirstCaptureField(body, VIDEO_ID_TAG);
    FirstCaptureField(body, TITLE_TAG);
    FirstCaptureField(body, CHANNEL_ID_TAG);
    FirstCaptureField(body, PUBLISHED_TAG);
    FirstCaptureField(body, NAME_TAG);
  }

  /** The notification keeps the fields the feed supplied, with the fresh id and the
      receive time. The `||` fallbacks never replace a field that was found, since a
      capture is never empty. */
  lemma NotificationFields(body: string, id: string, now: int, nowText: string)
    requires ParseFeed(body).Some?
    ensures var e, n := ParseFeed(body).value, NewNotification(ParseFeed(body).value, id, now, nowText);
      && n.id == id && n.receivedAt == now
      && n.videoId == e.videoId && n.title == e.title && n.channelId == e.channelId
      && (e.published.Some? ==> n.publishedAt == e.published.value)
      && (e.author.Some? ==> n.channelTitle == e.author.value)
  {
    var e := ParseFeed(body).value;
    assert e.published == FirstCapture(body, PUBLISHED_TAG);
    assert e.author == FirstCapture(body, NAME_TAG);
  }

  /** A missing `<published>` becomes the receive time and a missing `<name>` the
      placeholder channel title. */
  lemma NotificationDefaults(body: string, id: string, now: int, nowText: string)
    requires ParseFeed(body).Some?
    ensures var n := NewNotification(ParseFeed(body).value, id, now, nowText);
      && (!Present(body, PUBLISHED_TAG) ==> n.publishedAt == nowText)
      && (!Present(body, NAME_TAG) ==> n.channelTitle == "Unknown Channel")
  {
    FirstCaptureAbsent(body, PUBLISHED_TAG);
    FirstCaptureAbsent(body, NAME_TAG);
  }
}
