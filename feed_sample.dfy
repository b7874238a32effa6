/** The sample push of the project's parsing test, and the five fields the patterns pull
    out of it. The sample is written as its pieces of markup, each starting at one `<`:
    PIECE_i is the i-th piece and REST_i the text from it to the end. */
module FeedSample {
  import opened Wrappers
  import opened TagPattern
  import opened Records

  const INDENT := "\n    "

  const PIECE_0 := "<?xml version=\"1.0\" encoding=\"UTF-8\"?>\n"
  /** The XML namespace the feed binds the `yt:` prefix to. */
  const YT_NAMESPACE := "http://www.youtube.com/xml/schemas/2015"

  const PIECE_1 := "<feed xmlns:yt=\"" + YT_NAMESPACE + "\">\n  "
  const PIECE_2 := Open("entry") + INDENT
  const PIECE_3 := Open(VIDEO_ID_TAG) + "test-video-id"
  const PIECE_4 := Close(VIDEO_ID_TAG) + INDENT
  const PIECE_5 := Open(TITLE_TAG) + "Test Video Title"
  const PIECE_6 := Close(TITLE_TAG) + INDENT
  const PIECE_7 := Open(CHANNEL_ID_TAG) + "UC123456789"
  const PIECE_8 := Close(CHANNEL_ID_TAG) + INDENT
  const PIECE_9 := Open(PUBLISHED_TAG) + "2024-01-01T00:00:00Z"
  const PIECE_10 := Close(PUBLISHED_TAG) + INDENT
  const PIECE_11 := Open("author") + "\n      "
  const PIECE_12 := Open(NAME_TAG) + "Test Channel"
  const PIECE_13 := Close(NAME_TAG) + INDENT
  const PIECE_14 := Close("author") + "\n  "
  const PIECE_15 := Close("entry") + "\n"
  const PIECE_16 := Close("feed")

  const REST_16 := PIECE_16
  const REST_15 := PIECE_15 + REST_16
  const REST_14 := PIECE_14 + REST_15
  const REST_13 := PIECE_13 + REST_14
  const REST_12 := PIECE_12 + REST_13
  const REST_11 := PIECE_11 + REST_12
  const REST_10 := PIECE_10 + REST_11
  const REST_9 := PIECE_9 + REST_10
  const REST_8 := PIECE_8 + REST_9
  const REST_7 := PIECE_7 + REST_8
  const REST_6 := PIECE_6 + REST_7
  const REST_5 := PIECE_5 + REST_6
  const REST_4 := PIECE_4 + REST_5
  const REST_3 := PIECE_3 + REST_4
  const REST_2 := PIECE_2 + REST_3
  const REST_1 := PIECE_1 + REST_2
  const REST_0 := PIECE_0 + REST_1

  /** The pushed text of the test. */
  const SAMPLE := REST_0

  lemma MarkupPiece(b: string, tag: string, d: nat)
    requires '<' !in b && 0 < d <= |b| && d < |Open(tag)| && b[d - 1] != Open(tag)[d]
    ensures ForeignPiece("<" + b, tag, d)
  {
    assert ("<" + b)[1..] == b;
  }

  lemma OpenPiece(t: string, v: string, tag: string, d: nat)
    requires '<' !in t && '<' !in v
    requires 0 < d <= |t| && d < |Open(tag)| && t[d - 1] != Open(tag)[d]
    ensures ForeignPiece(Open(t) + v, tag, d)
  {
    assert Open(t) + v == "<" + (t + ">" + v);
    MarkupPiece(t + ">" + v, tag, d);
  }

  lemma ClosePiece(t: string, v: string, tag: string)
    requires '<' !in t && '<' !in v && ValidTag(tag)
    ensures ForeignPiece(Close(t) + v, tag, 1)
  {
    assert Close(t) + v == "<" + ("/" + t + ">" + v);
    MarkupPiece("/" + t + ">" + v, tag, 1);
  }

  /** The element spelled by an opening piece and its closing piece is found at the front. */
  lemma Element(tag: string, v: string, t: string, rest: string)
    requires |v| > 0 && '<' !in v
    ensures FirstCapture((Open(tag) + v) + ((Close(tag) + t) + rest), tag) == Some(v)
  {
    assert (Close(tag) + t) + rest == Close(tag) + (t + rest);
    assert (Open(tag) + v) + (Close(tag) + (t + rest)) == Open(tag) + v + Close(tag) + (t + rest);
    CaptureAtFront(tag, v, t + rest);
  }

  lemma LtFreeConcat(a: string, b: string)
    requires '<' !in a && '<' !in b
    ensures '<' !in a + b
  {
  }

  /** The texts between the sample's pieces of markup hold no `<`. */
  lemma TextsLtFree()
    ensures '<' !in "test-video-id" && '<' !in "Test Video Title" && '<' !in "UC123456789"
    ensures '<' !in "2024-01-01T00:00:00Z" && '<' !in "Test Channel"
    ensures '<' !in INDENT && '<' !in "\n      " && '<' !in "\n  " && '<' !in "\n"
    ensures '<' !in "entry" && '<' !in "author" && '<' !in "feed"
    ensures '<' !in VIDEO_ID_TAG && '<' !in TITLE_TAG && '<' !in CHANNEL_ID_TAG
    ensures '<' !in PUBLISHED_TAG && '<' !in NAME_TAG
  {
    assert '<' !in "Test Video Title" by { LtFreeConcat("Test Video", " Title"); }
    assert '<' !in "2024-01-01T00:00:00Z" by { LtFreeConcat("2024-01-01", "T00:00:00Z"); }
  }

  lemma DeclarationForeign(tag: string)
    requires |tag| > 0 && tag[0] != '?'
    ensures ForeignPiece(PIECE_0, tag, 1)
  {
    var b := "?xml version=\"1.0\" encoding=\"UTF-8\"?>\n";
    assert PIECE_0 == "<" + b;
    MarkupPiece(b, tag, 1);
  }

  lemma FeedOpenForeign(tag: string)
    requires |tag| > 0 && tag[0] != 'f'
    ensures ForeignPiece(PIECE_1, tag, 1)
  {
    var b := "feed xmlns:yt=\"" + YT_NAMESPACE + "\">\n  ";
    assert PIECE_1 == "<" + b;
    assert '<' !in YT_NAMESPACE;
    LtFreeConcat("feed xmlns:yt=\"", YT_NAMESPACE);
    LtFreeConcat("feed xmlns:yt=\"" + YT_NAMESPACE, "\">\n  ");
    MarkupPiece(b, tag, 1);
  }

  /** The two pieces in front of the entry cannot start an occurrence of a field tag. */
  lemma HeaderForeign(tag: string)
    requires |tag| > 0 && tag[0] != '?' && tag[0] != 'f'
    ensures ForeignPiece(PIECE_0, tag, 1) && ForeignPiece(PIECE_1, tag, 1)
  {
    DeclarationForeign(tag);
    FeedOpenForeign(tag);
  }

  lemma SampleVideoId()
    ensures FirstCapture(SAMPLE, VIDEO_ID_TAG) == Some("test-video-id")
  {
    TextsLtFree();
    HeaderForeign(VIDEO_ID_TAG);
    SkipForeignPiece(PIECE_0, REST_1, VIDEO_ID_TAG, 1);
    SkipForeignPiece(PIECE_1, REST_2, VIDEO_ID_TAG, 1);
    OpenPiece("entry", INDENT, VIDEO_ID_TAG, 1);
    SkipForeignPiece(PIECE_2, REST_3, VIDEO_ID_TAG, 1);
    Element(VIDEO_ID_TAG, "test-video-id", INDENT, REST_5);
  }

  lemma SampleTitle()
    ensures FirstCapture(SAMPLE, TITLE_TAG) == Some("Test Video Title")
  {
    TextsLtFree();
    HeaderForeign(TITLE_TAG);
    SkipForeignPiece(PIECE_0, REST_1, TITLE_TAG, 1);
    SkipForeignPiece(PIECE_1, REST_2, TITLE_TAG, 1);
    OpenPiece("entry", INDENT, TITLE_TAG, 1);
    SkipForeignPiece(PIECE_2, REST_3, TITLE_TAG, 1);
    OpenPiece(VIDEO_ID_TAG, "test-video-id", TITLE_TAG, 1);
    SkipForeignPiece(PIECE_3, REST_4, TITLE_TAG, 1);
    ClosePiece(VIDEO_ID_TAG, INDENT, TITLE_TAG);
    SkipForeignPiece(PIECE_4, REST_5, TITLE_TAG, 1);
    Element(TITLE_TAG, "Test Video Title", INDENT, REST_7);
  }

  /** `<yt:videoId>` and `<yt:channelId>` first differ at their fifth character. */
  lemma VideoIdBeforeChannelId()
    ensures ForeignPiece(PIECE_3, CHANNEL_ID_TAG, 4)
  {
    TextsLtFree();
    assert VIDEO_ID_TAG[3] == 'v' && Open(CHANNEL_ID_TAG)[4] == 'c';
    OpenPiece(VIDEO_ID_TAG, "test-video-id", CHANNEL_ID_TAG, 4);
  }

  lemma SampleChannelId()
    ensures FirstCapture(SAMPLE, CHANNEL_ID_TAG) == Some("UC123456789")
  {
    TextsLtFree();
    HeaderForeign(CHANNEL_ID_TAG);
    SkipForeignPiece(PIECE_0, REST_1, CHANNEL_ID_TAG, 1);
    SkipForeignPiece(PIECE_1, REST_2, CHANNEL_ID_TAG, 1);
    OpenPiece("entry", INDENT, CHANNEL_ID_TAG, 1);
    SkipForeignPiece(PIECE_2, REST_3, CHANNEL_ID_TAG, 1);
    VideoIdBeforeChannelId();
    SkipForeignPiece(PIECE_3, REST_4, CHANNEL_ID_TAG, 4);
    ClosePiece(VIDEO_ID_TAG, INDENT, CHANNEL_ID_TAG);
    SkipForeignPiece(PIECE_4, REST_5, CHANNEL_ID_TAG, 1);
    OpenPiece(TITLE_TAG, "Test Video Title", CHANNEL_ID_TAG, 1);
    SkipForeignPiece(PIECE_5, REST_6, CHANNEL_ID_TAG, 1);
    ClosePiece(TITLE_TAG, INDENT, CHANNEL_ID_TAG);
    SkipForeignPiece(PIECE_6, REST_7, CHANNEL_ID_TAG, 1);
    Element(CHANNEL_ID_TAG, "UC123456789", INDENT, REST_9);
  }

  lemma SamplePublished()
    ensures FirstCapture(SAMPLE, PUBLISHED_TAG) == Some("2024-01-01T00:00:00Z")
  {
    TextsLtFree();
    HeaderForeign(PUBLISHED_TAG);
    SkipForeignPiece(PIECE_0, REST_1, PUBLISHED_TAG, 1);
    SkipForeignPiece(PIECE_1, REST_2, PUBLISHED_TAG, 1);
    OpenPiece("entry", INDENT, PUBLISHED_TAG, 1);
    SkipForeignPiece(PIECE_2, REST_3, PUBLISHED_TAG, 1);
    OpenPiece(VIDEO_ID_TAG, "test-video-id", PUBLISHED_TAG, 1);
    SkipForeignPiece(PIECE_3, REST_4, PUBLISHED_TAG, 1);
    ClosePiece(VIDEO_ID_TAG, INDENT, PUBLISHED_TAG);
    SkipForeignPiece(PIECE_4, REST_5, PUBLISHED_TAG, 1);
    OpenPiece(TITLE_TAG, "Test Video Title", PUBLISHED_TAG, 1);
    SkipForeignPiece(PIECE_5, REST_6, PUBLISHED_TAG, 1);
    ClosePiece(TITLE_TAG, INDENT, PUBLISHED_TAG);
    SkipForeignPiece(PIECE_6, REST_7, PUBLISHED_TAG, 1);
    OpenPiece(CHANNEL_ID_TAG, "UC123456789", PUBLISHED_TAG, 1);
    SkipForeignPiece(PIECE_7, REST_8, PUBLISHED_TAG, 1);
    ClosePiece(CHANNEL_ID_TAG, INDENT, PUBLISHED_TAG);
    SkipForeignPiece(PIECE_8, REST_9, PUBLISHED_TAG, 1);
    Element(PUBLISHED_TAG, "2024-01-01T00:00:00Z", INDENT, REST_11);
  }

  lemma SampleName()
    ensures FirstCapture(SAMPLE, NAME_TAG) == Some("Test Channel")
  {
    TextsLtFree();
    HeaderForeign(NAME_TAG);
    SkipForeignPiece(PIECE_0, REST_1, NAME_TAG, 1);
    SkipForeignPiece(PIECE_1, REST_2, NAME_TAG, 1);
    OpenPiece("entry", INDENT, NAME_TAG, 1);
    SkipForeignPiece(PIECE_2, REST_3, NAME_TAG, 1);
    OpenPiece(VIDEO_ID_TAG, "test-video-id", NAME_TAG, 1);
    SkipForeignPiece(PIECE_3, REST_4, NAME_TAG, 1);
    ClosePiece(VIDEO_ID_TAG, INDENT, NAME_TAG);
    SkipForeignPiece(PIECE_4, REST_5, NAME_TAG, 1);
    OpenPiece(TITLE_TAG, "Test Video Title", NAME_TAG, 1);
    SkipForeignPiece(PIECE_5, REST_6, NAME_TAG, 1);
    ClosePiece(TITLE_TAG, INDENT, NAME_TAG);
    SkipForeignPiece(PIECE_6, REST_7, NAME_TAG, 1);
    OpenPiece(CHANNEL_ID_TAG, "UC123456789", NAME_TAG, 1);
    SkipForeignPiece(PIECE_7, REST_8, NAME_TAG, 1);
    ClosePiece(CHANNEL_ID_TAG, INDENT, NAME_TAG);
    SkipForeignPiece(PIECE_8, REST_9, NAME_TAG, 1);
    OpenPiece(PUBLISHED_TAG, "2024-01-01T00:00:00Z", NAME_TAG, 1);
    SkipForeignPiece(PIECE_9, REST_10, NAME_TAG, 1);
    ClosePiece(PUBLISHED_TAG, INDENT, NAME_TAG);
    SkipForeignPiece(PIECE_10, REST_11, NAME_TAG, 1);
    OpenPiece("author", "\n      ", NAME_TAG, 1);
    SkipForeignPiece(PIECE_11, REST_12, NAME_TAG, 1);
    Element(NAME_TAG, "Test Channel", INDENT, REST_14);
  }

  /** The feed parse of the sample yields exactly the fields the test expects. */
  lemma SampleParses()
    ensures ParseFeed(SAMPLE) == Some(FeedEntry("test-video-id", "Test Video Title",
      "UC123456789", Some("2024-01-01T00:00:00Z"), Some("Test Channel")))
  {
    SampleVideoId();
    SampleTitle();
    SampleChannelId();
    SamplePublished();
    SampleName();
  }
}
