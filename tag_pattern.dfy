/** The fixed-tag regular expressions `/<tag>([^<]+)<\/tag>/` that the webhook handler
    runs over a pushed feed, with the semantics of a non-global `String.prototype.match`:
    the capture group of the leftmost position at which the pattern matches. */
module TagPattern {
  import opened Wrappers

  /** The literal opening and closing delimiters of a pattern. */
  function Open(tag: string): string { "<" + tag + ">" }
  function Close(tag: string): string { "</" + tag + ">" }

  /** A tag name as the handler uses them: non-empty, no `<`, not starting with `/`. */
  predicate ValidTag(tag: string) {
    |tag| > 0 && '<' !in tag && tag[0] != '/'
  }

  /** The text `<tag>v</tag>` stands at position p of s, with v a possible value of the
      capture group `([^<]+)`: non-empty and free of `<`. This is what the pattern means,
      written without any search. */
  ghost predicate Occurs(s: string, tag: string, p: nat, v: string) {
    && |v| > 0
    && '<' !in v
    && p + |Open(tag)| + |v| + |Close(tag)| <= |s|
    && s[p..p + |Open(tag)| + |v| + |Close(tag)|] == Open(tag) + v + Close(tag)
  }

  /** Where the greedy run `[^<]+` started at j stops: the first `<` at or after j,
      or the end of the text. */
  function RunEnd(s: string, j: nat): (k: nat)
    requires j <= |s|
    ensures j <= k <= |s|
    ensures forall i :: j <= i < k ==> s[i] != '<'
    ensures k < |s| ==> s[k] == '<'
    decreases |s| - j
  {
    if j == |s| || s[j] == '<' then j else RunEnd(s, j + 1)
  }

  /** The pattern matches at p: the opening tag is there, the run after it is non-empty,
      and the closing tag follows the run. Backtracking into a shorter run cannot help,
      since the character after any shorter run is not `<`. */
  predicate MatchesAt(s: string, tag: string, p: nat)
    requires p <= |s|
  {
    var o, c := Open(tag), Close(tag);
    && p + |o| <= |s|
    && s[p..p + |o|] == o
    && var k := RunEnd(s, p + |o|);
       k > p + |o| && k + |c| <= |s| && s[k..k + |c|] == c
  }

  /** The capture group of the match at p. */
  function CaptureAt(s: string, tag: string, p: nat): string
    requires p <= |s| && MatchesAt(s, tag, p)
  {
    s[p + |Open(tag)|..RunEnd(s, p + |Open(tag)|)]
  }

  /** A match of the pattern, as the regular-expression engine reports it. */
  datatype Match = Match(start: nat, capture: string)

  /** The leftmost match starting at or after p. */
  function MatchFrom(s: string, tag: string, p: nat): (r: Option<Match>)
    requires p <= |s|
    ensures r.Some? ==>
      && p <= r.value.start <= |s|
      && MatchesAt(s, tag, r.value.start)
      && r.value.capture == CaptureAt(s, tag, r.value.start)
      && forall q :: p <= q < r.value.start ==> !MatchesAt(s, tag, q)
    ensures r.None? ==> forall q :: p <= q <= |s| ==> !MatchesAt(s, tag, q)
    decreases |s| - p
  {
    if MatchesAt(s, tag, p) then Some(Match(p, CaptureAt(s, tag, p)))
    else if p == |s| then None
    else MatchFrom(s, tag, p + 1)
  }

  /** `s.match(/<tag>([^<]+)<\/tag>/)?.[1]`: the capture of the leftmost match, if any. */
  function FirstCapture(s: string, tag: string): (r: Option<string>)
    ensures r.Some? ==> |r.value| > 0 && '<' !in r.value
  {
    match MatchFrom(s, tag, 0)
    case Some(m) => CaptureShape(s, tag, m.start); Some(m.capture)
    case None => None
  }

  /** The capture at a matching position is non-empty and free of `<`. */
  lemma CaptureShape(s: string, tag: string, p: nat)
    requires p <= |s| && MatchesAt(s, tag, p)
    ensures |CaptureAt(s, tag, p)| > 0 && '<' !in CaptureAt(s, tag, p)
  {
    var v := CaptureAt(s, tag, p);
    var j := p + |Open(tag)|;
    forall i | 0 <= i < |v| ensures v[i] != '<' {
      assert v[i] == s[j + i];
    }
  }

  /** The search agrees with the meaning: `<tag>v</tag>` stands at p exactly when the
      pattern matches at p and its capture is v. In particular the capture at a position
      is unique. */
  lemma OccursIff(s: string, tag: string, p: nat, v: string)
    requires p <= |s|
    ensures Occurs(s, tag, p, v) <==> MatchesAt(s, tag, p) && v == CaptureAt(s, tag, p)
  {
    if Occurs(s, tag, p, v) {
      OccursMatches(s, tag, p, v);
    }
    if MatchesAt(s, tag, p) && v == CaptureAt(s, tag, p) {
      MatchOccurs(s, tag, p);
    }
  }

  lemma OccursMatches(s: string, tag: string, p: nat, v: string)
    requires p <= |s| && Occurs(s, tag, p, v)
    ensures MatchesAt(s, tag, p) && v == CaptureAt(s, tag, p)
  {
    var o, c := Open(tag), Close(tag);
    var j := p + |o|;
    var e := j + |v|;
    var t := s[p..e + |c|];
    assert t == o + v + c;
    assert s[p..j] == t[..|o|];
    forall i | j <= i < e ensures s[i] != '<' {
      assert s[i] == t[i - p];
      assert t[i - p] == v[i - j];
    }
    assert s[e] == t[e - p];
    assert t[e - p] == c[0];
    RunEndIsFirst(s, j, e);
    assert s[e..e + |c|] == t[e - p..];
    assert s[j..e] == v by {
      forall i | 0 <= i < |v| ensures s[j..e][i] == v[i] {
        assert s[j + i] == t[|o| + i];
      }
    }
  }

  lemma MatchOccurs(s: string, tag: string, p: nat)
    requires p <= |s| && MatchesAt(s, tag, p)
    ensures Occurs(s, tag, p, CaptureAt(s, tag, p))
  {
    var o, c := Open(tag), Close(tag);
    var j := p + |o|;
    var k := RunEnd(s, j);
    var v := CaptureAt(s, tag, p);
    CaptureShape(s, tag, p);
    assert s[p..k + |c|] == s[p..j] + s[j..k] + s[k..k + |c|];
  }

  /** The run started at j stops at the first `<`. */
  lemma RunEndIsFirst(s: string, j: nat, e: nat)
    requires j <= e < |s| && s[e] == '<'
    requires forall i :: j <= i < e ==> s[i] != '<'
    ensures RunEnd(s, j) == e
    decreases e - j
  {
    if j < e { RunEndIsFirst(s, j + 1, e); }
  }

  /** The leftmost occurrence at p with capture v: nothing occurs earlier. */
  ghost predicate IsLeftmost(s: string, tag: string, p: nat, v: string) {
    Occurs(s, tag, p, v) && forall q: nat, w :: q < p ==> !Occurs(s, tag, q, w)
  }

  /** Some occurrence of the pattern exists anywhere in s. */
  ghost predicate Present(s: string, tag: string) {
    exists p: nat, v :: Occurs(s, tag, p, v)
  }

  /** What `FirstCapture` returns is the capture of the leftmost occurrence. */
  lemma FirstCaptureIsLeftmost(s: string, tag: string)
    ensures FirstCapture(s, tag).Some? ==>
      exists p: nat :: IsLeftmost(s, tag, p, FirstCapture(s, tag).value)
  {
    var r := MatchFrom(s, tag, 0);
    if r.Some? {
      var p := r.value.start;
      OccursIff(s, tag, p, r.value.capture);
      forall q: nat, w | q < p ensures !Occurs(s, tag, q, w) {
        OccursIff(s, tag, q, w);
      }
      assert IsLeftmost(s, tag, p, r.value.capture);
    }
  }

  /** `FirstCapture` returns nothing exactly when the pattern occurs nowhere. */
  lemma FirstCaptureAbsent(s: string, tag: string)
    ensures FirstCapture(s, tag).None? <==> !Present(s, tag)
  {
    var r := MatchFrom(s, tag, 0);
    if r.Some? {
      OccursIff(s, tag, r.value.start, r.value.capture);
    } else {
      forall p: nat, v ensures !Occurs(s, tag, p, v) {
        if p <= |s| { OccursIff(s, tag, p, v); }
      }
    }
  }

  /** Conversely, the capture of the leftmost occurrence is what `FirstCapture` returns. */
  lemma LeftmostIsFound(s: string, tag: string, p: nat, v: string)
    requires IsLeftmost(s, tag, p, v)
    ensures FirstCapture(s, tag) == Some(v)
  {
    OccursIff(s, tag, p, v);
    var r := MatchFrom(s, tag, 0);
    assert r.Some?;
    var q := r.value.start;
    OccursIff(s, tag, q, r.value.capture);
  }

  /** An element at the very front of the text is what the pattern finds. */
  lemma CaptureAtFront(tag: string, v: string, rest: string)
    requires |v| > 0 && '<' !in v
    ensures FirstCapture(Open(tag) + v + Close(tag) + rest, tag) == Some(v)
  {
    var s := Open(tag) + v + Close(tag) + rest;
    assert s[..|Open(tag)| + |v| + |Close(tag)|] == Open(tag) + v + Close(tag);
    assert IsLeftmost(s, tag, 0, v);
    LeftmostIsFound(s, tag, 0, v);
  }

  /** Text in front of a position shifts occurrences without changing them: the pattern
      only looks forward from where it starts. */
  lemma OccursShift(a: string, b: string, tag: string, q: nat, w: string)
    ensures Occurs(a + b, tag, |a| + q, w) <==> Occurs(b, tag, q, w)
  {
    var n := |Open(tag)| + |w| + |Close(tag)|;
    if q + n <= |b| {
      assert (a + b)[|a| + q..|a| + q + n] == b[q..q + n];
    }
  }

  /** An occurrence at q starts with the opening tag. */
  lemma OpensAt(s: string, tag: string, q: nat, w: string)
    ensures Occurs(s, tag, q, w) ==>
      forall i :: 0 <= i < |Open(tag)| ==> s[q + i] == Open(tag)[i]
  {
    if Occurs(s, tag, q, w) {
      var t := s[q..q + |Open(tag)| + |w| + |Close(tag)|];
      forall i | 0 <= i < |Open(tag)| ensures s[q + i] == Open(tag)[i] {
        assert s[q + i] == t[i];
      }
    }
  }

  /** A piece of markup of another element: it opens with `<`, has no other `<`, and
      differs from the opening tag at position d. */
  ghost predicate ForeignPiece(piece: string, tag: string, d: nat) {
    && |piece| > 0 && piece[0] == '<' && '<' !in piece[1..]
    && d < |piece| && d < |Open(tag)| && piece[d] != Open(tag)[d]
  }

  /** A foreign piece holds the start of no occurrence, whatever follows it. */
  lemma NoneInForeignPiece(piece: string, rest: string, tag: string, d: nat)
    requires ForeignPiece(piece, tag, d)
    ensures forall q: nat, w :: q < |piece| ==> !Occurs(piece + rest, tag, q, w)
  {
    var s := piece + rest;
    forall q: nat, w | q < |piece| ensures !Occurs(s, tag, q, w) {
      if q == 0 {
        assert s[q + d] == piece[d];
      } else {
        assert s[q + 0] == piece[1..][q - 1];
      }
      OpensAt(s, tag, q, w);
    }
  }

  /** So the leftmost capture in piece + rest is the leftmost capture in rest: markup of
      another element in front of the one sought does not change what is found. */
  lemma SkipForeignPiece(piece: string, rest: string, tag: string, d: nat)
    requires ForeignPiece(piece, tag, d)
    ensures FirstCapture(piece + rest, tag) == FirstCapture(rest, tag)
  {
    NoneInForeignPiece(piece, rest, tag, d);
    FirstCaptureIsLeftmost(rest, tag);
    FirstCaptureAbsent(rest, tag);
    FirstCaptureAbsent(piece + rest, tag);
    if FirstCapture(rest, tag).Some? {
      var v := FirstCapture(rest, tag).value;
      var p: nat :| IsLeftmost(rest, tag, p, v);
      ShiftLeftmost(piece, rest, tag, p, v);
    } else {
      ShiftAbsent(piece, rest, tag);
    }
  }

  /** The leftmost occurrence in rest stays leftmost behind a piece with none of its own. */
  lemma ShiftLeftmost(piece: string, rest: string, tag: string, p: nat, v: string)
    requires forall q: nat, w :: q < |piece| ==> !Occurs(piece + rest, tag, q, w)
    requires IsLeftmost(rest, tag, p, v)
    ensures FirstCapture(piece + rest, tag) == Some(v)
  {
    var s := piece + rest;
    OccursShift(piece, rest, tag, p, v);
    forall q: nat, w | q < |piece| + p ensures !Occurs(s, tag, q, w) {
      if q >= |piece| { OccursShift(piece, rest, tag, q - |piece|, w); }
    }
    LeftmostIsFound(s, tag, |piece| + p, v);
  }

  /** No occurrence in rest and none starting in the piece: none in piece + rest. */
  lemma ShiftAbsent(piece: string, rest: string, tag: string)
    requires forall q: nat, w :: q < |piece| ==> !Occurs(piece + rest, tag, q, w)
    requires !Present(rest, tag)
    ensures !Present(piece + rest, tag)
  {
    var s := piece + rest;
    forall q: nat, w ensures !Occurs(s, tag, q, w) {
      if q >= |piece| { OccursShift(piece, rest, tag, q - |piece|, w); }
    }
  }
}
