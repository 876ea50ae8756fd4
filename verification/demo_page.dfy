/**
 * The video-id extraction of the demo page's submit handler
 * (landing_page/src/page/DemoPage.tsx).  The URL is searched, unanchored,
 * for the regular expression
 *   (?:youtu\.be\/|youtube\.com(?:\/embed\/|\/v\/|\/watch\?v=|\/watch\?.+&v=))([^"&?\/\s]{11})
 * and, on a match, the capture group becomes the new video id.  The
 * search is written out the way a backtracking ECMAScript matcher runs it:
 * start positions left to right, alternatives in order, `.+` greedy.
 */
module VideoIds {
  import opened Wrappers

  const IdLength: nat := 11

  /** ECMAScript `\s`: white space and line terminators. */
  predicate IsSpace(c: char) {
    var n := c as int;
    (9 <= n <= 13) || n == 0x20 || n == 0xA0 || n == 0x1680
      || (0x2000 <= n <= 0x200A) || n == 0x2028 || n == 0x2029
      || n == 0x202F || n == 0x205F || n == 0x3000 || n == 0xFEFF
  }

  /** The characters ECMAScript's `.` does not match. */
  predicate IsLineTerminator(c: char) {
    c == '\n' || c == '\r' || c as int == 0x2028 || c as int == 0x2029
  }

  /** The class `[^"&?\/\s]`. */
  predicate IdChar(c: char) {
    c != '"' && c != '&' && c != '?' && c != '/' && !IsSpace(c)
  }

  /** `lit` occurs in `s` at index `i`. */
  predicate LitAt(s: string, i: nat, lit: string) {
    i + |lit| <= |s| && s[i..i + |lit|] == lit
  }

  /** Eleven id characters start at index `i`. */
  predicate IdAt(s: string, i: nat) {
    i + IdLength <= |s| && forall k :: i <= k < i + IdLength ==> IdChar(s[k])
  }

  /** No line terminator in `s[lo..hi]`, so `.` matches each of them. */
  predicate DotRun(s: string, lo: nat, hi: nat)
    requires lo <= hi <= |s|
  {
    forall k :: lo <= k < hi ==> !IsLineTerminator(s[k])
  }

  /** `&v=` followed by an id starts at `j`. */
  predicate AmpAt(s: string, j: nat) {
    LitAt(s, j, "&v=") && IdAt(s, j + 3)
  }

  /**
   * An id starting at `i` follows one of the pattern's five prefixes,
   * itself starting at `p`.
   */
  predicate Prefixed(s: string, p: nat, i: nat) {
    (LitAt(s, p, "youtu.be/") && i == p + 9)
    || (LitAt(s, p, "youtube.com") &&
         ((LitAt(s, p + 11, "/embed/") && i == p + 18)
          || (LitAt(s, p + 11, "/v/") && i == p + 14)
          || (LitAt(s, p + 11, "/watch?v=") && i == p + 20)
          || (LitAt(s, p + 11, "/watch?") && p + 19 <= i - 3 && i <= |s|
              && LitAt(s, i - 3, "&v=") && DotRun(s, p + 18, i - 3))))
  }

  /** How far `.+` can reach from `i`: the first line terminator at or after `i`, or the end. */
  function RunEnd(s: string, i: nat): (e: nat)
    requires i <= |s|
    ensures i <= e <= |s|
    ensures DotRun(s, i, e)
    ensures e < |s| ==> IsLineTerminator(s[e])
    decreases |s| - i
  {
    if i == |s| || IsLineTerminator(s[i]) then i else RunEnd(s, i + 1)
  }

  /**
   * The backtracking of greedy `.+&v=`: try the end positions `hi`,
   * `hi - 1`, …, `lo` and keep the first at which `&v=` and an id follow.
   */
  function Backtrack(s: string, lo: nat, hi: nat): (r: Option<nat>)
    ensures r.Some? ==> lo <= r.value <= hi && AmpAt(s, r.value)
    ensures r.Some? ==> forall k :: r.value < k <= hi ==> !AmpAt(s, k)
    ensures r.None? ==> forall k :: lo <= k <= hi ==> !AmpAt(s, k)
    decreases hi
  {
    if hi < lo then None
    else if AmpAt(s, hi) then Some(hi)
    else if hi == lo then None
    else Backtrack(s, lo, hi - 1)
  }

  function IdFrom(s: string, i: nat): (id: string)
    requires IdAt(s, i)
    ensures |id| == IdLength && forall k :: 0 <= k < IdLength ==> IdChar(id[k])
  {
    s[i..i + IdLength]
  }

  /** The capture group of a match attempt that starts at `p`, alternatives in order. */
  function MatchAt(s: string, p: nat): (r: Option<string>)
    ensures r.Some? ==> exists i: nat :: Prefixed(s, p, i) && IdAt(s, i) && r.value == s[i..i + IdLength]
    ensures r.Some? ==> |r.value| == IdLength && forall k :: 0 <= k < IdLength ==> IdChar(r.value[k])
  {
    if LitAt(s, p, "youtu.be/") && IdAt(s, p + 9) then
      assert Prefixed(s, p, p + 9);
      Some(IdFrom(s, p + 9))
    else if LitAt(s, p, "youtube.com") then
      var q := p + 11;
      if LitAt(s, q, "/embed/") && IdAt(s, q + 7) then
        assert Prefixed(s, p, q + 7);
        Some(IdFrom(s, q + 7))
      else if LitAt(s, q, "/v/") && IdAt(s, q + 3) then
        assert Prefixed(s, p, q + 3);
        Some(IdFrom(s, q + 3))
      else if LitAt(s, q, "/watch?v=") && IdAt(s, q + 9) then
        assert Prefixed(s, p, q + 9);
        Some(IdFrom(s, q + 9))
      else if LitAt(s, q, "/watch?") then
        var e := RunEnd(s, q + 7);
        match Backtrack(s, q + 8, e)
        case Some(j) =>
          assert DotRun(s, q + 7, j);
          assert Prefixed(s, p, j + 3);
          Some(IdFrom(s, j + 3))
        case None => None
      else None
    else None
  }

  /** The first match at a start position `from` or later. */
  function Search(s: string, from: nat): (r: Option<string>)
    ensures r.Some? ==> exists p :: from <= p <= |s| && MatchAt(s, p) == r
                          && forall k :: from <= k < p ==> MatchAt(s, k).None?
    ensures r.None? ==> forall p :: from <= p <= |s| ==> MatchAt(s, p).None?
    decreases |s| + 1 - from
  {
    if from > |s| then None
    else if MatchAt(s, from).Some? then MatchAt(s, from)
    else Search(s, from + 1)
  }

  /** `match[1]` of `url.match(pattern)`, or None when there is no match. */
  function Extract(url: string): (r: Option<string>)
    ensures r.Some? ==> |r.value| == IdLength
    ensures r.Some? ==> forall k :: 0 <= k < |r.value| ==> IdChar(r.value[k])
  {
    Search(url, 0)
  }

  /** `.+` reaches at least as far as any run free of line terminators. */
  lemma {:induction false} RunEndCovers(s: string, lo: nat, hi: nat)
    requires lo <= hi <= |s| && DotRun(s, lo, hi)
    ensures hi <= RunEnd(s, lo)
    decreases hi - lo
  {
    if lo < hi {
      RunEndCovers(s, lo + 1, hi);
    }
  }

  /** Completeness: wherever one of the prefixes is followed by an id, a match attempt there succeeds. */
  lemma MatchAtComplete(s: string, p: nat, i: nat)
    requires Prefixed(s, p, i) && IdAt(s, i)
    ensures MatchAt(s, p).Some?
  {
    var q := p + 11;
    if !(LitAt(s, p, "youtu.be/") && IdAt(s, p + 9))
       && LitAt(s, p, "youtube.com")
       && !(LitAt(s, q, "/embed/") && IdAt(s, q + 7))
       && !(LitAt(s, q, "/v/") && IdAt(s, q + 3))
       && !(LitAt(s, q, "/watch?v=") && IdAt(s, q + 9))
       && LitAt(s, q, "/watch?") {
      RunEndCovers(s, q + 7, i - 3);
      assert AmpAt(s, i - 3);
    }
  }

  /** An id anywhere after one of the prefixes means the URL yields some id. */
  lemma ExtractComplete(s: string, p: nat, i: nat)
    requires Prefixed(s, p, i) && IdAt(s, i)
    ensures Extract(s).Some?
  {
    MatchAtComplete(s, p, i);
    assert p <= |s|;
  }

  /** The id Extract returns follows a prefix starting at the leftmost position where any match starts. */
  lemma ExtractLeftmost(s: string)
    requires Extract(s).Some?
    ensures exists p: nat, i: nat :: Prefixed(s, p, i) && IdAt(s, i) && Extract(s).value == s[i..i + IdLength]
                            && forall k :: 0 <= k < p ==> MatchAt(s, k).None?
  {
    var p :| 0 <= p <= |s| && MatchAt(s, p) == Extract(s)
              && forall k :: 0 <= k < p ==> MatchAt(s, k).None?;
    var i: nat :| Prefixed(s, p, i) && IdAt(s, i) && MatchAt(s, p).value == s[i..i + IdLength];
  }

  /** No URL that contains no prefix-and-id yields an id. */
  lemma ExtractNoneWhenNoPrefix(s: string)
    requires forall p: nat, i: nat :: Prefixed(s, p, i) ==> !IdAt(s, i)
    ensures Extract(s).None?
  {
    if Extract(s).Some? {
      ExtractLeftmost(s);
    }
  }

  /** Eleven id characters right after `youtu.be/` are the id, whatever follows them. */
  lemma ShortLinkId(id: string, rest: string)
    requires |id| == IdLength && forall k :: 0 <= k < IdLength ==> IdChar(id[k])
    ensures Extract("youtu.be/" + id + rest) == Some(id)
  {
    var s := "youtu.be/" + id + rest;
    assert s[0..9] == "youtu.be/";
    assert s[9..20] == id;
    assert IdAt(s, 9) by {
      forall k | 9 <= k < 20 ensures IdChar(s[k]) {
        assert s[k] == id[k - 9];
      }
    }
  }

  /** Hence a longer run of id characters is cut to its first eleven. */
  lemma TruncatesLongId()
    ensures Extract("youtu.be/abcdefghijklmnop") == Some("abcdefghijk")
  {
    assert "youtu.be/abcdefghijklmnop" == "youtu.be/" + "abcdefghijk" + "lmnop";
    ShortLinkId("abcdefghijk", "lmnop");
  }

  /** After `youtube.com/watch?v=` the direct alternative wins over any later `&v=`. */
  lemma WatchLinkId(id: string, rest: string)
    requires |id| == IdLength && forall k :: 0 <= k < IdLength ==> IdChar(id[k])
    ensures Extract("youtube.com" + "/watch?v=" + id + rest) == Some(id)
  {
    var s := "youtube.com" + "/watch?v=" + id + rest;
    assert s[5] == 'b' && "youtu.be/"[5] == '.';
    assert !LitAt(s, 0, "youtu.be/");
    assert s[0..11] == "youtube.com";
    assert s[11..20] == "/watch?v=";
    assert s[12] == 'w';
    assert s[11..18][1] == 'w' && "/embed/"[1] == 'e';
    assert s[11..14][1] == 'w' && "/v/"[1] == 'v';
    assert s[20..31] == id;
    assert IdAt(s, 20) by {
      forall k | 20 <= k < 31 ensures IdChar(s[k]) {
        assert s[k] == id[k - 20];
      }
    }
  }

  /** The demo page's two pieces of state. */
  class DemoPage {
    var youtubeUrl: string
    var videoId: string

    constructor()
      ensures youtubeUrl == "" && videoId == ""
    {
      youtubeUrl := "";
      videoId := "";
    }

    /** The text field's change handler. */
    method SetYoutubeUrl(url: string)
      modifies this
      ensures youtubeUrl == url && videoId == old(videoId)
    {
      youtubeUrl := url;
    }

    /** The submit handler: the video id changes only on a match. */
    method HandleYoutubeSubmit()
      modifies this
      ensures youtubeUrl == old(youtubeUrl)
      ensures Extract(youtubeUrl).None? ==> videoId == old(videoId)
      ensures Extract(youtubeUrl).Some? ==> videoId == Extract(youtubeUrl).value
      ensures |videoId| == IdLength || videoId == old(videoId)
    {
      var found := Extract(youtubeUrl);
      if found.Some? {
        videoId := found.value;
      }
    }
  }
}
