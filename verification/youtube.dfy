/**
 * `combine_transcript` of youtube.py: drop the entries whose text is
 * exactly a music or applause marker and join the rest with single spaces.
 */
module Transcript {

  /** One transcript entry; only its text is read. */
  datatype Entry = Entry(text: string)

  predicate IsMarker(text: string) {
    text == "[Music]" || text == "[Applause]"
  }

  /** The texts the generator expression yields, in order. */
  function Kept(transcript: seq<Entry>): (texts: seq<string>)
    ensures |texts| <= |transcript|
    ensures forall i :: 0 <= i < |texts| ==> !IsMarker(texts[i])
  {
    if transcript == [] then []
    else (if IsMarker(transcript[0].text) then [] else [transcript[0].text]) + Kept(transcript[1..])
  }

  /**
   * `' '.join(texts)`: the texts with one separator between each
   * neighbouring pair, so k texts give their total length plus k - 1.
   */
  function Join(texts: seq<string>): (s: string)
    ensures texts == [] ==> s == ""
    ensures texts != [] ==> |s| == TotalLength(texts) + |texts| - 1
    ensures texts != [] ==> s[..|texts[0]|] == texts[0]
  {
    if texts == [] then ""
    else if |texts| == 1 then texts[0]
    else texts[0] + " " + Join(texts[1..])
  }

  /** `combine_transcript`: the kept texts, space-separated. */
  function CombineTranscript(transcript: seq<Entry>): (s: string)
    ensures Kept(transcript) == [] ==> s == ""
    ensures Kept(transcript) != [] ==>
      |s| == TotalLength(Kept(transcript)) + |Kept(transcript)| - 1
  {
    Join(Kept(transcript))
  }

  function TotalLength(texts: seq<string>): nat {
    if texts == [] then 0 else |texts[0]| + TotalLength(texts[1..])
  }

  /** Filtering works entry by entry: it distributes over concatenation. */
  lemma {:induction false} KeptAppend(a: seq<Entry>, b: seq<Entry>)
    ensures Kept(a + b) == Kept(a) + Kept(b)
  {
    if a != [] {
      assert (a + b)[1..] == a[1..] + b;
      KeptAppend(a[1..], b);
    } else {
      assert a + b == b;
    }
  }

  /** A text is kept exactly when some entry carries it and it is not a marker. */
  lemma {:induction false} KeptMembership(transcript: seq<Entry>, text: string)
    ensures text in Kept(transcript) <==>
      !IsMarker(text) && exists i :: 0 <= i < |transcript| && transcript[i].text == text
  {
    if transcript != [] {
      KeptMembership(transcript[1..], text);
      if exists i :: 0 <= i < |transcript[1..]| && transcript[1..][i].text == text {
        var i :| 0 <= i < |transcript[1..]| && transcript[1..][i].text == text;
        assert transcript[i + 1].text == text;
      }
      if exists i :: 0 <= i < |transcript| && transcript[i].text == text {
        var i :| 0 <= i < |transcript| && transcript[i].text == text;
        if i > 0 {
          assert transcript[1..][i - 1].text == text;
        }
      }
    }
  }

  /** Joining two non-empty runs puts exactly one separator between them, none at either end. */
  lemma {:induction false} JoinAppend(xs: seq<string>, ys: seq<string>)
    requires xs != [] && ys != []
    ensures Join(xs + ys) == Join(xs) + " " + Join(ys)
  {
    if |xs| == 1 {
      assert (xs + ys)[1..] == ys;
    } else {
      assert (xs + ys)[1..] == xs[1..] + ys;
      JoinAppend(xs[1..], ys);
    }
  }

  /** Combining two halves of a transcript: a space between them only when both keep something. */
  lemma CombineAppend(a: seq<Entry>, b: seq<Entry>)
    ensures CombineTranscript(a + b) ==
      if Kept(a) == [] then CombineTranscript(b)
      else if Kept(b) == [] then CombineTranscript(a)
      else CombineTranscript(a) + " " + CombineTranscript(b)
  {
    KeptAppend(a, b);
    if Kept(a) != [] && Kept(b) != [] {
      JoinAppend(Kept(a), Kept(b));
    } else if Kept(a) == [] {
      assert Kept(a) + Kept(b) == Kept(b);
    } else {
      assert Kept(a) + Kept(b) == Kept(a);
    }
  }

  /** A transcript of markers only (or none at all) combines to the empty string. */
  lemma {:induction false} MarkersOnlyEmpty(transcript: seq<Entry>)
    requires forall i :: 0 <= i < |transcript| ==> IsMarker(transcript[i].text)
    ensures CombineTranscript(transcript) == ""
  {
    if transcript != [] {
      MarkersOnlyEmpty(transcript[1..]);
    }
  }

  /** Only an exact marker is dropped: text that merely contains one is kept. */
  lemma ContainedMarkerKept()
    ensures CombineTranscript([Entry("[Music]"), Entry("[Music] hi"), Entry("[Applause]"), Entry("bye")])
         == "[Music] hi bye"
  {
    assert Kept([Entry("bye")]) == ["bye"];
    assert Kept([Entry("[Applause]"), Entry("bye")]) == ["bye"];
    assert Kept([Entry("[Music] hi"), Entry("[Applause]"), Entry("bye")]) == ["[Music] hi", "bye"];
  }
}
