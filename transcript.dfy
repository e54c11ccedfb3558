/** The caption path of `transcribe_video`: the word tokens of all
    transcription segments are collected in order, packed into cues and
    written as WebVTT text. Speech recognition, the plain-text transcript and
    the file writes are not modelled. */
module Transcript {
  import opened Wrappers
  import opened Captions
  import opened WebVtt

  /** A transcription segment; `words` is `None` when the segment has no
      `words` key. */
  datatype Segment = Segment(words: Option<seq<Word>>)

  /** The words a segment contributes: its `words`, or none without the key. */
  function SegmentWords(s: Segment): seq<Word>
  {
    if s.words.Some? then s.words.value else []
  }

  /** The words of all segments, segment after segment. */
  function AllSegmentWords(segments: seq<Segment>): seq<Word>
  {
    if segments == [] then []
    else AllSegmentWords(segments[..|segments| - 1]) + SegmentWords(segments[|segments| - 1])
  }

  /** The collecting loop: `all_words.extend(segment["words"])` for every
      segment that has the key. */
  method FlattenWords(segments: seq<Segment>) returns (all: seq<Word>)
    ensures all == AllSegmentWords(segments)
  {
    all := [];
    for i := 0 to |segments|
      invariant all == AllSegmentWords(segments[..i])
    {
      if segments[i].words.Some? {
        all := all + segments[i].words.value;
      }
      assert segments[..i + 1][..i] == segments[..i];
    }
    assert segments[..|segments|] == segments;
  }

  /** Collecting over two runs of segments collects each run in turn. */
  lemma {:induction false} AllSegmentWordsConcat(a: seq<Segment>, b: seq<Segment>)
    ensures AllSegmentWords(a + b) == AllSegmentWords(a) + AllSegmentWords(b)
    decreases |b|
  {
    if b == [] {
      assert a + b == a;
    } else {
      var init := b[..|b| - 1];
      AllSegmentWordsConcat(a, init);
      assert (a + b)[..|a + b| - 1] == a + init;
      assert (a + b)[|a + b| - 1] == b[|b| - 1];
    }
  }

  /** The segment has a `words` key whose list holds `w`. */
  predicate Holds(s: Segment, w: Word)
  {
    s.words.Some? && w in s.words.value
  }

  /** A word is collected exactly when some segment with a `words` key holds
      it. */
  lemma {:induction false} AllSegmentWordsMembers(segments: seq<Segment>, w: Word)
    ensures w in AllSegmentWords(segments) <==> exists i :: 0 <= i < |segments| && Holds(segments[i], w)
    decreases |segments|
  {
    if segments != [] {
      var n := |segments| - 1;
      var init := segments[..n];
      AllSegmentWordsMembers(init, w);
      assert w in SegmentWords(segments[n]) <==> Holds(segments[n], w);
      assert forall i :: 0 <= i < n ==> init[i] == segments[i];
      if w in AllSegmentWords(segments) && w !in SegmentWords(segments[n]) {
        var i :| 0 <= i < n && Holds(init[i], w);
        assert Holds(segments[i], w);
      }
    }
  }

  /** The number of collected words is the sum of the segments' word counts. */
  function WordCount(segments: seq<Segment>): nat
  {
    if segments == [] then 0
    else WordCount(segments[..|segments| - 1]) + |SegmentWords(segments[|segments| - 1])|
  }

  lemma {:induction false} AllSegmentWordsCount(segments: seq<Segment>)
    ensures |AllSegmentWords(segments)| == WordCount(segments)
    decreases |segments|
  {
    if segments != [] {
      AllSegmentWordsCount(segments[..|segments| - 1]);
    }
  }

  /** The `generate_vtt` branch without the file: collect the words, build the
      cues, and return the text `write_pro_vtt` would write. */
  method CaptionText(segments: seq<Segment>, cfg: Config) returns (text: string)
    ensures text == WriteProVtt(Captions.Captions(AllSegmentWords(segments), cfg))
  {
    var words := FlattenWords(segments);
    var cues := BuildCaptions(words, cfg);
    text := WriteProVtt(cues);
  }

  /** The text of an empty transcription, or of one whose segments carry no
      words, is the header alone. */
  lemma NoWordsHeaderOnly(segments: seq<Segment>, cfg: Config)
    requires forall s <- segments :: s.words.None? || s.words.value == []
    ensures WriteProVtt(Captions.Captions(AllSegmentWords(segments), cfg)) == Header
  {
    NoWordsCollected(segments);
    CaptionsWords([], cfg);
    WriteProVttEmpty();
  }

  lemma {:induction false} NoWordsCollected(segments: seq<Segment>)
    requires forall s <- segments :: s.words.None? || s.words.value == []
    ensures AllSegmentWords(segments) == []
    decreases |segments|
  {
    if segments != [] {
      var init := segments[..|segments| - 1];
      assert forall s <- init :: s in segments;
      assert segments[|segments| - 1] in segments;
      NoWordsCollected(init);
    }
  }
}
