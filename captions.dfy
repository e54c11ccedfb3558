/** `build_dcmp_captions`: the greedy packer that turns timed words into caption
    cues. The pass over the words is specified by the functions `Step` and `Run`
    on a `Builder` (the cue under construction and the cues already closed), the
    orphan correction by `FixOrphan`, and the whole by `Captions`; the method
    `BuildCaptions` is the imperative loop, proved equal to `Captions`. */
module Captions {
  import opened Text

  /** A time in whole milliseconds. */
  type Time = nat

  /** A word token of the transcription engine (`{'word', 'start', 'end'}`). */
  datatype Word = Word(text: string, start: Time, end: Time)

  /** A caption cue (`{'start', 'end', 'lines'}`). */
  datatype Cue = Cue(start: Time, end: Time, lines: seq<string>)

  /** `max_chars` and `max_lines`; Python accepts any integers. */
  datatype Config = Config(maxChars: int, maxLines: int)

  /** The defaults of `build_dcmp_captions`. */
  const DefaultConfig := Config(32, 2)

  /** The break the previous word's punctuation asked for. Python keeps it in
      the flags `force_new_block` (NewCue) and `force_new_line` (NewLine); both
      are cleared before a word is placed and at most one is set afterwards, so
      one of three values describes them. */
  datatype Pending = NoBreak | NewLine | NewCue

  /** Punctuation acts only once the line holding the word is longer than this. */
  const PunctuationMinLine := 15
  /** A last cue whose text is shorter than this is an orphan candidate. */
  const OrphanMaxText := 15
  /** Slack over `max_chars` allowed for the line an orphan is merged into. */
  const OrphanSlack := 15

  const SentenceEnds: set<char> := {'.', '?', '!'}
  const ClauseEnds: set<char> := {',', ';', ':'}

  /** The lines of the cue under construction: never empty. */
  type Lines = s: seq<string> | |s| > 0 witness [""]

  /** The local state of the pass: `captions`, `current_lines`,
      `current_start`, `current_end` and the two flags. */
  datatype Builder = Builder(done: seq<Cue>, lines: Lines, start: Time, end: Time, pending: Pending)

  function LastLine(lines: Lines): string
  {
    lines[|lines| - 1]
  }

  function Current(b: Builder): Cue
  {
    Cue(b.start, b.end, b.lines)
  }

  /** The state before the first word: one empty line, timed as the first word. */
  function Start(first: Word): Builder
  {
    Builder([], [""], first.start, first.end, NoBreak)
  }

  /** The separator `sep` put before a word appended to `line`. */
  function Sep(line: string): string
  {
    if |line| > 0 then " " else ""
  }

  /** The pending break is carried out before the next word is placed. */
  function Consume(b: Builder, w: Word, cfg: Config): Builder
  {
    match b.pending
    case NoBreak => b
    case NewCue => Builder(b.done + [Current(b)], [""], w.start, w.end, NoBreak)
    case NewLine =>
      if |b.lines| < cfg.maxLines then b.(lines := b.lines + [""], pending := NoBreak)
      else Builder(b.done + [Current(b)], [""], w.start, b.end, NoBreak)
  }

  /** The word goes on the current line if it fits, else on a new line, else
      into a new cue. */
  function Place(b: Builder, word: string, w: Word, cfg: Config): Builder
  {
    var last := LastLine(b.lines);
    if |last| + |Sep(last)| + |word| <= cfg.maxChars then
      b.(lines := b.lines[|b.lines| - 1 := last + Sep(last) + word], end := w.end)
    else if |b.lines| < cfg.maxLines then
      b.(lines := b.lines + [word], end := w.end)
    else
      b.(done := b.done + [Current(b)], lines := [word], start := w.start, end := w.end)
  }

  /** Trailing punctuation asks for a break before the next word, once the
      current line is long enough. */
  function Mark(b: Builder, word: string): Builder
  {
    if |LastLine(b.lines)| > PunctuationMinLine then
      if EndsWithAny(word, SentenceEnds) then b.(pending := NewCue)
      else if EndsWithAny(word, ClauseEnds) then b.(pending := NewLine)
      else b
    else b
  }

  /** Punctuation only sets the flag: the cues, lines and times stay. */
  lemma MarkKeepsCues(b: Builder, word: string)
    ensures Mark(b, word) == b.(pending := Mark(b, word).pending)
  {
  }

  /** One iteration of the loop over the words. */
  function Step(b: Builder, w: Word, cfg: Config): Builder
  {
    var word := Strip(w.text);
    Mark(Place(Consume(b, w, cfg), word, w, cfg), word)
  }

  /** The loop run over `ws` from state `b`. */
  function Run(b: Builder, ws: seq<Word>, cfg: Config): Builder
    decreases |ws|
  {
    if ws == [] then b else Step(Run(b, ws[..|ws| - 1], cfg), ws[|ws| - 1], cfg)
  }

  /** The cue list once the cue under construction is appended. */
  function Finish(b: Builder): seq<Cue>
  {
    b.done + [Current(b)]
  }

  /** The cues before the orphan correction. */
  function Pack(words: seq<Word>, cfg: Config): seq<Cue>
  {
    if words == [] then [] else Finish(Run(Start(words[0]), words, cfg))
  }

  predicate ShouldMerge(prev: Cue, last: Cue, cfg: Config)
    requires |prev.lines| > 0
  {
    var text := Join(last.lines, ' ');
    |text| < OrphanMaxText && |prev.lines[|prev.lines| - 1]| + |text| < cfg.maxChars + OrphanSlack
  }

  /** `prev` with the text of `last` appended to its last line, ending when
      `last` ends. */
  function Merge(prev: Cue, last: Cue): Cue
    requires |prev.lines| > 0
  {
    var k := |prev.lines| - 1;
    prev.(lines := prev.lines[k := prev.lines[k] + " " + Join(last.lines, ' ')], end := last.end)
  }

  /** The orphan correction. */
  function FixOrphan(cues: seq<Cue>, cfg: Config): seq<Cue>
    requires |cues| > 1 ==> |cues[|cues| - 2].lines| > 0
  {
    var n := |cues|;
    if n > 1 && ShouldMerge(cues[n - 2], cues[n - 1], cfg)
    then cues[..n - 2] + [Merge(cues[n - 2], cues[n - 1])]
    else cues
  }

  /** `build_dcmp_captions(words, max_chars, max_lines)`. */
  function Captions(words: seq<Word>, cfg: Config): seq<Cue>
  {
    PackHasLines(words, cfg);
    FixOrphan(Pack(words, cfg), cfg)
  }

  /** The imperative pass, as the source writes it. The three parts of the
      loop body are the methods below. */
  method BuildCaptions(words: seq<Word>, cfg: Config) returns (captions: seq<Cue>)
    ensures captions == Captions(words, cfg)
  {
    if |words| == 0 {
      return [];
    }
    var state := Start(words[0]);
    for i := 0 to |words|
      invariant state == Run(Start(words[0]), words[..i], cfg)
    {
      RunSnoc(Start(words[0]), words, i, cfg);
      var word := Strip(words[i].text);
      state := BreakIfPending(state, words[i], cfg);
      state := PlaceWord(state, word, words[i], cfg);
      state := MarkPunctuation(state, word);
    }
    assert words[..|words|] == words;
    captions := state.done + [Cue(state.start, state.end, state.lines)];

    PackHasLines(words, cfg);
    captions := MergeOrphan(captions, cfg);
  }

  /** The orphan correction after the loop, on the list of cues. */
  method MergeOrphan(cues: seq<Cue>, cfg: Config) returns (captions: seq<Cue>)
    requires |cues| > 1 ==> |cues[|cues| - 2].lines| > 0
    ensures captions == FixOrphan(cues, cfg)
  {
    captions := cues;
    var n := |captions|;
    if n > 1 {
      var lastText := Join(captions[n - 1].lines, ' ');
      var prev := captions[n - 2];
      var k := |prev.lines| - 1;
      if |lastText| < OrphanMaxText && |prev.lines[k]| + |lastText| < cfg.maxChars + OrphanSlack {
        captions := captions[n - 2 := prev.(lines := prev.lines[k := prev.lines[k] + " " + lastText],
                                            end := captions[n - 1].end)];
        captions := captions[..n - 1];
      }
    }
  }

  /** The break asked for by the previous word, done before this word. */
  method BreakIfPending(b: Builder, w: Word, cfg: Config) returns (r: Builder)
    ensures r == Consume(b, w, cfg)
  {
    r := b;
    if r.pending == NewCue {
      r := r.(done := r.done + [Current(r)], lines := [""], start := w.start, end := w.end);
      r := r.(pending := NoBreak);
    } else if r.pending == NewLine {
      if |r.lines| < cfg.maxLines {
        r := r.(lines := r.lines + [""]);
      } else {
        r := r.(done := r.done + [Current(r)], lines := [""], start := w.start);
      }
      r := r.(pending := NoBreak);
    }
  }

  /** The word on the current line, a new line or a new cue. */
  method PlaceWord(b: Builder, word: string, w: Word, cfg: Config) returns (r: Builder)
    ensures r == Place(b, word, w, cfg)
  {
    r := b;
    var lineIdx := |r.lines| - 1;
    var sep := if |r.lines[lineIdx]| > 0 then " " else "";
    if |r.lines[lineIdx]| + |sep| + |word| <= cfg.maxChars {
      r := r.(lines := r.lines[lineIdx := r.lines[lineIdx] + sep + word], end := w.end);
    } else if |r.lines| < cfg.maxLines {
      r := r.(lines := r.lines + [word], end := w.end);
    } else {
      r := r.(done := r.done + [Current(r)], lines := [word], start := w.start, end := w.end);
    }
  }

  /** Trailing punctuation sets the flag for the next word. */
  method MarkPunctuation(b: Builder, word: string) returns (r: Builder)
    ensures r == Mark(b, word)
  {
    r := b;
    if |r.lines[|r.lines| - 1]| > PunctuationMinLine {
      if EndsWithAny(word, SentenceEnds) {
        r := r.(pending := NewCue);
      } else if EndsWithAny(word, ClauseEnds) {
        r := r.(pending := NewLine);
      }
    }
  }

  /** One more word is one more step. */
  lemma RunSnoc(b: Builder, ws: seq<Word>, i: nat, cfg: Config)
    requires i < |ws|
    ensures Run(b, ws[..i + 1], cfg) == Step(Run(b, ws[..i], cfg), ws[i], cfg)
  {
    assert ws[..i + 1][..i] == ws[..i];
  }

  // ---------------------------------------------------------------------------
  // Line counts

  /** The most lines a cue can have: `max_lines`, but never fewer than the one
      line every cue starts with. */
  function LineLimit(cfg: Config): nat
  {
    if cfg.maxLines < 1 then 1 else cfg.maxLines
  }

  predicate LineCountOk(c: Cue, cfg: Config)
  {
    1 <= |c.lines| <= LineLimit(cfg)
  }

  predicate AllLineCountsOk(cues: seq<Cue>, cfg: Config)
  {
    forall i :: 0 <= i < |cues| ==> LineCountOk(cues[i], cfg)
  }

  predicate BuilderLineCounts(b: Builder, cfg: Config)
  {
    AllLineCountsOk(b.done, cfg) && |b.lines| <= LineLimit(cfg)
  }

  lemma StepLineCounts(b: Builder, w: Word, cfg: Config)
    requires BuilderLineCounts(b, cfg)
    ensures BuilderLineCounts(Step(b, w, cfg), cfg)
  {
    var c := Consume(b, w, cfg);
    assert BuilderLineCounts(c, cfg);
    var p := Place(c, Strip(w.text), w, cfg);
    assert BuilderLineCounts(p, cfg);
  }

  lemma {:induction false} RunLineCounts(b: Builder, ws: seq<Word>, cfg: Config)
    requires BuilderLineCounts(b, cfg)
    ensures BuilderLineCounts(Run(b, ws, cfg), cfg)
    decreases |ws|
  {
    if ws != [] {
      RunLineCounts(b, ws[..|ws| - 1], cfg);
      StepLineCounts(Run(b, ws[..|ws| - 1], cfg), ws[|ws| - 1], cfg);
    }
  }

  /** Before the orphan correction every cue has between one and `max_lines`
      lines (one when `max_lines` is below 1). */
  lemma PackHasLines(words: seq<Word>, cfg: Config)
    ensures AllLineCountsOk(Pack(words, cfg), cfg)
  {
    if words != [] {
      RunLineCounts(Start(words[0]), words, cfg);
    }
  }

  /** Every cue has between one and `max_lines` lines (one when `max_lines` is
      below 1): lines are added only below the limit, every new cue starts
      with one line, and the orphan merge adds none. */
  lemma CaptionsLineCounts(words: seq<Word>, cfg: Config)
    ensures AllLineCountsOk(Captions(words, cfg), cfg)
  {
    PackHasLines(words, cfg);
  }

  // ---------------------------------------------------------------------------
  // Coverage: no word is lost, duplicated or reordered

  /** The words of the cues, in cue order and line order. */
  function CueWords(cues: seq<Cue>): seq<string>
  {
    if cues == [] then [] else CueWords(cues[..|cues| - 1]) + AllWords(cues[|cues| - 1].lines)
  }

  /** The words of the input tokens, each token stripped. */
  function InputWords(ws: seq<Word>): seq<string>
  {
    if ws == [] then [] else InputWords(ws[..|ws| - 1]) + Words(Strip(ws[|ws| - 1].text))
  }

  /** The words the pass has emitted so far: closed cues, then the open one. */
  function BuilderWords(b: Builder): seq<string>
  {
    CueWords(b.done) + AllWords(b.lines)
  }

  lemma CueWordsSnoc(cues: seq<Cue>, c: Cue)
    ensures CueWords(cues + [c]) == CueWords(cues) + AllWords(c.lines)
  {
    assert (cues + [c])[..|cues|] == cues;
  }

  lemma AllWordsOne(x: string)
    ensures AllWords([x]) == Words(x)
  {
    assert [x][1..] == [];
  }

  lemma AllWordsEmptyLine()
    ensures AllWords([""]) == []
  {
    AllWordsOne("");
    assert Split("", ' ') == [""];
  }

  /** Replacing the last line only changes the last line's words. */
  lemma AllWordsLastLine(lines: Lines, x: string)
    ensures AllWords(lines[|lines| - 1 := x]) == AllWords(lines[..|lines| - 1]) + Words(x)
    ensures AllWords(lines) == AllWords(lines[..|lines| - 1]) + Words(LastLine(lines))
  {
    var k := |lines| - 1;
    assert lines[k := x] == lines[..k] + [x];
    assert lines == lines[..k] + [lines[k]];
    AllWordsConcat(lines[..k], [x]);
    AllWordsConcat(lines[..k], [lines[k]]);
    AllWordsOne(x);
    AllWordsOne(lines[k]);
  }

  /** A line extended by `Sep` and a word holds the line's words, then the
      word's. */
  lemma WordsOfAppend(line: string, word: string)
    ensures Words(line + Sep(line) + word) == Words(line) + Words(word)
  {
    if |line| > 0 {
      WordsConcat(line, word);
    } else {
      assert line + Sep(line) + word == word;
      assert Split("", ' ') == [""];
    }
  }

  lemma ConsumeWords(b: Builder, w: Word, cfg: Config)
    ensures BuilderWords(Consume(b, w, cfg)) == BuilderWords(b)
  {
    AllWordsEmptyLine();
    match b.pending
    case NoBreak =>
    case NewCue =>
      CueWordsSnoc(b.done, Current(b));
    case NewLine =>
      if |b.lines| < cfg.maxLines {
        AllWordsConcat(b.lines, [""]);
      } else {
        CueWordsSnoc(b.done, Current(b));
      }
  }

  lemma PlaceWords(b: Builder, word: string, w: Word, cfg: Config)
    ensures BuilderWords(Place(b, word, w, cfg)) == BuilderWords(b) + Words(word)
  {
    var last := LastLine(b.lines);
    AllWordsOne(word);
    if |last| + |Sep(last)| + |word| <= cfg.maxChars {
      AllWordsLastLine(b.lines, last + Sep(last) + word);
      WordsOfAppend(last, word);
    } else if |b.lines| < cfg.maxLines {
      AllWordsConcat(b.lines, [word]);
    } else {
      CueWordsSnoc(b.done, Current(b));
    }
  }

  /** Each step emits exactly the words of its stripped token. */
  lemma StepWords(b: Builder, w: Word, cfg: Config)
    ensures BuilderWords(Step(b, w, cfg)) == BuilderWords(b) + Words(Strip(w.text))
  {
    ConsumeWords(b, w, cfg);
    PlaceWords(Consume(b, w, cfg), Strip(w.text), w, cfg);
  }

  lemma {:induction false} RunWords(b: Builder, ws: seq<Word>, cfg: Config)
    ensures BuilderWords(Run(b, ws, cfg)) == BuilderWords(b) + InputWords(ws)
    decreases |ws|
  {
    if ws != [] {
      var init := ws[..|ws| - 1];
      RunWords(b, init, cfg);
      StepWords(Run(b, init, cfg), ws[|ws| - 1], cfg);
    }
  }

  lemma PackWords(words: seq<Word>, cfg: Config)
    ensures CueWords(Pack(words, cfg)) == InputWords(words)
  {
    if words != [] {
      var b := Run(Start(words[0]), words, cfg);
      RunWords(Start(words[0]), words, cfg);
      AllWordsEmptyLine();
      CueWordsSnoc(b.done, Current(b));
    }
  }

  /** Merging the orphan keeps the words of the two cues, in order. */
  lemma MergeWords(prev: Cue, last: Cue)
    requires |prev.lines| > 0
    ensures AllWords(Merge(prev, last).lines) == AllWords(prev.lines) + AllWords(last.lines)
  {
    var lines: Lines := prev.lines;
    var k := |lines| - 1;
    var text := Join(last.lines, ' ');
    var merged := lines[k := lines[k] + " " + text];
    assert Merge(prev, last).lines == merged;
    AllWordsLastLine(lines, lines[k] + " " + text);
    WordsConcat(lines[k], text);
    WordsOfJoin(last.lines);
    var front, line, orphan := AllWords(lines[..k]), Words(lines[k]), AllWords(last.lines);
    assert AllWords(merged) == front + (line + orphan);
    assert AllWords(lines) == front + line;
    assert front + (line + orphan) == (front + line) + orphan;
  }

  lemma FixOrphanWords(cues: seq<Cue>, cfg: Config)
    requires |cues| > 1 ==> |cues[|cues| - 2].lines| > 0
    ensures CueWords(FixOrphan(cues, cfg)) == CueWords(cues)
  {
    var n := |cues|;
    if n > 1 && ShouldMerge(cues[n - 2], cues[n - 1], cfg) {
      var front, prev, last := cues[..n - 2], cues[n - 2], cues[n - 1];
      var a, b, c := CueWords(front), AllWords(prev.lines), AllWords(last.lines);
      assert CueWords(FixOrphan(cues, cfg)) == a + (b + c) by {
        assert FixOrphan(cues, cfg) == front + [Merge(prev, last)];
        MergeWords(prev, last);
        CueWordsSnoc(front, Merge(prev, last));
      }
      assert CueWords(cues) == (a + b) + c by {
        assert cues[..n - 1] == front + [prev];
        CueWordsSnoc(front, prev);
        assert cues == cues[..n - 1] + [last];
        CueWordsSnoc(cues[..n - 1], last);
      }
      ConcatAssoc(a, b, c);
    }
  }

  /** Coverage: the words of the cues, read in order with empty pieces
      skipped, are exactly the words of the stripped input tokens, in input
      order; no input gives no cues. */
  lemma CaptionsWords(words: seq<Word>, cfg: Config)
    ensures CueWords(Captions(words, cfg)) == InputWords(words)
    ensures words == [] <==> Captions(words, cfg) == []
  {
    PackHasLines(words, cfg);
    PackWords(words, cfg);
    FixOrphanWords(Pack(words, cfg), cfg);
  }

  /** The stripped texts of the tokens. */
  function Stripped(ws: seq<Word>): (r: seq<string>)
    ensures |r| == |ws|
    ensures forall i :: 0 <= i < |ws| ==> r[i] == Strip(ws[i].text)
  {
    if ws == [] then [] else Stripped(ws[..|ws| - 1]) + [Strip(ws[|ws| - 1].text)]
  }

  /** Tokens that are single words once stripped. */
  predicate CleanTokens(ws: seq<Word>)
  {
    forall i :: 0 <= i < |ws| ==> Strip(ws[i].text) != "" && ' ' !in Strip(ws[i].text)
  }

  lemma {:induction false} InputWordsClean(ws: seq<Word>)
    requires CleanTokens(ws)
    ensures InputWords(ws) == Stripped(ws)
    decreases |ws|
  {
    if ws != [] {
      var init := ws[..|ws| - 1];
      assert CleanTokens(init) by {
        forall i | 0 <= i < |init| ensures Strip(init[i].text) != "" && ' ' !in Strip(init[i].text) {
          assert init[i] == ws[i];
        }
      }
      InputWordsClean(init);
      WordsOfWord(Strip(ws[|ws| - 1].text));
    }
  }

  /** When every token is one word, the cues hold exactly the stripped tokens,
      in input order. */
  lemma CaptionsKeepTokens(words: seq<Word>, cfg: Config)
    requires CleanTokens(words)
    ensures CueWords(Captions(words, cfg)) == Stripped(words)
  {
    CaptionsWords(words, cfg);
    InputWordsClean(words);
  }

  // ---------------------------------------------------------------------------
  // Line lengths

  /** A line within `limit` characters, or one whole token from `tokens`. */
  predicate LineFits(line: string, limit: int, tokens: seq<string>)
  {
    |line| <= limit || line in tokens
  }

  predicate LinesFit(lines: seq<string>, limit: int, tokens: seq<string>)
  {
    forall j :: 0 <= j < |lines| ==> LineFits(lines[j], limit, tokens)
  }

  predicate CuesFit(cues: seq<Cue>, limit: int, tokens: seq<string>)
  {
    forall i :: 0 <= i < |cues| ==> LinesFit(cues[i].lines, limit, tokens)
  }

  predicate BuilderFits(b: Builder, limit: int, tokens: seq<string>)
  {
    CuesFit(b.done, limit, tokens) && LinesFit(b.lines, limit, tokens)
  }

  lemma CuesFitSnoc(cues: seq<Cue>, c: Cue, limit: int, tokens: seq<string>)
    requires CuesFit(cues, limit, tokens) && LinesFit(c.lines, limit, tokens)
    ensures CuesFit(cues + [c], limit, tokens)
  {
  }

  lemma ConsumeFits(b: Builder, w: Word, cfg: Config, tokens: seq<string>)
    requires cfg.maxChars >= 0
    requires BuilderFits(b, cfg.maxChars, tokens)
    ensures BuilderFits(Consume(b, w, cfg), cfg.maxChars, tokens)
  {
    if b.pending != NoBreak {
      CuesFitSnoc(b.done, Current(b), cfg.maxChars, tokens);
    }
  }

  lemma PlaceFits(b: Builder, word: string, w: Word, cfg: Config, tokens: seq<string>)
    requires word in tokens
    requires BuilderFits(b, cfg.maxChars, tokens)
    ensures BuilderFits(Place(b, word, w, cfg), cfg.maxChars, tokens)
  {
    var last := LastLine(b.lines);
    var k := |b.lines| - 1;
    if |last| + |Sep(last)| + |word| <= cfg.maxChars {
      var lines := b.lines[k := last + Sep(last) + word];
      assert LinesFit(lines, cfg.maxChars, tokens);
    } else if |b.lines| < cfg.maxLines {
      assert LinesFit(b.lines + [word], cfg.maxChars, tokens);
    } else {
      CuesFitSnoc(b.done, Current(b), cfg.maxChars, tokens);
      assert LinesFit([word], cfg.maxChars, tokens);
    }
  }

  lemma StepFits(b: Builder, w: Word, cfg: Config, tokens: seq<string>)
    requires cfg.maxChars >= 0 && Strip(w.text) in tokens
    requires BuilderFits(b, cfg.maxChars, tokens)
    ensures BuilderFits(Step(b, w, cfg), cfg.maxChars, tokens)
  {
    ConsumeFits(b, w, cfg, tokens);
    PlaceFits(Consume(b, w, cfg), Strip(w.text), w, cfg, tokens);
  }

  lemma {:induction false} RunFits(b: Builder, ws: seq<Word>, cfg: Config, tokens: seq<string>)
    requires cfg.maxChars >= 0 && forall w <- ws :: Strip(w.text) in tokens
    requires BuilderFits(b, cfg.maxChars, tokens)
    ensures BuilderFits(Run(b, ws, cfg), cfg.maxChars, tokens)
    decreases |ws|
  {
    if ws != [] {
      var init := ws[..|ws| - 1];
      RunFits(b, init, cfg, tokens);
      StepFits(Run(b, init, cfg), ws[|ws| - 1], cfg, tokens);
    }
  }

  /** Before the orphan correction, every line is at most `max_chars` long or
      is a single stripped token that alone is too long. */
  lemma PackFits(words: seq<Word>, cfg: Config)
    requires cfg.maxChars >= 0
    ensures CuesFit(Pack(words, cfg), cfg.maxChars, Stripped(words))
  {
    if words != [] {
      var tokens := Stripped(words);
      forall w <- words ensures Strip(w.text) in tokens {
        var i :| 0 <= i < |words| && words[i] == w;
        assert tokens[i] == Strip(w.text);
      }
      RunFits(Start(words[0]), words, cfg, tokens);
    }
  }

  /** The merged line is shorter than the previous line plus the orphan's text
      plus the space between them, so at most `max_chars + 15`. */
  lemma FixOrphanFits(cues: seq<Cue>, cfg: Config, tokens: seq<string>)
    requires |cues| > 1 ==> |cues[|cues| - 2].lines| > 0
    requires CuesFit(cues, cfg.maxChars, tokens)
    ensures CuesFit(FixOrphan(cues, cfg), cfg.maxChars + OrphanSlack, tokens)
  {
    var n := |cues|;
    var r := FixOrphan(cues, cfg);
    forall i | 0 <= i < |r|
      ensures LinesFit(r[i].lines, cfg.maxChars + OrphanSlack, tokens)
    {
      assert LinesFit(cues[i].lines, cfg.maxChars, tokens);
      if n > 1 && ShouldMerge(cues[n - 2], cues[n - 1], cfg) && i == n - 2 {
        var k := |cues[n - 2].lines| - 1;
        assert r[i].lines == cues[i].lines[k := cues[i].lines[k] + " " + Join(cues[n - 1].lines, ' ')];
      }
    }
  }

  /** Every line is at most `max_chars + 15` long, or is a single stripped
      token that alone is longer than `max_chars`. */
  lemma CaptionsFit(words: seq<Word>, cfg: Config)
    requires cfg.maxChars >= 0
    ensures CuesFit(Captions(words, cfg), cfg.maxChars + OrphanSlack, Stripped(words))
  {
    PackHasLines(words, cfg);
    PackFits(words, cfg);
    FixOrphanFits(Pack(words, cfg), cfg, Stripped(words));
  }

  // ---------------------------------------------------------------------------
  // Timing

  /** Token times as a transcription engine gives them: each token starts
      before it ends, and ends before the next one starts. */
  predicate Ordered(ws: seq<Word>)
  {
    (forall i :: 0 <= i < |ws| ==> ws[i].start <= ws[i].end)
    && (forall i :: 0 < i < |ws| ==> ws[i - 1].end <= ws[i].start)
  }

  /** Cues that each start before they end, and each end before any later cue
      starts. */
  predicate Chronological(cues: seq<Cue>)
  {
    (forall i :: 0 <= i < |cues| ==> cues[i].start <= cues[i].end)
    && (forall i, j :: 0 <= i < j < |cues| ==> cues[i].end <= cues[j].start)
  }

  /** Every cue of `cues` has ended by time `t`. */
  predicate EndedBy(cues: seq<Cue>, t: Time)
  {
    forall i :: 0 <= i < |cues| ==> cues[i].end <= t
  }

  /** The state after a token that ended at `t`: the open cue runs up to `t`
      and starts after every closed cue. */
  predicate Timed(b: Builder, t: Time)
  {
    Chronological(b.done) && EndedBy(b.done, b.start) && b.start <= b.end == t
  }

  lemma ChronologicalSnoc(cues: seq<Cue>, c: Cue)
    requires Chronological(cues) && EndedBy(cues, c.start) && c.start <= c.end
    ensures Chronological(cues + [c]) && EndedBy(cues + [c], c.end)
  {
  }

  /** After the pending break: the open cue started by the next token's start,
      and if it holds two or more lines it ran up to the previous token's end. */
  lemma ConsumeTimed(b: Builder, w: Word, t: Time, cfg: Config)
    requires Timed(b, t) && t <= w.start
    ensures var c := Consume(b, w, cfg);
      && Chronological(c.done) && EndedBy(c.done, c.start) && c.start <= w.start
      && (|c.lines| > 1 ==> c.start <= c.end <= w.start)
  {
    if b.pending != NoBreak {
      ChronologicalSnoc(b.done, Current(b));
    }
  }

  lemma PlaceTimed(c: Builder, word: string, w: Word, cfg: Config)
    requires cfg.maxLines >= 2 && w.start <= w.end
    requires Chronological(c.done) && EndedBy(c.done, c.start) && c.start <= w.start
    requires |c.lines| > 1 ==> c.start <= c.end <= w.start
    ensures Timed(Place(c, word, w, cfg), w.end)
  {
    var last := LastLine(c.lines);
    if |last| + |Sep(last)| + |word| > cfg.maxChars && |c.lines| >= cfg.maxLines {
      ChronologicalSnoc(c.done, Current(c));
    }
  }

  /** Each later token keeps the cues chronological and moves the open cue's
      end to its own end. */
  lemma StepTimed(b: Builder, w: Word, t: Time, cfg: Config)
    requires cfg.maxLines >= 2 && Timed(b, t) && t <= w.start <= w.end
    ensures Timed(Step(b, w, cfg), w.end)
  {
    var word := Strip(w.text);
    var c := Consume(b, w, cfg);
    ConsumeTimed(b, w, t, cfg);
    var p := Place(c, word, w, cfg);
    PlaceTimed(c, word, w, cfg);
    MarkKeepsCues(p, word);
  }

  /** The first token opens the first cue with its own times. */
  lemma FirstStepTimed(w: Word, cfg: Config)
    requires cfg.maxLines >= 2 && w.start <= w.end
    ensures Timed(Step(Start(w), w, cfg), w.end)
    ensures Step(Start(w), w, cfg).done == [] && Step(Start(w), w, cfg).start == w.start
  {
    var word := Strip(w.text);
    var p := Place(Start(w), word, w, cfg);
    PlaceTimed(Start(w), word, w, cfg);
    assert p.done == [] && p.start == w.start;
    MarkKeepsCues(p, word);
  }

  lemma {:induction false} RunTimed(words: seq<Word>, i: nat, cfg: Config)
    requires cfg.maxLines >= 2 && Ordered(words) && 1 <= i <= |words|
    ensures Timed(Run(Start(words[0]), words[..i], cfg), words[i - 1].end)
    decreases i
  {
    RunSnoc(Start(words[0]), words, i - 1, cfg);
    if i == 1 {
      assert words[..0] == [];
      FirstStepTimed(words[0], cfg);
    } else {
      RunTimed(words, i - 1, cfg);
      StepTimed(Run(Start(words[0]), words[..i - 1], cfg), words[i - 1], words[i - 2].end, cfg);
    }
  }

  /** The orphan merge keeps the cues chronological: the merged cue runs from
      its own start to the orphan's end. */
  lemma FixOrphanChronological(cues: seq<Cue>, cfg: Config)
    requires |cues| > 1 ==> |cues[|cues| - 2].lines| > 0
    requires Chronological(cues)
    ensures Chronological(FixOrphan(cues, cfg))
  {
    var n := |cues|;
    if n > 1 && ShouldMerge(cues[n - 2], cues[n - 1], cfg) {
      var front := cues[..n - 2];
      assert EndedBy(front, cues[n - 2].start) by {
        forall i | 0 <= i < |front| ensures front[i].end <= cues[n - 2].start {
          assert front[i] == cues[i];
        }
      }
      ChronologicalSnoc(front, Merge(cues[n - 2], cues[n - 1]));
    }
  }

  /** With `max_lines >= 2` and ordered token times, every cue starts before it
      ends and ends before the next cue starts; the first cue starts with the
      first token, the last cue ends with the last token, and in between each
      cue ends with a token and the next starts with the token after it. */
  lemma CaptionsTimed(words: seq<Word>, cfg: Config)
    requires cfg.maxLines >= 2 && Ordered(words) && words != []
    ensures var cs := Captions(words, cfg);
      && Chronological(cs)
      && cs[0].start == words[0].start
      && cs[|cs| - 1].end == words[|words| - 1].end
      && Adjacent(cs, words)
  {
    CaptionsAdjacent(words, cfg);
    PackHasLines(words, cfg);
    RunTimed(words, |words|, cfg);
    assert words[..|words|] == words;
    var b := Run(Start(words[0]), words, cfg);
    ChronologicalSnoc(b.done, Current(b));
    FixOrphanChronological(Pack(words, cfg), cfg);
    CaptionsFirstStart(words, cfg);
  }

  // ---------------------------------------------------------------------------
  // The first cue starts with the first token, whatever the configuration

  /** The first cue, closed or still open, starts at `t`. */
  predicate FirstStartIs(b: Builder, t: Time)
  {
    if b.done == [] then b.start == t else b.done[0].start == t
  }

  lemma StepFirstStart(b: Builder, w: Word, t: Time, cfg: Config)
    requires FirstStartIs(b, t)
    ensures FirstStartIs(Step(b, w, cfg), t)
  {
    var word := Strip(w.text);
    var c := Consume(b, w, cfg);
    assert FirstStartIs(c, t) by {
      if c.done != b.done {
        assert c.done == b.done + [Current(b)];
      }
    }
    var p := Place(c, word, w, cfg);
    assert FirstStartIs(p, t) by {
      if p.done != c.done {
        assert p.done == c.done + [Current(c)];
      }
    }
    MarkKeepsCues(p, word);
  }

  lemma {:induction false} RunFirstStart(b: Builder, ws: seq<Word>, t: Time, cfg: Config)
    requires FirstStartIs(b, t)
    ensures FirstStartIs(Run(b, ws, cfg), t)
    decreases |ws|
  {
    if ws != [] {
      RunFirstStart(b, ws[..|ws| - 1], t, cfg);
      StepFirstStart(Run(b, ws[..|ws| - 1], cfg), ws[|ws| - 1], t, cfg);
    }
  }

  /** The first cue starts when the first token starts (the orphan merge
      keeps the start of the cue it merges into). */
  lemma CaptionsFirstStart(words: seq<Word>, cfg: Config)
    requires words != []
    ensures Captions(words, cfg) != [] && Captions(words, cfg)[0].start == words[0].start
  {
    RunFirstStart(Start(words[0]), words, words[0].start, cfg);
    PackHasLines(words, cfg);
  }

  // ---------------------------------------------------------------------------
  // Cue boundaries fall between consecutive tokens

  /** A cue ending at `end` is followed by one starting at `start` where one
      token ends and the next token begins. */
  predicate Joins(end: Time, start: Time, ws: seq<Word>)
  {
    exists j :: 0 <= j < |ws| - 1 && ws[j].end == end && ws[j + 1].start == start
  }

  /** Every cue but the last ends with a token, and the next cue starts with
      the token after it. */
  predicate Adjacent(cues: seq<Cue>, ws: seq<Word>)
  {
    forall k :: 0 <= k < |cues| - 1 ==> Joins(cues[k].end, cues[k + 1].start, ws)
  }

  /** With two or more lines per cue, an iteration either keeps the closed
      cues and the open cue's start, or closes the open cue as it was timed
      and starts the next one at the token. */
  lemma StepShape(b: Builder, w: Word, cfg: Config)
    requires cfg.maxLines >= 2
    ensures var s := Step(b, w, cfg);
      || (s.done == b.done && s.start == b.start)
      || (|s.done| == |b.done| + 1 && s.done[..|b.done|] == b.done
          && s.done[|b.done|].start == b.start && s.done[|b.done|].end == b.end
          && s.start == w.start)
  {
    var word := Strip(w.text);
    var c := Consume(b, w, cfg);
    var p := Place(c, word, w, cfg);
    MarkKeepsCues(p, word);
    if p.done != c.done {
      assert |c.lines| >= 2;
      assert c.done == b.done && c.start == b.start && c.end == b.end;
      assert p.done == b.done + [Current(c)];
    } else if c.done != b.done {
      assert c.done == b.done + [Current(b)];
    }
  }

  /** A closed cue that ends where a token ends, followed by one that starts
      with the next token. */
  lemma AdjacentSnoc(cues: seq<Cue>, c: Cue, ws: seq<Word>, j: nat)
    requires Adjacent(cues, ws) && |cues| > 0 && j + 1 < |ws|
    requires cues[|cues| - 1].end == ws[j].end && c.start == ws[j + 1].start
    ensures Adjacent(cues + [c], ws)
  {
    var r := cues + [c];
    forall k | 0 <= k < |r| - 1 ensures Joins(r[k].end, r[k + 1].start, ws) {
      if k == |cues| - 1 {
        assert ws[j].end == r[k].end && ws[j + 1].start == r[k + 1].start;
      } else {
        assert r[k] == cues[k] && r[k + 1] == cues[k + 1];
      }
    }
  }

  /** The last cue may change freely as long as its start stays. */
  lemma AdjacentLast(cues: seq<Cue>, c: Cue, ws: seq<Word>)
    requires Adjacent(cues, ws) && |cues| > 0 && c.start == cues[|cues| - 1].start
    ensures Adjacent(cues[..|cues| - 1] + [c], ws)
  {
    var r := cues[..|cues| - 1] + [c];
    forall k | 0 <= k < |r| - 1 ensures Joins(r[k].end, r[k + 1].start, ws) {
      assert r[k] == cues[k] && r[k + 1].start == cues[k + 1].start;
    }
  }

  /** Token `i` keeps the cue list (closed cues and the open one) adjacent. */
  lemma StepAdjacent(b: Builder, ws: seq<Word>, i: nat, cfg: Config)
    requires cfg.maxLines >= 2 && 0 < i < |ws|
    requires Adjacent(Finish(b), ws) && b.end == ws[i - 1].end
    ensures Adjacent(Finish(Step(b, ws[i], cfg)), ws)
  {
    var s := Step(b, ws[i], cfg);
    StepShape(b, ws[i], cfg);
    if s.done == b.done && s.start == b.start {
      assert Finish(b)[..|b.done|] == b.done;
      AdjacentLast(Finish(b), Current(s), ws);
    } else {
      var closed := s.done[|b.done|];
      assert s.done == b.done + [closed];
      AdjacentLast(Finish(b), closed, ws);
      assert Finish(b)[..|b.done|] == b.done;
      AdjacentSnoc(s.done, Current(s), ws, i - 1);
    }
  }

  lemma {:induction false} RunAdjacent(words: seq<Word>, i: nat, cfg: Config)
    requires cfg.maxLines >= 2 && 1 <= i <= |words|
    ensures var b := Run(Start(words[0]), words[..i], cfg);
      Adjacent(Finish(b), words) && b.end == words[i - 1].end
    decreases i
  {
    var b0 := Start(words[0]);
    RunSnoc(b0, words, i - 1, cfg);
    StepEnd(Run(b0, words[..i - 1], cfg), words[i - 1], cfg);
    if i == 1 {
      assert words[..0] == [];
      StepShape(b0, words[0], cfg);
    } else {
      RunAdjacent(words, i - 1, cfg);
      StepAdjacent(Run(b0, words[..i - 1], cfg), words, i - 1, cfg);
    }
  }

  /** The orphan merge keeps the start of the cue it merges into. */
  lemma FixOrphanAdjacent(cues: seq<Cue>, cfg: Config, ws: seq<Word>)
    requires |cues| > 1 ==> |cues[|cues| - 2].lines| > 0
    requires Adjacent(cues, ws)
    ensures Adjacent(FixOrphan(cues, cfg), ws)
  {
    var n := |cues|;
    if n > 1 && ShouldMerge(cues[n - 2], cues[n - 1], cfg) {
      var front := cues[..n - 1];
      assert Adjacent(front, ws) by {
        forall k | 0 <= k < |front| - 1 ensures Joins(front[k].end, front[k + 1].start, ws) {
          assert front[k] == cues[k] && front[k + 1] == cues[k + 1];
        }
      }
      AdjacentLast(front, Merge(cues[n - 2], cues[n - 1]), ws);
      assert front[..n - 2] == cues[..n - 2];
    }
  }

  /** With `max_lines >= 2`, a new cue begins only between two consecutive
      tokens: each cue but the last ends when some token ends, and the next
      cue starts when the token after it starts. */
  lemma CaptionsAdjacent(words: seq<Word>, cfg: Config)
    requires cfg.maxLines >= 2
    ensures Adjacent(Captions(words, cfg), words)
  {
    PackHasLines(words, cfg);
    if words != [] {
      RunAdjacent(words, |words|, cfg);
      assert words[..|words|] == words;
      FixOrphanAdjacent(Pack(words, cfg), cfg, words);
    }
  }

  // ---------------------------------------------------------------------------
  // Every cue holds a word

  predicate HasWords(c: Cue)
  {
    AllWords(c.lines) != []
  }

  predicate AllHaveWords(cues: seq<Cue>)
  {
    forall k :: 0 <= k < |cues| ==> HasWords(cues[k])
  }

  /** A token that is not blank once stripped has a word. */
  lemma TokenWords(w: Word)
    requires Strip(w.text) != ""
    ensures Words(Strip(w.text)) != []
  {
    WordsNotEmpty(Strip(w.text));
  }

  /** Between iterations: the closed cues hold words, and so does the open one
      unless it is the untouched start state. */
  predicate WordsInv(b: Builder)
  {
    AllHaveWords(b.done) && (AllWords(b.lines) != [] || (b.lines == [""] && b.pending == NoBreak))
  }

  lemma ConsumeHasWords(b: Builder, w: Word, cfg: Config)
    requires WordsInv(b)
    ensures var c := Consume(b, w, cfg);
      AllHaveWords(c.done) && (AllWords(c.lines) != [] || c.lines == [""])
  {
    match b.pending
    case NoBreak =>
    case NewCue =>
    case NewLine =>
      if |b.lines| < cfg.maxLines {
        AllWordsConcat(b.lines, [""]);
      }
  }

  /** A token with a word leaves every closed cue and the open one holding a
      word. */
  lemma StepHasWords(b: Builder, w: Word, cfg: Config)
    requires cfg.maxLines >= 2 && Strip(w.text) != "" && WordsInv(b)
    ensures var s := Step(b, w, cfg); AllHaveWords(s.done) && AllWords(s.lines) != []
  {
    var word := Strip(w.text);
    TokenWords(w);
    var c := Consume(b, w, cfg);
    ConsumeHasWords(b, w, cfg);
    var p := Place(c, word, w, cfg);
    var last := LastLine(c.lines);
    AllWordsOne(word);
    if |last| + |Sep(last)| + |word| <= cfg.maxChars {
      AllWordsLastLine(c.lines, last + Sep(last) + word);
      WordsOfAppend(last, word);
    } else if |c.lines| < cfg.maxLines {
      AllWordsConcat(c.lines, [word]);
    } else {
      assert AllWords(c.lines) != [];
      assert p.done == c.done + [Current(c)];
    }
    MarkKeepsCues(p, word);
  }

  lemma {:induction false} RunHasWords(b: Builder, ws: seq<Word>, cfg: Config)
    requires cfg.maxLines >= 2 && WordsInv(b)
    requires forall w <- ws :: Strip(w.text) != ""
    ensures WordsInv(Run(b, ws, cfg))
    ensures ws != [] ==> AllWords(Run(b, ws, cfg).lines) != []
    decreases |ws|
  {
    if ws != [] {
      var init := ws[..|ws| - 1];
      assert forall w <- init :: w in ws;
      RunHasWords(b, init, cfg);
      StepHasWords(Run(b, init, cfg), ws[|ws| - 1], cfg);
    }
  }

  /** The orphan merge keeps every cue holding a word. */
  lemma FixOrphanHasWords(cues: seq<Cue>, cfg: Config)
    requires |cues| > 1 ==> |cues[|cues| - 2].lines| > 0
    requires AllHaveWords(cues)
    ensures AllHaveWords(FixOrphan(cues, cfg))
  {
    var n := |cues|;
    if n > 1 && ShouldMerge(cues[n - 2], cues[n - 1], cfg) {
      MergeWords(cues[n - 2], cues[n - 1]);
      assert HasWords(cues[n - 2]);
      var r := FixOrphan(cues, cfg);
      forall k | 0 <= k < |r| ensures HasWords(r[k]) {
        if k < n - 2 {
          assert r[k] == cues[k];
        }
      }
    }
  }

  /** With `max_lines >= 2` and no token blank once stripped, every cue holds
      at least one word. */
  lemma CaptionsHaveWords(words: seq<Word>, cfg: Config)
    requires cfg.maxLines >= 2
    requires forall w <- words :: Strip(w.text) != ""
    ensures AllHaveWords(Captions(words, cfg))
  {
    PackHasLines(words, cfg);
    PackHasWords(words, cfg);
    FixOrphanHasWords(Pack(words, cfg), cfg);
  }

  lemma PackHasWords(words: seq<Word>, cfg: Config)
    requires cfg.maxLines >= 2
    requires forall w <- words :: Strip(w.text) != ""
    ensures AllHaveWords(Pack(words, cfg))
  {
    if words != [] {
      var b := Run(Start(words[0]), words, cfg);
      AllWordsEmptyLine();
      RunHasWords(Start(words[0]), words, cfg);
      assert Pack(words, cfg) == b.done + [Current(b)];
    }
  }

  // ---------------------------------------------------------------------------
  // Deferred breaks

  /** The last line after a step ends with the stripped token: it is the line
      that holds it. */
  lemma StepEndsWithWord(b: Builder, w: Word, cfg: Config)
    ensures var s := Step(b, w, cfg); var word := Strip(w.text); var line := LastLine(s.lines);
      |line| >= |word| && line[|line| - |word|..] == word
  {
    var word := Strip(w.text);
    var c := Consume(b, w, cfg);
    var p := Place(c, word, w, cfg);
    MarkKeepsCues(p, word);
    var last := LastLine(c.lines);
    if |last| + |Sep(last)| + |word| <= cfg.maxChars {
      var line := last + Sep(last) + word;
      assert LastLine(p.lines) == line;
      assert line[|line| - |word|..] == word;
    }
  }

  /** The flag a step leaves: a new cue exactly when the line holding the
      token is longer than 15 characters and the token ends a sentence; a new
      line exactly when the line is that long and the token ends a clause but
      not a sentence; nothing otherwise. */
  lemma StepPending(b: Builder, w: Word, cfg: Config)
    ensures var s := Step(b, w, cfg); var word := Strip(w.text);
      var long := |LastLine(s.lines)| > PunctuationMinLine;
      && (s.pending == NewCue <==> long && EndsWithAny(word, SentenceEnds))
      && (s.pending == NewLine <==> long && !EndsWithAny(word, SentenceEnds) && EndsWithAny(word, ClauseEnds))
  {
    var word := Strip(w.text);
    var p := Place(Consume(b, w, cfg), word, w, cfg);
    assert p.pending == NoBreak;
    MarkKeepsCues(p, word);
  }

  /** Every step ends the open cue with the token's end. */
  lemma StepEnd(b: Builder, w: Word, cfg: Config)
    ensures Step(b, w, cfg).end == w.end
  {
    var word := Strip(w.text);
    MarkKeepsCues(Place(Consume(b, w, cfg), word, w, cfg), word);
  }

  /** A token that fits goes onto an empty last line without a separator. */
  lemma PlaceOnEmptyLine(c: Builder, word: string, w: Word, cfg: Config)
    requires LastLine(c.lines) == "" && |word| <= cfg.maxChars
    ensures Place(c, word, w, cfg) == c.(lines := c.lines[|c.lines| - 1 := word], end := w.end)
  {
    assert Sep("") == "";
    assert "" + "" + word == word;
  }

  /** A pending new cue: the open cue is closed and the token opens the next
      one. */
  lemma StepAfterNewCue(s: Builder, next: Word, cfg: Config)
    requires s.pending == NewCue
    ensures var r := Step(s, next, cfg);
      && |r.done| > |s.done| && r.done[..|s.done| + 1] == s.done + [Current(s)] && r.start == next.start
      && (|Strip(next.text)| <= cfg.maxChars ==> r.done == s.done + [Current(s)] && r.lines == [Strip(next.text)])
  {
    var word := Strip(next.text);
    var c := Consume(s, next, cfg);
    assert c == Builder(s.done + [Current(s)], [""], next.start, next.end, NoBreak);
    var p := Place(c, word, next, cfg);
    MarkKeepsCues(p, word);
    if |word| <= cfg.maxChars {
      PlaceOnEmptyLine(c, word, next, cfg);
      assert p.done == s.done + [Current(s)];
    } else {
      assert p.done[..|s.done| + 1] == s.done + [Current(s)];
    }
  }

  /** A pending new line, for a token that fits on a line. */
  lemma StepAfterNewLine(s: Builder, next: Word, cfg: Config)
    requires s.pending == NewLine && |Strip(next.text)| <= cfg.maxChars
    ensures var r := Step(s, next, cfg);
      && (|s.lines| < cfg.maxLines ==>
            r.done == s.done && r.lines == s.lines + [Strip(next.text)] && r.start == s.start)
      && (|s.lines| >= cfg.maxLines ==>
            r.done == s.done + [Current(s)] && r.lines == [Strip(next.text)] && r.start == next.start)
  {
    var word := Strip(next.text);
    var c := Consume(s, next, cfg);
    var p := Place(c, word, next, cfg);
    MarkKeepsCues(p, word);
    if |s.lines| < cfg.maxLines {
      assert c.lines == s.lines + [""];
      PlaceOnEmptyLine(c, word, next, cfg);
      assert c.lines[|c.lines| - 1 := word] == s.lines + [word];
    } else {
      assert c.lines == [""];
      PlaceOnEmptyLine(c, word, next, cfg);
    }
  }

  /** A sentence end on a long line closes the cue: the next token opens a
      new cue at its own start, and the closed cue ends with the punctuated
      token. When the next token fits on an empty line it is that cue's only
      text. */
  lemma SentenceEndClosesCue(b: Builder, w: Word, next: Word, cfg: Config)
    requires |LastLine(Step(b, w, cfg).lines)| > PunctuationMinLine
    requires EndsWithAny(Strip(w.text), SentenceEnds)
    ensures var s := Step(b, w, cfg); var r := Step(s, next, cfg);
      && |r.done| > |s.done| && r.done[..|s.done| + 1] == s.done + [Current(s)]
      && Current(s).end == w.end && r.start == next.start
      && (|Strip(next.text)| <= cfg.maxChars ==> r.done == s.done + [Current(s)] && r.lines == [Strip(next.text)])
  {
    StepPending(b, w, cfg);
    StepEnd(b, w, cfg);
    StepAfterNewCue(Step(b, w, cfg), next, cfg);
  }

  /** A clause end on a long line breaks the line: the next token starts a
      new line of the same cue while the cue has fewer than `max_lines` lines,
      and a new cue otherwise (shown for a next token that fits on a line). */
  lemma ClauseEndBreaksLine(b: Builder, w: Word, next: Word, cfg: Config)
    requires |LastLine(Step(b, w, cfg).lines)| > PunctuationMinLine
    requires !EndsWithAny(Strip(w.text), SentenceEnds) && EndsWithAny(Strip(w.text), ClauseEnds)
    requires |Strip(next.text)| <= cfg.maxChars
    ensures var s := Step(b, w, cfg); var r := Step(s, next, cfg);
      && (|s.lines| < cfg.maxLines ==>
            r.done == s.done && r.lines == s.lines + [Strip(next.text)] && r.start == s.start)
      && (|s.lines| >= cfg.maxLines ==>
            r.done == s.done + [Current(s)] && r.lines == [Strip(next.text)] && r.start == next.start)
  {
    StepPending(b, w, cfg);
    StepAfterNewLine(Step(b, w, cfg), next, cfg);
  }

  /** Without a sentence or clause end on a long line nothing is pending: the
      next token is placed by the fit rule alone. */
  lemma NoPunctuationNoBreak(b: Builder, w: Word, next: Word, cfg: Config)
    requires |LastLine(Step(b, w, cfg).lines)| <= PunctuationMinLine
          || !(EndsWithAny(Strip(w.text), SentenceEnds) || EndsWithAny(Strip(w.text), ClauseEnds))
    ensures Step(b, w, cfg).pending == NoBreak
    ensures Consume(Step(b, w, cfg), next, cfg) == Step(b, w, cfg)
  {
    StepPending(b, w, cfg);
  }

  // ---------------------------------------------------------------------------
  // The orphan correction

  /** The last cue is merged exactly when there are two or more cues, its
      joined text is shorter than 15 characters and the previous cue's last
      line plus that text is shorter than `max_chars + 15`. A merge removes one
      cue, keeps every earlier cue, and changes the previous cue only by
      appending a space and the orphan's text to its last line and taking the
      orphan's end. */
  lemma FixOrphanEffect(cues: seq<Cue>, cfg: Config)
    requires |cues| > 1 ==> |cues[|cues| - 2].lines| > 0
    ensures var r := FixOrphan(cues, cfg); var n := |cues|;
      && (|r| == n - 1 <==>
            n > 1 && |Join(cues[n - 1].lines, ' ')| < OrphanMaxText
            && |cues[n - 2].lines[|cues[n - 2].lines| - 1]| + |Join(cues[n - 1].lines, ' ')| < cfg.maxChars + OrphanSlack)
      && (|r| != n - 1 ==> r == cues)
      && (|r| == n - 1 ==>
            var prev, k := cues[n - 2], |cues[n - 2].lines| - 1;
            && r[..n - 2] == cues[..n - 2]
            && r[n - 2].start == prev.start && r[n - 2].end == cues[n - 1].end
            && |r[n - 2].lines| == |prev.lines| && r[n - 2].lines[..k] == prev.lines[..k]
            && r[n - 2].lines[k] == prev.lines[k] + " " + Join(cues[n - 1].lines, ' '))
  {
    var n := |cues|;
    if n > 1 && ShouldMerge(cues[n - 2], cues[n - 1], cfg) {
      var r := FixOrphan(cues, cfg);
      assert r[..n - 2] == cues[..n - 2];
    }
  }

  // ---------------------------------------------------------------------------
  // Examples

  /** A token without whitespace at either end is its own stripped form. */
  lemma StripPlain(s: string)
    requires |s| > 0 && !IsSpace(s[0]) && !IsSpace(s[|s| - 1])
    ensures Strip(s) == s
  {
    assert TrimLeft(s) == s;
    assert TrimRight(s) == s;
  }

  /** The run over a single token is one step from the start state. */
  lemma RunOne(w: Word, cfg: Config)
    ensures Run(Start(w), [w], cfg) == Step(Start(w), w, cfg)
  {
    assert [w][..0] == [];
  }

  /** Two tokens whose words fit on one line of at most 15 characters make
      one cue with one line: the words joined by a space, timed from the first
      token's start to the second token's end. */
  lemma TwoWordsOneLine(w0: Word, w1: Word, cfg: Config)
    requires Strip(w0.text) != "" && Strip(w1.text) != ""
    requires |Strip(w0.text)| + 1 + |Strip(w1.text)| <= cfg.maxChars
    requires |Strip(w0.text)| + 1 + |Strip(w1.text)| <= PunctuationMinLine
    ensures Captions([w0, w1], cfg) == [Cue(w0.start, w1.end, [Strip(w0.text) + " " + Strip(w1.text)])]
  {
    var ws := [w0, w1];
    var b0 := Start(w0);
    var s2 := TwoWordsRun(w0, w1, cfg);
    assert Run(b0, ws, cfg) == s2 by {
      RunOne(w0, cfg);
      RunSnoc(b0, ws, 1, cfg);
      assert ws[..1] == [w0] && ws[..2] == ws;
    }
    assert Pack(ws, cfg) == [Current(s2)];
  }

  /** The two steps of `TwoWordsOneLine`: the first word opens the line, the
      second joins it. */
  lemma TwoWordsRun(w0: Word, w1: Word, cfg: Config) returns (s2: Builder)
    requires Strip(w0.text) != "" && Strip(w1.text) != ""
    requires |Strip(w0.text)| + 1 + |Strip(w1.text)| <= cfg.maxChars
    requires |Strip(w0.text)| + 1 + |Strip(w1.text)| <= PunctuationMinLine
    ensures s2 == Builder([], [Strip(w0.text) + " " + Strip(w1.text)], w0.start, w1.end, NoBreak)
    ensures Step(Step(Start(w0), w0, cfg), w1, cfg) == s2
  {
    var s1 := FirstWordAlone(w0, cfg);
    s2 := SecondWordJoins(Strip(w0.text), w0, w1, cfg);
  }

  /** A first word that fits and is short opens the first line, with no break
      pending. */
  lemma FirstWordAlone(w: Word, cfg: Config) returns (s1: Builder)
    requires Strip(w.text) != ""
    requires |Strip(w.text)| <= cfg.maxChars && |Strip(w.text)| <= PunctuationMinLine
    ensures s1 == Builder([], [Strip(w.text)], w.start, w.end, NoBreak)
    ensures Step(Start(w), w, cfg) == s1
  {
    var a := Strip(w.text);
    s1 := Builder([], [a], w.start, w.end, NoBreak);
    PlaceOnEmptyLine(Start(w), a, w, cfg);
    MarkKeepsCues(Place(Start(w), a, w, cfg), a);
  }

  /** A second word that fits joins the one-word first line. */
  lemma SecondWordJoins(a: string, w0: Word, w1: Word, cfg: Config) returns (s2: Builder)
    requires a != "" && Strip(w1.text) != ""
    requires |a| + 1 + |Strip(w1.text)| <= cfg.maxChars
    requires |a| + 1 + |Strip(w1.text)| <= PunctuationMinLine
    ensures s2 == Builder([], [a + " " + Strip(w1.text)], w0.start, w1.end, NoBreak)
    ensures Step(Builder([], [a], w0.start, w0.end, NoBreak), w1, cfg) == s2
  {
    var b := Strip(w1.text);
    var s1 := Builder([], [a], w0.start, w0.end, NoBreak);
    s2 := Builder([], [a + " " + b], w0.start, w1.end, NoBreak);
    assert Sep(a) == " ";
    assert [a][0 := a + " " + b] == [a + " " + b];
    assert Place(s1, b, w1, cfg) == s2;
    MarkKeepsCues(s2, b);
  }

  /** "Hello world." with the default settings is one cue with one line. */
  lemma ExampleHelloWorld()
    ensures Captions([Word("Hello", 0, 400), Word("world.", 400, 900)], DefaultConfig)
            == [Cue(0, 900, ["Hello" + " " + "world."])]
  {
    var w0, w1 := Word("Hello", 0, 400), Word("world.", 400, 900);
    StripPlain(w0.text);
    StripPlain(w1.text);
    TwoWordsOneLine(w0, w1, DefaultConfig);
  }

  /** An over-long token on an empty line of a cue with room goes on a new
      line and the empty line stays. */
  lemma ExampleEmptyFirstLine()
    ensures Captions([Word("caption", 0, 700)], Config(5, 2)) == [Cue(0, 700, ["", "caption"])]
  {
    var w, cfg := Word("caption", 0, 700), Config(5, 2);
    StripPlain(w.text);
    var p := Builder([], ["", w.text], 0, 700, NoBreak);
    assert Place(Start(w), w.text, w, cfg) == p;
    assert Mark(p, w.text) == p;
    RunOne(w, cfg);
    assert Pack([w], cfg) == [Current(p)];
  }

  /** With one line per cue, an over-long token flushes the empty line as a
      cue of its own; a token of 16 characters is too long to be an orphan, so
      the empty cue stays. */
  lemma ExampleEmptyCue()
    ensures Captions([Word("abcdefghijklmnop", 0, 500)], Config(5, 1))
            == [Cue(0, 500, [""]), Cue(0, 500, ["abcdefghijklmnop"])]
  {
    var w := Word("abcdefghijklmnop", 0, 500);
    StripPlain(w.text);
    RunOne(w, Config(5, 1));
    var p := Builder([Cue(0, 500, [""])], [w.text], 0, 500, NoBreak);
    assert Place(Start(w), w.text, w, Config(5, 1)) == p;
    assert Mark(p, w.text) == p;
    assert Join([w.text], ' ') == w.text;
  }

  /** The same with a shorter token: the orphan merges into the empty cue and
      its line starts with a space. */
  lemma ExampleLeadingSpace()
    ensures Captions([Word("abcdefgh", 0, 500)], Config(5, 1)) == [Cue(0, 500, [" abcdefgh"])]
  {
    var w := Word("abcdefgh", 0, 500);
    StripPlain(w.text);
    RunOne(w, Config(5, 1));
    var p := Builder([Cue(0, 500, [""])], [w.text], 0, 500, NoBreak);
    assert Place(Start(w), w.text, w, Config(5, 1)) == p;
    assert Mark(p, w.text) == p;
    var packed := [Cue(0, 500, [""]), Cue(0, 500, [w.text])];
    assert Pack([w], Config(5, 1)) == packed;
    assert Join([w.text], ' ') == w.text;
    assert "" + " " + w.text == " abcdefgh";
    assert Merge(packed[0], packed[1]) == Cue(0, 500, [" abcdefgh"]);
  }
}
