/** `write_pro_vtt`: the cues as WebVTT text (a fixed header, then one block per
    cue: the timing line, the text lines, a blank line). The file itself is
    not modelled, only the text written to it. `ParseVtt` reads that layout
    back and is the partner the round trip is proved against. */
module WebVtt {
  import opened Wrappers
  import opened Text
  import opened Timestamp
  import opened Captions

  /** The header's lines: the `WEBVTT` signature line, two metadata lines and
      the blank line that ends the header. */
  const HeaderLines: seq<string> := ["WEBVTT", "Kind: captions", "Language: en", ""]

  /** The header: each of its lines ended by a line feed. */
  const Header: string := Join(HeaderLines, '\n') + "\n"

  const Arrow: string := "-->"

  /** `start --> end`. */
  function TimingLine(c: Cue): string
  {
    FormatTimestamp(c.start) + " " + Arrow + " " + FormatTimestamp(c.end)
  }

  /** One cue block: timing line, the lines joined by line feeds, a blank line. */
  function Block(c: Cue): string
  {
    TimingLine(c) + "\n" + Join(c.lines, '\n') + "\n\n"
  }

  function Blocks(cues: seq<Cue>): string
  {
    Concat(BlockTexts(cues))
  }

  function BlockTexts(cues: seq<Cue>): seq<string>
  {
    seq(|cues|, i requires 0 <= i < |cues| => Block(cues[i]))
  }

  /** `write_pro_vtt(captions, output_file)`: the text written to the file. */
  function WriteProVtt(cues: seq<Cue>): string
  {
    Header + Blocks(cues)
  }

  lemma WriteProVttSnoc(cues: seq<Cue>, c: Cue)
    ensures WriteProVtt(cues + [c]) == WriteProVtt(cues) + Block(c)
  {
    BlocksSnoc(cues, c);
    ConcatAssoc(Header, Blocks(cues), Block(c));
  }

  lemma BlocksSnoc(cues: seq<Cue>, c: Cue)
    ensures Blocks(cues + [c]) == Blocks(cues) + Block(c)
  {
    assert BlockTexts(cues + [c]) == BlockTexts(cues) + [Block(c)];
    ConcatSnoc(BlockTexts(cues), Block(c));
  }

  /** No cues: only the header is written. */
  lemma WriteProVttEmpty()
    ensures WriteProVtt([]) == Header
  {
    assert Header + "" == Header;
  }

  // ---------------------------------------------------------------------------
  // Reading the text back

  /** A timing line `start --> end`: three space-separated parts, the middle
      one the arrow and the outer ones timestamps. */
  function ParseTiming(line: string): Option<(Time, Time)>
  {
    var parts := Split(line, ' ');
    if |parts| == 3 && parts[1] == Arrow then
      match (ParseTimestamp(parts[0]), ParseTimestamp(parts[2]))
      case (Some(s), Some(e)) => Some((s, e))
      case _ => None
    else None
  }

  /** The index of the first empty line, or `|ls|` when there is none. */
  function FirstEmpty(ls: seq<string>): (k: nat)
    ensures k <= |ls|
    ensures k < |ls| ==> ls[k] == ""
    ensures forall j :: 0 <= j < k ==> ls[j] != ""
  {
    if ls == [] then 0 else if ls[0] == "" then 0 else 1 + FirstEmpty(ls[1..])
  }

  /** Cue blocks as lines: a timing line, text lines up to a blank line. */
  function ParseBlocks(ls: seq<string>): Option<seq<Cue>>
    decreases |ls|
  {
    if ls == [] then Some([])
    else match ParseTiming(ls[0])
      case None => None
      case Some((s, e)) =>
        var k := FirstEmpty(ls[1..]);
        if k == |ls| - 1 then None
        else match ParseBlocks(ls[k + 2..])
          case None => None
          case Some(rest) => Some([Cue(s, e, ls[1..k + 1])] + rest)
  }

  /** A WebVTT text in the layout `write_pro_vtt` produces. */
  function ParseVtt(text: string): Option<seq<Cue>>
  {
    var ls := Split(text, '\n');
    if |ls| >= 5 && ls[..4] == HeaderLines && ls[|ls| - 1] == "" then ParseBlocks(ls[4..|ls| - 1])
    else None
  }

  // ---------------------------------------------------------------------------
  // The round trip

  /** A cue whose text survives the text format: at least one line, no line
      empty and none holding a line feed. */
  predicate Writable(c: Cue)
  {
    |c.lines| >= 1 && forall l <- c.lines :: l != "" && '\n' !in l
  }

  /** The timing lines of the cues, in order. */
  function TimingLines(cues: seq<Cue>): seq<string>
  {
    seq(|cues|, i requires 0 <= i < |cues| => TimingLine(cues[i]))
  }

  /** The lines of the blocks of `cues` with timing lines `ts`: per cue its
      timing line, its text lines and a blank line. */
  function Layout(ts: seq<string>, cues: seq<Cue>): seq<string>
    requires |ts| == |cues|
  {
    if cues == [] then [] else [ts[0]] + cues[0].lines + [""] + Layout(ts[1..], cues[1..])
  }

  function AllBlockLines(cues: seq<Cue>): seq<string>
  {
    Layout(TimingLines(cues), cues)
  }

  /** The header is the text `write_pro_vtt` writes before the first cue,
      `WEBVTT\nKind: captions\nLanguage: en\n\n`. */
  lemma HeaderText()
    ensures Header == "WEBVTT\n" + "Kind: captions\n" + "Language: en\n" + "\n"
  {
  }

  lemma HeaderPlain()
    ensures forall l <- HeaderLines :: '\n' !in l
  {
  }

  /** A formatted timestamp holds neither spaces nor line feeds. */
  lemma TimestampPlain(t: Time)
    ensures ' ' !in FormatTimestamp(t) && '\n' !in FormatTimestamp(t)
  {
    FormatTimestampChars(t);
  }

  /** `a --> b` splits at its spaces into `a`, the arrow and `b`. */
  lemma SplitTiming(a: string, b: string)
    requires ' ' !in a && ' ' !in b
    ensures Split(a + " " + Arrow + " " + b, ' ') == [a, Arrow, b]
  {
    SplitConcat(a + " " + Arrow, b, ' ');
    SplitConcat(a, Arrow, ' ');
    SplitNoSep(a, ' ');
    SplitNoSep(Arrow, ' ');
    SplitNoSep(b, ' ');
  }

  /** The timing line is one line and reads back as the cue's times. */
  lemma TimingLineParses(c: Cue)
    ensures '\n' !in TimingLine(c)
    ensures ParseTiming(TimingLine(c)) == Some((c.start, c.end))
  {
    var a, b := FormatTimestamp(c.start), FormatTimestamp(c.end);
    TimestampPlain(c.start);
    TimestampPlain(c.end);
    FormatTimestampParses(c.start);
    FormatTimestampParses(c.end);
    SplitTiming(a, b);
    NoLineFeed(a, b);
  }

  /** `a --> b` is one line when `a` and `b` are. */
  lemma NoLineFeed(a: string, b: string)
    requires '\n' !in a && '\n' !in b
    ensures '\n' !in a + " " + Arrow + " " + b
  {
    var x := a + " " + Arrow + " ";
    assert forall ch <- x :: ch in a || ch == ' ' || ch in Arrow;
    assert forall ch <- x + b :: ch in x || ch in b;
  }

  /** Splitting lines joined by line feeds and ended by one, followed by more
      text, gives the lines, then the pieces of the rest. */
  lemma SplitLinesThen(ls: seq<string>, s: string)
    requires |ls| >= 1 && forall l <- ls :: '\n' !in l
    ensures Split(Join(ls, '\n') + "\n" + s, '\n') == ls + Split(s, '\n')
  {
    SplitConcat(Join(ls, '\n'), s, '\n');
    SplitJoin(ls, '\n');
  }

  /** A block's text is its lines, each ended by a line feed. */
  lemma BlockText(t: string, lines: seq<string>)
    requires |lines| >= 1
    ensures t + "\n" + Join(lines, '\n') + "\n\n" == Join([t] + lines + [""], '\n') + "\n"
  {
    var j := Join(lines, '\n');
    var ps := [t] + lines + [""];
    ConcatAssoc([t], lines, [""]);
    ConsParts(t, lines + [""]);
    JoinSnoc(lines, "", '\n');
    assert Join(lines + [""], '\n') == j + "\n";
    assert Join(ps, '\n') == t + "\n" + (j + "\n");
    ConcatAssoc(t + "\n", j, "\n");
    ConcatAssoc(t + "\n" + j, "\n", "\n");
  }

  /** Splitting block texts followed by more text: the blocks' lines, then the
      pieces of the rest. */
  lemma {:induction false} SplitLayout(xs: seq<string>, ts: seq<string>, cues: seq<Cue>, s: string)
    requires |xs| == |ts| == |cues|
    requires forall i :: 0 <= i < |xs| ==>
      xs[i] == ts[i] + "\n" + Join(cues[i].lines, '\n') + "\n\n"
    requires forall t <- ts :: '\n' !in t
    requires forall c <- cues :: |c.lines| >= 1 && forall l <- c.lines :: '\n' !in l
    ensures Split(Concat(xs) + s, '\n') == Layout(ts, cues) + Split(s, '\n')
    decreases |xs|
  {
    if xs == [] {
      assert "" + s == s;
    } else {
      var t, c, rest := ts[0], cues[0], Concat(xs[1..]) + s;
      var ls := [t] + c.lines + [""];
      assert t in ts && c in cues;
      assert forall l <- ls :: '\n' !in l;
      assert forall x <- ts[1..] :: x in ts;
      assert forall x <- cues[1..] :: x in cues;
      SplitLayout(xs[1..], ts[1..], cues[1..], s);
      ConcatAssoc(xs[0], Concat(xs[1..]), s);
      BlockText(t, c.lines);
      SplitLinesThen(ls, rest);
      ConcatAssoc(ls, Layout(ts[1..], cues[1..]), Split(s, '\n'));
    }
  }

  lemma SplitBlocks(cues: seq<Cue>, s: string)
    requires forall c <- cues :: |c.lines| >= 1 && forall l <- c.lines :: '\n' !in l
    ensures Split(Blocks(cues) + s, '\n') == AllBlockLines(cues) + Split(s, '\n')
  {
    var ts := TimingLines(cues);
    forall i | 0 <= i < |cues|
      ensures BlockTexts(cues)[i] == ts[i] + "\n" + Join(cues[i].lines, '\n') + "\n\n"
      ensures '\n' !in ts[i]
    {
      TimingLineParses(cues[i]);
    }
    SplitLayout(BlockTexts(cues), ts, cues, s);
  }

  /** The written text, line by line: the header lines, then for each cue its
      timing line, its text lines and a blank line, then the empty remainder
      after the last line feed. */
  lemma WriteProVttLines(cues: seq<Cue>)
    requires forall c <- cues :: |c.lines| >= 1 && forall l <- c.lines :: '\n' !in l
    ensures Split(WriteProVtt(cues), '\n') == HeaderLines + AllBlockLines(cues) + [""]
  {
    var b := Blocks(cues);
    HeaderPlain();
    SplitLinesThen(HeaderLines, b);
    SplitBlocks(cues, "");
    assert b + "" == b;
    assert Split("", '\n') == [""];
    ConcatAssoc(HeaderLines, AllBlockLines(cues), [""]);
  }

  /** Where a block's parts sit in its lines followed by more lines. */
  lemma BlockParts(t: string, lines: seq<string>, tail: seq<string>)
    ensures var ls := [t] + lines + [""] + tail;
      var n := |lines|;
      ls[0] == t && ls[1..] == lines + ([""] + tail) && ls[1..n + 1] == lines && ls[n + 2..] == tail
  {
    var ls := [t] + lines + [""] + tail;
    var n := |lines|;
    assert ls[1..] == lines + ([""] + tail);
    assert ls[n + 2..] == tail;
  }

  /** One block in front of more lines: its cue, then whatever the rest
      reads as. */
  lemma ParseBlockStep(t: string, lines: seq<string>, tail: seq<string>, start: Time, end: Time)
    requires ParseTiming(t) == Some((start, end))
    requires forall l <- lines :: l != ""
    ensures ParseBlocks([t] + lines + [""] + tail) ==
      match ParseBlocks(tail)
      case None => None
      case Some(rest) => Some([Cue(start, end, lines)] + rest)
  {
    var ls := [t] + lines + [""] + tail;
    BlockParts(t, lines, tail);
    FirstEmptyAfter(lines, [""] + tail);
  }

  /** Blocks with timing lines that read back as their cues' times, and
      writable text, read back as the cues. */
  lemma {:induction false} ParseLayout(ts: seq<string>, cues: seq<Cue>)
    requires |ts| == |cues|
    requires forall i :: 0 <= i < |ts| ==> ParseTiming(ts[i]) == Some((cues[i].start, cues[i].end))
    requires forall c <- cues :: Writable(c)
    ensures ParseBlocks(Layout(ts, cues)) == Some(cues)
    decreases |cues|
  {
    if cues != [] {
      var t, c := ts[0], cues[0];
      var tail := Layout(ts[1..], cues[1..]);
      assert ParseBlocks(tail) == Some(cues[1..]) by {
        assert forall x <- cues[1..] :: x in cues;
        ParseLayout(ts[1..], cues[1..]);
      }
      assert c in cues;
      ParseBlockStep(t, c.lines, tail, c.start, c.end);
      assert [c] + cues[1..] == cues;
    }
  }

  /** Non-empty lines followed by an empty one: the first empty line is right
      after them. */
  lemma {:induction false} FirstEmptyAfter(xs: seq<string>, ys: seq<string>)
    requires forall x <- xs :: x != ""
    requires |ys| > 0 && ys[0] == ""
    ensures FirstEmpty(xs + ys) == |xs|
    decreases |xs|
  {
    if xs == [] {
      assert xs + ys == ys;
    } else {
      assert xs[0] in xs && forall x <- xs[1..] :: x in xs;
      FirstEmptyAfter(xs[1..], ys);
      assert (xs + ys)[0] == xs[0];
      assert (xs + ys)[1..] == xs[1..] + ys;
    }
  }

  lemma ParseBlockLines(cues: seq<Cue>)
    requires forall c <- cues :: Writable(c)
    ensures ParseBlocks(AllBlockLines(cues)) == Some(cues)
  {
    forall i | 0 <= i < |cues|
      ensures ParseTiming(TimingLines(cues)[i]) == Some((cues[i].start, cues[i].end))
    {
      TimingLineParses(cues[i]);
    }
    ParseLayout(TimingLines(cues), cues);
  }

  /** Reading back the written text gives the cues back, for cues that each
      have at least one line and no empty line or line feed in their text. */
  lemma WriteProVttParses(cues: seq<Cue>)
    requires forall c <- cues :: Writable(c)
    ensures ParseVtt(WriteProVtt(cues)) == Some(cues)
  {
    WriteProVttLines(cues);
    ThreeParts(HeaderLines, AllBlockLines(cues), [""]);
    ParseBlockLines(cues);
  }

  /** A block whose first text line is empty does not read back as its cue:
      the empty line ends the block before the text. */
  lemma EmptyFirstLineBlock(t: string, c: Cue)
    requires |c.lines| >= 1 && c.lines[0] == ""
    ensures ParseBlocks([t] + c.lines + [""]) != Some([c])
  {
    var ls := [t] + c.lines + [""];
    assert ls[1..][0] == "";
    assert FirstEmpty(ls[1..]) == 0;
  }

  /** An empty first line (what the packer leaves when an over-long token
      arrives on an empty line) is a blank line in the text: it ends the cue
      there, so the text does not read back as the cue. */
  lemma EmptyFirstLineDoesNotParse(c: Cue)
    requires |c.lines| >= 1 && c.lines[0] == "" && forall l <- c.lines :: '\n' !in l
    ensures ParseVtt(WriteProVtt([c])) != Some([c])
  {
    var t := TimingLine(c);
    WriteProVttLines([c]);
    var bl := AllBlockLines([c]);
    assert bl == [t] + c.lines + [""] by {
      assert TimingLines([c]) == [t];
      assert Layout([t], [c]) == [t] + c.lines + [""] + Layout([], []);
    }
    ThreeParts(HeaderLines, bl, [""]);
    EmptyFirstLineBlock(t, c);
  }
}
