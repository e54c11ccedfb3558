# Caption pipeline of the auto-transcriber, in Dafny

The transcriber turns a video's speech into word tokens with timings. This
project models the part that turns those tokens into WebVTT captions, all of
it in `vast_transcriber.py`:

- **`format_timestamp`** writes a time as `HH:MM:SS.mmm` (module `Timestamp`).
  Times are whole milliseconds. A parser for WebVTT timestamps is the partner
  it is proved against: reading a written timestamp gives the time back.
- **`build_dcmp_captions`** is the greedy packer (module `Captions`).
  - One pass over the tokens fills the lines of the cue under construction.
  - Trailing punctuation on a long line defers a line or cue break to the next
    token.
  - A final pass merges a short last cue into its predecessor.
  - `Step`, `Run` and `FixOrphan` are functions on a `Builder` value that
    specify the pass. `Captions` is the whole.
  - The method `BuildCaptions` is the imperative loop as the source writes it,
    proved equal to `Captions`.
  - The source's two flags `force_new_block` and `force_new_line` are one
    `Pending` value, because at most one of them is set at a time.
- **`write_pro_vtt`** is a string function giving the text the source writes
  to the file (module `WebVtt`). A parser for that layout is its partner:
  writing and reading back gives the cues back.
- **Segment flattening** is the loop that collects the tokens of all
  transcription segments (module `Transcript`). A method, `CaptionText`,
  chains collection, packing and writing, as the `generate_vtt` branch does.

Module `Text` holds the string operations the source borrows from Python:

- `str.strip()`, with Python's whitespace characters
- `sep.join(parts)`
- `str.endswith(...)`

The source never splits a string. `Split`, which gives what Python's
`str.split(sep)` gives, is the model's own tool:

- It defines `Words`, the non-empty space-separated pieces of a string. The
  coverage property is stated in words.
- The WebVTT parser uses it to read the written text back.

Three behaviours of the code are kept as written:

- A cue can have empty text. With `max_lines = 1` the code can flush a cue
  whose only line is empty (`Captions.ExampleEmptyCue`). With `max_lines >= 2`
  and no blank token, every cue holds a word (`Captions.CaptionsHaveWords`).
- With `max_lines >= 2` an over-long token placed on an empty line leaves that
  empty line in place (`Captions.ExampleEmptyFirstLine`).
- The orphan merge puts a space in front of the merged text even when the line
  it joins is empty (`Captions.ExampleLeadingSpace`).

## Model

| member | source | states |
|---|---|---|
| Captions.Captions | vast_transcriber.py:51-109 | `build_dcmp_captions` as a function: `Run` over the tokens from `Start`, the final append (`Pack`), then `FixOrphan`. Its properties are stated by the `Captions…` lemmas below. |
| Captions.Consume | vast_transcriber.py:66-79 | The pending break carried out before a token is placed. Its effect is stated by `StepAfterNewCue` and `StepAfterNewLine`. |
| Captions.Place | vast_transcriber.py:81-94 | A token appended to the last line, put on a new line, or put in a new cue. Stated by `PlaceOnEmptyLine`, `StepEnd`, `StepEndsWithWord` and `StepWords`. |
| Captions.Mark | vast_transcriber.py:96-98 | The break the token's trailing punctuation asks for. Stated by `StepPending`. |
| Captions.FixOrphan | vast_transcriber.py:102-108 | The orphan merge. Stated by `FixOrphanEffect`. |
| Captions.BuildCaptions | vast_transcriber.py:51-109 | The imperative pass returns exactly `Captions(words, cfg)`. It has the empty-input return, the loop with deferred breaks, the final append of the open cue and the orphan fix. Every property below is proved of `Captions`. |
| Captions.BreakIfPending | vast_transcriber.py:66-79 | A pending break is carried out as `Consume` states it. A cue break closes the cue and restarts it at the token's times. A line break adds an empty line below `max_lines`. Otherwise the line break closes the cue, and the new cue starts at the token but keeps the old end. |
| Captions.PlaceWord | vast_transcriber.py:81-94 | The token is placed as `Place` states it: appended with the separator if it fits, on a new line if the cue has room, else in a new cue timed from the token. |
| Captions.MarkPunctuation | vast_transcriber.py:96-98 | The flag is set as `Mark` states it: `.?!` asks for a new cue and `,;:` for a new line, only when the last line is longer than 15 characters. |
| Captions.MergeOrphan | vast_transcriber.py:102-108 | The in-place orphan fix (append to the previous cue's last line, take over the end, drop the last cue) returns `FixOrphan(cues, cfg)`. |
| Captions.CaptionsWords | vast_transcriber.py:52-109 | Coverage: the words of all cues, in cue and line order, are exactly the words of the stripped input tokens in input order. The output is empty exactly when the input is. |
| Captions.CaptionsKeepTokens | vast_transcriber.py:61-109 | When every stripped token is one non-empty word, the cues' words are exactly the stripped tokens, in order. |
| Captions.StepWords | vast_transcriber.py:61-98 | One iteration adds exactly the token's words after the words emitted so far. |
| Captions.RunWords | vast_transcriber.py:61-99 | The loop emits exactly the words of the tokens it has read, in order. |
| Captions.MergeWords | vast_transcriber.py:104-106 | Merging keeps the words: the merged cue's words are the previous cue's words, then the orphan's. |
| Captions.FixOrphanWords | vast_transcriber.py:102-108 | The orphan fix does not change the words of the cue list. |
| Captions.StepLineCounts | vast_transcriber.py:66-94 | One iteration keeps every closed cue between 1 and `max(max_lines, 1)` lines, and the open cue at most that many. |
| Captions.RunLineCounts | vast_transcriber.py:61-99 | The loop keeps that bound. |
| Captions.CaptionsLineCounts | vast_transcriber.py:54-108 | Every output cue has between 1 and `max_lines` lines (1 when `max_lines < 1`). |
| Captions.PackFits | vast_transcriber.py:81-100 | Before the orphan fix, every line is at most `max_chars` long or is exactly one stripped input token. |
| Captions.FixOrphanFits | vast_transcriber.py:103-108 | The orphan fix raises the limit by at most 15: a merged line is at most `max_chars + 15` long. |
| Captions.CaptionsFit | vast_transcriber.py:81-108 | Every output line is at most `max_chars + 15` long or is exactly one stripped input token. |
| Captions.StepTimed | vast_transcriber.py:66-94 | With ordered tokens and `max_lines >= 2`, one iteration keeps the closed cues chronological and ending before the open cue starts. The open cue then ends at the token's end. |
| Captions.RunTimed | vast_transcriber.py:61-99 | The loop keeps that timing invariant. |
| Captions.CaptionsTimed | vast_transcriber.py:55-108 | With ordered tokens and `max_lines >= 2`, every cue starts no later than it ends and no later cue starts before it ends. The first cue starts at the first token's start and the last cue ends at the last token's end. Between two cues, the first ends at some token's end and the next starts at the following token's start. |
| Captions.StepAdjacent | vast_transcriber.py:66-94 | With `max_lines >= 2`, an iteration that closes a cue closes it at the previous token's end and starts the next cue at this token's start. Earlier boundaries are unchanged. |
| Captions.RunAdjacent | vast_transcriber.py:61-99 | The loop keeps every cue boundary between two consecutive tokens, and the open cue ends at the last token read. |
| Captions.FixOrphanAdjacent | vast_transcriber.py:102-108 | The orphan merge keeps those boundaries: the merged cue keeps its start. |
| Captions.CaptionsAdjacent | vast_transcriber.py:55-108 | With `max_lines >= 2` and any token times, each cue but the last ends at some token's end, and the next cue starts at the following token's start. |
| Captions.StepHasWords | vast_transcriber.py:66-98 | With `max_lines >= 2` and a token that is not blank once stripped, every closed cue and the open cue hold a word after the iteration. |
| Captions.RunHasWords | vast_transcriber.py:61-99 | The loop keeps that invariant. The open cue holds a word once a token is read. |
| Captions.PackHasWords | vast_transcriber.py:52-100 | Under the same conditions, every cue before the orphan fix holds a word, including the cue appended after the loop. |
| Captions.FixOrphanHasWords | vast_transcriber.py:102-108 | The orphan merge keeps every cue holding a word. |
| Captions.CaptionsHaveWords | vast_transcriber.py:51-109 | With `max_lines >= 2` and no token blank once stripped, every output cue holds at least one word. |
| Captions.FixOrphanChronological | vast_transcriber.py:102-108 | The orphan fix keeps a chronological cue list chronological. |
| Captions.CaptionsFirstStart | vast_transcriber.py:55-108 | For any configuration, a non-empty input gives a non-empty output whose first cue starts at the first token's start. |
| Captions.StepPending | vast_transcriber.py:96-98 | After an iteration a cue break is pending exactly when the last line is longer than 15 characters and the token ends in `.?!`. A line break is pending exactly when the line is that long and the token ends in `,;:` but not `.?!`. |
| Captions.StepEnd | vast_transcriber.py:81-94 | Every iteration makes the open cue end at the token's end. |
| Captions.StepEndsWithWord | vast_transcriber.py:81-94 | After an iteration the last line ends with the stripped token. |
| Captions.StepAfterNewCue | vast_transcriber.py:66-72 | With a cue break pending, the next iteration closes the cue as it was and starts the next one at the next token. If that token fits on a line, it is the new cue's only line. |
| Captions.StepAfterNewLine | vast_transcriber.py:73-79 | With a line break pending and a next token that fits a line: below `max_lines` it becomes a new line of the same cue, else it starts a new cue. |
| Captions.SentenceEndClosesCue | vast_transcriber.py:66-98 | A token ending in `.?!` on a line longer than 15 characters makes the next token start a new cue. The closed cue ends at that token's end. |
| Captions.ClauseEndBreaksLine | vast_transcriber.py:66-98 | A token ending in `,;:` (not `.?!`) on a line longer than 15 characters makes a fitting next token start a new line, or a new cue when the cue already has `max_lines` lines. |
| Captions.NoPunctuationNoBreak | vast_transcriber.py:66-98 | At or below 15 characters, or without trailing punctuation, no break is pending and the next token is placed from the unchanged state. |
| Captions.PlaceOnEmptyLine | vast_transcriber.py:81-85 | A fitting token on an empty last line replaces that line and sets the end. |
| Captions.FixOrphanEffect | vast_transcriber.py:102-108 | The last cue is merged exactly when there are two or more cues, its joined text is shorter than 15 and the previous last line's length plus that text's length is below `max_chars + 15`. A merge drops the count by one and leaves earlier cues unchanged. The merged cue keeps its start and line count, ends at the orphan's end, and its last line gets `" " + text`. Otherwise the list is unchanged. |
| Captions.TwoWordsOneLine | vast_transcriber.py:81-85 | Two single-word tokens that fit together on one line of at most 15 characters give one cue, `first + " " + second`, from the first start to the second end. |
| Captions.ExampleHelloWorld | vast_transcriber.py:51-100 | With the defaults (`max_chars = 32, max_lines = 2`) the tokens `Hello` and `world.` give one cue, `Hello world.`, from the first start to the second end. |
| Captions.ExampleEmptyFirstLine | vast_transcriber.py:81-88 | `max_chars = 5, max_lines = 2`: the token `caption` gives the lines `["", "caption"]`. |
| Captions.ExampleEmptyCue | vast_transcriber.py:86-109 | `max_chars = 5, max_lines = 1`: a 16-character token gives a cue with one empty line, then the token's cue. |
| Captions.ExampleLeadingSpace | vast_transcriber.py:86-108 | `max_chars = 5, max_lines = 1`: the token `abcdefgh` is merged into the empty cue before it as `" abcdefgh"`. |
| Timestamp.FormatTimestamp | vast_transcriber.py:11-16 | `HH:MM:SS.mmm` of a time in milliseconds. Stated by `FormatTimestampParses`, `FormatTimestampLength` and `FormatTimestampChars`. |
| Timestamp.FieldsOf | vast_transcriber.py:12-15 | Minutes and seconds are below 60, milliseconds below 1000, and hours, minutes, seconds and milliseconds add up to the time. |
| Timestamp.FormatTimestampParses | vast_transcriber.py:11-16 | Reading back a written timestamp gives the time. |
| Timestamp.FormatTimestampLength | vast_transcriber.py:16 | The timestamp has the 12 characters `HH:MM:SS.mmm` exactly when the time is under 100 hours. Longer hours take more digits. |
| Timestamp.FormatTimestampChars | vast_transcriber.py:16 | A timestamp holds only digits, `:` and `.`. |
| Timestamp.ValueOfPad | vast_transcriber.py:16 | A zero-padded field is all digits and denotes the number it was made from. |
| Timestamp.PadLength | vast_transcriber.py:16 | A number below `10^k` padded to `k` digits has exactly `k` digits. |
| Timestamp.FormatTimestampExample | vast_transcriber.py:11-16 | 3725.125 s is written `01:02:05.125`. |
| Timestamp.FormatTimestampWholeSeconds | vast_transcriber.py:11-16 | 5 s is written `00:00:05.000`. |
| WebVtt.WriteProVtt | vast_transcriber.py:111-116 | The text `write_pro_vtt` writes: the header, then one block per cue. Stated by `WriteProVttSnoc`, `WriteProVttLines` and `WriteProVttParses`. |
| WebVtt.HeaderText | vast_transcriber.py:113 | The header is `WEBVTT\nKind: captions\nLanguage: en\n\n`. |
| WebVtt.WriteProVttEmpty | vast_transcriber.py:113-116 | An empty cue list is written as the header alone. |
| WebVtt.WriteProVttSnoc | vast_transcriber.py:114-116 | Blocks are written in cue order: one more cue appends exactly its block, `start --> end\n`, then the lines joined by `\n`, then `\n\n`. |
| WebVtt.TimingLineParses | vast_transcriber.py:115 | The timing line is one line and reads back as the cue's start and end. |
| WebVtt.SplitBlocks | vast_transcriber.py:114-116 | For cues with at least one line and no line feed in any line, the blocks split into per cue: the timing line, the text lines and a blank line. |
| WebVtt.WriteProVttLines | vast_transcriber.py:111-116 | The written text splits into the four header lines, then each cue's lines as above, then the empty remainder after the last line feed. |
| WebVtt.WriteProVttParses | vast_transcriber.py:111-116 | Reading back the written text gives the cue list back, for cues with at least one line and no empty line or line feed in their text. |
| WebVtt.EmptyFirstLineDoesNotParse | vast_transcriber.py:116 | A cue whose first line is empty, as the packer can produce, does not read back. Its empty line is written as a blank line that ends the block early. |
| Text.Strip | vast_transcriber.py:62 | Python's `str.strip()`. Its result neither starts nor ends with whitespace, and `StripSlice` shows it is the input with only the surrounding whitespace removed. |
| Text.StripSlice | vast_transcriber.py:62 | `strip()` removes only whitespace and only at the two ends: the result is a slice of the input with whitespace on both sides of it. |
| Text.StripIdempotent | vast_transcriber.py:62 | Stripping twice is stripping once. |
| Text.SplitJoin | vast_transcriber.py:116 | Splitting `sep.join(parts)` at `sep` gives the parts back when no part holds `sep`. |
| Text.JoinSplit | vast_transcriber.py:104 | Joining the pieces of a split gives the string back. |
| Text.WordsOfJoin | vast_transcriber.py:104 | `" ".join(lines)` has exactly the words of the lines, in order. |
| Transcript.AllSegmentWords | vast_transcriber.py:177-179 | The tokens of all segments, in order. Stated by `AllSegmentWordsMembers`, `AllSegmentWordsConcat` and `AllSegmentWordsCount`. |
| Transcript.FlattenWords | vast_transcriber.py:177-179 | The loop returns `AllSegmentWords(segments)`: each segment's `words` in segment order, skipping segments without the key. |
| Transcript.AllSegmentWordsConcat | vast_transcriber.py:177-179 | Collecting two runs of segments collects each in turn and concatenates. |
| Transcript.AllSegmentWordsMembers | vast_transcriber.py:177-179 | A token is collected exactly when some segment with a `words` key holds it. |
| Transcript.AllSegmentWordsCount | vast_transcriber.py:177-179 | The number of collected tokens is the sum of the segments' word counts. |
| Transcript.CaptionText | vast_transcriber.py:175-182 | The `generate_vtt` branch, without the file, gives `WriteProVtt(Captions(AllSegmentWords(segments), cfg))`. |
| Transcript.NoWordsHeaderOnly | vast_transcriber.py:176-182 | When no segment carries words, the caption text is the header alone. |

## Left out

- `caption.py` is left out. It is network and API glue: Canvas, the YouTube Data API, Google Drive and Sheets, and page scraping.
- `caption_report.py` is left out. It is a batch loop that only calls `transcribe_video` and prints.
- `show_progress_timer` is left out. It is a background thread driven by the wall clock and standard output.
- `download_youtube_audio` is left out. It is a wrapper around `yt_dlp` and ffmpeg.
- The rest of `transcribe_video` is left out: Whisper model loading and transcription, the timer thread, the plain-text transcript, file writes, the deletion of the download and the exception handler. These are foreign calls and I/O. Only the caption branch's data flow is modelled (`Transcript.CaptionText`).
- `write_pro_vtt` does not open or write a file in the model. The model gives the text that would be written.
- Timestamp.FormatTimestampParses: times are whole non-negative milliseconds. The source's float arithmetic is not modelled, including `int((seconds - int(seconds)) * 1000)` being one millisecond short on binary fractions and negative times.
- Captions.Word: token times are whole milliseconds, and a token dictionary missing `word`, `start` or `end` (a `KeyError` in the source) is not modelled.
- Captions.CaptionsTimed: stated for `max_lines >= 2` only. With one line per cue, an over-long token after a pending line break flushes an empty cue whose start is after its end.
- Captions.PackFits: stated for `max_chars >= 0`. With a negative limit even the empty starting line exceeds it.
- Captions.CaptionsFit: stated for `max_chars >= 0`, for the same reason as `Captions.PackFits`.
- Captions.CaptionsAdjacent: stated for `max_lines >= 2`. With one line per cue, an empty cue can start and end within one token, as `Captions.ExampleEmptyCue` shows. It is also not stated which token starts or ends each cue, only that every boundary falls between two consecutive tokens.
- Captions.CaptionsHaveWords: stated for `max_lines >= 2` and tokens that are not blank once stripped. Otherwise the code can produce a cue without words. With one line per cue, see `Captions.ExampleEmptyCue`. With a blank last token, a last cue holding only an empty line is not merged when the line before it is too long.
- Captions.ClauseEndBreaksLine: stated for a next token that fits on a line by itself. A longer one takes the over-long path of `Place` after the break, as `Captions.ExampleEmptyFirstLine` shows.
- Captions.SentenceEndClosesCue: for a next token longer than `max_chars`, it states only that the closed cue comes first among the new cues. An empty cue may follow it, as `Captions.ExampleEmptyCue` shows.
- WebVtt.WriteProVttParses: stated for cues without empty lines or line feeds. Other cues do not read back (`WebVtt.EmptyFirstLineDoesNotParse`).
- Captions.BuildCaptions: the source appends dictionaries that share the list `current_lines` and later rebinds that name. The model treats each cue as a value, which is the same here because no closed cue's list is changed except by the orphan fix, and that fix is modelled explicitly.
