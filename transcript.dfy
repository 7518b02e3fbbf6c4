/**
 * The WebVTT flattening of the YouTube transcript tool.  A WebVTT file
 * (W3C "WebVTT: The Web Video Text Tracks Format", section 4.1) starts with a
 * `WEBVTT` header, may hold `NOTE` blocks, and consists of cues: a timing line
 * `start --> end` followed by caption lines up to a blank line.
 *
 * Two parsers are modelled, each as the loop the tool runs, proved against a
 * specification function:
 *   - ParseVttContent: all caption words, re-chunked into 50-word paragraphs;
 *   - ParseVttWithTimestamps: one `[start] text` entry per cue.
 */
module Transcript {
  import opened Common
  import opened Text

  /** Number of words in a full paragraph of the flattened transcript. */
  const ParagraphSize: nat := 50

  const CueArrow := "-->"
  const TimingSeparator := " --> "
  const ParagraphBreak := "\n\n"

  // ---------------------------------------------------------------------
  // Line classification and cleaning

  predicate IsDigit(c: char)
  {
    '0' <= c <= '9'
  }

  /** `re.match(r'^\d{2}:\d{2}:\d{2}\.\d{3}$', line)` on a stripped line. */
  predicate IsBareTimestamp(line: string)
  {
    |line| == 12
    && IsDigit(line[0]) && IsDigit(line[1]) && line[2] == ':'
    && IsDigit(line[3]) && IsDigit(line[4]) && line[5] == ':'
    && IsDigit(line[6]) && IsDigit(line[7]) && line[8] == '.'
    && IsDigit(line[9]) && IsDigit(line[10]) && IsDigit(line[11])
  }

  /** A stripped line that carries no caption text: blank, the header, a
      `NOTE`, a cue timing line or a bare timestamp. */
  predicate IsSkipped(line: string)
  {
    StartsWith(line, "WEBVTT") || StartsWith(line, "NOTE") || Contains(line, CueArrow)
    || line == [] || IsBareTimestamp(line)
  }

  /** Index of the first occurrence of `c` in `s`. */
  function IndexOf(s: string, c: char): (k: nat)
    requires c in s
    ensures k < |s| && s[k] == c && c !in s[..k]
  {
    if s[0] == c then 0 else 1 + IndexOf(s[1..], c)
  }

  /** A `<` at the start of `s` opens a tag `<[^>]+>`: some `>` follows,
      and not as the very next character. */
  predicate OpensTag(s: string)
  {
    |s| >= 2 && s[0] == '<' && s[1] != '>' && '>' in s[1..]
  }

  /** No substring of `s` matches `<[^>]+>`. */
  predicate TagFree(s: string)
    decreases |s|
  {
    s == [] || (!OpensTag(s) && TagFree(s[1..]))
  }

  /** `re.sub(r'<[^>]+>', '', s)`: scanning from the left, each tag is cut up
      to the first `>` after its `<`. */
  function StripTags(s: string): (r: string)
    ensures |r| <= |s|
    ensures forall c :: c in r ==> c in s
    ensures TagFree(r)
    decreases |s|
  {
    if s == [] then []
    else if OpensTag(s) then
      StripTags(s[1 + IndexOf(s[1..], '>') + 1..])
    else
      var rest := StripTags(s[1..]);
      assert !OpensTag([s[0]] + rest) by {
        if s[0] == '<' && |s| >= 2 && s[1] == '>' {
          assert s[1..] == ['>'] + s[2..];
        }
      }
      assert ([s[0]] + rest)[1..] == rest;
      [s[0]] + rest
  }

  // ---------------------------------------------------------------------
  // Flattened transcript: specification

  /** The words one raw line of the file contributes to the transcript. */
  function LineWords(raw: string): seq<string>
  {
    var line := Strip(raw);
    if IsSkipped(line) then [] else SplitWords(StripTags(line))
  }

  /** What `f` yields for each line, line after line. */
  function ConcatMap(f: string -> seq<string>, lines: seq<string>): seq<string>
  {
    if lines == [] then [] else ConcatMap(f, lines[..|lines| - 1]) + f(lines[|lines| - 1])
  }

  /** The caption words of the whole file, line after line. */
  function TranscriptWords(lines: seq<string>): seq<string>
  {
    ConcatMap(LineWords, lines)
  }

  /** The words cut into paragraphs of `ParagraphSize` words, the last one
      possibly shorter. */
  function Paragraphs(words: seq<string>): seq<seq<string>>
    decreases |words|
  {
    if words == [] then []
    else if |words| <= ParagraphSize then [words]
    else [words[..ParagraphSize]] + Paragraphs(words[ParagraphSize..])
  }

  /** Each paragraph's words joined by single spaces. */
  function JoinEach(chunks: seq<seq<string>>): (r: seq<string>)
    ensures |r| == |chunks|
  {
    seq(|chunks|, i requires 0 <= i < |chunks| => Join(chunks[i], " "))
  }

  function Flatten(chunks: seq<seq<string>>): seq<string>
  {
    if chunks == [] then [] else chunks[0] + Flatten(chunks[1..])
  }

  /** The text `parse_vtt_content` returns for the words of a file. */
  function RenderTranscript(words: seq<string>): string
  {
    Join(JoinEach(Paragraphs(words)), ParagraphBreak)
  }

  // ---------------------------------------------------------------------
  // Flattened transcript: the parser

  /** `parse_vtt_content`: keeps the caption text of every line, drops
      headers, notes, timing lines and bare timestamps, removes tags, and
      returns the words in paragraphs of at most 50 words. */
  method ParseVttContent(content: string) returns (r: string)
    ensures r == RenderTranscript(TranscriptWords(SplitOn(content, '\n')))
    ensures SplitWords(r) == TranscriptWords(SplitOn(content, '\n'))
    ensures TranscriptWords(SplitOn(content, '\n')) == [] ==> r == []
  {
    var lines := SplitOn(content, '\n');
    var currentText := CaptionText(lines);
    var transcript := Strip(currentText);
    SplitWordsStrip(currentText);
    var words := SplitWords(transcript);
    var paragraphs := ChunkParagraphs(words);
    r := Join(paragraphs, ParagraphBreak);
    RenderedWords(words);
  }

  /** The first loop of `parse_vtt_content`: the cleaned text of every kept
      line, each followed by a space. */
  method CaptionText(lines: seq<string>) returns (currentText: string)
    ensures SplitWords(currentText) == TranscriptWords(lines)
  {
    currentText := "";
    for i := 0 to |lines|
      invariant SplitWords(currentText) == TranscriptWords(lines[..i])
      invariant currentText == [] || IsSpace(currentText[|currentText| - 1])
    {
      ConcatMapPrefix(LineWords, lines, i);
      var cleanLine := CleanCaptionLine(lines[i]);
      AppendCaption(currentText, LineWords(lines[i]), cleanLine);
      if cleanLine != [] {
        currentText := currentText + cleanLine + " ";
      }
    }
    assert lines[..|lines|] == lines;
  }

  /** The body of that loop for one line: nothing for a skipped line (header,
      note, timing line, blank line, bare timestamp), otherwise the line with
      its tags removed and its whitespace collapsed to single spaces. */
  method CleanCaptionLine(raw: string) returns (cleanLine: string)
    ensures cleanLine == Join(LineWords(raw), " ")
  {
    var line := Strip(raw);
    if StartsWith(line, "WEBVTT") || StartsWith(line, "NOTE") || Contains(line, CueArrow) || line == [] {
      return "";
    }
    if IsBareTimestamp(line) {
      return "";
    }
    cleanLine := StripTags(line);
    cleanLine := Join(SplitWords(cleanLine), " ");
  }

  /** The second loop of `parse_vtt_content`: words gathered into paragraphs,
      a paragraph closed at 50 words or at the last word. */
  method ChunkParagraphs(words: seq<string>) returns (paragraphs: seq<string>)
    ensures paragraphs == JoinEach(Paragraphs(words))
  {
    paragraphs := [];
    var currentParagraph: seq<string> := [];
    ghost var chunks: seq<seq<string>> := [];
    ghost var start := 0;
    for i := 0 to |words|
      invariant start <= i && start + |currentParagraph| == i
      invariant |currentParagraph| < ParagraphSize
      invariant currentParagraph == words[start..i]
      invariant start % ParagraphSize == 0 || i == |words|
      invariant chunks == Paragraphs(words[..start])
      invariant paragraphs == JoinEach(chunks)
      invariant i == |words| ==> currentParagraph == []
    {
      ExtendSlice(words, start, i);
      currentParagraph := currentParagraph + [words[i]];
      if |currentParagraph| >= ParagraphSize || i == |words| - 1 {
        FlushParagraph(words, start, i + 1, chunks, paragraphs);
        paragraphs := paragraphs + [Join(currentParagraph, " ")];
        chunks := chunks + [currentParagraph];
        currentParagraph := [];
        start := i + 1;
      }
    }
    assert words[..|words|] == words;
  }

  lemma ExtendSlice(words: seq<string>, start: nat, i: nat)
    requires start <= i < |words|
    ensures words[start..i] + [words[i]] == words[start..i + 1]
  {
  }

  /** One kept caption line appended to the running text, as
      `current_text += clean_line + " "` does when `clean_line` is not empty. */
  lemma AppendCaption(current: string, words: seq<string>, clean: string)
    requires current == [] || IsSpace(current[|current| - 1])
    requires forall w :: w in words ==> IsWord(w)
    requires clean == Join(words, " ")
    ensures clean == [] ==> words == []
    ensures clean != [] ==> SplitWords(current + clean + " ") == SplitWords(current) + words
  {
    JoinWordsRoundTrip(words, " ");
    if clean != [] {
      assert current + clean + " " == current + (clean + " ");
      SplitWordsAppend(current, clean + " ");
      SplitWordsAppend(clean, " ");
      SplitWordsAllSpace(" ");
    }
  }

  /** Closing the paragraph of the words from `start` up to `end`. */
  lemma FlushParagraph(words: seq<string>, start: nat, end: nat, chunks: seq<seq<string>>, rendered: seq<string>)
    requires start < end <= |words| && end - start <= ParagraphSize
    requires start % ParagraphSize == 0
    requires chunks == Paragraphs(words[..start])
    requires rendered == JoinEach(chunks)
    ensures chunks + [words[start..end]] == Paragraphs(words[..end])
    ensures rendered + [Join(words[start..end], " ")] == JoinEach(chunks + [words[start..end]])
  {
    assert words[..start] + words[start..end] == words[..end];
    ParagraphsAppend(words[..start], words[start..end]);
    JoinEachSnoc(chunks, words[start..end]);
  }

  lemma JoinEachSnoc(chunks: seq<seq<string>>, last: seq<string>)
    ensures JoinEach(chunks + [last]) == JoinEach(chunks) + [Join(last, " ")]
  {
  }

  // ---------------------------------------------------------------------
  // Flattened transcript: properties

  lemma {:induction false} ParagraphsAppend(done: seq<string>, last: seq<string>)
    requires |done| % ParagraphSize == 0
    requires 1 <= |last| <= ParagraphSize
    ensures Paragraphs(done + last) == Paragraphs(done) + [last]
    decreases |done|
  {
    if done == [] {
      assert done + last == last;
    } else {
      var all := done + last;
      assert all[..ParagraphSize] == done[..ParagraphSize];
      assert all[ParagraphSize..] == done[ParagraphSize..] + last;
      ParagraphsAppend(done[ParagraphSize..], last);
      if |done| == ParagraphSize {
        assert done[ParagraphSize..] == [];
      }
    }
  }

  /** Paragraphs are non-empty, hold at most 50 words, all but the last hold
      exactly 50, and together they are the words in their original order. */
  lemma {:induction false} ParagraphsShape(words: seq<string>)
    ensures Flatten(Paragraphs(words)) == words
    ensures forall i :: 0 <= i < |Paragraphs(words)| ==> 1 <= |Paragraphs(words)[i]| <= ParagraphSize
    ensures forall i :: 0 <= i < |Paragraphs(words)| - 1 ==> |Paragraphs(words)[i]| == ParagraphSize
    decreases |words|
  {
    if |words| > ParagraphSize {
      ParagraphsShape(words[ParagraphSize..]);
      assert words == words[..ParagraphSize] + words[ParagraphSize..];
    } else if words != [] {
      assert Flatten([words]) == words + Flatten([]);
    }
  }

  lemma {:induction false} WordsOfJoinEach(chunks: seq<seq<string>>)
    requires forall i, j :: 0 <= i < |chunks| && 0 <= j < |chunks[i]| ==> IsWord(chunks[i][j])
    ensures Words(JoinEach(chunks)) == Flatten(chunks)
    decreases |chunks|
  {
    if chunks != [] {
      assert JoinEach(chunks)[1..] == JoinEach(chunks[1..]);
      JoinWordsRoundTrip(chunks[0], " ");
      WordsOfJoinEach(chunks[1..]);
    }
  }

  /** Splitting the rendered transcript on whitespace gives back exactly the
      words: nothing is added, lost or reordered. */
  lemma RenderedWords(words: seq<string>)
    requires forall w :: w in words ==> IsWord(w)
    ensures SplitWords(RenderTranscript(words)) == words
    ensures words == [] ==> RenderTranscript(words) == []
  {
    var chunks := Paragraphs(words);
    ParagraphsShape(words);
    forall i, j | 0 <= i < |chunks| && 0 <= j < |chunks[i]|
      ensures IsWord(chunks[i][j])
    {
      FlattenMember(chunks, i, j);
    }
    SplitWordsJoin(JoinEach(chunks), ParagraphBreak);
    WordsOfJoinEach(chunks);
  }

  lemma {:induction false} FlattenMember(chunks: seq<seq<string>>, i: nat, j: nat)
    requires i < |chunks| && j < |chunks[i]|
    ensures chunks[i][j] in Flatten(chunks)
    decreases i
  {
    if i > 0 {
      FlattenMember(chunks[1..], i - 1, j);
    }
  }

  /** A dropped line contributes no words, whatever text it carries. */
  lemma SkippedLinesContributeNothing(lines: seq<string>, k: nat)
    requires k < |lines| && IsSkipped(Strip(lines[k]))
    ensures TranscriptWords(lines) == TranscriptWords(lines[..k]) + TranscriptWords(lines[k + 1..])
  {
    ConcatMapSkip(LineWords, lines, k);
  }

  lemma ConcatMapSkip(f: string -> seq<string>, lines: seq<string>, k: nat)
    requires k < |lines| && f(lines[k]) == []
    ensures ConcatMap(f, lines) == ConcatMap(f, lines[..k]) + ConcatMap(f, lines[k + 1..])
  {
    assert lines == (lines[..k] + [lines[k]]) + lines[k + 1..];
    ConcatMapAppend(f, lines[..k] + [lines[k]], lines[k + 1..]);
    ConcatMapSnoc(f, lines[..k], lines[k]);
    assert ConcatMap(f, lines[..k]) + f(lines[k]) == ConcatMap(f, lines[..k]);
  }

  lemma ConcatMapSnoc(f: string -> seq<string>, a: seq<string>, line: string)
    ensures ConcatMap(f, a + [line]) == ConcatMap(f, a) + f(line)
  {
    assert (a + [line])[..|a|] == a;
  }

  lemma ConcatMapPrefix(f: string -> seq<string>, lines: seq<string>, i: nat)
    requires i < |lines|
    ensures ConcatMap(f, lines[..i + 1]) == ConcatMap(f, lines[..i]) + f(lines[i])
  {
    assert lines[..i + 1] == lines[..i] + [lines[i]];
    ConcatMapSnoc(f, lines[..i], lines[i]);
  }

  lemma {:induction false} ConcatMapAppend(f: string -> seq<string>, a: seq<string>, b: seq<string>)
    ensures ConcatMap(f, a + b) == ConcatMap(f, a) + ConcatMap(f, b)
    decreases |b|
  {
    if b == [] {
      assert a + b == a;
    } else {
      var b', last := b[..|b| - 1], b[|b| - 1];
      assert b == b' + [last];
      assert a + b == (a + b') + [last];
      ConcatMapSnoc(f, a + b', last);
      ConcatMapSnoc(f, b', last);
      ConcatMapAppend(f, a, b');
    }
  }

  // ---------------------------------------------------------------------
  // Transcript with timestamps: specification

  /** One emitted entry: the cue's start time and its caption text. */
  datatype Cue = Cue(start: string, text: string)

  function RenderCue(c: Cue): string
  {
    "[" + c.start + "] " + c.text
  }

  function RenderCues(cues: seq<Cue>): (r: seq<string>)
    ensures |r| == |cues|
  {
    seq(|cues|, i requires 0 <= i < |cues| => RenderCue(cues[i]))
  }

  /** `s.split(sep)[0]`: the part of `s` before the first occurrence of `sep`. */
  function PrefixBefore(s: string, sep: string): (r: string)
    ensures |r| <= |s| && r == s[..|r|]
    decreases |s|
  {
    if s == [] || StartsWith(s, sep) then [] else [s[0]] + PrefixBefore(s[1..], sep)
  }

  /** The start time written in a cue timing line. */
  function StartTime(timingLine: string): string
  {
    Strip(PrefixBefore(timingLine, TimingSeparator))
  }

  /** The first index at or after `j` that ends a cue body: the end of the
      file, a blank line or another timing line. */
  function CueEnd(lines: seq<string>, j: nat): (k: nat)
    requires j <= |lines|
    ensures j <= k <= |lines|
    decreases |lines| - j
  {
    if j == |lines| || Strip(lines[j]) == [] || Contains(lines[j], CueArrow) then j
    else CueEnd(lines, j + 1)
  }

  /** What one caption line adds to the cue text: its tag-free text and a space. */
  function CuePiece(raw: string): string
  {
    var clean := StripTags(Strip(raw));
    if clean == [] then [] else clean + " "
  }

  /** The accumulated caption text of lines `from` up to `to`. */
  function CueText(lines: seq<string>, from: nat, to: nat): string
    requires from <= to <= |lines|
  {
    if to == from then [] else CueText(lines, from, to - 1) + CuePiece(lines[to - 1])
  }

  /** The cues found from line `i` on, each with non-empty text. */
  function Cues(lines: seq<string>, i: nat): seq<Cue>
    requires i <= |lines|
    decreases |lines| - i
  {
    if i == |lines| then []
    else if Contains(Strip(lines[i]), CueArrow) then
      var k := CueEnd(lines, i + 1);
      var text := Strip(CueText(lines, i + 1, k));
      (if text != [] then [Cue(StartTime(Strip(lines[i])), text)] else []) + Cues(lines, k)
    else Cues(lines, i + 1)
  }

  /** Number of timing lines (lines containing `-->`) from line `i` on. */
  function TimingLines(lines: seq<string>, i: nat): nat
    requires i <= |lines|
    decreases |lines| - i
  {
    if i == |lines| then 0
    else (if Contains(Strip(lines[i]), CueArrow) then 1 else 0) + TimingLines(lines, i + 1)
  }

  // ---------------------------------------------------------------------
  // Transcript with timestamps: the parser

  /** `parse_vtt_with_timestamps`: one `[start] text` entry per cue whose
      caption text is not blank, entries separated by blank lines. */
  method ParseVttWithTimestamps(content: string) returns (r: string)
    ensures r == Join(RenderCues(Cues(SplitOn(content, '\n'), 0)), ParagraphBreak)
  {
    var lines := SplitOn(content, '\n');
    var parts := CueEntries(lines);
    r := Join(parts, ParagraphBreak);
  }

  /** The outer loop of `parse_vtt_with_timestamps`: a timing line opens a
      cue, whose body is read by the inner loop; other lines are passed over. */
  method CueEntries(lines: seq<string>) returns (parts: seq<string>)
    ensures parts == RenderCues(Cues(lines, 0))
  {
    parts := [];
    ghost var emitted: seq<Cue> := [];
    var i: nat := 0;
    while i < |lines|
      invariant i <= |lines|
      invariant emitted + Cues(lines, i) == Cues(lines, 0)
      invariant parts == RenderCues(emitted)
      decreases |lines| - i
    {
      var line := Strip(lines[i]);
      if Contains(line, CueArrow) {
        var startTime := Strip(PrefixBefore(line, TimingSeparator));
        ghost var timing := i;
        var subtitleText;
        subtitleText, i := CueBody(lines, i + 1);
        CuesAtTiming(lines, timing);
        if Strip(subtitleText) != [] {
          parts := parts + ["[" + startTime + "] " + Strip(subtitleText)];
          EmitCue(emitted, Cue(startTime, Strip(subtitleText)), Cues(lines, i));
          emitted := emitted + [Cue(startTime, Strip(subtitleText))];
        } else {
          assert CueAt(lines, timing) == [];
          assert [] + Cues(lines, i) == Cues(lines, i);
        }
      } else {
        CuesAtOther(lines, i);
        i := i + 1;
      }
    }
    assert emitted + [] == emitted;
  }

  lemma CuesAtOther(lines: seq<string>, i: nat)
    requires i < |lines| && !Contains(Strip(lines[i]), CueArrow)
    ensures Cues(lines, i) == Cues(lines, i + 1)
  {
  }

  lemma EmitCue(emitted: seq<Cue>, c: Cue, rest: seq<Cue>)
    ensures (emitted + [c]) + rest == emitted + ([c] + rest)
    ensures RenderCues(emitted + [c]) == RenderCues(emitted) + [RenderCue(c)]
  {
  }

  /** The inner loop of `parse_vtt_with_timestamps`: the caption lines of a
      cue, from line `from` up to a blank line, a timing line or the end. */
  method CueBody(lines: seq<string>, from: nat) returns (subtitleText: string, i: nat)
    requires from <= |lines|
    ensures i == CueEnd(lines, from)
    ensures subtitleText == CueText(lines, from, i)
  {
    i := from;
    subtitleText := "";
    while i < |lines| && Strip(lines[i]) != [] && !Contains(lines[i], CueArrow)
      invariant from <= i <= |lines|
      invariant CueEnd(lines, i) == CueEnd(lines, from)
      invariant subtitleText == CueText(lines, from, i)
      decreases |lines| - i
    {
      CueStep(lines, from, i, subtitleText);
      subtitleText := subtitleText + CuePiece(lines[i]);
      i := i + 1;
    }
  }

  /** One caption line of a cue body consumed. */
  lemma CueStep(lines: seq<string>, from: nat, i: nat, text: string)
    requires from <= i < |lines|
    requires Strip(lines[i]) != [] && !Contains(lines[i], CueArrow)
    requires text == CueText(lines, from, i)
    ensures CueEnd(lines, i) == CueEnd(lines, i + 1)
    ensures CueText(lines, from, i + 1) == text + CuePiece(lines[i])
  {
    var clean := StripTags(Strip(lines[i]));
    if clean != [] {
      assert text + clean + " " == text + (clean + " ");
    } else {
      assert text + [] == text;
    }
  }

  // ---------------------------------------------------------------------
  // Transcript with timestamps: properties


  lemma {:induction false} TimingLinesMonotone(lines: seq<string>, i: nat, k: nat)
    requires i <= k <= |lines|
    ensures TimingLines(lines, k) <= TimingLines(lines, i)
    decreases k - i
  {
    if i < k {
      TimingLinesMonotone(lines, i + 1, k);
    }
  }

  /** A cue is emitted only for a timing line: there are never more entries
      than lines containing `-->`. */
  lemma {:induction false} CuesBound(lines: seq<string>, i: nat)
    requires i <= |lines|
    ensures |Cues(lines, i)| <= TimingLines(lines, i)
    decreases |lines| - i
  {
    if i < |lines| {
      if Contains(Strip(lines[i]), CueArrow) {
        var k := CueEnd(lines, i + 1);
        CuesBound(lines, k);
        TimingLinesMonotone(lines, i + 1, k);
      } else {
        CuesBound(lines, i + 1);
      }
    }
  }

  /** Non-empty and without whitespace at either end. */
  predicate Trimmed(t: string)
  {
    t != [] && !IsSpace(t[0]) && !IsSpace(t[|t| - 1])
  }

  /** The cue that a timing line at `i` opens, if its text is not blank. */
  function CueAt(lines: seq<string>, i: nat): seq<Cue>
    requires i < |lines|
  {
    var text := Strip(CueText(lines, i + 1, CueEnd(lines, i + 1)));
    if text != [] then [Cue(StartTime(Strip(lines[i])), text)] else []
  }

  lemma CuesAtTiming(lines: seq<string>, i: nat)
    requires i < |lines| && Contains(Strip(lines[i]), CueArrow)
    ensures Cues(lines, i) == CueAt(lines, i) + Cues(lines, CueEnd(lines, i + 1))
  {
  }

  lemma CueAtTrimmed(lines: seq<string>, i: nat)
    requires i < |lines|
    ensures forall n :: 0 <= n < |CueAt(lines, i)| ==> Trimmed(CueAt(lines, i)[n].text)
  {
    StripShape(CueText(lines, i + 1, CueEnd(lines, i + 1)));
  }

  /** Every entry's text is non-empty and trimmed of surrounding whitespace. */
  lemma {:induction false} CueTextsTrimmed(lines: seq<string>, i: nat)
    requires i <= |lines|
    ensures forall n :: 0 <= n < |Cues(lines, i)| ==> Trimmed(Cues(lines, i)[n].text)
    decreases |lines| - i
  {
    if i < |lines| {
      if Contains(Strip(lines[i]), CueArrow) {
        var k := CueEnd(lines, i + 1);
        CuesAtTiming(lines, i);
        CueAtTrimmed(lines, i);
        CueTextsTrimmed(lines, k);
        var head: seq<Cue>, tail: seq<Cue> := CueAt(lines, i), Cues(lines, k);
        forall n | 0 <= n < |head + tail|
          ensures Trimmed((head + tail)[n].text)
        {
          if n >= |head| {
            assert (head + tail)[n] == tail[n - |head|];
          }
        }
      } else {
        CueTextsTrimmed(lines, i + 1);
      }
    }
  }

  // ---------------------------------------------------------------------
  // Video id

  /** The length of the run of `c` that `s` starts with. */
  function LeadingRun(s: string, c: char): (k: nat)
    ensures k <= |s| && (k < |s| ==> s[k] != c)
    ensures forall i :: 0 <= i < k ==> s[i] == c
    decreases |s|
  {
    if s != [] && s[0] == c then 1 + LeadingRun(s[1..], c) else 0
  }

  /** `s.strip("/")`: the part of `s` between its leading and its trailing
      run of `/`. */
  function StripSlashes(s: string): (r: string)
    ensures LeadingRun(s, '/') + |r| <= |s|
    ensures r == s[LeadingRun(s, '/')..LeadingRun(s, '/') + |r|]
    ensures forall i :: LeadingRun(s, '/') + |r| <= i < |s| ==> s[i] == '/'
    ensures r == [] || (r[0] != '/' && r[|r| - 1] != '/')
  {
    var k := LeadingRun(s, '/');
    StripRightChar(s[k..], '/')
  }

  /** `extract_video_id` over a URL already split into its network location,
      its path and its parsed query (`parse_qs`): the first `v` parameter of
      a youtube.com URL, the path stripped of `/` of a youtu.be URL,
      otherwise nothing. */
  function ExtractVideoId(netloc: string, path: string, query: map<string, seq<string>>): (id: Option<string>)
    ensures id.Some? ==> Contains(netloc, "youtube.com") || Contains(netloc, "youtu.be")
    ensures Contains(netloc, "youtube.com") ==> (id.Some? <==> "v" in query && query["v"] != [])
    ensures Contains(netloc, "youtube.com") && id.Some? ==> id.value == query["v"][0]
    ensures !Contains(netloc, "youtube.com") && Contains(netloc, "youtu.be") ==>
      id == Some(StripSlashes(path))
  {
    if Contains(netloc, "youtube.com") then
      (if "v" in query && query["v"] != [] then Some(query["v"][0]) else None)
    else if Contains(netloc, "youtu.be") then Some(StripSlashes(path))
    else None
  }
}
