/**
 * Timed lyrics: the two payload shapes served by the lyrics service (syllable-synced and
 * line-synced), their flattening into `TimedLine`s, and the "text at timestamp" lookup.
 */
module Lyrics {
  import opened Wrappers
  import opened Durations
  import opened Strings

  /** One syllable of a syllable-synced line. */
  datatype SyllableLyricsSyllable = SyllableLyricsSyllable(
    text: string,
    isPartOfWord: bool,  // continues the word of the previous syllable
    startTime: Duration,
    endTime: Duration)

  /** The lead vocals of a syllable-synced line; its timing is the line's timing. */
  datatype SyllableLyricsLead = SyllableLyricsLead(
    syllables: seq<SyllableLyricsSyllable>,
    startTime: Duration,
    endTime: Duration)

  datatype SyllableLyricsLine = SyllableLyricsLine(lineType: string, oppositeAligned: bool, lead: SyllableLyricsLead)

  datatype LineLyricsLine = LineLyricsLine(
    lineType: string,
    oppositeAligned: bool,
    text: string,
    startTime: Duration,
    endTime: Duration)

  /** The payload is tagged with one of the two synchronisation kinds. */
  datatype LyricsContent =
    | Syllable(syllableLines: seq<SyllableLyricsLine>)
    | Line(lines: seq<LineLyricsLine>)

  datatype Lyrics = Lyrics(startTime: Duration, endTime: Duration, content: LyricsContent)

  /** A line flattened for scheduling, whichever shape it came from. */
  datatype TimedLine = TimedLine(text: string, startTime: Duration, endTime: Duration)

  /** A closed interval of song time `[start, end]`. */
  datatype Span = Span(start: Duration, end: Duration)

  // ---------------------------------------------------------------------------
  // Word-aware joining of syllables

  /**
   * The text of a syllable-synced line, built syllable by syllable: a space goes before a
   * syllable exactly when something has been written already and the syllable starts a new word.
   */
  function JoinSyllables(syllables: seq<SyllableLyricsSyllable>): string
  {
    if |syllables| == 0 then ""
    else
      var built := JoinSyllables(syllables[..|syllables| - 1]);
      var syllable := syllables[|syllables| - 1];
      (if built != "" && !syllable.isPartOfWord then built + " " else built) + syllable.text
  }

  function SyllableTexts(syllables: seq<SyllableLyricsSyllable>): (r: seq<string>)
    ensures |r| == |syllables|
    ensures forall k :: 0 <= k < |syllables| ==> r[k] == syllables[k].text
  {
    seq(|syllables|, k requires 0 <= k < |syllables| => syllables[k].text)
  }

  /** The loop that builds a syllable-synced line's text in a growing string. */
  method BuildSyllableText(syllables: seq<SyllableLyricsSyllable>) returns (text: string)
    ensures text == JoinSyllables(syllables)
  {
    text := "";
    for k := 0 to |syllables|
      invariant text == JoinSyllables(syllables[..k])
    {
      var syllable := syllables[k];
      if text != "" && !syllable.isPartOfWord {
        text := text + " ";
      }
      text := text + syllable.text;
      assert syllables[..k + 1][..k] == syllables[..k];
    }
    assert syllables[..|syllables|] == syllables;
  }

  /** When every syllable continues the word, no space is inserted at all. */
  lemma {:induction false} JoinSyllablesWithinWord(syllables: seq<SyllableLyricsSyllable>)
    requires forall k :: 0 <= k < |syllables| ==> syllables[k].isPartOfWord
    ensures JoinSyllables(syllables) == Concat(SyllableTexts(syllables))
  {
    if |syllables| > 0 {
      var init := syllables[..|syllables| - 1];
      JoinSyllablesWithinWord(init);
      assert SyllableTexts(syllables)[..|syllables| - 1] == SyllableTexts(init);
    }
  }

  /** When every syllable is a non-empty word of its own, the line is its words joined by spaces. */
  lemma {:induction false} JoinSyllablesSeparateWords(syllables: seq<SyllableLyricsSyllable>)
    requires forall k :: 0 <= k < |syllables| ==> !syllables[k].isPartOfWord && syllables[k].text != ""
    ensures JoinSyllables(syllables) == Join(SyllableTexts(syllables), " ")
  {
    if |syllables| > 1 {
      var init := syllables[..|syllables| - 1];
      JoinSyllablesSeparateWords(init);
      assert SyllableTexts(syllables)[..|syllables| - 1] == SyllableTexts(init);
      var last := init[|init| - 1];
      assert JoinSyllables(init) == JoinSyllables(init[..|init| - 1]) + (if JoinSyllables(init[..|init| - 1]) != "" && !last.isPartOfWord then " " else "") + last.text;
      assert JoinSyllables(init) != "";
    } else if |syllables| == 1 {
      assert syllables[..0] == [];
    }
  }

  // ---------------------------------------------------------------------------
  // Nearest line to a timestamp

  predicate Contains(span: Span, target: Duration)
  {
    span.start <= target <= span.end
  }

  /** How far `target` lies outside `span`: zero inside it, else the gap to the nearer end. */
  function Distance(span: Span, target: Duration): (d: nat)
    ensures d == 0 <==> Contains(span, target)
    ensures target < span.start ==> d == span.start - target
    ensures !Contains(span, target) && span.start <= target ==> d == target - span.end
  {
    if span.start <= target && target <= span.end then 0
    else if target < span.start then span.start - target
    else target - span.end
  }

  /** `i` is the first index at which the distance to `target` is smallest. */
  ghost predicate IsNearest(spans: seq<Span>, target: Duration, i: nat)
  {
    && i < |spans|
    && (forall k :: 0 <= k < |spans| ==> Distance(spans[i], target) <= Distance(spans[k], target))
    && (forall k :: 0 <= k < i ==> Distance(spans[i], target) < Distance(spans[k], target))
  }

  /**
   * `min_by_key` over the distance: the first span of minimal distance, or None for no spans.
   * A span containing the target has distance zero, so it always wins.
   */
  function Nearest(spans: seq<Span>, target: Duration): (r: Option<nat>)
    ensures r.None? <==> |spans| == 0
    ensures r.Some? ==> IsNearest(spans, target, r.value)
    ensures r.Some? && (exists k :: 0 <= k < |spans| && Contains(spans[k], target)) ==> Contains(spans[r.value], target)
  {
    if |spans| == 0 then None
    else
      var last := |spans| - 1;
      match Nearest(spans[..last], target)
      case None => Some(0)
      case Some(j) =>
        if Distance(spans[last], target) < Distance(spans[j], target) then Some(last) else Some(j)
  }

  function LineSpans(lines: seq<LineLyricsLine>): (r: seq<Span>)
    ensures |r| == |lines|
    ensures forall k :: 0 <= k < |lines| ==> r[k] == Span(lines[k].startTime, lines[k].endTime)
  {
    seq(|lines|, k requires 0 <= k < |lines| => Span(lines[k].startTime, lines[k].endTime))
  }

  function LeadSpans(lines: seq<SyllableLyricsLine>): (r: seq<Span>)
    ensures |r| == |lines|
    ensures forall k :: 0 <= k < |lines| ==> r[k] == Span(lines[k].lead.startTime, lines[k].lead.endTime)
  {
    seq(|lines|, k requires 0 <= k < |lines| => Span(lines[k].lead.startTime, lines[k].lead.endTime))
  }

  function TimedSpans(lines: seq<TimedLine>): (r: seq<Span>)
    ensures |r| == |lines|
    ensures forall k :: 0 <= k < |lines| ==> r[k] == Span(lines[k].startTime, lines[k].endTime)
  {
    seq(|lines|, k requires 0 <= k < |lines| => Span(lines[k].startTime, lines[k].endTime))
  }

  /** The line containing or nearest to `target`, by index; ties go to the earlier line. */
  function FindNearestLine(lines: seq<LineLyricsLine>, target: Duration): (r: Option<nat>)
    ensures r.None? <==> |lines| == 0
    ensures r.Some? ==> r.value < |lines|
    ensures r.Some? ==> forall k :: 0 <= k < |lines| ==>
      Distance(Span(lines[r.value].startTime, lines[r.value].endTime), target)
        <= Distance(Span(lines[k].startTime, lines[k].endTime), target)
    ensures r.Some? ==> forall k :: 0 <= k < r.value ==>
      Distance(Span(lines[r.value].startTime, lines[r.value].endTime), target)
        < Distance(Span(lines[k].startTime, lines[k].endTime), target)
  {
    var r := Nearest(LineSpans(lines), target);
    assert r.Some? ==> IsNearest(LineSpans(lines), target, r.value);
    r
  }

  /** As `FindNearestLine`, measured against each line's lead timing. */
  function FindNearestSyllableLine(lines: seq<SyllableLyricsLine>, target: Duration): (r: Option<nat>)
    ensures r.None? <==> |lines| == 0
    ensures r.Some? ==> r.value < |lines|
    ensures r.Some? ==> forall k :: 0 <= k < |lines| ==>
      Distance(Span(lines[r.value].lead.startTime, lines[r.value].lead.endTime), target)
        <= Distance(Span(lines[k].lead.startTime, lines[k].lead.endTime), target)
    ensures r.Some? ==> forall k :: 0 <= k < r.value ==>
      Distance(Span(lines[r.value].lead.startTime, lines[r.value].lead.endTime), target)
        < Distance(Span(lines[k].lead.startTime, lines[k].lead.endTime), target)
  {
    var r := Nearest(LeadSpans(lines), target);
    assert r.Some? ==> IsNearest(LeadSpans(lines), target, r.value);
    r
  }

  // ---------------------------------------------------------------------------
  // Flattening and lookup

  /**
   * One `TimedLine` per input line, in input order (no sorting happens here). A line-synced
   * line is copied field by field; a syllable-synced line takes its text from its syllables
   * and its timing from its lead.
   */
  function GetTimedLines(lyrics: Lyrics): (r: seq<TimedLine>)
    ensures lyrics.content.Line? ==>
      var lines := lyrics.content.lines;
      && |r| == |lines|
      && forall k :: 0 <= k < |lines| ==>
           r[k] == TimedLine(lines[k].text, lines[k].startTime, lines[k].endTime)
    ensures lyrics.content.Syllable? ==>
      var lines := lyrics.content.syllableLines;
      && |r| == |lines|
      && forall k :: 0 <= k < |lines| ==>
           r[k] == TimedLine(JoinSyllables(lines[k].lead.syllables), lines[k].lead.startTime, lines[k].lead.endTime)
  {
    match lyrics.content
    case Syllable(lines) =>
      seq(|lines|, k requires 0 <= k < |lines| =>
        TimedLine(JoinSyllables(lines[k].lead.syllables), lines[k].lead.startTime, lines[k].lead.endTime))
    case Line(lines) =>
      seq(|lines|, k requires 0 <= k < |lines| => TimedLine(lines[k].text, lines[k].startTime, lines[k].endTime))
  }

  /**
   * The text of the line containing or nearest to `timestamp`. It is None exactly when there
   * are no lines, and otherwise it is the text of the flattened line at the nearest index.
   */
  function GetTextAt(lyrics: Lyrics, timestamp: Duration): (r: Option<string>)
    ensures r.None? <==> |GetTimedLines(lyrics)| == 0
    ensures r.Some? ==>
      var timed := GetTimedLines(lyrics);
      var i := Nearest(TimedSpans(timed), timestamp);
      i.Some? && r.value == timed[i.value].text
  {
    match lyrics.content
    case Syllable(lines) =>
      assert LeadSpans(lines) == TimedSpans(GetTimedLines(lyrics));
      (match FindNearestSyllableLine(lines, timestamp)
       case None => None
       case Some(i) => Some(JoinSyllables(lines[i].lead.syllables)))
    case Line(lines) =>
      assert LineSpans(lines) == TimedSpans(GetTimedLines(lyrics));
      (match FindNearestLine(lines, timestamp)
       case None => None
       case Some(i) => Some(lines[i].text))
  }

  /** A timestamp inside some line always reads the text of a line that contains it. */
  lemma TextAtPrefersContainingLine(lyrics: Lyrics, timestamp: Duration, k: nat)
    requires k < |GetTimedLines(lyrics)|
    requires Contains(TimedSpans(GetTimedLines(lyrics))[k], timestamp)
    ensures
      var timed := GetTimedLines(lyrics);
      exists i :: 0 <= i < |timed| && Contains(TimedSpans(timed)[i], timestamp)
        && GetTextAt(lyrics, timestamp) == Some(timed[i].text)
  {
    var timed := GetTimedLines(lyrics);
    var i := Nearest(TimedSpans(timed), timestamp);
    assert Contains(TimedSpans(timed)[i.value], timestamp);
  }
}
