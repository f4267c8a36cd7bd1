/**
 * The lookahead schedule as values: which lyric lines are still to come, the greedy plan that
 * turns them into status updates no closer together than the rate budget allows, and what
 * that plan guarantees.
 */
module Schedule {
  import opened Durations
  import opened Strings
  import opened Lyrics

  /** Window / maximum updates, rounded up: 10 s / 3. */
  const MinUpdateInterval: Duration := 3334 * Millisecond
  /** Put between the texts of lines that share one update. */
  const BatchSeparator: string := ". "

  /** One planned status update, at a song time. */
  datatype ScheduledUpdate = ScheduledUpdate(displayTime: Duration, text: string)

  function Texts(lines: seq<TimedLine>): (r: seq<string>)
    ensures |r| == |lines|
    ensures forall k :: 0 <= k < |lines| ==> r[k] == lines[k].text
  {
    seq(|lines|, k requires 0 <= k < |lines| => lines[k].text)
  }

  function UpdateTexts(updates: seq<ScheduledUpdate>): (r: seq<string>)
    ensures |r| == |updates|
    ensures forall k :: 0 <= k < |updates| ==> r[k] == updates[k].text
  {
    seq(|updates|, k requires 0 <= k < |updates| => updates[k].text)
  }

  // ---------------------------------------------------------------------------
  // Upcoming lines: unfinished ones, stably sorted by start time

  /** The lines that have not ended at `position`, in their original order. */
  function Unfinished(lines: seq<TimedLine>, position: Duration): (r: seq<TimedLine>)
    ensures |r| <= |lines|
    ensures forall k :: 0 <= k < |r| ==> r[k].endTime > position
    ensures |r| == 0 <==> forall k :: 0 <= k < |lines| ==> lines[k].endTime <= position
  {
    if |lines| == 0 then []
    else
      var last := lines[|lines| - 1];
      var init := Unfinished(lines[..|lines| - 1], position);
      assert forall k :: 0 <= k < |lines| - 1 ==> lines[..|lines| - 1][k] == lines[k];
      if last.endTime > position then init + [last] else init
  }

  /** Every line kept is an input line, and every input line that has not ended is kept. */
  lemma {:induction false} UnfinishedMembers(lines: seq<TimedLine>, position: Duration)
    ensures forall k :: 0 <= k < |Unfinished(lines, position)| ==> Unfinished(lines, position)[k] in lines
    ensures forall k :: 0 <= k < |lines| && lines[k].endTime > position ==> lines[k] in Unfinished(lines, position)
  {
    if |lines| > 0 {
      var init := lines[..|lines| - 1];
      UnfinishedMembers(init, position);
      assert lines == init + [lines[|lines| - 1]];
      forall k | 0 <= k < |lines| - 1 ensures lines[k] == init[k] { }
    }
  }

  /** Filtering a concatenation filters each part: the filter keeps input order and multiplicity. */
  lemma {:induction false} UnfinishedAppend(a: seq<TimedLine>, b: seq<TimedLine>, position: Duration)
    ensures Unfinished(a + b, position) == Unfinished(a, position) + Unfinished(b, position)
    decreases |b|
  {
    if |b| == 0 {
      assert a + b == a;
    } else {
      var init, last := b[..|b| - 1], b[|b| - 1];
      var kept := if last.endTime > position then [last] else [];
      UnfinishedAppend(a, init, position);
      assert b == init + [last];
      UnfinishedSnoc(init, last, position);
      assert a + b == (a + init) + [last];
      UnfinishedSnoc(a + init, last, position);
      var ua, ui := Unfinished(a, position), Unfinished(init, position);
      assert Unfinished(a + b, position) == (ua + ui) + kept;
      assert Unfinished(b, position) == ui + kept;
      assert (ua + ui) + kept == ua + (ui + kept);
    }
  }

  /** One more line at the end is kept at the end exactly when it has not ended. */
  lemma UnfinishedSnoc(lines: seq<TimedLine>, line: TimedLine, position: Duration)
    ensures Unfinished(lines + [line], position)
      == Unfinished(lines, position) + (if line.endTime > position then [line] else [])
  {
    assert (lines + [line])[..|lines|] == lines;
  }

  /** A single line is kept exactly when it has not ended. */
  lemma UnfinishedSingle(line: TimedLine, position: Duration)
    ensures Unfinished([line], position) == if line.endTime > position then [line] else []
  {
    UnfinishedSnoc([], line, position);
    assert [] + [line] == [line];
  }

  ghost predicate SortedByStart(lines: seq<TimedLine>)
  {
    forall i, j :: 0 <= i < j < |lines| ==> lines[i].startTime <= lines[j].startTime
  }

  /** Puts `line` after every line starting no later than it, so equal starts keep their order. */
  function InsertByStart(line: TimedLine, sorted: seq<TimedLine>): (r: seq<TimedLine>)
    requires SortedByStart(sorted)
    ensures SortedByStart(r)
    ensures multiset(r) == multiset(sorted) + multiset{line}
    ensures |r| == |sorted| + 1
    ensures r[0] == line || (|sorted| > 0 && r[0] == sorted[0])
  {
    if |sorted| == 0 then [line]
    else if line.startTime < sorted[0].startTime then [line] + sorted
    else
      var rest := InsertByStart(line, sorted[1..]);
      assert sorted == [sorted[0]] + sorted[1..];
      assert sorted[0].startTime <= rest[0].startTime;
      assert forall k :: 0 <= k < |rest| ==> rest[0].startTime <= rest[k].startTime;
      [sorted[0]] + rest
  }

  /** A stable sort by start time (the standard library's `sort_by_key`). */
  function SortByStart(lines: seq<TimedLine>): (r: seq<TimedLine>)
    ensures SortedByStart(r)
    ensures multiset(r) == multiset(lines)
  {
    if |lines| == 0 then []
    else
      assert lines == lines[..|lines| - 1] + [lines[|lines| - 1]];
      InsertByStart(lines[|lines| - 1], SortByStart(lines[..|lines| - 1]))
  }

  /** Lines already in start order come out of the sort unchanged. */
  lemma {:induction false} SortByStartKeepsSorted(lines: seq<TimedLine>)
    requires SortedByStart(lines)
    ensures SortByStart(lines) == lines
  {
    if |lines| > 0 {
      var init := lines[..|lines| - 1];
      SortByStartKeepsSorted(init);
      InsertAfterNoLater(lines[|lines| - 1], init);
      assert init + [lines[|lines| - 1]] == lines;
    }
  }

  lemma {:induction false} InsertAfterNoLater(line: TimedLine, sorted: seq<TimedLine>)
    requires SortedByStart(sorted)
    requires forall k :: 0 <= k < |sorted| ==> sorted[k].startTime <= line.startTime
    ensures InsertByStart(line, sorted) == sorted + [line]
  {
    if |sorted| > 0 {
      InsertAfterNoLater(line, sorted[1..]);
      assert [sorted[0]] + (sorted[1..] + [line]) == sorted + [line];
    }
  }

  /** What the scheduler plans from: unfinished lines in start order. */
  function Upcoming(lines: seq<TimedLine>, position: Duration): (r: seq<TimedLine>)
    ensures SortedByStart(r)
    ensures multiset(r) == multiset(Unfinished(lines, position))
    ensures forall k :: 0 <= k < |r| ==> r[k].endTime > position
    ensures |r| == 0 <==> forall k :: 0 <= k < |lines| ==> lines[k].endTime <= position
  {
    var unfinished := Unfinished(lines, position);
    var r := SortByStart(unfinished);
    RearrangedUnfinished(r, unfinished, position);
    r
  }

  /** A rearrangement of unfinished lines is as long and holds only unfinished lines. */
  lemma RearrangedUnfinished(r: seq<TimedLine>, unfinished: seq<TimedLine>, position: Duration)
    requires multiset(r) == multiset(unfinished)
    requires forall k :: 0 <= k < |unfinished| ==> unfinished[k].endTime > position
    ensures |r| == |unfinished|
    ensures forall k :: 0 <= k < |r| ==> r[k].endTime > position
  {
    assert |multiset(r)| == |multiset(unfinished)|;
    forall k | 0 <= k < |r| ensures r[k].endTime > position {
      assert r[k] in multiset(unfinished);
    }
  }

  // ---------------------------------------------------------------------------
  // The greedy plan

  /** The end of a merge group: the first index from `j` on whose line starts at or after `nextAvailable`. */
  function BatchEnd(upcoming: seq<TimedLine>, j: nat, nextAvailable: Duration): (r: nat)
    requires j <= |upcoming|
    ensures j <= r <= |upcoming|
    ensures forall k :: j <= k < r ==> upcoming[k].startTime < nextAvailable
    ensures r < |upcoming| ==> upcoming[r].startTime >= nextAvailable
    decreases |upcoming| - j
  {
    if j < |upcoming| && upcoming[j].startTime < nextAvailable then BatchEnd(upcoming, j + 1, nextAvailable) else j
  }

  /** The texts of `upcoming[i..j]` joined by the separator: what one batch contributes. */
  function BatchText(upcoming: seq<TimedLine>, i: nat, j: nat): string
    requires i <= j <= |upcoming|
  {
    Join(Texts(upcoming[i..j]), BatchSeparator)
  }

  /** The last planned update with `batch` appended to its text after the separator. */
  function MergeLast(planned: seq<ScheduledUpdate>, batch: string): (r: seq<ScheduledUpdate>)
    requires |planned| > 0
    ensures |r| == |planned| && r[..|r| - 1] == planned[..|planned| - 1]
    ensures forall k :: 0 <= k < |r| ==> r[k].displayTime == planned[k].displayTime
    ensures r[|r| - 1].text == planned[|planned| - 1].text + BatchSeparator + batch
  {
    var prev := planned[|planned| - 1];
    planned[..|planned| - 1] + [prev.(text := prev.text + BatchSeparator + batch)]
  }

  /**
   * Where the scheduling loop stands: the index of the next upcoming line, the earliest song
   * time at which a fresh update may go out, and the updates planned so far.
   */
  datatype Cursor = Cursor(next: nat, nextAvailable: Duration, planned: seq<ScheduledUpdate>)

  /**
   * One pass of the loop. A line that can get its own update gets one at its start time;
   * otherwise it and every following line starting before `nextAvailable` are appended to the
   * last update, or seed the first one. Every pass consumes at least one line.
   */
  function Step(upcoming: seq<TimedLine>, c: Cursor): (r: Cursor)
    requires c.next < |upcoming|
    ensures c.next < r.next <= |upcoming|
  {
    var line := upcoming[c.next];
    if c.nextAvailable <= line.startTime then
      Cursor(c.next + 1, line.startTime + MinUpdateInterval, c.planned + [ScheduledUpdate(line.startTime, line.text)])
    else
      var batchEnd := BatchEnd(upcoming, c.next + 1, c.nextAvailable);
      var batch := BatchText(upcoming, c.next, batchEnd);
      if |c.planned| > 0 then
        Cursor(batchEnd, c.nextAvailable, MergeLast(c.planned, batch))
      else
        Cursor(batchEnd, line.startTime + MinUpdateInterval, [ScheduledUpdate(line.startTime, batch)])
  }

  /** The plan the loop finishes with, from cursor `c` on. */
  function PlanFrom(upcoming: seq<TimedLine>, c: Cursor): (r: seq<ScheduledUpdate>)
    requires c.next <= |upcoming|
    // updates already planned keep their display times, and all but the last keep their text
    ensures |r| >= |c.planned|
    ensures forall k :: 0 <= k < |c.planned| ==> r[k].displayTime == c.planned[k].displayTime
    ensures forall k :: 0 <= k < |c.planned| - 1 ==> r[k] == c.planned[k]
    // with nothing planned yet, the first update goes out at the next line's start
    ensures |c.planned| == 0 && c.next < |upcoming| ==> |r| > 0 && r[0].displayTime == upcoming[c.next].startTime
    decreases |upcoming| - c.next
  {
    if c.next == |upcoming| then c.planned
    else
      var c' := Step(upcoming, c);
      StepKeepsEarlier(upcoming, c);
      PlanFrom(upcoming, c')
  }

  /** A pass keeps what was planned before the last update, and the display times of all. */
  lemma StepKeepsEarlier(upcoming: seq<TimedLine>, c: Cursor)
    requires c.next < |upcoming|
    ensures var r := Step(upcoming, c).planned;
      && |r| >= |c.planned| && (|c.planned| == 0 ==> |r| > 0 && r[0].displayTime == upcoming[c.next].startTime)
      && (forall k :: 0 <= k < |c.planned| ==> r[k].displayTime == c.planned[k].displayTime)
      && (forall k :: 0 <= k < |c.planned| - 1 ==> r[k] == c.planned[k])
  {
    var r := Step(upcoming, c).planned;
    var line := upcoming[c.next];
    if c.nextAvailable > line.startTime && |c.planned| > 0 {
      var n := |c.planned|;
      forall k | 0 <= k < n - 1 ensures r[k] == c.planned[k] {
        assert r[k] == r[..n - 1][k];
      }
    }
  }

  /** The whole plan for `upcoming` as seen from song position `position`. */
  function Plan(upcoming: seq<TimedLine>, position: Duration): (r: seq<ScheduledUpdate>)
    // the first update is shown when the first upcoming line starts, even if that is already past
    ensures |upcoming| > 0 ==> |r| > 0 && r[0].displayTime == upcoming[0].startTime
  {
    PlanFrom(upcoming, Cursor(0, position, []))
  }

  // ---------------------------------------------------------------------------
  // Spacing: consecutive updates are at least MinUpdateInterval apart

  ghost predicate Spaced(updates: seq<ScheduledUpdate>)
  {
    forall k :: 0 < k < |updates| ==> updates[k - 1].displayTime + MinUpdateInterval <= updates[k].displayTime
  }

  /** The loop's spacing invariant: the plan so far is spaced and the budget frees up one interval after its last update. */
  ghost predicate SpacedCursor(c: Cursor)
  {
    && Spaced(c.planned)
    && (|c.planned| > 0 ==> c.nextAvailable == c.planned[|c.planned| - 1].displayTime + MinUpdateInterval)
  }

  lemma SpacedAppend(planned: seq<ScheduledUpdate>, update: ScheduledUpdate)
    requires Spaced(planned)
    requires |planned| > 0 ==> planned[|planned| - 1].displayTime + MinUpdateInterval <= update.displayTime
    ensures Spaced(planned + [update])
  {
    var r := planned + [update];
    forall k | 0 < k < |r|
      ensures r[k - 1].displayTime + MinUpdateInterval <= r[k].displayTime
    {
      if k < |planned| {
        assert r[k - 1] == planned[k - 1] && r[k] == planned[k];
      }
    }
  }

  lemma SpacedMergeLast(planned: seq<ScheduledUpdate>, batch: string)
    requires Spaced(planned) && |planned| > 0
    ensures Spaced(MergeLast(planned, batch))
  {
    var r := MergeLast(planned, batch);
    forall k | 0 < k < |r|
      ensures r[k - 1].displayTime + MinUpdateInterval <= r[k].displayTime
    {
      assert r[k - 1].displayTime == planned[k - 1].displayTime;
      assert r[k].displayTime == planned[k].displayTime;
    }
  }

  lemma StepSpaced(upcoming: seq<TimedLine>, c: Cursor)
    requires c.next < |upcoming| && SpacedCursor(c)
    ensures SpacedCursor(Step(upcoming, c))
  {
    var line := upcoming[c.next];
    var r := Step(upcoming, c);
    if c.nextAvailable <= line.startTime {
      var update := ScheduledUpdate(line.startTime, line.text);
      assert r == Cursor(c.next + 1, line.startTime + MinUpdateInterval, c.planned + [update]);
      SpacedAppend(c.planned, update);
    } else if |c.planned| > 0 {
      var batchEnd := BatchEnd(upcoming, c.next + 1, c.nextAvailable);
      var batch := BatchText(upcoming, c.next, batchEnd);
      assert r == Cursor(batchEnd, c.nextAvailable, MergeLast(c.planned, batch));
      SpacedMergeLast(c.planned, batch);
    } else {
      assert |r.planned| == 1;
    }
  }

  lemma {:induction false} PlanFromSpaced(upcoming: seq<TimedLine>, c: Cursor)
    requires c.next <= |upcoming| && SpacedCursor(c)
    ensures Spaced(PlanFrom(upcoming, c))
    decreases |upcoming| - c.next
  {
    if c.next < |upcoming| {
      StepSpaced(upcoming, c);
      PlanFromSpaced(upcoming, Step(upcoming, c));
    }
  }

  /** Every planned update comes at least `MinUpdateInterval` after the one before it. */
  lemma PlanSpaced(upcoming: seq<TimedLine>, position: Duration)
    ensures Spaced(Plan(upcoming, position))
  {
    PlanFromSpaced(upcoming, Cursor(0, position, []));
  }

  // ---------------------------------------------------------------------------
  // Grouping: every upcoming line lands in exactly one update, in order

  function GroupEnd(cuts: seq<nat>, k: nat, n: nat): nat
    requires k < |cuts|
  {
    if k + 1 < |cuts| then cuts[k + 1] else n
  }

  /**
   * The updates split `upcoming[..n]` into consecutive non-empty groups starting at `cuts`:
   * update k is shown at the start time of line `cuts[k]` and carries the texts of its group
   * joined by the separator.
   */
  ghost predicate Grouped(upcoming: seq<TimedLine>, n: nat, updates: seq<ScheduledUpdate>, cuts: seq<nat>)
  {
    && n <= |upcoming|
    && |cuts| == |updates|
    && (n == 0 <==> |cuts| == 0)
    && (|cuts| > 0 ==> cuts[0] == 0)
    && (forall j, k :: 0 <= j < k < |cuts| ==> cuts[j] < cuts[k])
    && (forall k :: 0 <= k < |cuts| ==> cuts[k] < n)
    && (forall k {:trigger GroupEnd(cuts, k, n)} :: 0 <= k < |cuts| ==> cuts[k] < GroupEnd(cuts, k, n) <= n)
    && (forall k {:trigger updates[k]} :: 0 <= k < |cuts| ==>
          updates[k] == ScheduledUpdate(upcoming[cuts[k]].startTime, BatchText(upcoming, cuts[k], GroupEnd(cuts, k, n))))
  }

  /** A fresh update for line `i` opens a new group of one line. */
  lemma GroupedPush(upcoming: seq<TimedLine>, i: nat, planned: seq<ScheduledUpdate>, cuts: seq<nat>)
    requires i < |upcoming|
    requires Grouped(upcoming, i, planned, cuts)
    ensures Grouped(upcoming, i + 1, planned + [ScheduledUpdate(upcoming[i].startTime, upcoming[i].text)], cuts + [i])
  {
    var line := upcoming[i];
    var planned' := planned + [ScheduledUpdate(line.startTime, line.text)];
    var cuts' := cuts + [i];
    assert Texts(upcoming[i..i + 1]) == [line.text];
    forall k | 0 <= k < |cuts'|
      ensures cuts'[k] < GroupEnd(cuts', k, i + 1) <= i + 1
      ensures planned'[k] == ScheduledUpdate(upcoming[cuts'[k]].startTime, BatchText(upcoming, cuts'[k], GroupEnd(cuts', k, i + 1)))
    {
      if k < |cuts| {
        assert GroupEnd(cuts', k, i + 1) == GroupEnd(cuts, k, i);
      }
    }
  }

  /** Joining the texts of two adjacent runs of lines joins the two runs' joined texts. */
  lemma BatchTextAppend(upcoming: seq<TimedLine>, c: nat, i: nat, j: nat)
    requires c < i < j <= |upcoming|
    ensures BatchText(upcoming, c, j) == BatchText(upcoming, c, i) + BatchSeparator + BatchText(upcoming, i, j)
  {
    assert upcoming[c..j] == upcoming[c..i] + upcoming[i..j];
    assert Texts(upcoming[c..j]) == Texts(upcoming[c..i]) + Texts(upcoming[i..j]);
    JoinAppend(Texts(upcoming[c..i]), Texts(upcoming[i..j]), BatchSeparator);
  }

  /** Lines `i..batchEnd` appended to the last update extend the last group. */
  lemma GroupedMerge(upcoming: seq<TimedLine>, i: nat, batchEnd: nat, planned: seq<ScheduledUpdate>, cuts: seq<nat>)
    requires i < batchEnd <= |upcoming|
    requires |planned| > 0
    requires Grouped(upcoming, i, planned, cuts)
    ensures Grouped(upcoming, batchEnd, MergeLast(planned, BatchText(upcoming, i, batchEnd)), cuts)
  {
    var last := |planned| - 1;
    var planned' := MergeLast(planned, BatchText(upcoming, i, batchEnd));
    var c := cuts[last];
    assert GroupEnd(cuts, last, i) == i;
    BatchTextAppend(upcoming, c, i, batchEnd);
    forall k | 0 <= k < |cuts|
      ensures cuts[k] < GroupEnd(cuts, k, batchEnd) <= batchEnd
      ensures planned'[k] == ScheduledUpdate(upcoming[cuts[k]].startTime, BatchText(upcoming, cuts[k], GroupEnd(cuts, k, batchEnd)))
    {
      if k < last {
        assert GroupEnd(cuts, k, batchEnd) == GroupEnd(cuts, k, i);
        assert planned'[k] == planned[k] by {
          assert planned'[k] == planned'[..last][k];
        }
      } else {
        assert GroupEnd(cuts, k, batchEnd) == batchEnd;
        assert planned'[k].text == planned[last].text + BatchSeparator + BatchText(upcoming, i, batchEnd);
      }
    }
  }

  /** With nothing planned yet, lines `0..batchEnd` seed the first update. */
  lemma GroupedSeed(upcoming: seq<TimedLine>, batchEnd: nat)
    requires 0 < batchEnd <= |upcoming|
    ensures Grouped(upcoming, batchEnd, [ScheduledUpdate(upcoming[0].startTime, BatchText(upcoming, 0, batchEnd))], [0])
  {
  }

  /** One pass of the loop keeps the planned updates a grouping of the lines consumed so far. */
  lemma StepGrouped(upcoming: seq<TimedLine>, c: Cursor, cuts: seq<nat>) returns (cuts': seq<nat>)
    requires c.next < |upcoming|
    requires Grouped(upcoming, c.next, c.planned, cuts)
    ensures Grouped(upcoming, Step(upcoming, c).next, Step(upcoming, c).planned, cuts')
  {
    var line := upcoming[c.next];
    var r := Step(upcoming, c);
    if c.nextAvailable <= line.startTime {
      assert r.next == c.next + 1 && r.planned == c.planned + [ScheduledUpdate(line.startTime, line.text)];
      GroupedPush(upcoming, c.next, c.planned, cuts);
      cuts' := cuts + [c.next];
    } else {
      cuts' := BatchGrouped(upcoming, c, cuts);
    }
  }

  /** The merging branch of `StepGrouped`. */
  lemma BatchGrouped(upcoming: seq<TimedLine>, c: Cursor, cuts: seq<nat>) returns (cuts': seq<nat>)
    requires c.next < |upcoming| && upcoming[c.next].startTime < c.nextAvailable
    requires Grouped(upcoming, c.next, c.planned, cuts)
    ensures Grouped(upcoming, Step(upcoming, c).next, Step(upcoming, c).planned, cuts')
  {
    var r := Step(upcoming, c);
    var batchEnd := BatchEnd(upcoming, c.next + 1, c.nextAvailable);
    if |c.planned| > 0 {
      assert r.next == batchEnd && r.planned == MergeLast(c.planned, BatchText(upcoming, c.next, batchEnd));
      GroupedMerge(upcoming, c.next, batchEnd, c.planned, cuts);
      cuts' := cuts;
    } else {
      assert c.next == 0;
      assert r.next == batchEnd && r.planned == [ScheduledUpdate(upcoming[0].startTime, BatchText(upcoming, 0, batchEnd))];
      GroupedSeed(upcoming, batchEnd);
      cuts' := [0];
    }
  }

  lemma {:induction false} PlanFromGrouped(upcoming: seq<TimedLine>, c: Cursor, cuts: seq<nat>) returns (allCuts: seq<nat>)
    requires c.next <= |upcoming|
    requires Grouped(upcoming, c.next, c.planned, cuts)
    ensures Grouped(upcoming, |upcoming|, PlanFrom(upcoming, c), allCuts)
    decreases |upcoming| - c.next
  {
    if c.next == |upcoming| {
      return cuts;
    }
    var cuts' := StepGrouped(upcoming, c, cuts);
    allCuts := PlanFromGrouped(upcoming, Step(upcoming, c), cuts');
  }

  /** The plan splits the upcoming lines into consecutive groups, one per update. */
  lemma PlanGroupsLines(upcoming: seq<TimedLine>, position: Duration)
    ensures exists cuts :: Grouped(upcoming, |upcoming|, Plan(upcoming, position), cuts)
  {
    var cuts := PlanFromGrouped(upcoming, Cursor(0, position, []), []);
    assert Grouped(upcoming, |upcoming|, Plan(upcoming, position), cuts);
  }

  /** Dropping the last update leaves a grouping of the lines before the last group. */
  lemma GroupedInit(upcoming: seq<TimedLine>, n: nat, updates: seq<ScheduledUpdate>, cuts: seq<nat>)
    requires Grouped(upcoming, n, updates, cuts)
    requires |updates| > 1
    ensures Grouped(upcoming, cuts[|cuts| - 1], updates[..|updates| - 1], cuts[..|cuts| - 1])
  {
    var last := |updates| - 1;
    var c := cuts[last];
    assert GroupEnd(cuts, last - 1, n) == c;
    forall k | 0 <= k < last
      ensures GroupEnd(cuts[..last], k, c) == GroupEnd(cuts, k, n)
    {
    }
  }

  /** The last update carries the texts of the lines from the last cut to `n`. */
  lemma GroupedLast(upcoming: seq<TimedLine>, n: nat, updates: seq<ScheduledUpdate>, cuts: seq<nat>)
    requires Grouped(upcoming, n, updates, cuts)
    requires |updates| > 0
    ensures cuts[|cuts| - 1] < n <= |upcoming|
    ensures |cuts| > 1 ==> 0 < cuts[|cuts| - 1]
    ensures updates[|updates| - 1].text == BatchText(upcoming, cuts[|cuts| - 1], n)
  {
    var last := |updates| - 1;
    assert GroupEnd(cuts, last, n) == n;
    assert updates[last] == ScheduledUpdate(upcoming[cuts[last]].startTime, BatchText(upcoming, cuts[last], GroupEnd(cuts, last, n)));
    if last > 0 {
      assert cuts[0] < cuts[last];
    }
  }

  /** The texts of a prefix are the texts of a shorter prefix followed by those of the gap. */
  lemma TextsSplit(lines: seq<TimedLine>, c: nat, n: nat)
    requires c <= n <= |lines|
    ensures Texts(lines[..n]) == Texts(lines[..c]) + Texts(lines[c..n])
  {
    assert lines[..n] == lines[..c] + lines[c..n];
    var l, r := Texts(lines[..n]), Texts(lines[..c]) + Texts(lines[c..n]);
    forall k | 0 <= k < |l| ensures l[k] == r[k] {
      if k >= c {
        assert r[k] == Texts(lines[c..n])[k - c];
      }
    }
  }

  /**
   * If the updates before the last join to the lines before `c`, and the last update is the
   * group from `c` to `n`, all updates join to the lines before `n`.
   */
  lemma JoinLastGroup(upcoming: seq<TimedLine>, c: nat, n: nat, updates: seq<ScheduledUpdate>)
    requires 0 < c < n <= |upcoming| && |updates| > 1
    requires Join(UpdateTexts(updates[..|updates| - 1]), BatchSeparator) == Join(Texts(upcoming[..c]), BatchSeparator)
    requires updates[|updates| - 1].text == BatchText(upcoming, c, n)
    ensures Join(UpdateTexts(updates), BatchSeparator) == Join(Texts(upcoming[..n]), BatchSeparator)
  {
    var before := UpdateTexts(updates[..|updates| - 1]);
    assert UpdateTexts(updates) == before + [updates[|updates| - 1].text];
    TextsSplit(upcoming, c, n);
    JoinAppend(before, [updates[|updates| - 1].text], BatchSeparator);
    JoinAppend(Texts(upcoming[..c]), Texts(upcoming[c..n]), BatchSeparator);
  }

  lemma {:induction false} GroupedJoin(upcoming: seq<TimedLine>, n: nat, updates: seq<ScheduledUpdate>, cuts: seq<nat>)
    requires Grouped(upcoming, n, updates, cuts)
    ensures Join(UpdateTexts(updates), BatchSeparator) == Join(Texts(upcoming[..n]), BatchSeparator)
    ensures |updates| <= n
    decreases |updates|
  {
    if |updates| > 1 {
      var last := |updates| - 1;
      GroupedInit(upcoming, n, updates, cuts);
      GroupedLast(upcoming, n, updates, cuts);
      GroupedJoin(upcoming, cuts[last], updates[..last], cuts[..last]);
      JoinLastGroup(upcoming, cuts[last], n, updates);
    } else if |updates| == 1 {
      GroupedLast(upcoming, n, updates, cuts);
      assert upcoming[..n] == upcoming[0..n];
      assert UpdateTexts(updates) == [updates[0].text];
    }
  }

  /**
   * Nothing is lost, duplicated or reordered: the plan's texts joined with the separator are the
   * upcoming lines' texts joined with the separator, and there are never more updates than lines.
   */
  lemma PlanPreservesText(upcoming: seq<TimedLine>, position: Duration)
    ensures Join(UpdateTexts(Plan(upcoming, position)), BatchSeparator) == Join(Texts(upcoming), BatchSeparator)
    ensures |Plan(upcoming, position)| <= |upcoming|
    ensures |Plan(upcoming, position)| == 0 <==> |upcoming| == 0
  {
    var cuts := PlanFromGrouped(upcoming, Cursor(0, position, []), []);
    GroupedJoin(upcoming, |upcoming|, Plan(upcoming, position), cuts);
    assert upcoming[..|upcoming|] == upcoming;
  }

  // ---------------------------------------------------------------------------
  // No pressure: one update per line, on time

  /** The first line starts no earlier than the position and consecutive starts are far enough apart. */
  ghost predicate NoPressure(upcoming: seq<TimedLine>, position: Duration)
  {
    && (|upcoming| > 0 ==> position <= upcoming[0].startTime)
    && forall k :: 0 < k < |upcoming| ==> upcoming[k - 1].startTime + MinUpdateInterval <= upcoming[k].startTime
  }

  function OnePerLine(lines: seq<TimedLine>): (r: seq<ScheduledUpdate>)
    ensures |r| == |lines|
    ensures forall k :: 0 <= k < |lines| ==> r[k] == ScheduledUpdate(lines[k].startTime, lines[k].text)
  {
    seq(|lines|, k requires 0 <= k < |lines| => ScheduledUpdate(lines[k].startTime, lines[k].text))
  }

  lemma {:induction false} PlanFromWithoutPressure(upcoming: seq<TimedLine>, position: Duration, i: nat, nextAvailable: Duration)
    requires NoPressure(upcoming, position)
    requires i <= |upcoming|
    requires nextAvailable == if i == 0 then position else upcoming[i - 1].startTime + MinUpdateInterval
    ensures PlanFrom(upcoming, Cursor(i, nextAvailable, OnePerLine(upcoming[..i]))) == OnePerLine(upcoming)
    decreases |upcoming| - i
  {
    if i == |upcoming| {
      assert upcoming[..i] == upcoming;
    } else {
      var line := upcoming[i];
      assert nextAvailable <= line.startTime;
      assert OnePerLine(upcoming[..i]) + [ScheduledUpdate(line.startTime, line.text)] == OnePerLine(upcoming[..i + 1]);
      PlanFromWithoutPressure(upcoming, position, i + 1, line.startTime + MinUpdateInterval);
    }
  }

  /** Without pressure every line gets its own update, at its start time, with its own text. */
  lemma PlanWithoutPressure(upcoming: seq<TimedLine>, position: Duration)
    requires NoPressure(upcoming, position)
    ensures Plan(upcoming, position) == OnePerLine(upcoming)
  {
    assert OnePerLine(upcoming[..0]) == [];
    PlanFromWithoutPressure(upcoming, position, 0, position);
  }

  /** The example of three lines at 0 ms, 1000 ms and 1100 ms: one update "A. B. C" at 0 ms. */
  lemma MergedExample()
    ensures Plan([TimedLine("A", 0, 1000 * Millisecond),
                  TimedLine("B", 1000 * Millisecond, 2000 * Millisecond),
                  TimedLine("C", 1100 * Millisecond, 2100 * Millisecond)], 0)
         == [ScheduledUpdate(0, "A. B. C")]
  {
    var up := [TimedLine("A", 0, 1000 * Millisecond),
               TimedLine("B", 1000 * Millisecond, 2000 * Millisecond),
               TimedLine("C", 1100 * Millisecond, 2100 * Millisecond)];
    var first := Cursor(1, MinUpdateInterval, [ScheduledUpdate(0, "A")]);
    assert Step(up, Cursor(0, 0, [])) == first;
    assert BatchEnd(up, 2, MinUpdateInterval) == 3;
    assert up[1..3] == [up[1], up[2]];
    assert Texts(up[1..3]) == ["B", "C"];
    assert BatchText(up, 1, 3) == "B. C" by {
      assert ["B", "C"][..1] == ["B"];
    }
    assert "A" + BatchSeparator + "B. C" == "A. B. C";
    var done := Cursor(3, MinUpdateInterval, [ScheduledUpdate(0, "A. B. C")]);
    assert Step(up, first) == done;
    assert PlanFrom(up, done) == [ScheduledUpdate(0, "A. B. C")];
    assert PlanFrom(up, first) == PlanFrom(up, done);
    assert PlanFrom(up, Cursor(0, 0, [])) == PlanFrom(up, first);
  }
}
