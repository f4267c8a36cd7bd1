/**
 * Status updates on the messaging platform: the rate window that admits at most three sends
 * per ten seconds, the latency estimate used to fire early, the rate limiter that owns the
 * lookahead schedule, and one iteration of the status loop. Every outbound call is an input
 * (`HttpOutcome`) and every reading of the clock is a `now` parameter.
 */
module Discord {
  import opened Wrappers
  import opened Durations
  import opened Strings
  import opened Lyrics
  import opened Schedule
  import opened Spotify

  const RateLimitMaxUpdates: nat := 3
  const RateLimitWindow: Duration := 10 * Second
  const MinLatency: Duration := 10 * Millisecond
  const MaxLatency: Duration := 2000 * Millisecond

  /** What an outbound status call came back with: its round-trip time, or a failure. */
  datatype HttpOutcome = Completed(roundTrip: Duration) | Failed(reason: string)

  // ---------------------------------------------------------------------------
  // Rate window

  /** A send at `sentAt` no longer counts at `now`: strictly more than the window has passed. */
  predicate Expired(sentAt: Duration, now: Duration): (e: bool)
    // the time since the send, which is zero for a send not yet made, exceeds the window
    ensures e <==> (if now >= sentAt then now - sentAt else 0) > RateLimitWindow
  {
    now > sentAt + RateLimitWindow
  }

  ghost predicate Chronological(timestamps: seq<Duration>)
  {
    forall i, j :: 0 <= i < j < |timestamps| ==> timestamps[i] <= timestamps[j]
  }

  ghost predicate NoneAfter(timestamps: seq<Duration>, now: Duration)
  {
    forall k :: 0 <= k < |timestamps| ==> timestamps[k] <= now
  }

  /**
   * How many sends to drop from the front: the expired ones up to the first that still counts.
   * Everything dropped had expired, and the new front has not.
   */
  function Dropped(timestamps: seq<Duration>, now: Duration): (n: nat)
    ensures n <= |timestamps|
    ensures forall k :: 0 <= k < n ==> Expired(timestamps[k], now)
    ensures n < |timestamps| ==> !Expired(timestamps[n], now)
  {
    if |timestamps| > 0 && Expired(timestamps[0], now) then
      var rest := Dropped(timestamps[1..], now);
      assert forall k :: 1 <= k < 1 + rest ==> timestamps[k] == timestamps[1..][k - 1];
      1 + rest
    else 0
  }

  /** The window after dropping expired sends from the front. */
  function Prune(timestamps: seq<Duration>, now: Duration): (r: seq<Duration>)
    ensures |r| <= |timestamps|
    ensures forall k :: 0 <= k < |r| ==> r[k] == timestamps[|timestamps| - |r| + k]
    ensures forall k :: 0 <= k < |timestamps| - |r| ==> Expired(timestamps[k], now)
    ensures |r| > 0 ==> !Expired(r[0], now)
  {
    timestamps[Dropped(timestamps, now)..]
  }

  /** In a chronological window, no send that is kept has expired (one exactly a window old is kept). */
  lemma {:induction false} PruneKeepsOnlyRecent(timestamps: seq<Duration>, now: Duration)
    requires Chronological(timestamps)
    ensures forall k :: 0 <= k < |Prune(timestamps, now)| ==> !Expired(Prune(timestamps, now)[k], now)
    ensures forall k :: 0 <= k < |timestamps| && !Expired(timestamps[k], now) ==>
      timestamps[k] in Prune(timestamps, now)
  {
    var r := Prune(timestamps, now);
    var dropped := |timestamps| - |r|;
    forall k | 0 <= k < |r|
      ensures !Expired(r[k], now)
    {
      assert r[k] == timestamps[dropped + k] && r[0] == timestamps[dropped];
    }
    forall k | 0 <= k < |timestamps| && !Expired(timestamps[k], now)
      ensures timestamps[k] in r
    {
      assert k >= dropped;
      assert r[k - dropped] == timestamps[k];
    }
  }

  /** Pruning keeps the window in order and invents no send. */
  lemma {:induction false} PruneKeepsOrder(timestamps: seq<Duration>, now: Duration)
    requires Chronological(timestamps) && NoneAfter(timestamps, now)
    ensures Chronological(Prune(timestamps, now)) && NoneAfter(Prune(timestamps, now), now)
  {
    var r := Prune(timestamps, now);
    var dropped := |timestamps| - |r|;
    forall i, j | 0 <= i < j < |r|
      ensures r[i] <= r[j]
    {
      assert r[i] == timestamps[dropped + i] && r[j] == timestamps[dropped + j];
    }
    forall k | 0 <= k < |r|
      ensures r[k] <= now
    {
      assert r[k] == timestamps[dropped + k];
    }
  }

  /** Three sends within two seconds fill the window; once the first is over ten seconds old, one slot frees. */
  lemma RateWindowExample()
    ensures |Prune([0, Second, 2 * Second], 3 * Second)| == RateLimitMaxUpdates
    ensures Prune([0, Second, 2 * Second], 10 * Second) == [0, Second, 2 * Second]
    ensures Prune([0, Second, 2 * Second], 10 * Second + 1) == [Second, 2 * Second]
  {
    var window := [0, Second, 2 * Second];
    assert Dropped(window, 3 * Second) == 0;
    assert Dropped(window, 10 * Second) == 0;
    assert window[1..] == [Second, 2 * Second];
    assert Dropped(window[1..], 10 * Second + 1) == 0;
    assert Dropped(window, 10 * Second + 1) == 1;
  }

  /**
   * Four updates of a spaced plan never fall in one window: the fourth comes strictly more
   * than ten seconds after the first, since three minimum intervals of 3334 ms exceed it.
   */
  lemma SpacedPlanFitsWindow(updates: seq<ScheduledUpdate>, k: nat)
    requires Spaced(updates) && k + RateLimitMaxUpdates < |updates|
    ensures Expired(updates[k].displayTime, updates[k + RateLimitMaxUpdates].displayTime)
  {
    assert updates[k].displayTime + MinUpdateInterval <= updates[k + 1].displayTime;
    assert updates[k + 1].displayTime + MinUpdateInterval <= updates[k + 2].displayTime;
    assert updates[k + 2].displayTime + MinUpdateInterval <= updates[k + 3].displayTime;
  }

  // ---------------------------------------------------------------------------
  // Latency estimate

  function Clamp(x: nat, lo: nat, hi: nat): (r: nat)
    requires lo <= hi
    ensures lo <= r <= hi
    ensures lo <= x <= hi ==> r == x
    ensures x < lo ==> r == lo
    ensures x > hi ==> r == hi
  {
    if x < lo then lo else if x > hi then hi else x
  }

  function Min(a: nat, b: nat): nat { if a <= b then a else b }
  function Max(a: nat, b: nat): nat { if a <= b then b else a }

  /** Zero (no sample yet) or within the clamp range. */
  predicate LatencyInRange(estimate: Duration)
  {
    estimate == 0 || MinLatency <= estimate <= MaxLatency
  }

  /**
   * The estimate after a call that took `requestDuration`: half of it, clamped, is the sample.
   * The first sample is taken as is; later ones are blended one part in five with the old
   * estimate, on whole milliseconds.
   */
  function NextLatency(estimate: Duration, requestDuration: Duration): (r: Duration)
    ensures LatencyInRange(estimate) ==> MinLatency <= r <= MaxLatency
    ensures estimate == 0 ==> r == Clamp(requestDuration / 2, MinLatency, MaxLatency)
    ensures estimate != 0 ==>
      var sampleMs := Clamp(requestDuration / 2, MinLatency, MaxLatency) / Millisecond;
      var oldMs := estimate / Millisecond;
      && r % Millisecond == 0
      && Min(sampleMs, oldMs) * Millisecond <= r <= Max(sampleMs, oldMs) * Millisecond
  {
    var sample := Clamp(requestDuration / 2, MinLatency, MaxLatency);
    if estimate == 0 then sample
    else (sample / Millisecond + 4 * (estimate / Millisecond)) / 5 * Millisecond
  }

  /** A first call of 240 ms gives 120 ms; a following call of 40 ms brings it to 100 ms. */
  lemma LatencyExample()
    ensures NextLatency(0, 240 * Millisecond) == 120 * Millisecond
    ensures NextLatency(120 * Millisecond, 40 * Millisecond) == 100 * Millisecond
    ensures NextLatency(0, 4 * Millisecond) == MinLatency
    ensures NextLatency(0, 5 * Second) == MaxLatency
  {
  }

  // ---------------------------------------------------------------------------
  // What the limiter's calls do, on values

  /** The rate limiter's fields as one value. */
  datatype LimiterState = LimiterState(
    timestamps: seq<Duration>,
    schedule: seq<ScheduledUpdate>,
    latency: Duration,
    lastSent: Option<string>)

  /** The limiter after a call, with what the call returned. */
  datatype Sent<T> = Sent(after: LimiterState, result: Result<T>)

  /** At most three sends in the window, oldest first, and an estimate that is zero or clamped. */
  ghost predicate WellFormed(s: LimiterState)
  {
    && |s.timestamps| <= RateLimitMaxUpdates
    && Chronological(s.timestamps)
    && LatencyInRange(s.latency)
  }

  /**
   * `send_update` on values. A repeat of the last text is skipped; otherwise the window is
   * pruned, a full window drops the text, and otherwise the status call is made: its failure is
   * the result, its completion records the send, the latency sample and the text.
   */
  function Send(s: LimiterState, text: string, now: Duration, call: HttpOutcome): (r: Sent<bool>)
    ensures r.after.schedule == s.schedule
    // a repeat changes nothing at all, not even the window
    ensures s.lastSent == Some(text) ==> r == Sent(s, Ok(false))
    // the text is delivered exactly when it is new, the pruned window has room and the call completes
    ensures r.result == Ok(true) <==>
      s.lastSent != Some(text) && |Prune(s.timestamps, now)| < RateLimitMaxUpdates && call.Completed?
    ensures r.result == Ok(true) ==>
      && r.after.timestamps == Prune(s.timestamps, now) + [now + call.roundTrip]
      && r.after.latency == NextLatency(s.latency, call.roundTrip)
      && r.after.lastSent == Some(text)
    ensures r.result != Ok(true) ==> r.after.latency == s.latency && r.after.lastSent == s.lastSent
    ensures r.result != Ok(true) && s.lastSent != Some(text) ==> r.after.timestamps == Prune(s.timestamps, now)
    // only a call that was made can fail
    ensures r.result.Err? <==>
      s.lastSent != Some(text) && |Prune(s.timestamps, now)| < RateLimitMaxUpdates && call.Failed?
  {
    if s.lastSent == Some(text) then Sent(s, Ok(false))
    else
      var window := Prune(s.timestamps, now);
      if |window| >= RateLimitMaxUpdates then Sent(s.(timestamps := window), Ok(false))
      else match call
        case Failed(reason) => Sent(s.(timestamps := window), Err(reason))
        case Completed(roundTrip) =>
          Sent(s.(timestamps := window + [now + roundTrip],
                  latency := NextLatency(s.latency, roundTrip),
                  lastSent := Some(text)),
               Ok(true))
  }

  /**
   * `clear_status` on values. The schedule and the last text are always dropped; then the
   * window is pruned and, when it has room, the empty status is sent.
   */
  function Clear(s: LimiterState, now: Duration, call: HttpOutcome): (r: Sent<()>)
    ensures r.after.schedule == [] && r.after.lastSent.None?
    // the empty status is delivered exactly when the pruned window has room and the call completes
    ensures |Prune(s.timestamps, now)| < RateLimitMaxUpdates && call.Completed? ==>
      && r.result.Ok?
      && r.after.timestamps == Prune(s.timestamps, now) + [now + call.roundTrip]
      && r.after.latency == NextLatency(s.latency, call.roundTrip)
    ensures !(|Prune(s.timestamps, now)| < RateLimitMaxUpdates && call.Completed?) ==>
      r.after.timestamps == Prune(s.timestamps, now) && r.after.latency == s.latency
    ensures r.result.Err? <==> |Prune(s.timestamps, now)| < RateLimitMaxUpdates && call.Failed?
  {
    var window := Prune(s.timestamps, now);
    var cleared := s.(timestamps := window, schedule := [], lastSent := None);
    if |window| >= RateLimitMaxUpdates then Sent(cleared, Ok(()))
    else match call
      case Failed(reason) => Sent(cleared, Err(reason))
      case Completed(roundTrip) =>
        Sent(cleared.(timestamps := window + [now + roundTrip], latency := NextLatency(s.latency, roundTrip)), Ok(()))
  }
  /** A send recorded at or after `now` keeps a pruned window in order and within its size. */
  lemma RecordKeepsWellFormed(s: LimiterState, now: Duration, roundTrip: Duration)
    requires WellFormed(s) && NoneAfter(s.timestamps, now)
    ensures
      var window := Prune(s.timestamps, now);
      |window| < RateLimitMaxUpdates ==>
        WellFormed(s.(timestamps := window + [now + roundTrip], latency := NextLatency(s.latency, roundTrip)))
  {
    var window := Prune(s.timestamps, now);
    PruneKeepsOrder(s.timestamps, now);
    var grown := window + [now + roundTrip];
    forall i, j | 0 <= i < j < |grown| ensures grown[i] <= grown[j] {
      if j == |window| {
        assert grown[i] == window[i] && window[i] <= now;
      } else {
        assert grown[i] == window[i] && grown[j] == window[j];
      }
    }
  }

  /** A send keeps the limiter well formed. */
  lemma SendKeepsWellFormed(s: LimiterState, text: string, now: Duration, call: HttpOutcome)
    requires WellFormed(s) && NoneAfter(s.timestamps, now)
    ensures WellFormed(Send(s, text, now, call).after)
  {
    PruneKeepsOrder(s.timestamps, now);
    if call.Completed? {
      RecordKeepsWellFormed(s, now, call.roundTrip);
    }
  }

  /** The three outcomes of a clear, each as one value. */
  lemma ClearCases(s: LimiterState, now: Duration, call: HttpOutcome)
    ensures var window := Prune(s.timestamps, now);
      && (|window| >= RateLimitMaxUpdates ==>
            Clear(s, now, call) == Sent(LimiterState(window, [], s.latency, None), Ok(())))
      && (|window| < RateLimitMaxUpdates && call.Failed? ==>
            Clear(s, now, call) == Sent(LimiterState(window, [], s.latency, None), Err(call.reason)))
      && (|window| < RateLimitMaxUpdates && call.Completed? ==>
            Clear(s, now, call)
              == Sent(LimiterState(window + [now + call.roundTrip], [], NextLatency(s.latency, call.roundTrip), None), Ok(())))
  {
  }

  /** A clear keeps the limiter well formed. */
  lemma ClearKeepsWellFormed(s: LimiterState, now: Duration, call: HttpOutcome)
    requires WellFormed(s) && NoneAfter(s.timestamps, now)
    ensures WellFormed(Clear(s, now, call).after)
  {
    PruneKeepsOrder(s.timestamps, now);
    if call.Completed? {
      RecordKeepsWellFormed(s, now, call.roundTrip);
    }
  }


  // ---------------------------------------------------------------------------
  // The rate limiter

  class RateLimiter {
    /** Instants of the recent sends, oldest first. */
    var timestamps: seq<Duration>
    /** The lookahead plan, consumed from the front. */
    var schedule: seq<ScheduledUpdate>
    var latencyEstimate: Duration
    /** The text last delivered, to suppress repeats. */
    var lastSent: Option<string>

    /** The fields as one value. */
    function View(): LimiterState
      reads this
    {
      LimiterState(timestamps, schedule, latencyEstimate, lastSent)
    }

    ghost predicate Valid()
      reads this
    {
      WellFormed(View())
    }

    constructor ()
      ensures Valid()
      ensures timestamps == [] && schedule == [] && latencyEstimate == 0 && lastSent.None?
    {
      timestamps := [];
      schedule := [];
      latencyEstimate := 0;
      lastSent := None;
    }

    method CleanupOldTimestamps(now: Duration)
      modifies this`timestamps
      ensures timestamps == Prune(old(timestamps), now)
    {
      while |timestamps| > 0
        invariant Prune(timestamps, now) == Prune(old(timestamps), now)
        decreases |timestamps|
      {
        if Expired(timestamps[0], now) {
          timestamps := timestamps[1..];
        } else {
          break;
        }
      }
    }

    /** Prunes the window, then reports whether another send fits in it. */
    method HasCapacity(now: Duration) returns (ok: bool)
      modifies this`timestamps
      ensures timestamps == Prune(old(timestamps), now)
      ensures ok == (|timestamps| < RateLimitMaxUpdates)
    {
      CleanupOldTimestamps(now);
      ok := |timestamps| < RateLimitMaxUpdates;
    }

    /** The current estimate: zero before the first completed call, else within the clamp range. */
    function Latency(): (d: Duration)
      reads this
      requires Valid()
      ensures d == 0 || MinLatency <= d <= MaxLatency
    {
      latencyEstimate
    }

    method UpdateLatency(requestDuration: Duration)
      modifies this`latencyEstimate
      ensures latencyEstimate == NextLatency(old(latencyEstimate), requestDuration)
    {
      var sample := Clamp(requestDuration / 2, MinLatency, MaxLatency);
      if latencyEstimate == 0 {
        latencyEstimate := sample;
      } else {
        var oldMs := latencyEstimate / Millisecond;
        var newMs := sample / Millisecond;
        latencyEstimate := (newMs + 4 * oldMs) / 5 * Millisecond;
      }
    }

    /**
     * Replaces the schedule with the plan for the lines not yet over at `position`. The plan
     * is spaced by the minimum interval, loses and repeats no line, and is empty exactly when
     * every line has ended.
     */
    method BuildSchedule(lines: seq<TimedLine>, position: Duration)
      modifies this`schedule
      ensures schedule == Plan(Upcoming(lines, position), position)
      ensures Spaced(schedule)
      ensures Join(UpdateTexts(schedule), BatchSeparator) == Join(Texts(Upcoming(lines, position)), BatchSeparator)
      ensures |schedule| <= |Upcoming(lines, position)|
      ensures |schedule| == 0 <==> forall k :: 0 <= k < |lines| ==> lines[k].endTime <= position
    {
      var upcoming := Upcoming(lines, position);
      PlanSpaced(upcoming, position);
      PlanPreservesText(upcoming, position);
      FillSchedule(upcoming, position);
    }

    /** The scheduling loop proper: walks `upcoming` once, pushing, merging or seeding updates. */
    method FillSchedule(upcoming: seq<TimedLine>, position: Duration)
      modifies this`schedule
      ensures schedule == Plan(upcoming, position)
    {
      schedule := [];
      if |upcoming| == 0 {
        return;
      }
      var nextAvailable: Duration := position;
      var i: nat := 0;
      while i < |upcoming|
        invariant i <= |upcoming|
        invariant PlanFrom(upcoming, Cursor(i, nextAvailable, schedule)) == Plan(upcoming, position)
        decreases |upcoming| - i
      {
        ghost var before := Cursor(i, nextAvailable, schedule);
        var line := upcoming[i];
        if nextAvailable <= line.startTime {
          schedule := schedule + [ScheduledUpdate(line.startTime, line.text)];
          nextAvailable := line.startTime + MinUpdateInterval;
          i := i + 1;
          assert Cursor(i, nextAvailable, schedule) == Step(upcoming, before);
        } else {
          i, nextAvailable := BatchLines(upcoming, i, nextAvailable);
        }
      }
    }

    /**
     * The else-branch of the scheduling loop: line `i` cannot get its own update, so it and the
     * lines after it that start before `nextAvailable` are merged into the last update, or seed
     * the first one. Returns where the loop goes on.
     */
    method BatchLines(upcoming: seq<TimedLine>, i: nat, nextAvailable: Duration) returns (next: nat, newNextAvailable: Duration)
      requires i < |upcoming| && upcoming[i].startTime < nextAvailable
      modifies this`schedule
      ensures Cursor(next, newNextAvailable, schedule) == Step(upcoming, Cursor(i, nextAvailable, old(schedule)))
    {
      var line := upcoming[i];
      var batchStart := i;
      var batchEnd := ScanBatch(upcoming, i + 1, nextAvailable);
      var additional := Texts(upcoming[batchStart..batchEnd]);
      newNextAvailable := nextAvailable;
      if |schedule| > 0 {
        var prev := schedule[|schedule| - 1];
        schedule := schedule[..|schedule| - 1]
                    + [prev.(text := prev.text + BatchSeparator + Join(additional, BatchSeparator))];
      } else {
        schedule := schedule + [ScheduledUpdate(line.startTime, Join(additional, BatchSeparator))];
        newNextAvailable := line.startTime + MinUpdateInterval;
      }
      next := batchEnd;
    }

    /** The inner scan: the end of the run of lines from `from` on that start before `nextAvailable`. */
    static method ScanBatch(upcoming: seq<TimedLine>, from: nat, nextAvailable: Duration) returns (batchEnd: nat)
      requires from <= |upcoming|
      ensures batchEnd == BatchEnd(upcoming, from, nextAvailable)
    {
      batchEnd := from;
      while batchEnd < |upcoming| && upcoming[batchEnd].startTime < nextAvailable
        invariant from <= batchEnd <= |upcoming|
        invariant BatchEnd(upcoming, batchEnd, nextAvailable) == BatchEnd(upcoming, from, nextAvailable)
        decreases |upcoming| - batchEnd
      {
        batchEnd := batchEnd + 1;
      }
    }

    /**
     * Pops and returns the front update once the position plus the latency estimate has
     * reached its display time; otherwise returns None and leaves the schedule alone.
     */
    method GetDueUpdate(position: Duration) returns (due: Option<string>)
      modifies this`schedule
      ensures |old(schedule)| > 0 && position + latencyEstimate >= old(schedule)[0].displayTime ==>
        due == Some(old(schedule)[0].text) && schedule == old(schedule)[1..]
      ensures !(|old(schedule)| > 0 && position + latencyEstimate >= old(schedule)[0].displayTime) ==>
        due.None? && schedule == old(schedule)
    {
      var sendThreshold := position + latencyEstimate;
      if |schedule| > 0 && sendThreshold >= schedule[0].displayTime {
        due := Some(schedule[0].text);
        schedule := schedule[1..];
        return;
      }
      due := None;
    }

    /**
     * Sends `text` unless it repeats the last text sent or the window is full; `call` is what
     * the status call returns if it is made. Ok(true) means it was delivered.
     */
    method SendUpdate(text: string, now: Duration, call: HttpOutcome) returns (r: Result<bool>)
      requires Valid() && NoneAfter(timestamps, now)
      modifies this`timestamps, this`latencyEstimate, this`lastSent
      ensures Valid()
      ensures Sent(View(), r) == Send(old(View()), text, now, call)
    {
      if lastSent == Some(text) {
        return Ok(false);
      }
      ghost var before := timestamps;
      var capacity := HasCapacity(now);
      PruneKeepsOrder(before, now);
      if !capacity {
        return Ok(false);
      }
      if call.Failed? {
        return Err(call.reason);
      }
      UpdateLatency(call.roundTrip);
      RecordSend(now, call.roundTrip);
      lastSent := Some(text);
      r := Ok(true);
    }

    /** Appends the instant a call started at `now` came back, keeping the window in order. */
    method RecordSend(now: Duration, roundTrip: Duration)
      requires |timestamps| < RateLimitMaxUpdates
      requires Chronological(timestamps) && NoneAfter(timestamps, now)
      modifies this`timestamps
      ensures timestamps == old(timestamps) + [now + roundTrip]
      ensures |timestamps| <= RateLimitMaxUpdates && Chronological(timestamps)
    {
      timestamps := timestamps + [now + roundTrip];
    }

    /**
     * Forgets the schedule and the last text, then sends an empty status if the window has
     * room; `call` is what that status call returns.
     */
    method ClearStatus(now: Duration, call: HttpOutcome) returns (r: Result<()>)
      requires Valid() && NoneAfter(timestamps, now)
      modifies this`schedule, this`lastSent, this`timestamps, this`latencyEstimate
      ensures Valid()
      ensures Sent(View(), r) == Clear(old(View()), now, call)
    {
      ClearCases(View(), now, call);
      schedule := [];
      lastSent := None;
      ghost var before := timestamps;
      var capacity := HasCapacity(now);
      PruneKeepsOrder(before, now);
      if !capacity {
        return Ok(());
      }
      if call.Failed? {
        return Err(call.reason);
      }
      UpdateLatency(call.roundTrip);
      RecordSend(now, call.roundTrip);
      r := Ok(());
    }

    /** Drops the schedule and the last text; the window and the latency estimate stay. */
    method Reset()
      modifies this`schedule, this`lastSent
      ensures schedule == [] && lastSent.None?
    {
      schedule := [];
      lastSent := None;
    }
  }

  // ---------------------------------------------------------------------------
  // The status loop

  /** The text shown when there are no lyrics: "name - artist, artist". */
  function TrackInfo(track: Track): (text: string)
    ensures |text| >= |track.name| + 3 && text[..|track.name| + 3] == track.name + " - "
    ensures |track.artists| == 0 ==> text == track.name + " - "
    ensures |track.artists| > 0 ==>
      var last := track.artists[|track.artists| - 1];
      |text| >= |last| && text[|text| - |last|..] == last
  {
    JoinEnds(track.artists, ", ");
    track.name + " - " + Join(track.artists, ", ")
  }

  /** The status loop's state between iterations, as one value. */
  datatype LoopState = LoopState(limiter: LimiterState, lastTrackId: Option<string>, scheduleBuilt: bool)

  /** The loop's state after one iteration, and whether the iteration failed. */
  datatype Iteration = Iteration(after: LoopState, result: Result<()>)

  /** A send's result as the loop sees it through `?`: its failure, or nothing. */
  function Unit(r: Result<bool>): Result<()>
  {
    if r.Err? then Err(r.error) else Ok(())
  }

  /** A different track id than last time: record it, reset the limiter, and plan again. */
  function Follow(l: LoopState, trackId: Option<string>): (r: LoopState)
    ensures r.lastTrackId == trackId
    ensures r.limiter.timestamps == l.limiter.timestamps && r.limiter.latency == l.limiter.latency
    ensures trackId != l.lastTrackId ==> r.limiter.schedule == [] && r.limiter.lastSent.None? && !r.scheduleBuilt
    ensures trackId == l.lastTrackId ==> r == l
  {
    if trackId != l.lastTrackId then LoopState(l.limiter.(schedule := [], lastSent := None), trackId, false)
    else l
  }

  /** The schedule the lyrics branch works from: the one already built for the track, or a fresh plan. */
  function Built(l: LoopState, lyrics: Lyrics, position: Duration): seq<ScheduledUpdate>
  {
    if l.scheduleBuilt then l.limiter.schedule
    else Plan(Upcoming(GetTimedLines(lyrics), position), position)
  }

  /** Whether the front of `schedule` is due at `position`, sending `latency` early. */
  predicate FrontDue(schedule: seq<ScheduledUpdate>, position: Duration, latency: Duration)
  {
    |schedule| > 0 && position + latency >= schedule[0].displayTime
  }

  /** The lyrics branch: build once, then send the front update if it is due. */
  function LyricsStep(l: LoopState, lyrics: Lyrics, position: Duration, now: Duration, call: HttpOutcome): Iteration
  {
    var built := Built(l, lyrics, position);
    var s := l.limiter.(schedule := built);
    if FrontDue(built, position, s.latency) then
      var sent := Send(s.(schedule := built[1..]), built[0].text, now, call);
      Iteration(LoopState(sent.after, l.lastTrackId, true), Unit(sent.result))
    else
      Iteration(LoopState(s, l.lastTrackId, true), Ok(()))
  }

  /** The branch without lyrics: send the track line. */
  function TrackInfoStep(l: LoopState, track: Track, now: Duration, call: HttpOutcome): Iteration
  {
    var sent := Send(l.limiter, TrackInfo(track), now, call);
    Iteration(l.(limiter := sent.after), Unit(sent.result))
  }

  /** Nothing is playing: if a track was, clear the status, then forget the track. */
  function StopStep(l: LoopState, now: Duration, call: HttpOutcome): Iteration
  {
    if l.lastTrackId.None? then Iteration(l, Ok(()))
    else
      var cleared := Clear(l.limiter, now, call);
      if cleared.result.Err? then Iteration(l.(limiter := cleared.after), cleared.result)
      else Iteration(LoopState(cleared.after, None, false), Ok(()))
  }

  /** One iteration of `status_loop` on a copy of the snapshot. */
  function TickStep(l: LoopState, current: Option<CurrentPlayback>, now: Duration, call: HttpOutcome): Iteration
  {
    match current
    case None => StopStep(l, now, call)
    case Some(playback) =>
      var followed := Follow(l, playback.track.id);
      match playback.lyrics
      case Some(lyrics) => LyricsStep(followed, lyrics, playback.position, now, call)
      case None => TrackInfoStep(followed, playback.track, now, call)
  }

  /** The window after an iteration: as it was, pruned, or pruned with one send at `now + rtt`. */
  ghost predicate AtMostOneSend(before: seq<Duration>, after: seq<Duration>, now: Duration, call: HttpOutcome)
  {
    || after == before
    || after == Prune(before, now)
    || (call.Completed? && after == Prune(before, now) + [now + call.roundTrip])
  }

  /** An iteration keeps the limiter well formed, and records at most one send, made at `now`. */
  lemma TickKeepsWellFormed(l: LoopState, current: Option<CurrentPlayback>, now: Duration, call: HttpOutcome)
    requires WellFormed(l.limiter) && NoneAfter(l.limiter.timestamps, now)
    ensures WellFormed(TickStep(l, current, now, call).after.limiter)
    ensures AtMostOneSend(l.limiter.timestamps, TickStep(l, current, now, call).after.limiter.timestamps, now, call)
  {
    match current
    case None =>
      if l.lastTrackId.Some? {
        ClearKeepsWellFormed(l.limiter, now, call);
      }
    case Some(playback) =>
      var followed := Follow(l, playback.track.id);
      match playback.lyrics
      case Some(lyrics) =>
        LyricsKeepsWellFormed(followed, lyrics, playback.position, now, call);
      case None =>
        SendKeepsWellFormed(followed.limiter, TrackInfo(playback.track), now, call);
  }

  /** The lyrics branch keeps the limiter well formed and makes at most one send. */
  lemma LyricsKeepsWellFormed(l: LoopState, lyrics: Lyrics, position: Duration, now: Duration, call: HttpOutcome)
    requires WellFormed(l.limiter) && NoneAfter(l.limiter.timestamps, now)
    ensures WellFormed(LyricsStep(l, lyrics, position, now, call).after.limiter)
    ensures AtMostOneSend(l.limiter.timestamps, LyricsStep(l, lyrics, position, now, call).after.limiter.timestamps, now, call)
  {
    var built := Built(l, lyrics, position);
    var s := l.limiter.(schedule := built);
    if FrontDue(built, position, s.latency) {
      SendKeepsWellFormed(s.(schedule := built[1..]), built[0].text, now, call);
    }
  }

  /**
   * A new track with lyrics: the fresh plan is left, less its front exactly when that is due;
   * the due front is delivered exactly when the window has room and the call completes, since
   * the reset means it cannot be a repeat.
   */
  lemma TickNewTrackWithLyrics(l: LoopState, playback: CurrentPlayback, now: Duration, call: HttpOutcome)
    requires playback.track.id != l.lastTrackId && playback.lyrics.Some?
    ensures
      var r := TickStep(l, Some(playback), now, call);
      var position := playback.position;
      var plan := Plan(Upcoming(GetTimedLines(playback.lyrics.value), position), position);
      var due := FrontDue(plan, position, l.limiter.latency);
      && r.after.lastTrackId == playback.track.id && r.after.scheduleBuilt
      && (due ==> r.after.limiter.schedule == plan[1..])
      && (due ==> (r.after.limiter.lastSent == Some(plan[0].text) <==>
                   |Prune(l.limiter.timestamps, now)| < RateLimitMaxUpdates && call.Completed?))
      && (!due ==> r.after.limiter == l.limiter.(schedule := plan, lastSent := None) && r.result == Ok(()))
  {
    var followed := Follow(l, playback.track.id);
    assert followed.limiter.lastSent.None? && !followed.scheduleBuilt;
  }

  /** The same track with its schedule built: only a due front is taken off and sent. */
  lemma TickSameTrackPops(l: LoopState, playback: CurrentPlayback, now: Duration, call: HttpOutcome)
    requires playback.track.id == l.lastTrackId && playback.lyrics.Some? && l.scheduleBuilt
    ensures
      var r := TickStep(l, Some(playback), now, call);
      var schedule := l.limiter.schedule;
      && (FrontDue(schedule, playback.position, l.limiter.latency) ==>
            r.after.limiter.schedule == schedule[1..] && r.after.lastTrackId == l.lastTrackId && r.after.scheduleBuilt)
      && (!FrontDue(schedule, playback.position, l.limiter.latency) ==> r == Iteration(l, Ok(())))
  {
  }

  /**
   * Without lyrics the track line is the only text that can be sent, and a line already shown
   * for the same track is not sent again.
   */
  lemma TickTrackInfo(l: LoopState, playback: CurrentPlayback, now: Duration, call: HttpOutcome)
    requires playback.lyrics.None?
    ensures
      var r := TickStep(l, Some(playback), now, call);
      var text := TrackInfo(playback.track);
      && r.after.limiter.schedule == (if playback.track.id == l.lastTrackId then l.limiter.schedule else [])
      && (r.after.limiter.lastSent == Some(text) || r.after.limiter.lastSent == Follow(l, playback.track.id).limiter.lastSent)
      && (playback.track.id == l.lastTrackId && l.limiter.lastSent == Some(text) ==> r == Iteration(l, Ok(())))
  {
  }

  /**
   * When playback stops the status is cleared once: the iteration that sees the stop clears,
   * and, if that succeeded, the next one changes nothing.
   */
  lemma TickStopClearsOnce(l: LoopState, now: Duration, call: HttpOutcome, later: Duration, laterCall: HttpOutcome)
    requires l.lastTrackId.Some?
    ensures
      var r := TickStep(l, None, now, call);
      && r.after.limiter == Clear(l.limiter, now, call).after
      && r.result == Clear(l.limiter, now, call).result
      && (r.result.Ok? ==> r.after.lastTrackId.None? && !r.after.scheduleBuilt
                           && TickStep(r.after, None, later, laterCall) == Iteration(r.after, Ok(())))
      && (r.result.Err? ==> r.after.lastTrackId == l.lastTrackId)
  {
  }

  /** Nothing was playing and nothing is: the iteration changes nothing. */
  lemma TickIdle(l: LoopState, now: Duration, call: HttpOutcome)
    requires l.lastTrackId.None?
    ensures TickStep(l, None, now, call) == Iteration(l, Ok(()))
  {
  }

  /** The status loop's own state between iterations. */
  class StatusLoop {
    const limiter: RateLimiter
    var lastTrackId: Option<string>
    var scheduleBuilt: bool

    /** The loop's variables and the limiter's fields as one value. */
    function View(): LoopState
      reads this, limiter
    {
      LoopState(limiter.View(), lastTrackId, scheduleBuilt)
    }

    ghost predicate Valid()
      reads this, limiter
    {
      limiter.Valid()
    }

    constructor ()
      ensures Valid() && fresh(limiter)
      ensures View() == LoopState(LimiterState([], [], 0, None), None, false)
    {
      limiter := new RateLimiter();
      lastTrackId := None;
      scheduleBuilt := false;
    }

    /** A different track id than last time: remember it, reset the limiter, plan again. */
    method FollowTrack(trackId: Option<string>)
      requires Valid()
      modifies this`lastTrackId, this`scheduleBuilt, limiter`schedule, limiter`lastSent
      ensures Valid()
      ensures View() == Follow(old(View()), trackId)
    {
      if trackId != lastTrackId {
        lastTrackId := trackId;
        limiter.Reset();
        scheduleBuilt := false;
      }
    }

    /**
     * The lyrics branch: the schedule is built once per track, then at most one due update is
     * taken from its front and sent.
     */
    method ShowLyrics(lyrics: Lyrics, position: Duration, now: Duration, call: HttpOutcome) returns (r: Result<()>)
      requires Valid() && NoneAfter(limiter.timestamps, now)
      modifies this`scheduleBuilt, limiter
      ensures Valid()
      ensures Iteration(View(), r) == LyricsStep(old(View()), lyrics, position, now, call)
    {
      ghost var before := View();
      ghost var built := Built(before, lyrics, position);
      if !scheduleBuilt {
        var timedLines := GetTimedLines(lyrics);
        limiter.BuildSchedule(timedLines, position);
        scheduleBuilt := true;
      }
      ghost var s := before.limiter.(schedule := built);
      assert limiter.View() == s;
      var due := limiter.GetDueUpdate(position);
      if due.Some? {
        assert FrontDue(built, position, s.latency) && due.value == built[0].text;
        assert limiter.View() == s.(schedule := built[1..]);
        var sent := limiter.SendUpdate(due.value, now, call);
        if sent.Err? {
          return Err(sent.error);
        }
      }
      r := Ok(());
    }

    /** The branch without lyrics: the track line is sent (or suppressed as a repeat). */
    method ShowTrackInfo(track: Track, now: Duration, call: HttpOutcome) returns (r: Result<()>)
      requires Valid() && NoneAfter(limiter.timestamps, now)
      modifies limiter`timestamps, limiter`latencyEstimate, limiter`lastSent
      ensures Valid()
      ensures Iteration(View(), r) == TrackInfoStep(old(View()), track, now, call)
    {
      var text := TrackInfo(track);
      var sent := limiter.SendUpdate(text, now, call);
      if sent.Err? {
        return Err(sent.error);
      }
      r := Ok(());
    }

    /** Nothing is playing: if something was, clear the status and forget the track. */
    method StopPlayback(now: Duration, call: HttpOutcome) returns (r: Result<()>)
      requires Valid() && NoneAfter(limiter.timestamps, now)
      modifies this`lastTrackId, this`scheduleBuilt, limiter
      ensures Valid()
      ensures Iteration(View(), r) == StopStep(old(View()), now, call)
    {
      if lastTrackId.Some? {
        var cleared := limiter.ClearStatus(now, call);
        if cleared.Err? {
          return Err(cleared.error);
        }
        lastTrackId := None;
        scheduleBuilt := false;
      }
      r := Ok(());
    }

    /**
     * One iteration on a copy of the snapshot. A new track id resets the limiter and the
     * schedule is built once per track; then at most one due update is sent. With no lyrics the
     * track and artists are sent instead. When playback stops the status is cleared once.
     * A failed send ends the loop with Err.
     */
    method Tick(current: Option<CurrentPlayback>, now: Duration, call: HttpOutcome) returns (r: Result<()>)
      requires Valid() && NoneAfter(limiter.timestamps, now)
      modifies this, limiter
      ensures Valid()
      ensures Iteration(View(), r) == TickStep(old(View()), current, now, call)
    {
      match current {
        case Some(playback) =>
          FollowTrack(playback.track.id);
          match playback.lyrics {
            case Some(lyrics) =>
              r := ShowLyrics(lyrics, playback.position, now, call);
            case None =>
              r := ShowTrackInfo(playback.track, now, call);
          }
        case None =>
          r := StopPlayback(now, call);
      }
    }
  }
}
