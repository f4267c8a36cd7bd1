# dyrics, modelled in Dafny

dyrics mirrors the time-synced lyrics of the track a user is playing into their status
on a messaging platform. The platform accepts at most three status updates in any ten
seconds, while lyric lines arrive much faster than that. The model covers the parts of
the program that decide what is shown and when:

- **Lyrics** (`lyrics.dfy`): the lyrics data, flattening to timed lines, the
  word-aware joining of syllables, and the nearest-line lookup. The lookup is
  `min_by_key` over the distance from a timestamp to a line's `[start, end]` interval,
  and ties go to the first line.
- **Schedule** (`schedule.dfy`): the pure specification of the lookahead scheduler.
  - Lines that have not ended are kept and stably sorted by start time.
  - A line gets its own update when the budget allows one by its start time.
  - Otherwise it and every following line that starts too early are merged into the
    previous update, or seed the first one.
- **Discord** (`discord.dfy`): the rate limiter, the latency estimate and one iteration
  of the status loop. The `RateLimiter` class has the source's fields:
  - the send timestamps;
  - the schedule queue;
  - the latency estimate;
  - the last text sent.
  The limiter's `BuildSchedule` runs the source's loops and is proved equal to the
  scheduler specification.
- **Spotify** (`spotify.dfy`): the shared playback snapshot, the 50 ms position stepper,
  and the transitions of one resync against the music service.
- `wrappers.dfy`, `durations.dfy` and `strings.dfy` hold `Option`/`Result`, durations and
  `join`.

Durations are natural numbers of nanoseconds, as in `std::time::Duration`.

Each outbound status call is an `HttpOutcome` parameter, either `Completed(roundTrip)` or
`Failed(reason)`. Each reading of `Instant::now()` is a `now` parameter. The music
service's "currently playing" answer and the lyrics fetch are parameters of `SyncOnce`.

The properties proved are:

- The plan's updates are at least 3334 ms apart, so no four of them fall in one ten-second
  window.
- Every upcoming line lands in exactly one update, in order. Joining the updates' texts
  gives back the lines' texts.
- Without time pressure the plan is one update per line, at its start time.
- The rate window keeps exactly the sends that are at most ten seconds old.
- The latency estimate stays in its clamp range and moves between the old value and the
  new sample.
- The lookup prefers a line that contains the timestamp.
- Each state change does what the source does, branch by branch: every method is proved to
  leave exactly the state, and return exactly the result, of a function on values, and the
  status loop's properties are lemmas about that function.

## Model

| member | source | states |
|---|---|---|
| Lyrics.JoinSyllables | src/lyrics.rs:103-110 | the text of a syllable line: a space goes before a syllable exactly when text has been written and the syllable starts a new word |
| Lyrics.BuildSyllableText | src/lyrics.rs:169-175 | the loop that pushes onto a growing string produces `JoinSyllables` of the syllables |
| Lyrics.JoinSyllablesWithinWord | src/lyrics.rs:103-110 | syllables that all continue one word are concatenated with no space |
| Lyrics.JoinSyllablesSeparateWords | src/lyrics.rs:103-110 | non-empty syllables that each start a word are joined by single spaces |
| Lyrics.Distance | src/lyrics.rs:126-134 | the key is zero exactly when the target is inside the interval; otherwise it is the gap to the start (before it) or to the end (after it) |
| Lyrics.Nearest | src/lyrics.rs:126-134 | `min_by_key`: None exactly for no lines; otherwise the first index of minimal distance, which is a containing line whenever one exists |
| Lyrics.FindNearestLine | src/lyrics.rs:139-149 | None iff there are no lines; the result's distance is at most every line's and strictly below every earlier line's |
| Lyrics.FindNearestSyllableLine | src/lyrics.rs:122-136 | the same as FindNearestLine, measured on each line's lead timing |
| Lyrics.GetTimedLines | src/lyrics.rs:164-192 | one timed line per input line, in input order; line-synced lines are copied, and syllable-synced lines take their text from the syllables and their timing from the lead |
| Lyrics.GetTextAt | src/lyrics.rs:99-118 | None iff there are no lines; otherwise the text of the flattened line at the nearest index |
| Lyrics.TextAtPrefersContainingLine | src/lyrics.rs:99-118 | when some line contains the timestamp, the text returned is that of a containing line |
| Schedule.Unfinished | src/discord.rs:122-125 | keeps only lines whose end is after the position and is no longer than the input; it is empty iff every line has ended |
| Schedule.UnfinishedMembers | src/discord.rs:122-125 | every kept line is from the input, and every input line that has not ended is kept |
| Schedule.UnfinishedSnoc | src/discord.rs:122-125 | appending one line to the input appends it to the result exactly when it has not ended |
| Schedule.UnfinishedAppend | src/discord.rs:122-125 | filtering a concatenation is the concatenation of the filtered parts, so input order and repeated lines are kept |
| Schedule.UnfinishedSingle | src/discord.rs:122-125 | a single line is kept exactly when its end is after the position |
| Schedule.InsertByStart | src/discord.rs:126 | inserting into a start-sorted sequence keeps it sorted and adds exactly that line |
| Schedule.SortByStart | src/discord.rs:126 | the result is sorted by start time and is a permutation of the input |
| Schedule.SortByStartKeepsSorted | src/discord.rs:126 | lines already in start order are left unchanged by the stable sort |
| Schedule.Upcoming | src/discord.rs:122-126 | the upcoming lines are sorted, are a permutation of the unfinished lines, all end after the position, and are empty iff every line has ended |
| Schedule.BatchEnd | src/discord.rs:154-158 | the batch end is the first index at or after `j` whose line starts at or after `nextAvailable` |
| Schedule.RearrangedUnfinished | src/discord.rs:122-126 | sorting the unfinished lines keeps their number and keeps only lines that end after the position |
| Schedule.MergeLast | src/discord.rs:161-166 | merging a batch changes only the last update's text, which becomes the old text, ". ", and the batch; every display time stays |
| Schedule.Step | src/discord.rs:136-181 | one pass of the scheduling loop consumes at least one line and never runs past the end |
| Schedule.StepKeepsEarlier | src/discord.rs:136-181 | a pass never removes an update, keeps every display time and every update before the last, and with nothing planned yields an update at the line's start |
| Schedule.PlanFrom | src/discord.rs:136-182 | the loop run to the end from a cursor keeps the updates already planned (all display times, and all but the last one whole); from an empty plan the first update goes out at the next line's start |
| Schedule.Plan | src/discord.rs:128-182 | the loop's result from position `position`: when there are upcoming lines, the first update is shown at the first line's start, even when that is already past |
| Schedule.SpacedAppend | src/discord.rs:139-146 | pushing an update no earlier than the next free slot keeps the updates spaced |
| Schedule.SpacedMergeLast | src/discord.rs:161-166 | merging into the last update keeps the updates spaced |
| Schedule.StepSpaced | src/discord.rs:136-181 | one pass keeps the updates spaced and the next free slot 3334 ms after the last update |
| Schedule.PlanFromSpaced | src/discord.rs:136-182 | from any spaced state the loop ends with spaced updates |
| Schedule.PlanSpaced | src/discord.rs:136-182 | consecutive planned updates are at least `MIN_UPDATE_INTERVAL` (3334 ms) apart |
| Schedule.GroupedPush | src/discord.rs:139-146 | a fresh update for one line opens a new group of that single line |
| Schedule.BatchTextAppend | src/discord.rs:161-166 | joining the texts of two adjacent runs of lines equals joining each run and putting ". " between them |
| Schedule.GroupedMerge | src/discord.rs:161-166 | a merged batch extends the last group up to the batch end |
| Schedule.GroupedSeed | src/discord.rs:167-177 | with nothing planned, the batch of lines from the first one seeds a single group at the first line's start |
| Schedule.StepGrouped | src/discord.rs:136-181 | one pass keeps the planned updates a grouping of the lines consumed so far |
| Schedule.BatchGrouped | src/discord.rs:147-180 | the batching branch of a pass keeps the planned updates a grouping |
| Schedule.PlanFromGrouped | src/discord.rs:136-182 | from any grouped loop state, the loop's result splits all upcoming lines into consecutive non-empty groups; each update sits at its group's first start with the group's texts joined by ". " |
| Schedule.PlanGroupsLines | src/discord.rs:136-182 | the plan is such a grouping of all upcoming lines |
| Schedule.GroupedInit | src/discord.rs:136-182 | dropping the last update leaves a grouping of the lines before the last group |
| Schedule.GroupedLast | src/discord.rs:136-182 | the last update carries the texts of the lines from the last cut to the end |
| Schedule.TextsSplit | src/discord.rs:161-177 | the texts of a run of lines split at a cut into the texts of the two parts |
| Schedule.JoinLastGroup | src/discord.rs:161-177 | appending the last group's joined text to the joined earlier groups gives the joined texts of all lines |
| Schedule.GroupedJoin | src/discord.rs:161-177 | a grouping's update texts, joined by ". ", equal the grouped lines' texts joined by ". " |
| Schedule.PlanPreservesText | src/discord.rs:118-183 | no line is lost, duplicated or reordered; there are never more updates than lines, and the plan is empty iff there are no upcoming lines |
| Schedule.PlanFromWithoutPressure | src/discord.rs:138-146 | without time pressure, a loop that has produced one update per line so far goes on doing so to the end |
| Schedule.PlanWithoutPressure | src/discord.rs:138-146 | when the first line starts after the position and starts are 3334 ms apart, the plan is one update per line at its start time |
| Schedule.MergedExample | src/discord.rs:147-180 | lines at 0 ms, 1000 ms and 1100 ms plan to a single update "A. B. C" at 0 ms |
| Discord.Expired | src/discord.rs:76 | a send no longer counts once the time since it, saturating at zero for a later instant as `duration_since` does, exceeds ten seconds |
| Discord.Dropped | src/discord.rs:73-82 | the number of front entries popped: all of them had expired, and the first one kept has not |
| Discord.Prune | src/discord.rs:73-82 | the window left is a suffix of the old one; everything dropped had expired and its new front has not |
| Discord.PruneKeepsOnlyRecent | src/discord.rs:73-82 | in a chronological window, the kept sends are exactly those at most ten seconds old (one exactly ten seconds old is kept) |
| Discord.PruneKeepsOrder | src/discord.rs:73-82 | pruning keeps the window chronological, with no send later than `now` |
| Discord.RateWindowExample | src/discord.rs:84-88 | three sends within 2 s leave no capacity at 3 s and still none at 10 s; one slot frees just after 10 s |
| Discord.SpacedPlanFitsWindow | src/discord.rs:22-26 | in a spaced plan, the fourth update comes strictly more than ten seconds after the first |
| Discord.Clamp | src/discord.rs:98-101 | the result lies in `[lo, hi]`: below `lo` it is `lo`, above `hi` it is `hi`, and otherwise it is the input |
| Discord.NextLatency | src/discord.rs:96-111 | from zero or an in-range estimate the result is in [10 ms, 2000 ms]; the first sample is the clamped half round trip; later results are whole milliseconds between the old estimate and the sample |
| Discord.LatencyExample | src/discord.rs:96-111 | 240 ms gives 120 ms, and then 40 ms brings it to 100 ms; a first round trip of 4 ms gives 10 ms and one of 5 s gives 2000 ms |
| Discord.Send | src/discord.rs:200-222 | a repeat changes nothing and gives Ok(false); the text is delivered (Ok(true)) exactly when it is new, the pruned window has room and the call completes, and then the send at `now + rtt`, the latency and the text are recorded; Err exactly when the call was made and failed; otherwise only the window is pruned; the schedule is untouched and the invariant kept |
| Discord.Clear | src/discord.rs:225-243 | the schedule and last text are always dropped; the empty status is recorded exactly when the pruned window has room and the call completes; Err exactly when the call was made and failed; the invariant is kept |
| Discord.RecordKeepsWellFormed | src/discord.rs:208-211 | recording a send at `now + rtt` into a pruned window with room keeps at most three chronological sends and the latency in range |
| Discord.SendKeepsWellFormed | src/discord.rs:200-222 | every outcome of `Send` keeps the limiter well formed |
| Discord.ClearKeepsWellFormed | src/discord.rs:225-243 | every outcome of `Clear` keeps the limiter well formed |
| Discord.RateLimiter.constructor | src/discord.rs:62-70 | starts with no sends, no schedule, zero latency and no last text |
| Discord.RateLimiter.CleanupOldTimestamps | src/discord.rs:73-82 | the timestamps become `Prune` of the old timestamps |
| Discord.RateLimiter.HasCapacity | src/discord.rs:85-88 | prunes the window, then answers whether fewer than three sends remain |
| Discord.RateLimiter.Latency | src/discord.rs:91-93 | the estimate is zero or within the clamp range |
| Discord.RateLimiter.UpdateLatency | src/discord.rs:96-111 | the estimate becomes `NextLatency` of the old estimate and the round trip |
| Discord.RateLimiter.BuildSchedule | src/discord.rs:118-183 | the schedule becomes the plan of the upcoming lines; it is spaced, preserves the joined text, has no more updates than lines, and is empty iff every line has ended |
| Discord.RateLimiter.FillSchedule | src/discord.rs:128-182 | the source's scheduling loop leaves exactly `Plan(upcoming, position)` in the schedule |
| Discord.RateLimiter.BatchLines | src/discord.rs:147-180 | the batching branch of the loop leaves the schedule, the next free slot and the index exactly as one `Step` of the specification |
| Discord.RateLimiter.ScanBatch | src/discord.rs:152-158 | the inner scan stops at `BatchEnd` |
| Discord.RateLimiter.GetDueUpdate | src/discord.rs:186-197 | pops and returns the front text iff the position plus the latency has reached its display time; otherwise nothing changes |
| Discord.RateLimiter.SendUpdate | src/discord.rs:200-222 | the fields and the result are exactly those of `Send` on the old fields; the invariant is kept |
| Discord.RateLimiter.RecordSend | src/discord.rs:212 | appends the send instant, as both `send_update` (line 212) and `clear_status` (line 235) do, and keeps the window bounded and in order |
| Discord.RateLimiter.ClearStatus | src/discord.rs:225-243 | the fields and the result are exactly those of `Clear` on the old fields; the invariant is kept |
| Discord.RateLimiter.Reset | src/discord.rs:246-249 | drops the schedule and last text only |
| Discord.TrackInfo | src/discord.rs:345-352 | the track line starts with the name and " - ", is exactly that with no artists, and otherwise ends with the last artist |
| Strings.JoinEnds | src/discord.rs:345-352 | a join of no parts is empty; otherwise it starts with the first part and ends with the last |
| Discord.Follow | src/discord.rs:320-327 | the id is recorded; a new id empties the schedule and the last text and clears the built flag; the same id changes nothing; the window and latency are kept |
| Discord.FrontDue | src/discord.rs:188-191 | the due test of `get_due_update`: there is a front update and position plus the latency estimate has reached its display time |
| Discord.Built | src/discord.rs:332-336 | the schedule the lyrics branch works from: the one already built for this track, or else the plan of the upcoming lines at the position |
| Discord.LyricsStep | src/discord.rs:329-342 | the lyrics branch: build the schedule once, and when its front is due pop it and hand its text to `Send`, whose failure is the result; the schedule is marked built |
| Discord.TrackInfoStep | src/discord.rs:343-354 | the branch without lyrics: `Send` of the track line on the limiter, with the send's failure as the result |
| Discord.StopStep | src/discord.rs:357-363 | nothing playing: with no track nothing changes; otherwise `Clear` the status; a failed clear is the result (the `?` that ends the loop) and keeps the track, a successful one forgets the track and the built flag |
| Discord.TickStep | src/discord.rs:315-364 | one iteration of the status loop: nothing playing is `StopStep`; otherwise `Follow` the track id, then `LyricsStep` or `TrackInfoStep` by whether it has lyrics |
| Discord.TickKeepsWellFormed | src/discord.rs:310-369 | every iteration keeps the window at most three chronological sends and the latency in range, and makes at most one send, at `now + rtt` |
| Discord.LyricsKeepsWellFormed | src/discord.rs:329-343 | the lyrics branch (build the schedule if needed, pop and send the front update once it is due) keeps the limiter well formed and makes at most one send |
| Discord.TickNewTrackWithLyrics | src/discord.rs:320-341 | on a new track with lyrics the fresh plan is left, less its front exactly when the front is due at position plus latency; the due front becomes the last text exactly when the window has room and the call completes |
| Discord.TickSameTrackPops | src/discord.rs:330-341 | on the same track with its schedule built, a due front is taken off; otherwise the iteration changes nothing |
| Discord.TickTrackInfo | src/discord.rs:343-354 | without lyrics the track line is the only text that can become the last text; the schedule is kept on the same track and empty on a new one; a line already shown for the same track changes nothing |
| Discord.TickStopClearsOnce | src/discord.rs:356-363 | a stop after a track clears exactly as `Clear`; a successful clear forgets the track, and the next stopped iteration changes nothing |
| Discord.TickIdle | src/discord.rs:356-363 | nothing playing before or now: the iteration changes nothing |
| Discord.StatusLoop.constructor | src/discord.rs:311-313 | starts with a fresh limiter with no sends, schedule, latency or last text, no track and no schedule built |
| Discord.StatusLoop.FollowTrack | src/discord.rs:320-327 | the loop's state becomes exactly `Follow` of the old state |
| Discord.StatusLoop.ShowLyrics | src/discord.rs:330-342 | state and result are exactly the lyrics branch on values: the plan is built once per track, a due front is popped and handed to `Send`, whose failure is the result |
| Discord.StatusLoop.ShowTrackInfo | src/discord.rs:343-354 | state and result are exactly `Send` of the track line on the old state, with its failure as the result |
| Discord.StatusLoop.StopPlayback | src/discord.rs:357-363 | with no track nothing changes; otherwise the limiter becomes `Clear` of the old one, and only a successful clear forgets the track |
| Discord.StatusLoop.Tick | src/discord.rs:310-369 | state and result are exactly `TickStep` of the old state, whose properties are the Tick lemmas above |
| Spotify.PlaybackState.Step | src/spotify.rs:76-85 | advances only the position, by 50 ms, and only when there is a snapshot |
| Spotify.ProgressPosition | src/spotify.rs:142-145 | negative or missing progress is position zero; otherwise it is the milliseconds given |
| Spotify.PlayingTrack | src/spotify.rs:118-140 | a track exactly when the answer is present, playing, has an item, and the item is a track |
| Spotify.SyncOnce | src/spotify.rs:108-171 | a failed poll changes nothing; no playing track clears the snapshot and the record; a new id replaces the snapshot, with lyrics only for an id whose fetch succeeded; the same id overwrites only the position |
| Spotify.ResyncTick | src/spotify.rs:88-105 | a failed sync is swallowed and the loop goes on; the snapshot and the record are exactly what the sync left in each of its four cases |
| Strings.JoinAppend | src/discord.rs:161-177 | joining two non-empty lists equals joining each and putting the separator between them |

## Left out

- HTTP calls are not modelled: the status PATCH, the music service API, the lyrics fetch
  and `clear_status_sync`. Each enters as a parameter holding its outcome.
- OAuth, token caching, configuration, deserialization and the error enum are not modelled.
- The tokio tasks, the read/write lock and the sleeps are not modelled. Each loop is
  modelled as one iteration, and the snapshot is read as a value.
- NextLatency: the source blends in `f64` (`0.2 * new + 0.8 * old`) and truncates. The model
  uses the integer `(new + 4 * old) / 5` on whole milliseconds. For whole-millisecond inputs in
  [10, 2000] the integer formula equals the truncated `f64` blend; that fact about doubles
  is outside what Dafny proves here, so only the bounds and the worked values in
  `LatencyExample` are proved about the blend.
- Discord.RateLimiter.SendUpdate: the recorded send instant is `now + roundTrip`, the
  instant the call returned. The clock is assumed not to move during pruning.
- Schedule.SortByStart: `sort_by_key` is modelled as a stable insertion sort. Sortedness,
  permutation and "already sorted stays unchanged" are proved. Stability for equal starts
  is built into the definition but is not stated as a lemma.
- The `type` and `opposite_aligned` fields and the lyrics' own start and end times are
  carried in the data but used by nothing, as in the source.
- Emoji arguments and console output are left out.
- Track ids are strings; the music service's id type is not modelled.
- In three places the model follows the code where one might expect otherwise:
  - a failed clearing call ends the status loop (`?` at src/discord.rs:359);
  - clearing checks capacity;
  - a reset keeps the latency estimate.
