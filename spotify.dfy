/**
 * The shared playback snapshot and the two activities that write it: the 50 ms position
 * stepper and the periodic resync against the music service. The service's "currently
 * playing" answer and the lyrics fetch are inputs here, not calls.
 */
module Spotify {
  import opened Wrappers
  import opened Durations
  import opened Lyrics

  /** How far the stepper advances the position on each tick. */
  const StepInterval: Duration := 50 * Millisecond

  /** The parts of the service's track record the program reads; `id` is absent for local files. */
  datatype Track = Track(id: Option<string>, name: string, artists: seq<string>)

  /** What is playing: a track, or something else (a podcast episode). */
  datatype PlayableItem = TrackItem(track: Track) | Episode

  /** The service's answer to "what is playing now", with the progress in whole milliseconds. */
  datatype CurrentlyPlaying = CurrentlyPlaying(isPlaying: bool, item: Option<PlayableItem>, progressMs: Option<int>)

  /** The snapshot every activity shares. */
  datatype CurrentPlayback = CurrentPlayback(track: Track, lyrics: Option<Lyrics>, position: Duration)

  /** The lock-protected `Option<CurrentPlayback>` that the activities share. */
  class PlaybackState {
    var current: Option<CurrentPlayback>

    constructor ()
      ensures current == None
    {
      current := None;
    }

    /** One tick of the stepper: only the position moves, and only when there is a snapshot. */
    method Step()
      modifies this
      ensures old(current).None? ==> current.None?
      ensures old(current).Some? ==>
        && current.Some?
        && current.value.position == old(current).value.position + StepInterval
        && current.value.track == old(current).value.track
        && current.value.lyrics == old(current).value.lyrics
    {
      if current.Some? {
        current := Some(current.value.(position := current.value.position + StepInterval));
      }
    }
  }

  /** The reported progress as a position: negative progress counts as zero, and so does none. */
  function ProgressPosition(progressMs: Option<int>): (position: Duration)
    ensures position % Millisecond == 0
    ensures progressMs.Some? && progressMs.value >= 0 ==> position == progressMs.value * Millisecond
    ensures progressMs.None? || progressMs.value <= 0 ==> position == 0
  {
    match progressMs
    case None => 0
    case Some(ms) => if ms < 0 then 0 else ms * Millisecond
  }

  /** The track being played, if the answer describes a track that is playing. */
  function PlayingTrack(playing: Option<CurrentlyPlaying>): (track: Option<Track>)
    ensures track.Some? <==>
      playing.Some? && playing.value.isPlaying && playing.value.item.Some? && playing.value.item.value.TrackItem?
    ensures track.Some? ==> playing.value.item.value.track == track.value
  {
    if playing.None? || !playing.value.isPlaying then None
    else match playing.value.item
      case None => None
      case Some(item) => if item.TrackItem? then Some(item.track) else None
  }

  /**
   * One resync. `poll` is the service's answer (or its failure); `fetched` is what fetching the
   * lyrics for the new track would return. `lastTrackId` is the caller's record of the track
   * seen last, handed back updated.
   */
  method SyncOnce(state: PlaybackState, lastTrackId: Option<string>,
                  poll: Result<Option<CurrentlyPlaying>>, fetched: Result<Lyrics>)
    returns (r: Result<()>, newLastTrackId: Option<string>)
    modifies state
    // a failed poll changes nothing and reports the failure
    ensures poll.Err? ==> r == Err(poll.error) && newLastTrackId == lastTrackId && state.current == old(state.current)
    // nothing playing, paused, no item, or not a track: the snapshot and the record are cleared
    ensures poll.Ok? && PlayingTrack(poll.value).None? ==>
      r.Ok? && newLastTrackId.None? && state.current.None?
    // a different track (by id): the snapshot is replaced wholesale
    ensures poll.Ok? && PlayingTrack(poll.value).Some? && PlayingTrack(poll.value).value.id != lastTrackId ==>
      var track := PlayingTrack(poll.value).value;
      && r.Ok?
      && newLastTrackId == track.id
      && state.current == Some(CurrentPlayback(
           track,
           if track.id.Some? && fetched.Ok? then Some(fetched.value) else None,
           ProgressPosition(poll.value.value.progressMs)))
    // the same track (also: no id, and none before): only the position is overwritten
    ensures poll.Ok? && PlayingTrack(poll.value).Some? && PlayingTrack(poll.value).value.id == lastTrackId ==>
      && r.Ok?
      && newLastTrackId == lastTrackId
      && (old(state.current).None? ==> state.current.None?)
      && (old(state.current).Some? ==>
            state.current == Some(old(state.current).value.(position := ProgressPosition(poll.value.value.progressMs))))
  {
    if poll.Err? {
      return Err(poll.error), lastTrackId;
    }
    var playing := poll.value;
    if playing.None? || !playing.value.isPlaying || playing.value.item.None? || !playing.value.item.value.TrackItem? {
      state.current := None;
      return Ok(()), None;
    }
    var track := playing.value.item.value.track;
    var position := ProgressPosition(playing.value.progressMs);
    if track.id != lastTrackId {
      newLastTrackId := track.id;
      var lyrics := if track.id.Some? && fetched.Ok? then Some(fetched.value) else None;
      state.current := Some(CurrentPlayback(track, lyrics, position));
    } else {
      newLastTrackId := lastTrackId;
      if state.current.Some? {
        state.current := Some(state.current.value.(position := position));
      }
    }
    r := Ok(());
  }

  /**
   * One round of the resync loop: a failed sync is reported and the loop goes on; the record
   * of the last track is whatever the sync left.
   */
  method ResyncTick(state: PlaybackState, lastTrackId: Option<string>,
                    poll: Result<Option<CurrentlyPlaying>>, fetched: Result<Lyrics>)
    returns (newLastTrackId: Option<string>)
    modifies state
    ensures poll.Err? ==> newLastTrackId == lastTrackId && state.current == old(state.current)
    ensures poll.Ok? && PlayingTrack(poll.value).None? ==> newLastTrackId.None? && state.current.None?
    ensures poll.Ok? && PlayingTrack(poll.value).Some? && PlayingTrack(poll.value).value.id != lastTrackId ==>
      var track := PlayingTrack(poll.value).value;
      && newLastTrackId == track.id
      && state.current == Some(CurrentPlayback(
           track,
           if track.id.Some? && fetched.Ok? then Some(fetched.value) else None,
           ProgressPosition(poll.value.value.progressMs)))
    ensures poll.Ok? && PlayingTrack(poll.value).Some? && PlayingTrack(poll.value).value.id == lastTrackId ==>
      && newLastTrackId == lastTrackId
      && (old(state.current).None? ==> state.current.None?)
      && (old(state.current).Some? ==>
            state.current == Some(old(state.current).value.(position := ProgressPosition(poll.value.value.progressMs))))
  {
    var r;
    r, newLastTrackId := SyncOnce(state, lastTrackId, poll, fetched);
  }
}
