/**
 * The player's playback slice (`src/player/features/playback/playbackSlice.ts`):
 * the queue of the playlist being played, the current track and its
 * progress, volume, mute, shuffle and repeat. Each reducer is a method that
 * updates the fields in place, as Immer's draft does.
 *
 * `queue.current` is an index into `queue.tracks` only when the reducers
 * keep it so: starting a queue on a track that is absent stores -1, and
 * `updateQueue` stores whatever index it is given. `shuffled` only records a
 * play order.
 */
module PlayerPlayback {
  import opened Wrappers
  import opened JsArray
  import opened Queues

  datatype Repeat = Off | TrackRepeat | PlaylistRepeat

  /** `toggleRepeat`: off, then playlist, then track, then off again. */
  function NextRepeat(r: Repeat): (n: Repeat)
    ensures n != r
  {
    match r
    case Off => PlaylistRepeat
    case PlaylistRepeat => TrackRepeat
    case TrackRepeat => Off
  }

  /** Three toggles bring every mode back, passing through the other two. */
  lemma RepeatCycles(r: Repeat)
    ensures NextRepeat(NextRepeat(NextRepeat(r))) == r
    ensures NextRepeat(NextRepeat(r)) != r && NextRepeat(NextRepeat(r)) != NextRepeat(r)
  {
  }

  datatype Track = Track(url: string, title: string)
  datatype Playback = Playback(current: real, duration: real)

  /** The volume step of `increaseVolume` and `decreaseVolume`. */
  const VolumeStep: real := 0.05

  /** `Math.min(volume + step, 1)`. */
  function StepVolume(volume: real, step: real): (v: real)
    ensures v <= 1.0
    ensures v == volume + step || v == 1.0
    ensures volume + step <= 1.0 ==> v == volume + step
  {
    if volume + step < 1.0 then volume + step else 1.0
  }

  /** Increasing never goes above 1; decreasing has no lower clamp and goes below 0. */
  lemma VolumeBounds(volume: real)
    ensures StepVolume(volume, VolumeStep) <= 1.0
    ensures volume <= 1.0 ==> StepVolume(volume, -VolumeStep) == volume - VolumeStep
    ensures StepVolume(0.0, -VolumeStep) < 0.0
  {
  }

  class PlaybackSlice {
    var queue: Option<Queue>
    var playing: bool
    var volume: real
    var muted: bool
    var shuffle: bool
    var repeat: Repeat
    var track: Option<Track>
    var playback: Option<Playback>

    /** `initialState`. */
    constructor ()
      ensures queue.None? && !playing && volume == 1.0 && !muted && !shuffle
      ensures repeat == PlaylistRepeat && track.None? && playback.None?
    {
      queue, playing, volume, muted, shuffle := None, false, 1.0, false, false;
      repeat, track, playback := PlaylistRepeat, None, None;
    }

    /**
     * `startQueue`: all indices, without the chosen one, go through
     * `shuffleArray` (its result is `order`) and the chosen one is put first.
     */
    method StartQueue(tracks: seq<string>, trackId: string, playlistId: string, order: seq<int>)
      requires ShuffleOf(order, StartRest(|tracks|, IndexOf(tracks, trackId)))
      modifies this
      ensures queue == Some(Queues.StartQueue(tracks, trackId, playlistId, order))
      ensures trackId in tracks ==>
        && multiset(queue.value.shuffled) == multiset(Range(|tracks|))
        && tracks[queue.value.current] == trackId
        && queue.value.shuffled[0] == queue.value.current
      ensures playing == old(playing) && volume == old(volume) && muted == old(muted) && shuffle == old(shuffle)
      ensures repeat == old(repeat) && track == old(track) && playback == old(playback)
    {
      var trackIndex := IndexOf(tracks, trackId);
      // `order` is what `shuffleArray` made of the indices without trackIndex
      var shuffled := [trackIndex] + order;
      queue := Some(Queue(IndexOf(tracks, trackId), tracks, shuffled, playlistId));
      if trackId in tracks {
        StartQueuePermutation(tracks, trackId, playlistId, order);
      }
    }

    /** `updateQueue`: only an existing queue is updated. */
    method UpdateQueue(current: int)
      modifies this
      ensures queue == Queues.UpdateQueue(old(queue), current)
      ensures old(queue).None? ==> queue.None?
      ensures playing == old(playing) && volume == old(volume) && muted == old(muted) && shuffle == old(shuffle)
      ensures repeat == old(repeat) && track == old(track) && playback == old(playback)
    {
      if queue.Some? {
        queue := Some(queue.value.(current := current));
      }
    }

    /** `shuffleQueue`: the current index goes first, the rest is reshuffled (`order`). */
    method ShuffleQueue(order: seq<int>)
      requires queue.Some? ==> ShuffleOf(order, ShuffleRest(queue.value.shuffled, queue.value.current))
      modifies this
      ensures old(queue).None? ==> queue.None?
      ensures old(queue).Some? ==>
        && queue == Some(old(queue).value.(shuffled := Reshuffle(old(queue).value.shuffled, old(queue).value.current, order)))
        && queue.value.shuffled[0] == queue.value.current
        && (old(queue).value.current in old(queue).value.shuffled ==>
              multiset(queue.value.shuffled) == multiset(old(queue).value.shuffled))
      ensures playing == old(playing) && volume == old(volume) && muted == old(muted) && shuffle == old(shuffle)
      ensures repeat == old(repeat) && track == old(track) && playback == old(playback)
    {
      if queue.Some? {
        var q := queue.value;
        var trackIndex := q.current;
        // `order` is what `shuffleArray` made of the play order without trackIndex
        var shuffled := [trackIndex] + order;
        queue := Some(q.(shuffled := shuffled));
        if trackIndex in q.shuffled {
          ReshufflePermutes(q.shuffled, trackIndex, order);
        }
      }
    }

    /** `moveQueueIfNeeded`: reorder only the queue of the same playlist, and only without shuffle. */
    method MoveQueueIfNeeded(playlistId: string, active: string, over: string)
      modifies this
      ensures if old(queue).Some? && old(queue).value.playlistId == playlistId && !shuffle
              then queue == Some(MoveQueue(old(queue).value, active, over))
              else queue == old(queue)
      ensures playing == old(playing) && volume == old(volume) && muted == old(muted) && shuffle == old(shuffle)
      ensures repeat == old(repeat) && track == old(track) && playback == old(playback)
    {
      if queue.Some? && queue.value.playlistId == playlistId && !shuffle {
        var q := queue.value;
        var currentId := if 0 <= q.current < |q.tracks| then Some(q.tracks[q.current]) else None;
        var oldIndex := IndexOf(q.tracks, active);
        var newIndex := IndexOf(q.tracks, over);
        var tracks := Splice(q.tracks, oldIndex, 1, []);
        tracks := Splice(tracks, newIndex, 0, [active]);
        var current := if currentId.Some? then IndexOf(tracks, currentId.value) else -1;
        queue := Some(q.(tracks := tracks, current := current));
      }
    }

    /** `addTrackToQueueIfNeeded`: a track added to the playlist being played joins the queue first. */
    method AddTrackToQueueIfNeeded(playlistId: string, trackId: string)
      modifies this
      ensures if old(queue).Some? && old(queue).value.playlistId == playlistId
              then queue == Some(AddTrack(old(queue).value, trackId))
              else queue == old(queue)
      ensures playing == old(playing) && volume == old(volume) && muted == old(muted) && shuffle == old(shuffle)
      ensures repeat == old(repeat) && track == old(track) && playback == old(playback)
    {
      if queue.Some? && queue.value.playlistId == playlistId {
        var q := queue.value;
        var tracks := [trackId] + q.tracks;
        var shuffled := Bump(q.shuffled);
        shuffled := [0] + shuffled;
        queue := Some(q.(tracks := tracks, shuffled := shuffled, current := q.current + 1));
      }
    }

    /** `playTrack`: play from the start. */
    method PlayTrack(t: Track, duration: real)
      modifies this
      ensures track == Some(t) && playing && playback == Some(Playback(0.0, duration))
      ensures queue == old(queue) && volume == old(volume) && muted == old(muted)
      ensures shuffle == old(shuffle) && repeat == old(repeat)
    {
      track := Some(t);
      playing := true;
      playback := Some(Playback(0.0, duration));
    }

    /** `stopTrack`: no track, no progress, not playing. */
    method StopTrack()
      modifies this
      ensures track.None? && !playing && playback.None?
      ensures queue == old(queue) && volume == old(volume) && muted == old(muted)
      ensures shuffle == old(shuffle) && repeat == old(repeat)
    {
      track := None;
      playing := false;
      playback := None;
    }

    method PlayPause(p: bool)
      modifies this
      ensures playing == p
      ensures queue == old(queue) && volume == old(volume) && muted == old(muted) && shuffle == old(shuffle)
      ensures repeat == old(repeat) && track == old(track) && playback == old(playback)
    {
      playing := p;
    }

    /** `updatePlayback`: only existing progress is updated. */
    method UpdatePlayback(current: real)
      modifies this
      ensures old(playback).None? ==> playback.None?
      ensures old(playback).Some? ==> playback == Some(old(playback).value.(current := current))
      ensures queue == old(queue) && playing == old(playing) && volume == old(volume) && muted == old(muted)
      ensures shuffle == old(shuffle) && repeat == old(repeat) && track == old(track)
    {
      if playback.Some? {
        playback := Some(playback.value.(current := current));
      }
    }

    method AdjustVolume(v: real)
      modifies this
      ensures volume == v
      ensures queue == old(queue) && playing == old(playing) && muted == old(muted) && shuffle == old(shuffle)
      ensures repeat == old(repeat) && track == old(track) && playback == old(playback)
    {
      volume := v;
    }

    method DecreaseVolume()
      modifies this
      ensures volume == StepVolume(old(volume), -VolumeStep)
      ensures queue == old(queue) && playing == old(playing) && muted == old(muted) && shuffle == old(shuffle)
      ensures repeat == old(repeat) && track == old(track) && playback == old(playback)
    {
      volume := StepVolume(volume, -VolumeStep);
    }

    method IncreaseVolume()
      modifies this
      ensures volume == StepVolume(old(volume), VolumeStep) && volume <= 1.0
      ensures queue == old(queue) && playing == old(playing) && muted == old(muted) && shuffle == old(shuffle)
      ensures repeat == old(repeat) && track == old(track) && playback == old(playback)
    {
      volume := StepVolume(volume, VolumeStep);
    }

    method ToggleMute()
      modifies this
      ensures muted == !old(muted)
      ensures queue == old(queue) && playing == old(playing) && volume == old(volume) && shuffle == old(shuffle)
      ensures repeat == old(repeat) && track == old(track) && playback == old(playback)
    {
      muted := !muted;
    }

    method Mute(m: bool)
      modifies this
      ensures muted == m
      ensures queue == old(queue) && playing == old(playing) && volume == old(volume) && shuffle == old(shuffle)
      ensures repeat == old(repeat) && track == old(track) && playback == old(playback)
    {
      muted := m;
    }

    /** `shuffle`: only the flag; the queue is left as it is. */
    method Shuffle(s: bool)
      modifies this
      ensures shuffle == s
      ensures queue == old(queue) && playing == old(playing) && volume == old(volume) && muted == old(muted)
      ensures repeat == old(repeat) && track == old(track) && playback == old(playback)
    {
      shuffle := s;
    }

    method ToggleRepeat()
      modifies this
      ensures repeat == NextRepeat(old(repeat))
      ensures queue == old(queue) && playing == old(playing) && volume == old(volume) && muted == old(muted)
      ensures shuffle == old(shuffle) && track == old(track) && playback == old(playback)
    {
      match repeat {
        case Off => repeat := PlaylistRepeat;
        case PlaylistRepeat => repeat := TrackRepeat;
        case TrackRepeat => repeat := Off;
      }
    }

    method SetRepeat(r: Repeat)
      modifies this
      ensures repeat == r
      ensures queue == old(queue) && playing == old(playing) && volume == old(volume) && muted == old(muted)
      ensures shuffle == old(shuffle) && track == old(track) && playback == old(playback)
    {
      repeat := r;
    }
  }
}
