/**
 * The playlist playback slice
 * (`src/player/features/playlists/playlistPlaybackSlice.ts`). It keeps the
 * same queue as the player's playback slice, but here `queue.current` is a
 * position in `shuffled` while shuffle is on, and an index into `tracks`
 * while it is off; the `shuffle` reducer converts between the two.
 * `startQueue` as written stores the track index whatever the flag, so with
 * shuffle on it names the wrong track (`StartQueueShuffledMisreads`); the
 * slice here starts queues with the corrected `PlaylistStartQueue`.
 */
module PlaylistPlayback {
  import opened Wrappers
  import opened JsArray
  import opened Queues

  datatype Repeat = Off | TrackRepeat | PlaylistRepeat
  datatype Track = Track(id: string, url: string, title: string)
  datatype Playback = Playback(progress: real, duration: real)

  /** The index into `tracks` of the track being played, if `current` names one. */
  function PlayingIndex(q: Queue, shuffle: bool): (r: Option<int>)
    ensures !shuffle ==> r == Some(q.current)
    ensures shuffle ==> (r.Some? <==> 0 <= q.current < |q.shuffled|)
  {
    if !shuffle then Some(q.current)
    else if 0 <= q.current < |q.shuffled| then Some(q.shuffled[q.current])
    else None
  }

  /**
   * `shuffle(on)` applied to a queue: find the real track index; switching
   * on puts it first in a reshuffled play order at position 0, switching off
   * makes it `current`.
   */
  function ToggleShuffle(q: Queue, wasShuffled: bool, on: bool, order: seq<int>): Queue
    requires wasShuffled ==> 0 <= q.current < |q.shuffled|
  {
    var currentIndex := if wasShuffled then q.shuffled[q.current] else q.current;
    if on then q.(shuffled := Reshuffle(q.shuffled, currentIndex, order), current := 0)
    else q.(current := currentIndex)
  }

  /**
   * Toggling shuffle keeps the same track playing; switching it on keeps the
   * play order a permutation and puts the playing track first.
   */
  lemma ToggleShuffleKeepsTrack(q: Queue, wasShuffled: bool, on: bool, order: seq<int>)
    requires wasShuffled ==> 0 <= q.current < |q.shuffled|
    ensures PlayingIndex(ToggleShuffle(q, wasShuffled, on, order), on) == PlayingIndex(q, wasShuffled)
    ensures var currentIndex := PlayingIndex(q, wasShuffled).value;
      on && currentIndex in q.shuffled && ShuffleOf(order, ShuffleRest(q.shuffled, currentIndex)) ==>
        && multiset(ToggleShuffle(q, wasShuffled, on, order).shuffled) == multiset(q.shuffled)
        && ToggleShuffle(q, wasShuffled, on, order).current == 0
    ensures ToggleShuffle(q, wasShuffled, on, order).tracks == q.tracks
  {
    var currentIndex := PlayingIndex(q, wasShuffled).value;
    if on && currentIndex in q.shuffled && ShuffleOf(order, ShuffleRest(q.shuffled, currentIndex)) {
      ReshufflePermutes(q.shuffled, currentIndex, order);
    }
  }

  /**
   * `startQueue` as written (`Queues.StartQueue`) with shuffle on: the
   * chosen track "b" is index 1 of the tracks and is put first in the play
   * order, but `current` is also 1, which the slice reads as a position in
   * the play order, so track "a" is the one named as playing.
   */
  lemma StartQueueShuffledMisreads()
    ensures ShuffleOf([0, 2], StartRest(3, IndexOf(["a", "b", "c"], "b")))
    ensures var q := Queues.StartQueue(["a", "b", "c"], "b", "p", [0, 2]);
      && q.shuffled[0] == IndexOf(q.tracks, "b") == 1
      && PlayingIndex(q, true) == Some(0)
      && q.tracks[0] == "a"
  {
    var tracks := ["a", "b", "c"];
    assert IndexOf(tracks, "b") == 1 by {
      assert tracks[0] != "b" && tracks[1] == "b";
    }
    assert Range(3) == [0, 1, 2];
    assert StartRest(3, 1) == [0, 2];
  }

  /**
   * `startQueue` as intended: with shuffle on, `current` is position 0 of
   * the play order, where the chosen track was put; without it, the
   * chosen track's index.
   */
  function PlaylistStartQueue(tracks: seq<string>, trackId: string, playlistId: string, order: seq<int>, shuffle: bool): (q: Queue)
    ensures q.tracks == tracks && q.playlistId == playlistId
    ensures q.shuffled == [IndexOf(tracks, trackId)] + order
  {
    var q := Queues.StartQueue(tracks, trackId, playlistId, order);
    if shuffle then q.(current := 0) else q
  }

  /**
   * The corrected start names the chosen track as playing whatever the
   * shuffle flag (and names -1, as the source does, when it is absent); the
   * play order is a permutation with the chosen track first.
   */
  lemma PlaylistStartQueuePlaysChosen(tracks: seq<string>, trackId: string, playlistId: string, order: seq<int>, shuffle: bool)
    ensures PlayingIndex(PlaylistStartQueue(tracks, trackId, playlistId, order, shuffle), shuffle) == Some(IndexOf(tracks, trackId))
    ensures trackId in tracks ==> tracks[IndexOf(tracks, trackId)] == trackId
    ensures trackId in tracks && ShuffleOf(order, StartRest(|tracks|, IndexOf(tracks, trackId))) ==>
      multiset(PlaylistStartQueue(tracks, trackId, playlistId, order, shuffle).shuffled) == multiset(Range(|tracks|))
  {
    if trackId in tracks && ShuffleOf(order, StartRest(|tracks|, IndexOf(tracks, trackId))) {
      StartQueuePermutation(tracks, trackId, playlistId, order);
    }
  }

  class PlaylistPlaybackSlice {
    var queue: Option<Queue>
    var playing: bool
    var volume: real
    var muted: bool
    var shuffle: bool
    var repeat: Repeat
    var track: Option<Track>
    var playback: Option<Playback>

    /** `initialState`. */
    constructor ()
      ensures queue.None? && !playing && volume == 1.0 && !muted && !shuffle
      ensures repeat == PlaylistRepeat && track.None? && playback.None?
    {
      queue, playing, volume, muted, shuffle := None, false, 1.0, false, false;
      repeat, track, playback := PlaylistRepeat, None, None;
    }

    /**
     * `startQueue`, corrected: as in the player's slice, except that with
     * shuffle on `current` is the play-order position 0 of the chosen track;
     * `order` is the result of `shuffleArray`.
     */
    method StartQueue(tracks: seq<string>, trackId: string, playlistId: string, order: seq<int>)
      requires ShuffleOf(order, StartRest(|tracks|, IndexOf(tracks, trackId)))
      modifies this
      ensures queue == Some(PlaylistStartQueue(tracks, trackId, playlistId, order, shuffle))
      ensures PlayingIndex(queue.value, shuffle) == Some(IndexOf(tracks, trackId))
      ensures trackId in tracks ==>
        && multiset(queue.value.shuffled) == multiset(Range(|tracks|))
        && tracks[IndexOf(tracks, trackId)] == trackId
        && queue.value.shuffled[0] == IndexOf(tracks, trackId)
      ensures playing == old(playing) && volume == old(volume) && muted == old(muted) && shuffle == old(shuffle)
      ensures repeat == old(repeat) && track == old(track) && playback == old(playback)
    {
      var trackIndex := IndexOf(tracks, trackId);
      // `order` is what `shuffleArray` made of the indices without trackIndex
      var shuffled := [trackIndex] + order;
      // as written the source stores trackIndex here even with shuffle on
      var current := if shuffle then 0 else trackIndex;
      queue := Some(Queue(current, tracks, shuffled, playlistId));
      PlaylistStartQueuePlaysChosen(tracks, trackId, playlistId, order, shuffle);
    }

    /** `updateQueue`: only an existing queue is updated. */
    method UpdateQueue(current: int)
      modifies this
      ensures queue == Queues.UpdateQueue(old(queue), current)
      ensures old(queue).None? ==> queue.None?
      ensures playing == old(playing) && volume == old(volume) && muted == old(muted) && shuffle == old(shuffle)
      ensures repeat == old(repeat) && track == old(track) && playback == old(playback)
    {
      if queue.Some? {
        queue := Some(queue.value.(current := current));
      }
    }

    /** `moveQueueIfNeeded`: reorder only the queue of the same playlist, and only without shuffle. */
    method MoveQueueIfNeeded(playlistId: string, active: string, over: string)
      modifies this
      ensures if old(queue).Some? && old(queue).value.playlistId == playlistId && !shuffle
              then queue == Some(MoveQueue(old(queue).value, active, over))
              else queue == old(queue)
      ensures playing == old(playing) && volume == old(volume) && muted == old(muted) && shuffle == old(shuffle)
      ensures repeat == old(repeat) && track == old(track) && playback == old(playback)
    {
      if queue.Some? && queue.value.playlistId == playlistId && !shuffle {
        var q := queue.value;
        var currentId := if 0 <= q.current < |q.tracks| then Some(q.tracks[q.current]) else None;
        var oldIndex := IndexOf(q.tracks, active);
        var newIndex := IndexOf(q.tracks, over);
        var tracks := Splice(q.tracks, oldIndex, 1, []);
        tracks := Splice(tracks, newIndex, 0, [active]);
        var current := if currentId.Some? then IndexOf(tracks, currentId.value) else -1;
        queue := Some(q.(tracks := tracks, current := current));
      }
    }

    /** `addTrackToQueueIfNeeded`: a track added to the playlist being played joins the queue first. */
    method AddTrackToQueueIfNeeded(playlistId: string, trackId: string)
      modifies this
      ensures if old(queue).Some? && old(queue).value.playlistId == playlistId
              then queue == Some(AddTrack(old(queue).value, trackId))
              else queue == old(queue)
      ensures playing == old(playing) && volume == old(volume) && muted == old(muted) && shuffle == old(shuffle)
      ensures repeat == old(repeat) && track == old(track) && playback == old(playback)
    {
      if queue.Some? && queue.value.playlistId == playlistId {
        var q := queue.value;
        var tracks := [trackId] + q.tracks;
        var shuffled := Bump(q.shuffled);
        shuffled := [0] + shuffled;
        queue := Some(q.(tracks := tracks, shuffled := shuffled, current := q.current + 1));
      }
    }

    /** `playTrack`: play from the start. */
    method PlayTrack(t: Track, duration: real)
      modifies this
      ensures track == Some(t) && playing && playback == Some(Playback(0.0, duration))
      ensures queue == old(queue) && volume == old(volume) && muted == old(muted)
      ensures shuffle == old(shuffle) && repeat == old(repeat)
    {
      track := Some(t);
      playing := true;
      playback := Some(Playback(0.0, duration));
    }

    /** `stopTrack`: no track, no progress, not playing. */
    method StopTrack()
      modifies this
      ensures track.None? && !playing && playback.None?
      ensures queue == old(queue) && volume == old(volume) && muted == old(muted)
      ensures shuffle == old(shuffle) && repeat == old(repeat)
    {
      track := None;
      playing := false;
      playback := None;
    }

    method PlayPause(p: bool)
      modifies this
      ensures playing == p
      ensures queue == old(queue) && volume == old(volume) && muted == old(muted) && shuffle == old(shuffle)
      ensures repeat == old(repeat) && track == old(track) && playback == old(playback)
    {
      playing := p;
    }

    /** `updatePlayback`: only existing progress is updated. */
    method UpdatePlayback(progress: real)
      modifies this
      ensures old(playback).None? ==> playback.None?
      ensures old(playback).Some? ==> playback == Some(old(playback).value.(progress := progress))
      ensures queue == old(queue) && playing == old(playing) && volume == old(volume) && muted == old(muted)
      ensures shuffle == old(shuffle) && repeat == old(repeat) && track == old(track)
    {
      if playback.Some? {
        playback := Some(playback.value.(progress := progress));
      }
    }

    method AdjustVolume(v: real)
      modifies this
      ensures volume == v
      ensures queue == old(queue) && playing == old(playing) && muted == old(muted) && shuffle == old(shuffle)
      ensures repeat == old(repeat) && track == old(track) && playback == old(playback)
    {
      volume := v;
    }

    method Mute(m: bool)
      modifies this
      ensures muted == m
      ensures queue == old(queue) && playing == old(playing) && volume == old(volume) && shuffle == old(shuffle)
      ensures repeat == old(repeat) && track == old(track) && playback == old(playback)
    {
      muted := m;
    }

    /**
     * `shuffle`: convert the queue's `current` between the two meanings and
     * set the flag, which is set even when there is no queue. Reading
     * `shuffled[current]` needs `current` to be a position of `shuffled`.
     */
    method Shuffle(on: bool, order: seq<int>)
      requires queue.Some? && shuffle ==> 0 <= queue.value.current < |queue.value.shuffled|
      requires queue.Some? && on ==>
        var q := queue.value;
        ShuffleOf(order, ShuffleRest(q.shuffled, if shuffle then q.shuffled[q.current] else q.current))
      modifies this
      ensures shuffle == on
      ensures old(queue).None? ==> queue.None?
      ensures old(queue).Some? ==>
        && queue == Some(ToggleShuffle(old(queue).value, old(shuffle), on, order))
        && PlayingIndex(queue.value, on) == PlayingIndex(old(queue).value, old(shuffle))
      ensures playing == old(playing) && volume == old(volume) && muted == old(muted)
      ensures repeat == old(repeat) && track == old(track) && playback == old(playback)
    {
      if queue.Some? {
        var q := queue.value;
        var currentIndex := if shuffle then q.shuffled[q.current] else q.current;
        if on {
          // `order` is what `shuffleArray` made of the play order without currentIndex
          queue := Some(q.(shuffled := [currentIndex] + order, current := 0));
        } else {
          queue := Some(q.(current := currentIndex));
        }
        ToggleShuffleKeepsTrack(q, shuffle, on, order);
      }
      shuffle := on;
    }

    method SetRepeat(r: Repeat)
      modifies this
      ensures repeat == r
      ensures queue == old(queue) && playing == old(playing) && volume == old(volume) && muted == old(muted)
      ensures shuffle == old(shuffle) && track == old(track) && playback == old(playback)
    {
      repeat := r;
    }
  }
}
