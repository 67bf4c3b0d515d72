/**
 * The player's playlists slice (`src/player/features/playlists/playlistsSlice.ts`):
 * playlists in a `{ byId, allIds }` table, each holding the ids of its
 * tracks in `tracks`, the tracks themselves by id, and the selected
 * playlist. Each reducer is a method that updates the fields in place; a
 * reducer that throws returns `Fail` and leaves every field as it was.
 */
module Playlists {
  import opened Wrappers
  import opened JsArray
  import opened JsObject
  import opened Tables

  const TracksField: string := "tracks"

  /** `addTrack` on the playlist's own list: the new id goes first. */
  function PrependTrack(tracks: seq<string>, trackId: string): (r: seq<string>)
    ensures |r| == |tracks| + 1 && r[0] == trackId && r[1..] == tracks
  {
    [trackId] + tracks
  }

  /** Removing a track that was just added gives back the playlist's tracks. */
  lemma RemoveTrackUndoesAdd(tracks: seq<string>, trackId: string)
    requires trackId !in tracks
    ensures Without(PrependTrack(tracks, trackId), trackId) == tracks
  {
    assert PrependTrack(tracks, trackId)[1..] == tracks;
  }

  class PlaylistsSlice {
    var playlists: Table<string>
    var selectedPlaylist: Option<string>
    var tracks: map<string, Record>

    /** `initialState`. */
    constructor ()
      ensures playlists == Empty() && selectedPlaylist.None? && tracks == map[]
    {
      playlists, selectedPlaylist, tracks := Empty(), None, map[];
    }

    /** `addPlaylist`: store the playlist under its id and append the id. */
    method AddPlaylist(playlist: Record)
      requires HasStrId(playlist)
      modifies this
      ensures playlists == Add(old(playlists), playlist["id"].s, playlist)
      ensures selectedPlaylist == old(selectedPlaylist) && tracks == old(tracks)
    {
      playlists := Add(playlists, playlist["id"].s, playlist);
    }

    /**
     * `removePlaylist`: delete the playlist's tracks one by one, then the
     * playlist; an unknown playlist (or one without a track list) throws.
     */
    method RemovePlaylist(id: string) returns (o: Outcome<ReducerError>)
      modifies this
      ensures Children(old(playlists), id, TracksField).None? ==>
        o == Fail(TypeError) && playlists == old(playlists) && tracks == old(tracks)
        && selectedPlaylist == old(selectedPlaylist)
      ensures Children(old(playlists), id, TracksField).Some? ==>
        && o.Pass?
        && tracks == old(tracks) - Elems(Children(old(playlists), id, TracksField).value)
        && playlists == Remove(old(playlists), id)
        && selectedPlaylist == (if old(selectedPlaylist) == Some(id) then None else old(selectedPlaylist))
    {
      var owned := Children(playlists, id, TracksField);
      if owned.None? {
        return Fail(TypeError);
      }
      var ids := owned.value;
      for i := 0 to |ids|
        invariant tracks == old(tracks) - Elems(ids[..i])
        invariant playlists == old(playlists) && selectedPlaylist == old(selectedPlaylist)
      {
        assert ids[..i + 1] == ids[..i] + [ids[i]];
        tracks := tracks - {ids[i]};
      }
      assert ids[..|ids|] == ids;
      playlists := Remove(playlists, id);
      if selectedPlaylist == Some(id) {
        selectedPlaylist := None;
      }
      o := Pass;
    }

    method SelectPlaylist(id: string)
      modifies this
      ensures selectedPlaylist == Some(id)
      ensures playlists == old(playlists) && tracks == old(tracks)
    {
      selectedPlaylist := Some(id);
    }

    /** `editPlaylist`: throws without an id, otherwise merges the given fields. */
    method EditPlaylist(patch: Record) returns (o: Outcome<ReducerError>)
      requires StrIdTyped(patch)
      modifies this
      ensures StrId(patch).None? ==> o == Fail(MissingId) && playlists == old(playlists)
      ensures StrId(patch).Some? ==> o.Pass? && playlists == Edit(old(playlists), StrId(patch).value, patch)
      ensures selectedPlaylist == old(selectedPlaylist) && tracks == old(tracks)
    {
      var id := StrId(patch);
      if id.None? {
        return Fail(MissingId);
      }
      playlists := Edit(playlists, id.value, patch);
      o := Pass;
    }

    /** `addTrack`: the id goes first in the playlist and the track is stored; an unknown playlist throws. */
    method AddTrack(track: Record, playlistId: string) returns (o: Outcome<ReducerError>)
      requires HasStrId(track)
      modifies this
      ensures Children(old(playlists), playlistId, TracksField).None? ==>
        o == Fail(TypeError) && playlists == old(playlists) && tracks == old(tracks)
      ensures Children(old(playlists), playlistId, TracksField).Some? ==>
        && o.Pass?
        && playlists == SetChildren(old(playlists), playlistId, TracksField,
                                    PrependTrack(Children(old(playlists), playlistId, TracksField).value, track["id"].s))
        && tracks == old(tracks)[track["id"].s := track]
      ensures selectedPlaylist == old(selectedPlaylist)
    {
      var owned := Children(playlists, playlistId, TracksField);
      if owned.None? {
        return Fail(TypeError);
      }
      playlists := SetChildren(playlists, playlistId, TracksField, [track["id"].s] + owned.value);
      tracks := tracks[track["id"].s := track];
      o := Pass;
    }

    /** `removeTrack`: every occurrence of the id leaves the playlist and the track is deleted. */
    method RemoveTrack(trackId: string, playlistId: string) returns (o: Outcome<ReducerError>)
      modifies this
      ensures Children(old(playlists), playlistId, TracksField).None? ==>
        o == Fail(TypeError) && playlists == old(playlists) && tracks == old(tracks)
      ensures Children(old(playlists), playlistId, TracksField).Some? ==>
        && o.Pass?
        && playlists == SetChildren(old(playlists), playlistId, TracksField,
                                    Without(Children(old(playlists), playlistId, TracksField).value, trackId))
        && tracks == old(tracks) - {trackId}
      ensures selectedPlaylist == old(selectedPlaylist)
    {
      var owned := Children(playlists, playlistId, TracksField);
      if owned.None? {
        return Fail(TypeError);
      }
      playlists := SetChildren(playlists, playlistId, TracksField, Without(owned.value, trackId));
      tracks := tracks - {trackId};
      o := Pass;
    }

    /** `editTrack`: throws without an id, otherwise merges the given fields into the track. */
    method EditTrack(patch: Record) returns (o: Outcome<ReducerError>)
      requires StrIdTyped(patch)
      modifies this
      ensures StrId(patch).None? ==> o == Fail(MissingId) && tracks == old(tracks)
      ensures StrId(patch).Some? ==> o.Pass? && tracks == Merge(old(tracks), StrId(patch).value, patch)
      ensures playlists == old(playlists) && selectedPlaylist == old(selectedPlaylist)
    {
      var id := StrId(patch);
      if id.None? {
        return Fail(MissingId);
      }
      tracks := Merge(tracks, id.value, patch);
      o := Pass;
    }

    method MovePlaylist(active: string, over: string)
      modifies this
      ensures playlists == MoveIds(old(playlists), active, over)
      ensures selectedPlaylist == old(selectedPlaylist) && tracks == old(tracks)
    {
      playlists := MoveIds(playlists, active, over);
    }

    /** `moveTrack`: reorder the playlist's tracks; an unknown playlist throws. */
    method MoveTrack(playlistId: string, active: string, over: string) returns (o: Outcome<ReducerError>)
      modifies this
      ensures Children(old(playlists), playlistId, TracksField).None? ==>
        o == Fail(TypeError) && playlists == old(playlists)
      ensures Children(old(playlists), playlistId, TracksField).Some? ==>
        && o.Pass?
        && playlists == SetChildren(old(playlists), playlistId, TracksField,
                                    Move(Children(old(playlists), playlistId, TracksField).value, active, over))
      ensures selectedPlaylist == old(selectedPlaylist) && tracks == old(tracks)
    {
      var owned := Children(playlists, playlistId, TracksField);
      if owned.None? {
        return Fail(TypeError);
      }
      playlists := SetChildren(playlists, playlistId, TracksField, Move(owned.value, active, over));
      o := Pass;
    }
  }
}
