/**
 * The player's soundboards slice (`src/player/features/soundboards/soundboardsSlice.ts`):
 * soundboards in a `{ byId, allIds }` table, each holding the ids of its
 * sounds in `sounds`, and the sounds themselves by id. A reducer that
 * throws returns `Fail` and leaves every field as it was.
 */
module Soundboards {
  import opened Wrappers
  import opened JsArray
  import opened JsObject
  import opened Tables

  const SoundsField: string := "sounds"

  /** `unshift(...added.map(s => s.id))`: the new ids first, in their given order, then the old ones. */
  function PrependSounds(sounds: seq<string>, added: seq<Record>): (r: seq<string>)
    requires forall i :: 0 <= i < |added| ==> "id" in added[i] && added[i]["id"].Str?
    ensures |r| == |added| + |sounds|
    ensures forall i :: 0 <= i < |added| ==> r[i] == added[i]["id"].s
    ensures r[|added|..] == sounds
  {
    IdList(added) + sounds
  }

  class SoundboardsSlice {
    var soundboards: Table<string>
    var sounds: map<string, Record>

    /** `initialState`. */
    constructor ()
      ensures soundboards == Empty() && sounds == map[]
    {
      soundboards, sounds := Empty(), map[];
    }

    /** `addSoundboard`: store it under its id and append the id. */
    method AddSoundboard(board: Record)
      requires HasStrId(board)
      modifies this
      ensures soundboards == Add(old(soundboards), board["id"].s, board)
      ensures sounds == old(sounds)
    {
      soundboards := Add(soundboards, board["id"].s, board);
    }

    /** `removeSoundboard`: delete its sounds one by one, then the board; an unknown board throws. */
    method RemoveSoundboard(id: string) returns (o: Outcome<ReducerError>)
      modifies this
      ensures Children(old(soundboards), id, SoundsField).None? ==>
        o == Fail(TypeError) && soundboards == old(soundboards) && sounds == old(sounds)
      ensures Children(old(soundboards), id, SoundsField).Some? ==>
        && o.Pass?
        && sounds == old(sounds) - Elems(Children(old(soundboards), id, SoundsField).value)
        && soundboards == Remove(old(soundboards), id)
    {
      var owned := Children(soundboards, id, SoundsField);
      if owned.None? {
        return Fail(TypeError);
      }
      var ids := owned.value;
      for i := 0 to |ids|
        invariant sounds == old(sounds) - Elems(ids[..i])
        invariant soundboards == old(soundboards)
      {
        assert ids[..i + 1] == ids[..i] + [ids[i]];
        sounds := sounds - {ids[i]};
      }
      assert ids[..|ids|] == ids;
      soundboards := Remove(soundboards, id);
      o := Pass;
    }

    /** `editSoundboard`: throws without an id, otherwise merges the given fields. */
    method EditSoundboard(patch: Record) returns (o: Outcome<ReducerError>)
      requires StrIdTyped(patch)
      modifies this
      ensures StrId(patch).None? ==> o == Fail(MissingId) && soundboards == old(soundboards)
      ensures StrId(patch).Some? ==> o.Pass? && soundboards == Edit(old(soundboards), StrId(patch).value, patch)
      ensures sounds == old(sounds)
    {
      var id := StrId(patch);
      if id.None? {
        return Fail(MissingId);
      }
      soundboards := Edit(soundboards, id.value, patch);
      o := Pass;
    }

    /** `addSound`: the id goes first on the board and the sound is stored; an unknown board throws. */
    method AddSound(sound: Record, soundboardId: string) returns (o: Outcome<ReducerError>)
      requires HasStrId(sound)
      modifies this
      ensures Children(old(soundboards), soundboardId, SoundsField).None? ==>
        o == Fail(TypeError) && soundboards == old(soundboards) && sounds == old(sounds)
      ensures Children(old(soundboards), soundboardId, SoundsField).Some? ==>
        && o.Pass?
        && soundboards == SetChildren(old(soundboards), soundboardId, SoundsField,
                                      PrependSounds(Children(old(soundboards), soundboardId, SoundsField).value, [sound]))
        && sounds == old(sounds)[sound["id"].s := sound]
    {
      var owned := Children(soundboards, soundboardId, SoundsField);
      if owned.None? {
        return Fail(TypeError);
      }
      assert IdList([sound]) == [sound["id"].s];
      soundboards := SetChildren(soundboards, soundboardId, SoundsField, [sound["id"].s] + owned.value);
      sounds := sounds[sound["id"].s := sound];
      o := Pass;
    }

    /**
     * `addSounds`: the new ids go first on the board in their given order,
     * then each sound is stored in turn; an unknown board throws.
     */
    method AddSounds(added: seq<Record>, soundboardId: string) returns (o: Outcome<ReducerError>)
      requires forall i :: 0 <= i < |added| ==> "id" in added[i] && added[i]["id"].Str?
      modifies this
      ensures Children(old(soundboards), soundboardId, SoundsField).None? ==>
        o == Fail(TypeError) && soundboards == old(soundboards) && sounds == old(sounds)
      ensures Children(old(soundboards), soundboardId, SoundsField).Some? ==>
        && o.Pass?
        && soundboards == SetChildren(old(soundboards), soundboardId, SoundsField,
                                      PrependSounds(Children(old(soundboards), soundboardId, SoundsField).value, added))
        && sounds == StoreAll(old(sounds), added)
    {
      var owned := Children(soundboards, soundboardId, SoundsField);
      if owned.None? {
        return Fail(TypeError);
      }
      soundboards := SetChildren(soundboards, soundboardId, SoundsField, IdList(added) + owned.value);
      for i := 0 to |added|
        invariant sounds == StoreAll(old(sounds), added[..i])
        invariant soundboards == SetChildren(old(soundboards), soundboardId, SoundsField, IdList(added) + owned.value)
      {
        assert added[..i + 1][..i] == added[..i];
        sounds := sounds[added[i]["id"].s := added[i]];
      }
      assert added[..|added|] == added;
      o := Pass;
    }

    /** `removeSound`: every occurrence of the id leaves the board and the sound is deleted. */
    method RemoveSound(soundId: string, soundboardId: string) returns (o: Outcome<ReducerError>)
      modifies this
      ensures Children(old(soundboards), soundboardId, SoundsField).None? ==>
        o == Fail(TypeError) && soundboards == old(soundboards) && sounds == old(sounds)
      ensures Children(old(soundboards), soundboardId, SoundsField).Some? ==>
        && o.Pass?
        && soundboards == SetChildren(old(soundboards), soundboardId, SoundsField,
                                      Without(Children(old(soundboards), soundboardId, SoundsField).value, soundId))
        && sounds == old(sounds) - {soundId}
    {
      var owned := Children(soundboards, soundboardId, SoundsField);
      if owned.None? {
        return Fail(TypeError);
      }
      soundboards := SetChildren(soundboards, soundboardId, SoundsField, Without(owned.value, soundId));
      sounds := sounds - {soundId};
      o := Pass;
    }

    /** `editSound`: throws without an id, otherwise merges the given fields into the sound. */
    method EditSound(patch: Record) returns (o: Outcome<ReducerError>)
      requires StrIdTyped(patch)
      modifies this
      ensures StrId(patch).None? ==> o == Fail(MissingId) && sounds == old(sounds)
      ensures StrId(patch).Some? ==> o.Pass? && sounds == Merge(old(sounds), StrId(patch).value, patch)
      ensures soundboards == old(soundboards)
    {
      var id := StrId(patch);
      if id.None? {
        return Fail(MissingId);
      }
      sounds := Merge(sounds, id.value, patch);
      o := Pass;
    }

    method MoveSoundboard(active: string, over: string)
      modifies this
      ensures soundboards == MoveIds(old(soundboards), active, over)
      ensures sounds == old(sounds)
    {
      soundboards := MoveIds(soundboards, active, over);
    }

    /** `moveSound`: reorder the board's sounds; an unknown board throws. */
    method MoveSound(soundboardId: string, active: string, over: string) returns (o: Outcome<ReducerError>)
      modifies this
      ensures Children(old(soundboards), soundboardId, SoundsField).None? ==>
        o == Fail(TypeError) && soundboards == old(soundboards)
      ensures Children(old(soundboards), soundboardId, SoundsField).Some? ==>
        && o.Pass?
        && soundboards == SetChildren(old(soundboards), soundboardId, SoundsField,
                                      Move(Children(old(soundboards), soundboardId, SoundsField).value, active, over))
      ensures sounds == old(sounds)
    {
      var owned := Children(soundboards, soundboardId, SoundsField);
      if owned.None? {
        return Fail(TypeError);
      }
      soundboards := SetChildren(soundboards, soundboardId, SoundsField, Move(owned.value, active, over));
      o := Pass;
    }
  }
}
