/**
 * The normalised `{ byId, allIds }` collections of the Redux slices
 * (playlists, soundboards, tabs, bookmarks) and the reducer steps they all
 * share: add, remove, edit by spreading a partial record, reorder, and the
 * id lists a parent record keeps of its children (a playlist's `tracks`,
 * a soundboard's `sounds`).
 */
module Tables {
  import opened Wrappers
  import opened JsArray
  import opened JsObject

  /** Records by id, and the order in which the ids are shown. */
  datatype Table<K> = Table(byId: map<K, Record>, allIds: seq<K>)

  function Empty<K>(): Table<K>
  {
    Table(map[], [])
  }

  /** `byId[id] = rec; allIds.push(id)`. */
  function Add<K>(t: Table<K>, id: K, rec: Record): (r: Table<K>)
    ensures r.byId.Keys == t.byId.Keys + {id} && r.byId[id] == rec
    ensures forall k :: k in t.byId && k != id ==> r.byId[k] == t.byId[k]
    ensures r.allIds == t.allIds + [id]
  {
    Table(t.byId[id := rec], t.allIds + [id])
  }

  /** `delete byId[id]; allIds = allIds.filter(x => x !== id)`. */
  function Remove<K>(t: Table<K>, id: K): (r: Table<K>)
    ensures r.byId.Keys == t.byId.Keys - {id}
    ensures forall k :: k in r.byId ==> r.byId[k] == t.byId[k]
    ensures id !in r.allIds
    ensures multiset(r.allIds) == multiset(t.allIds)[id := 0]
  {
    WithoutCounts(t.allIds, id);
    Table(t.byId - {id}, Without(t.allIds, id))
  }

  /** Removing a freshly added id gives back the collection it was added to. */
  lemma RemoveUndoesAdd<K>(t: Table<K>, id: K, rec: Record)
    requires id !in t.byId && id !in t.allIds
    ensures Remove(Add(t, id, rec), id) == t
  {
    WithoutAppend(t.allIds, [id], id);
    assert Without([id], id) == [];
    assert Add(t, id, rec).byId - {id} == t.byId;
  }

  /** `m[id] = {...m[id], ...patch}`: a missing record is spread from `undefined`, i.e. from nothing. */
  function Merge<K>(m: map<K, Record>, id: K, patch: Record): (r: map<K, Record>)
    ensures r.Keys == m.Keys + {id}
    ensures forall f :: f in patch ==> f in r[id] && r[id][f] == patch[f]
    ensures r[id].Keys == (if id in m then m[id].Keys else {}) + patch.Keys
    ensures id in m ==> forall f :: f in m[id] && f !in patch ==> r[id][f] == m[id][f]
    ensures forall k :: k in m && k != id ==> r[k] == m[k]
  {
    m[id := Spread(if id in m then m[id] else map[], patch)]
  }

  /** Merging the same patch again changes nothing. */
  lemma MergeIdempotent<K>(m: map<K, Record>, id: K, patch: Record)
    ensures Merge(Merge(m, id, patch), id, patch) == Merge(m, id, patch)
  {
    var once := Merge(m, id, patch);
    assert Spread(once[id], patch) == once[id];
  }

  /** `edit*`: merge the patch into the record with that id; the order of ids is untouched. */
  function Edit<K>(t: Table<K>, id: K, patch: Record): (r: Table<K>)
    ensures r.allIds == t.allIds
    ensures r.byId == Merge(t.byId, id, patch)
  {
    t.(byId := Merge(t.byId, id, patch))
  }

  /** `move*` on `allIds`: the records are untouched. */
  function MoveIds<K>(t: Table<K>, active: K, over: K): (r: Table<K>)
    ensures r.byId == t.byId
    ensures active in t.allIds && over in t.allIds ==>
      && |r.allIds| == |t.allIds|
      && multiset(r.allIds) == multiset(t.allIds)
      && r.allIds[IndexOf(t.allIds, over)] == active
  {
    if active in t.allIds && over in t.allIds then
      MovePermutes(t.allIds, active, over);
      Table(t.byId, Move(t.allIds, active, over))
    else
      Table(t.byId, Move(t.allIds, active, over))
  }

  /**
   * `byId[owner][field]` as an id list: `None` when the owner is missing
   * or has no such list, where reading or calling a method on it throws.
   */
  function Children<K>(t: Table<K>, owner: K, field: string): (c: Option<seq<string>>)
    ensures c.Some? <==> owner in t.byId && field in t.byId[owner] && t.byId[owner][field].Ids?
    ensures c.Some? ==> t.byId[owner][field] == Ids(c.value)
  {
    if owner in t.byId && field in t.byId[owner] && t.byId[owner][field].Ids? then
      Some(t.byId[owner][field].ids)
    else
      None
  }

  /** Replace the owner's id list; nothing else changes. */
  function SetChildren<K>(t: Table<K>, owner: K, field: string, ids: seq<string>): (r: Table<K>)
    requires owner in t.byId
    ensures r.allIds == t.allIds && r.byId.Keys == t.byId.Keys
    ensures Children(r, owner, field) == Some(ids)
    ensures r.byId[owner].Keys == t.byId[owner].Keys + {field}
    ensures forall f :: f in t.byId[owner] && f != field ==> r.byId[owner][f] == t.byId[owner][f]
    ensures forall k :: k in t.byId && k != owner ==> r.byId[k] == t.byId[k]
  {
    t.(byId := t.byId[owner := t.byId[owner][field := Ids(ids)]])
  }

  /** The set of ids in a list. */
  function Elems(s: seq<string>): (e: set<string>)
    ensures forall x :: x in e <==> x in s
  {
    set x | x in s
  }

  /**
   * Store each record under its id, in list order (`for (x of xs) m[x.id] = x`):
   * a later record with the same id replaces an earlier one.
   */
  function StoreAll(m: map<string, Record>, rs: seq<Record>): (r: map<string, Record>)
    requires forall i :: 0 <= i < |rs| ==> "id" in rs[i] && rs[i]["id"].Str?
    ensures r.Keys == m.Keys + Elems(IdList(rs))
    decreases |rs|
  {
    if |rs| == 0 then m
    else
      var last := rs[|rs| - 1];
      StoreAll(m, rs[..|rs| - 1])[last["id"].s := last]
  }

  /** The ids of a list of records, in order. */
  function IdList(rs: seq<Record>): (ids: seq<string>)
    requires forall i :: 0 <= i < |rs| ==> "id" in rs[i] && rs[i]["id"].Str?
    ensures |ids| == |rs|
    ensures forall i :: 0 <= i < |rs| ==> ids[i] == rs[i]["id"].s
  {
    seq(|rs|, i requires 0 <= i < |rs| => rs[i]["id"].s)
  }

  /**
   * After storing a list, each record is found under its id unless a later
   * record of the list has the same id; records of other ids are untouched.
   */
  lemma {:induction false} StoreAllStores(m: map<string, Record>, rs: seq<Record>, i: nat)
    requires forall j :: 0 <= j < |rs| ==> "id" in rs[j] && rs[j]["id"].Str?
    requires i < |rs|
    requires forall j :: i < j < |rs| ==> rs[j]["id"] != rs[i]["id"]
    ensures StoreAll(m, rs)[rs[i]["id"].s] == rs[i]
    decreases |rs|
  {
    if i < |rs| - 1 {
      var init := rs[..|rs| - 1];
      StoreAllStores(m, init, i);
    }
  }

  lemma {:induction false} StoreAllKeepsOthers(m: map<string, Record>, rs: seq<Record>, k: string)
    requires forall j :: 0 <= j < |rs| ==> "id" in rs[j] && rs[j]["id"].Str?
    requires k in m && forall j :: 0 <= j < |rs| ==> rs[j]["id"] != Str(k)
    ensures StoreAll(m, rs)[k] == m[k]
    decreases |rs|
  {
    if |rs| > 0 {
      StoreAllKeepsOthers(m, rs[..|rs| - 1], k);
    }
  }
}
