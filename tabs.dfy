/**
 * The renderer's tabs slice (`src/renderer/features/tabs/tabsSlice.ts`):
 * browser tabs in a `{ byId, allIds }` table keyed by number, the selected
 * tab, and each tab's count of playing media. Showing and hiding browser
 * views is a call into the Electron window; here `SelectTab` returns which
 * views it asks to hide and to show.
 */
module Tabs {
  import opened Wrappers
  import opened JsArray
  import opened JsObject
  import opened Tables

  const PlayingMedia: string := "playingMedia"

  /** The tab's media count, when it is a number. */
  function MediaCount(tab: Record): Option<int>
  {
    if PlayingMedia in tab && tab[PlayingMedia].Num? then Some(tab[PlayingMedia].n) else None
  }

  /** `tab.playingMedia += 1`; a missing count gives `undefined + 1`, i.e. NaN. */
  function IncreaseMedia(tab: Record): (r: Record)
    ensures r.Keys == tab.Keys + {PlayingMedia}
    ensures forall f :: f in tab && f != PlayingMedia ==> r[f] == tab[f]
    ensures MediaCount(tab).Some? ==> MediaCount(r) == Some(MediaCount(tab).value + 1)
    ensures MediaCount(tab).None? ==> r[PlayingMedia] == NaN
  {
    match MediaCount(tab)
    case Some(n) => tab[PlayingMedia := Num(n + 1)]
    case None => tab[PlayingMedia := NaN]
  }

  /** `tab.playingMedia = Math.max(tab.playingMedia - 1, 0)`: a count never goes below 0. */
  function DecreaseMedia(tab: Record): (r: Record)
    ensures r.Keys == tab.Keys + {PlayingMedia}
    ensures forall f :: f in tab && f != PlayingMedia ==> r[f] == tab[f]
    ensures MediaCount(tab).Some? ==> MediaCount(r).Some? && MediaCount(r).value >= 0
    ensures MediaCount(tab).Some? && MediaCount(tab).value >= 1 ==> MediaCount(r) == Some(MediaCount(tab).value - 1)
    ensures MediaCount(tab).Some? && MediaCount(tab).value < 1 ==> MediaCount(r) == Some(0)
    ensures MediaCount(tab).None? ==> r[PlayingMedia] == NaN
  {
    match MediaCount(tab)
    case Some(n) => tab[PlayingMedia := Num(if n - 1 > 0 then n - 1 else 0)]
    case None => tab[PlayingMedia := NaN]
  }

  /** A media that starts and then stops leaves a tab's (non-negative) count as it was. */
  lemma DecreaseUndoesIncrease(tab: Record)
    requires MediaCount(tab).Some? && MediaCount(tab).value >= 0
    ensures DecreaseMedia(IncreaseMedia(tab)) == tab
  {
    assert DecreaseMedia(IncreaseMedia(tab))[PlayingMedia] == tab[PlayingMedia];
  }

  class TabsSlice {
    var tabs: Table<int>
    var selectedTab: Option<int>

    /** `initialState`. */
    constructor ()
      ensures tabs == Empty() && selectedTab.None?
    {
      tabs, selectedTab := Empty(), None;
    }

    /** `addTab`: store it under its id and append the id. */
    method AddTab(tab: Record)
      requires HasNumId(tab)
      modifies this
      ensures tabs == Add(old(tabs), tab["id"].n, tab)
      ensures selectedTab == old(selectedTab)
    {
      tabs := Add(tabs, tab["id"].n, tab);
    }

    /** `removeTab`: delete it from `byId` and `allIds`, and unselect it if it was selected. */
    method RemoveTab(id: int)
      modifies this
      ensures tabs == Remove(old(tabs), id)
      ensures selectedTab == (if old(selectedTab) == Some(id) then None else old(selectedTab))
    {
      tabs := Remove(tabs, id);
      if selectedTab == Some(id) {
        selectedTab := None;
      }
    }

    /**
     * `selectTab`: hide the previously selected view (only when its id is
     * truthy, so never tab 0), select and show the given one.
     */
    method SelectTab(id: int) returns (hidden: Option<int>, shown: int)
      modifies this
      ensures hidden == (if old(selectedTab).Some? && old(selectedTab).value != 0 then old(selectedTab) else None)
      ensures shown == id && selectedTab == Some(id)
      ensures tabs == old(tabs)
    {
      hidden := None;
      if selectedTab.Some? && selectedTab.value != 0 {
        hidden := selectedTab;
      }
      selectedTab := Some(id);
      shown := id;
    }

    /** `editTab`: throws without an id (0 included); merges only into a tab that exists. */
    method EditTab(patch: Record) returns (o: Outcome<ReducerError>)
      requires NumIdTyped(patch)
      modifies this
      ensures NumId(patch).None? ==> o == Fail(MissingId) && tabs == old(tabs)
      ensures NumId(patch).Some? ==> o.Pass?
      ensures NumId(patch).Some? && NumId(patch).value in old(tabs).byId ==>
        tabs == Edit(old(tabs), NumId(patch).value, patch)
      ensures NumId(patch).Some? && NumId(patch).value !in old(tabs).byId ==> tabs == old(tabs)
      ensures selectedTab == old(selectedTab)
    {
      var id := NumId(patch);
      if id.None? {
        return Fail(MissingId);
      }
      if id.value in tabs.byId {
        tabs := Edit(tabs, id.value, patch);
      }
      o := Pass;
    }

    method MoveTab(active: int, over: int)
      modifies this
      ensures tabs == MoveIds(old(tabs), active, over)
      ensures selectedTab == old(selectedTab)
    {
      tabs := MoveIds(tabs, active, over);
    }

    /** `increaseTabPlayingMedia`: only a known tab's count changes. */
    method IncreaseTabPlayingMedia(id: int)
      modifies this
      ensures id in old(tabs).byId ==> tabs == old(tabs).(byId := old(tabs).byId[id := IncreaseMedia(old(tabs).byId[id])])
      ensures id !in old(tabs).byId ==> tabs == old(tabs)
      ensures selectedTab == old(selectedTab)
    {
      if id in tabs.byId {
        tabs := tabs.(byId := tabs.byId[id := IncreaseMedia(tabs.byId[id])]);
      }
    }

    /** `decreaseTabPlayingMedia`: only a known tab's count changes, and it stops at 0. */
    method DecreaseTabPlayingMedia(id: int)
      modifies this
      ensures id in old(tabs).byId ==> tabs == old(tabs).(byId := old(tabs).byId[id := DecreaseMedia(old(tabs).byId[id])])
      ensures id !in old(tabs).byId ==> tabs == old(tabs)
      ensures selectedTab == old(selectedTab)
    {
      if id in tabs.byId {
        tabs := tabs.(byId := tabs.byId[id := DecreaseMedia(tabs.byId[id])]);
      }
    }
  }
}
