/**
 * The renderer's bookmarks slice (`src/renderer/features/bookmarks/bookmarksSlice.ts`):
 * bookmarks in a `{ byId, allIds }` table.
 */
module Bookmarks {
  import opened Wrappers
  import opened JsObject
  import opened Tables

  class BookmarksSlice {
    var bookmarks: Table<string>

    /** `initialState`. */
    constructor ()
      ensures bookmarks == Empty()
    {
      bookmarks := Empty();
    }

    /** `addBookmark`: store it under its id and append the id. */
    method AddBookmark(bookmark: Record)
      requires HasStrId(bookmark)
      modifies this
      ensures bookmarks == Add(old(bookmarks), bookmark["id"].s, bookmark)
    {
      bookmarks := Add(bookmarks, bookmark["id"].s, bookmark);
    }

    /** `removeBookmark`: delete it from `byId` and every occurrence from `allIds`. */
    method RemoveBookmark(id: string)
      modifies this
      ensures bookmarks == Remove(old(bookmarks), id)
    {
      bookmarks := Remove(bookmarks, id);
    }

    /** `editBookmark`: throws without an id, otherwise merges the given fields. */
    method EditBookmark(patch: Record) returns (o: Outcome<ReducerError>)
      requires StrIdTyped(patch)
      modifies this
      ensures StrId(patch).None? ==> o == Fail(MissingId) && bookmarks == old(bookmarks)
      ensures StrId(patch).Some? ==> o.Pass? && bookmarks == Edit(old(bookmarks), StrId(patch).value, patch)
    {
      var id := StrId(patch);
      if id.None? {
        return Fail(MissingId);
      }
      bookmarks := Edit(bookmarks, id.value, patch);
      o := Pass;
    }

    method MoveBookmark(active: string, over: string)
      modifies this
      ensures bookmarks == MoveIds(old(bookmarks), active, over)
    {
      bookmarks := MoveIds(bookmarks, active, over);
    }
  }
}
