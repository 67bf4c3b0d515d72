/**
 * The JavaScript array operations the reducers and broadcasters rely on:
 * `indexOf`, `splice` (with its clamping of negative and overlong
 * positions), `filter(x => x !== v)` and the "drag to reorder" idiom
 * `splice(indexOf(active), 1); splice(indexOf(over), 0, active)`.
 */
module JsArray {

  /** `s.indexOf(x)`: the first index holding `x`, or -1. */
  function IndexOf<T(==)>(s: seq<T>, x: T): (i: int)
    ensures -1 <= i < |s|
    ensures i >= 0 ==> s[i] == x
    ensures i >= 0 ==> forall j :: 0 <= j < i ==> s[j] != x
    ensures i == -1 <==> x !in s
  {
    if |s| == 0 then -1
    else if s[0] == x then 0
    else
      var k := IndexOf(s[1..], x);
      assert forall j :: 1 <= j < |s| ==> s[j] == s[1..][j - 1];
      if k < 0 then -1 else k + 1
  }

  /** The start position `splice` actually uses: a negative start counts from the end. */
  function SpliceStart(len: nat, start: int): (a: nat)
    ensures a <= len
    ensures 0 <= start <= len ==> a == start
    ensures start < 0 && len + start >= 0 ==> a == len + start
  {
    if start < 0 then (if len + start < 0 then 0 else len + start)
    else if start > len then len
    else start
  }

  /** `s.splice(start, deleteCount, ...items)`: the array afterwards. */
  function Splice<T>(s: seq<T>, start: int, deleteCount: int, items: seq<T>): seq<T>
  {
    var a := SpliceStart(|s|, start);
    var d := if deleteCount < 0 then 0 else if deleteCount > |s| - a then |s| - a else deleteCount;
    s[..a] + items + s[a + d..]
  }

  /** `s.splice(start)` with no delete count: everything from `start` on is removed. */
  function SpliceToEnd<T>(s: seq<T>, start: int): seq<T>
  {
    s[..SpliceStart(|s|, start)]
  }

  /** `s.filter(y => y !== x)`. */
  function Without<T(==)>(s: seq<T>, x: T): (r: seq<T>)
    ensures x !in r
    ensures |r| <= |s|
    ensures forall y :: y in r ==> y in s
    ensures x !in s ==> r == s
  {
    if |s| == 0 then []
    else if s[0] == x then Without(s[1..], x)
    else [s[0]] + Without(s[1..], x)
  }

  /** Filtering distributes over concatenation: the kept elements stay in their order. */
  lemma {:induction false} WithoutAppend<T>(a: seq<T>, b: seq<T>, x: T)
    ensures Without(a + b, x) == Without(a, x) + Without(b, x)
  {
    if |a| == 0 {
      assert a + b == b;
    } else {
      assert (a + b)[1..] == a[1..] + b;
      WithoutAppend(a[1..], b, x);
    }
  }

  /** Filtering out `x` keeps every other value exactly as often as before. */
  lemma {:induction false} WithoutCounts<T>(s: seq<T>, x: T)
    ensures multiset(Without(s, x)) == multiset(s)[x := 0]
  {
    if |s| == 0 {
    } else {
      WithoutCounts(s[1..], x);
      assert s == [s[0]] + s[1..];
    }
  }

  /**
   * The reorder idiom used by every `move*` reducer: remove `active` at its
   * old index, then insert it at the index `over` had before the removal.
   */
  function Move<T(==)>(s: seq<T>, active: T, over: T): seq<T>
  {
    var oldIndex := IndexOf(s, active);
    var newIndex := IndexOf(s, over);
    Splice(Splice(s, oldIndex, 1, []), newIndex, 0, [active])
  }

  /**
   * When both ids are present, moving gives a permutation that puts
   * `active` at the old index of `over`.
   */
  lemma MovePermutes<T>(s: seq<T>, active: T, over: T)
    requires active in s && over in s
    ensures |Move(s, active, over)| == |s|
    ensures multiset(Move(s, active, over)) == multiset(s)
    ensures Move(s, active, over)[IndexOf(s, over)] == active
  {
    var o := IndexOf(s, active);
    var n := IndexOf(s, over);
    SpliceOutCounts(s, o);
    SpliceInCounts(Splice(s, o, 1, []), n, active);
  }

  /** Deleting at an index inside the array drops that element and keeps the rest in order. */
  lemma SpliceOutAt<T>(s: seq<T>, i: int)
    requires 0 <= i < |s|
    ensures Splice(s, i, 1, []) == s[..i] + s[i + 1..]
  {
    assert SpliceStart(|s|, i) == i;
  }

  /** Deleting the element at `i` takes exactly that one element away. */
  lemma SpliceOutCounts<T>(s: seq<T>, i: int)
    requires 0 <= i < |s|
    ensures |Splice(s, i, 1, [])| == |s| - 1
    ensures multiset(Splice(s, i, 1, [])) + multiset{s[i]} == multiset(s)
  {
    var t := Splice(s, i, 1, []);
    assert t == s[..i] + s[i + 1..];
    assert s == s[..i] + [s[i]] + s[i + 1..];
  }

  /** Inserting `x` at `i` adds exactly that one element, found at `i`. */
  lemma SpliceInCounts<T>(t: seq<T>, i: int, x: T)
    requires 0 <= i <= |t|
    ensures |Splice(t, i, 0, [x])| == |t| + 1
    ensures multiset(Splice(t, i, 0, [x])) == multiset(t) + multiset{x}
    ensures Splice(t, i, 0, [x])[i] == x
  {
    var r := Splice(t, i, 0, [x]);
    assert r == t[..i] + [x] + t[i..];
    assert t == t[..i] + t[i..];
  }

  /**
   * When `active` is not in the array, `indexOf` gives -1 and
   * `splice(-1, 1)` drops the LAST element instead; `active` is then
   * inserted as a new element.
   */
  lemma MoveUnknownActive<T>(s: seq<T>, active: T, over: T)
    requires active !in s && |s| > 0
    ensures multiset(Move(s, active, over)) == multiset(s[..|s| - 1]) + multiset{active}
  {
    var t := Splice(s, -1, 1, []);
    assert t == s[..|s| - 1];
    var n := IndexOf(s, over);
    var a := SpliceStart(|t|, n);
    assert Move(s, active, over) == t[..a] + [active] + t[a..];
    assert t == t[..a] + t[a..];
  }
}
