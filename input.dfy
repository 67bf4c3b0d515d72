/**
 * The renderer's input slice (`src/renderer/features/input/inputSlice.ts`):
 * the audio devices offered and the ids of the inputs chosen among them.
 */
module Input {
  import opened JsArray

  datatype Device = Device(id: string, labelText: string)  // `label` is a Dafny keyword

  predicate NoDuplicates(s: seq<string>)
  {
    forall i, j :: 0 <= i < j < |s| ==> s[i] != s[j]
  }

  /** `addInput`: append unless already present, so the list never holds a duplicate. */
  function WithInput(inputs: seq<string>, id: string): (r: seq<string>)
    ensures id in r && forall x :: x in inputs ==> x in r
    ensures id in inputs ==> r == inputs
    ensures id !in inputs ==> |r| == |inputs| + 1 && r[..|inputs|] == inputs
    ensures NoDuplicates(inputs) ==> NoDuplicates(r)
  {
    if id in inputs then inputs else inputs + [id]
  }

  /** Filtering keeps a list free of duplicates. */
  lemma {:induction false} WithoutNoDuplicates(s: seq<string>, x: string)
    requires NoDuplicates(s)
    ensures NoDuplicates(Without(s, x))
  {
    if |s| > 0 {
      WithoutNoDuplicates(s[1..], x);
      assert s[0] !in s[1..] by {
        forall j | 0 <= j < |s[1..]| ensures s[1..][j] != s[0] {
          assert s[1..][j] == s[j + 1];
        }
      }
    }
  }

  /** Removing an input that was just added gives back the list it was added to. */
  lemma RemoveUndoesAdd(inputs: seq<string>, id: string)
    requires id !in inputs
    ensures Without(WithInput(inputs, id), id) == inputs
  {
    WithoutAppend(inputs, [id], id);
    assert Without([id], id) == [];
  }

  class InputSlice {
    var devices: seq<Device>
    var inputs: seq<string>

    /** `initialState`. */
    constructor ()
      ensures devices == [] && inputs == []
    {
      devices, inputs := [], [];
    }

    method SetDevices(ds: seq<Device>)
      modifies this
      ensures devices == ds && inputs == old(inputs)
    {
      devices := ds;
    }

    /** `setInput`: exactly one input. */
    method SetInput(id: string)
      modifies this
      ensures inputs == [id] && NoDuplicates(inputs)
      ensures devices == old(devices)
    {
      inputs := [id];
    }

    method AddInput(id: string)
      modifies this
      ensures inputs == WithInput(old(inputs), id)
      ensures devices == old(devices)
    {
      if id in inputs {
        return;
      }
      inputs := inputs + [id];
    }

    /** `removeInput`: every occurrence goes; the rest keep their order and counts. */
    method RemoveInput(id: string)
      modifies this
      ensures inputs == Without(old(inputs), id)
      ensures multiset(inputs) == multiset(old(inputs))[id := 0]
      ensures devices == old(devices)
    {
      WithoutCounts(inputs, id);
      inputs := Without(inputs, id);
    }
  }
}
