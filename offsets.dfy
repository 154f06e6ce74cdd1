/** `remove(atOffsets:)` on an array: every position in the offset set is resolved against
    the order before the call, and all of them are removed in one update. */
module Offsets {

  /** The positions below `n` that are not in `offsets`, in ascending order. */
  function Kept(n: nat, offsets: set<nat>): seq<nat> {
    if n == 0 then [] else Kept(n - 1, offsets) + (if n - 1 in offsets then [] else [n - 1])
  }

  /** `s` without the elements at the positions in `offsets`. */
  function RemoveOffsets<T>(s: seq<T>, offsets: set<nat>): (r: seq<T>)
    ensures |r| <= |s|
  {
    if s == [] then []
    else
      var last := |s| - 1;
      RemoveOffsets(s[..last], offsets) + (if last in offsets then [] else [s[last]])
  }

  /** The offsets that name a position below `n`. */
  function Below(offsets: set<nat>, n: nat): set<nat> {
    set o | o in offsets && o < n
  }

  /** `Kept` lists exactly the positions that survive, each once, in ascending order. */
  lemma {:induction false} KeptIsSurvivors(n: nat, offsets: set<nat>)
    ensures forall k :: 0 <= k < |Kept(n, offsets)| ==>
      Kept(n, offsets)[k] < n && Kept(n, offsets)[k] !in offsets
    ensures forall k, l :: 0 <= k < l < |Kept(n, offsets)| ==> Kept(n, offsets)[k] < Kept(n, offsets)[l]
    ensures forall i :: 0 <= i < n && i !in offsets ==> i in Kept(n, offsets)
  {
    if n > 0 {
      KeptIsSurvivors(n - 1, offsets);
    }
  }

  /** As many positions survive as there are positions not named by an offset. */
  lemma {:induction false} KeptCount(n: nat, offsets: set<nat>)
    ensures |Kept(n, offsets)| + |Below(offsets, n)| == n
  {
    if n > 0 {
      KeptCount(n - 1, offsets);
      if n - 1 in offsets {
        assert Below(offsets, n) == Below(offsets, n - 1) + {n - 1};
      } else {
        assert Below(offsets, n) == Below(offsets, n - 1);
      }
    }
  }

  /** The result holds the element of every surviving position, in the surviving order. */
  lemma {:induction false} RemoveOffsetsSelects<T>(s: seq<T>, offsets: set<nat>)
    ensures |RemoveOffsets(s, offsets)| == |Kept(|s|, offsets)|
    ensures forall k :: 0 <= k < |RemoveOffsets(s, offsets)| ==>
      Kept(|s|, offsets)[k] < |s| && RemoveOffsets(s, offsets)[k] == s[Kept(|s|, offsets)[k]]
  {
    if s != [] {
      var last := |s| - 1;
      RemoveOffsetsSelects(s[..last], offsets);
      KeptIsSurvivors(last, offsets);
    }
  }

  /** With every offset in range, removal keeps exactly the elements whose position before
      the call is not an offset, in their original relative order, and the length drops by
      the number of offsets. */
  lemma RemoveOffsetsSpec<T>(s: seq<T>, offsets: set<nat>)
    requires forall o :: o in offsets ==> o < |s|
    ensures |RemoveOffsets(s, offsets)| == |s| - |offsets|
    ensures |RemoveOffsets(s, offsets)| == |Kept(|s|, offsets)|
    ensures forall k :: 0 <= k < |RemoveOffsets(s, offsets)| ==>
      Kept(|s|, offsets)[k] < |s| && RemoveOffsets(s, offsets)[k] == s[Kept(|s|, offsets)[k]]
  {
    RemoveOffsetsSelects(s, offsets);
    KeptCount(|s|, offsets);
    assert Below(offsets, |s|) == offsets;
  }

  /** Removing positions {1, 3} from [a, b, c, d] leaves [a, c]. */
  lemma RemoveOneAndThree<T>(a: T, b: T, c: T, d: T)
    ensures RemoveOffsets([a, b, c, d], {1, 3}) == [a, c]
  {
    assert [a, b, c, d][..3] == [a, b, c];
    assert [a, b, c][..2] == [a, b];
    assert [a, b][..1] == [a];
    assert [a][..0] == [];
    assert RemoveOffsets([a], {1, 3}) == [a];
    assert RemoveOffsets([a, b], {1, 3}) == [a];
    assert RemoveOffsets([a, b, c], {1, 3}) == [a, c];
  }

  /** Removing positions {0, 2} from [a, b, c] leaves [b]. */
  lemma RemoveZeroAndTwo<T>(a: T, b: T, c: T)
    ensures RemoveOffsets([a, b, c], {0, 2}) == [b]
  {
    assert [a, b, c][..2] == [a, b];
    assert [a, b][..1] == [a];
    assert [a][..0] == [];
    assert RemoveOffsets([a], {0, 2}) == [];
    assert RemoveOffsets([a, b], {0, 2}) == [b];
  }
}
