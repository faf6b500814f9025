/** Concatenating a sequence of sequences, as nested loops visit them. */
module Seqs {

  function Flatten<T>(chunks: seq<seq<T>>): seq<T> {
    if chunks == [] then [] else Flatten(chunks[..|chunks| - 1]) + chunks[|chunks| - 1]
  }

  lemma FlattenAppend<T>(chunks: seq<seq<T>>, last: seq<T>)
    ensures Flatten(chunks + [last]) == Flatten(chunks) + last
  {
    assert (chunks + [last])[..|chunks|] == chunks;
  }

  /** Element `j` of chunk `c` has a place in the concatenation. */
  lemma {:induction false} FlattenIncludes<T>(chunks: seq<seq<T>>, c: nat, j: nat) returns (idx: nat)
    requires c < |chunks| && j < |chunks[c]|
    ensures idx < |Flatten(chunks)| && Flatten(chunks)[idx] == chunks[c][j]
  {
    var init := chunks[..|chunks| - 1];
    if c == |chunks| - 1 {
      idx := |Flatten(init)| + j;
    } else {
      assert init[c] == chunks[c];
      idx := FlattenIncludes(init, c, j);
    }
  }

  /** Every element of the concatenation comes from some chunk. */
  lemma {:induction false} FlattenSource<T>(chunks: seq<seq<T>>, idx: nat) returns (c: nat, j: nat)
    requires idx < |Flatten(chunks)|
    ensures c < |chunks| && j < |chunks[c]| && chunks[c][j] == Flatten(chunks)[idx]
  {
    var init := chunks[..|chunks| - 1];
    if idx < |Flatten(init)| {
      c, j := FlattenSource(init, idx);
      assert init[c] == chunks[c];
    } else {
      c, j := |chunks| - 1, idx - |Flatten(init)|;
    }
  }
}
