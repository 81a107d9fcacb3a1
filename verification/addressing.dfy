/**
 * Row addresses of a chunked column and the reference semantics every gather is
 * measured against: flatten the chunks into one sequence ("rechunk"), then index it.
 */
module Addressing {
  import opened Wrappers

  /**
   * A compact row address: either the null sentinel or a (chunk, index-in-chunk)
   * pair. The bit packing of the real address type is not modelled; `Null` stands for
   * the reserved all-ones pattern and `Id` for every other value.
   */
  datatype ChunkId = Null | Id(chunk: nat, idx: nat)

  /** Total length of a column whose chunks have lengths `lens`. */
  function Sum(lens: seq<nat>): nat
  {
    if |lens| == 0 then 0 else Sum(lens[..|lens| - 1]) + lens[|lens| - 1]
  }

  /** Flat position of the first element of chunk `c`. */
  function Start(lens: seq<nat>, c: nat): nat
    requires c <= |lens|
  {
    Sum(lens[..c])
  }

  /** Per-chunk lengths of a chunked sequence. */
  function Lens<T>(chunks: seq<seq<T>>): (r: seq<nat>)
    ensures |r| == |chunks|
    ensures forall c :: 0 <= c < |chunks| ==> r[c] == |chunks[c]|
  {
    seq(|chunks|, c requires 0 <= c < |chunks| => |chunks[c]|)
  }

  /** Concatenation of all chunks in order: the single chunk a rechunk produces. */
  function Flatten<T>(chunks: seq<seq<T>>): (r: seq<T>)
    ensures |r| == Sum(Lens(chunks))
  {
    if |chunks| == 0 then []
    else
      assert Lens(chunks[..|chunks| - 1]) == Lens(chunks)[..|chunks| - 1];
      Flatten(chunks[..|chunks| - 1]) + chunks[|chunks| - 1]
  }

  /** `id` names an existing element of a column with chunk lengths `lens`. */
  predicate ValidId(lens: seq<nat>, id: ChunkId)
  {
    id.Id? && id.chunk < |lens| && id.idx < lens[id.chunk]
  }

  /** Every address is a valid, non-null one: the caller's promise to the plain gather. */
  predicate ValidIds(lens: seq<nat>, ids: seq<ChunkId>)
  {
    forall k :: 0 <= k < |ids| ==> ValidId(lens, ids[k])
  }

  /** Every address is the null sentinel or valid: the caller's promise to the null-aware gather. */
  predicate ValidOptIds(lens: seq<nat>, ids: seq<ChunkId>)
  {
    forall k :: 0 <= k < |ids| ==> ids[k].Null? || ValidId(lens, ids[k])
  }

  lemma {:induction false} StartBound(lens: seq<nat>, c: nat)
    requires c < |lens|
    ensures Start(lens, c) + lens[c] <= Sum(lens)
    decreases |lens|
  {
    var n := |lens|;
    var init := lens[..n - 1];
    if c == n - 1 {
      assert lens[..c] == init;
    } else {
      assert init[..c] == lens[..c];
      StartBound(init, c);
    }
  }

  /** The flat position an address denotes after a rechunk, `None` for the null sentinel. */
  function Position(lens: seq<nat>, id: ChunkId): (r: Option<nat>)
    requires id.Null? || ValidId(lens, id)
    ensures r.None? <==> id.Null?
    ensures r.Some? ==> r.value < Sum(lens)
  {
    if id.Null? then None
    else
      StartBound(lens, id.chunk);
      Some(Start(lens, id.chunk) + id.idx)
  }

  /** The flattened positions of an address list, in order. */
  function Positions(lens: seq<nat>, ids: seq<ChunkId>): (r: seq<Option<nat>>)
    requires ValidOptIds(lens, ids)
    ensures |r| == |ids|
    ensures forall k :: 0 <= k < |ids| ==> r[k] == Position(lens, ids[k])
  {
    seq(|ids|, k requires 0 <= k < |ids| => Position(lens, ids[k]))
  }

  /** The address of flat position `p`: the inverse of `Position`. */
  function Decompose(lens: seq<nat>, p: nat): (r: ChunkId)
    requires p < Sum(lens)
    ensures ValidId(lens, r)
    ensures Position(lens, r) == Some(p)
    decreases |lens|
  {
    var n := |lens|;
    var init := lens[..n - 1];
    if p >= Sum(init) then
      assert lens[..n - 1] == init;
      Id(n - 1, p - Sum(init))
    else
      var r := Decompose(init, p);
      assert lens[..r.chunk] == init[..r.chunk];
      r
  }

  /** Decomposing the position of a valid address gives the address back. */
  lemma {:induction false} DecomposePosition(lens: seq<nat>, id: ChunkId)
    requires ValidId(lens, id)
    ensures Decompose(lens, Position(lens, id).value) == id
    decreases |lens|
  {
    var n := |lens|;
    var init := lens[..n - 1];
    var p := Position(lens, id).value;
    if id.chunk == n - 1 {
      assert lens[..id.chunk] == init;
    } else {
      assert init[..id.chunk] == lens[..id.chunk];
      StartBound(init, id.chunk);
      DecomposePosition(init, id);
    }
  }

  /** Distinct valid addresses name distinct rows of the rechunked column. */
  lemma PositionInjective(lens: seq<nat>, a: ChunkId, b: ChunkId)
    requires ValidId(lens, a) && ValidId(lens, b)
    ensures Position(lens, a) == Position(lens, b) <==> a == b
  {
    if Position(lens, a) == Position(lens, b) {
      DecomposePosition(lens, a);
      DecomposePosition(lens, b);
    }
  }

  /** Element `c, i` of a chunked sequence sits at flat position `Start(c) + i`. */
  lemma {:induction false} FlattenAt<T>(chunks: seq<seq<T>>, c: nat, i: nat)
    requires c < |chunks| && i < |chunks[c]|
    ensures Start(Lens(chunks), c) + i < |Flatten(chunks)|
    ensures Flatten(chunks)[Start(Lens(chunks), c) + i] == chunks[c][i]
    decreases |chunks|
  {
    var n := |chunks|;
    var init := chunks[..n - 1];
    assert Lens(init) == Lens(chunks)[..n - 1];
    assert Flatten(chunks) == Flatten(init) + chunks[n - 1];
    if c == n - 1 {
      assert Lens(chunks)[..c] == Lens(init);
    } else {
      assert Lens(chunks)[..c] == Lens(init)[..c];
      FlattenAt(init, c, i);
    }
  }

  /**
   * The reference gather: index an already flattened column by optional positions,
   * a missing position producing a null.
   */
  function TakeRef<T>(values: seq<Option<T>>, pos: seq<Option<nat>>): (r: seq<Option<T>>)
    requires forall k :: 0 <= k < |pos| && pos[k].Some? ==> pos[k].value < |values|
    ensures |r| == |pos|
  {
    seq(|pos|, k requires 0 <= k < |pos| => if pos[k].None? then None else values[pos[k].value])
  }

  /** The address list `[(0,0), (0,1), ..., (1,0), ...]` that visits every row in order. */
  function IdentityIds(lens: seq<nat>): (r: seq<ChunkId>)
    ensures |r| == Sum(lens)
    ensures ValidIds(lens, r)
  {
    seq(Sum(lens), p requires 0 <= p < Sum(lens) => Decompose(lens, p))
  }

  /** Gathering by the identity address list reproduces the column. */
  lemma IdentityTake<T>(lens: seq<nat>, values: seq<Option<T>>)
    requires |values| == Sum(lens)
    ensures TakeRef(values, Positions(lens, IdentityIds(lens))) == values
  {
    var ids := IdentityIds(lens);
    var pos := Positions(lens, ids);
    forall k | 0 <= k < |pos|
      ensures pos[k] == Some(k)
    {
      assert ids[k] == Decompose(lens, k);
    }
  }
}
