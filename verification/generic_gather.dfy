/**
 * Gather over a chunked column of fixed-width (or opaque nested) values: the generic
 * `take_chunked_unchecked` / `take_opt_chunked_unchecked` of a chunked array.
 */
module GenericGather {
  import opened Wrappers
  import opened Addressing
  import opened Sortedness

  /**
   * A column stored as several chunks. Each slot is `None` when its validity bit is
   * false; that is how an element reads through the chunk's iterator.
   */
  datatype ChunkedArray<T> = ChunkedArray(chunks: seq<seq<Option<T>>>, sorted: IsSorted)
  {
    function ChunkLens(): seq<nat> { Lens(chunks) }

    /** The column's values in row order, as a rechunk would lay them out. */
    function Values(): seq<Option<T>> { Flatten(chunks) }

    predicate HasNulls()
    {
      exists c, i | 0 <= c < |chunks| && 0 <= i < |chunks[c]| :: chunks[c][i].None?
    }
  }

  /**
   * The contiguous value slices of every chunk. They exist when the element type is
   * stored as a plain slice (`sliceable`) and no chunk has a null; otherwise the
   * gather must read through the validity-aware iterator.
   */
  function DowncastSlices<T>(ca: ChunkedArray<T>, sliceable: bool): (r: Option<seq<seq<T>>>)
    ensures r.Some? <==> sliceable && !ca.HasNulls()
    ensures r.Some? ==> Lens(r.value) == ca.ChunkLens()
    ensures r.Some? ==>
      forall c, i :: 0 <= c < |ca.chunks| && 0 <= i < |ca.chunks[c]| ==> ca.chunks[c][i] == Some(r.value[c][i])
  {
    if sliceable && !ca.HasNulls() then
      var slices := seq(|ca.chunks|, c requires 0 <= c < |ca.chunks| =>
        seq(|ca.chunks[c]|, i requires 0 <= i < |ca.chunks[c]| => ca.chunks[c][i].value));
      assert Lens(slices) == ca.ChunkLens();
      Some(slices)
    else
      None
  }

  /**
   * Chunk-then-offset lookup. The slice route applies it to plain value slices; the
   * iterator route applies it at element type `Option<T>`, so each element is read
   * together with its validity. The two routes differ only in that validity handling.
   */
  function GatherSlices<T>(targets: seq<seq<T>>, ids: seq<ChunkId>): (r: seq<T>)
    requires ValidIds(Lens(targets), ids)
    ensures |r| == |ids|
  {
    seq(|ids|, k requires 0 <= k < |ids| => targets[ids[k].chunk][ids[k].idx])
  }

  /** Null-aware slice route: the null sentinel yields `None`. */
  function GatherSlicesOpt<T>(targets: seq<seq<T>>, ids: seq<ChunkId>): (r: seq<Option<T>>)
    requires ValidOptIds(Lens(targets), ids)
    ensures |r| == |ids|
  {
    seq(|ids|, k requires 0 <= k < |ids| =>
      if ids[k].Null? then None else Some(targets[ids[k].chunk][ids[k].idx]))
  }

  /** Null-aware iterator route. */
  function GatherIterOpt<T>(targets: seq<seq<Option<T>>>, ids: seq<ChunkId>): (r: seq<Option<T>>)
    requires ValidOptIds(Lens(targets), ids)
    ensures |r| == |ids|
  {
    seq(|ids|, k requires 0 <= k < |ids| =>
      if ids[k].Null? then None else targets[ids[k].chunk][ids[k].idx])
  }

  /**
   * `take_chunked_unchecked`: one output chunk whose k-th slot is the source element
   * addressed by `ids[k]`; the sortedness flag merges the source flag with `hint`.
   */
  function TakeChunked<T>(ca: ChunkedArray<T>, ids: seq<ChunkId>, hint: IsSorted,
                          sliceable: bool, sortedFlag: SortedFlagFn): (r: ChunkedArray<T>)
    requires ValidIds(ca.ChunkLens(), ids)
    ensures |r.chunks| == 1 && |r.chunks[0]| == |ids|
    ensures forall k :: 0 <= k < |ids| ==> r.chunks[0][k] == ca.chunks[ids[k].chunk][ids[k].idx]
    ensures r.sorted == sortedFlag(ca.sorted, hint)
  {
    var out := match DowncastSlices(ca, sliceable)
      case Some(targets) =>
        var vals := GatherSlices(targets, ids);
        seq(|vals|, k requires 0 <= k < |vals| => Some(vals[k]))
      case None => GatherSlices(ca.chunks, ids);
    ChunkedArray([out], sortedFlag(ca.sorted, hint))
  }

  /**
   * `take_opt_chunked_unchecked`: like `TakeChunked`, but a null address yields a
   * null. The result keeps the default (unsorted) flag.
   */
  function TakeOptChunked<T>(ca: ChunkedArray<T>, ids: seq<ChunkId>, sliceable: bool): (r: ChunkedArray<T>)
    requires ValidOptIds(ca.ChunkLens(), ids)
    ensures |r.chunks| == 1 && |r.chunks[0]| == |ids|
    ensures forall k :: 0 <= k < |ids| && ids[k].Null? ==> r.chunks[0][k].None?
    ensures forall k :: 0 <= k < |ids| && ids[k].Id? ==> r.chunks[0][k] == ca.chunks[ids[k].chunk][ids[k].idx]
    ensures r.sorted == Not
  {
    var out := match DowncastSlices(ca, sliceable)
      case Some(targets) => GatherSlicesOpt(targets, ids)
      case None => GatherIterOpt(ca.chunks, ids);
    ChunkedArray([out], Not)
  }

  lemma FlattenSingle<T>(s: seq<T>)
    ensures Flatten([s]) == s
  {
    assert [s][..0] == [];
  }

  /** The element a valid address picks is the rechunked column's element at its position. */
  lemma ValueAtPosition<T>(ca: ChunkedArray<T>, id: ChunkId)
    requires ValidId(ca.ChunkLens(), id)
    ensures Position(ca.ChunkLens(), id).value < |ca.Values()|
    ensures ca.Values()[Position(ca.ChunkLens(), id).value] == ca.chunks[id.chunk][id.idx]
  {
    FlattenAt(ca.chunks, id.chunk, id.idx);
  }

  /** Plain gather equals rechunk-then-take at the addresses' flattened positions. */
  lemma TakeChunkedIsRechunkTake<T>(ca: ChunkedArray<T>, ids: seq<ChunkId>, hint: IsSorted,
                                    sliceable: bool, sortedFlag: SortedFlagFn)
    requires ValidIds(ca.ChunkLens(), ids)
    ensures TakeChunked(ca, ids, hint, sliceable, sortedFlag).Values()
            == TakeRef(ca.Values(), Positions(ca.ChunkLens(), ids))
  {
    var r := TakeChunked(ca, ids, hint, sliceable, sortedFlag);
    FlattenSingle(r.chunks[0]);
    var expected := TakeRef(ca.Values(), Positions(ca.ChunkLens(), ids));
    forall k | 0 <= k < |ids|
      ensures r.chunks[0][k] == expected[k]
    {
      ValueAtPosition(ca, ids[k]);
    }
  }

  /**
   * Null-aware gather equals rechunk-then-take with `None` at every null address;
   * a valid address that points at a null keeps that null.
   */
  lemma TakeOptChunkedIsRechunkTake<T>(ca: ChunkedArray<T>, ids: seq<ChunkId>, sliceable: bool)
    requires ValidOptIds(ca.ChunkLens(), ids)
    ensures TakeOptChunked(ca, ids, sliceable).Values()
            == TakeRef(ca.Values(), Positions(ca.ChunkLens(), ids))
  {
    var r := TakeOptChunked(ca, ids, sliceable);
    FlattenSingle(r.chunks[0]);
    var expected := TakeRef(ca.Values(), Positions(ca.ChunkLens(), ids));
    forall k | 0 <= k < |ids|
      ensures r.chunks[0][k] == expected[k]
    {
      if ids[k].Id? {
        ValueAtPosition(ca, ids[k]);
      }
    }
  }

  /** The slice route and the iterator route produce the same column. */
  lemma RoutesAgree<T>(ca: ChunkedArray<T>, ids: seq<ChunkId>, hint: IsSorted, sortedFlag: SortedFlagFn)
    requires ValidIds(ca.ChunkLens(), ids)
    ensures TakeChunked(ca, ids, hint, true, sortedFlag) == TakeChunked(ca, ids, hint, false, sortedFlag)
  {
    var a := TakeChunked(ca, ids, hint, true, sortedFlag);
    var b := TakeChunked(ca, ids, hint, false, sortedFlag);
    assert a.chunks[0] == b.chunks[0];
  }

  /** The same agreement for the null-aware gather. */
  lemma OptRoutesAgree<T>(ca: ChunkedArray<T>, ids: seq<ChunkId>)
    requires ValidOptIds(ca.ChunkLens(), ids)
    ensures TakeOptChunked(ca, ids, true) == TakeOptChunked(ca, ids, false)
  {
    var a := TakeOptChunked(ca, ids, true);
    var b := TakeOptChunked(ca, ids, false);
    assert a.chunks[0] == b.chunks[0];
  }

  /** With no null address the two gathers agree on every value; only the flag differs. */
  lemma OptWithoutNullsIsPlain<T>(ca: ChunkedArray<T>, ids: seq<ChunkId>, hint: IsSorted,
                                  sliceable: bool, sortedFlag: SortedFlagFn)
    requires ValidIds(ca.ChunkLens(), ids)
    ensures TakeOptChunked(ca, ids, sliceable).chunks == TakeChunked(ca, ids, hint, sliceable, sortedFlag).chunks
  {
    var a := TakeOptChunked(ca, ids, sliceable);
    var b := TakeChunked(ca, ids, hint, sliceable, sortedFlag);
    assert a.chunks[0] == b.chunks[0];
  }

  /** Gathering every row in order reproduces the column's values. */
  lemma IdentityGather<T>(ca: ChunkedArray<T>, hint: IsSorted, sliceable: bool, sortedFlag: SortedFlagFn)
    ensures TakeChunked(ca, IdentityIds(ca.ChunkLens()), hint, sliceable, sortedFlag).Values() == ca.Values()
  {
    TakeChunkedIsRechunkTake(ca, IdentityIds(ca.ChunkLens()), hint, sliceable, sortedFlag);
    IdentityTake(ca.ChunkLens(), ca.Values());
  }
}
