/**
 * What the view gather guarantees: the output pool is minimal and in first-reference
 * order, every long view resolves to the same storage as in its source chunk, the
 * validity bit is false exactly on null slots, and the column equals
 * rechunk-then-take whichever path produced it.
 */
module BinviewProperties {
  import opened Wrappers
  import opened Addressing
  import opened Sortedness
  import opened Views
  import opened ViewDedup
  import opened BinviewGather

  /** Address `id` is emitted as a long view that references a source buffer with key `key`. */
  predicate References(ca: ViewChunked, id: ChunkId, checkNulls: bool, key: BufferKey)
    requires ca.WellFormed() && (!checkNulls ==> !ca.HasNulls())
    requires id.Null? || ValidId(ca.ChunkLens(), id)
  {
    && !EmitsNull(ca, id, checkNulls)
    && var arr := ca.chunks[id.chunk];
       var src := arr.views[id.idx];
       SourceInBounds(ca, id, checkNulls);
       && !src.IsInline()
       && Key(arr.buffers[src.bufferIdx]) == key
  }

  /** The one address's contribution to the referenced-buffer list carries `key` exactly when it references it. */
  lemma RefOfKey(ca: ViewChunked, id: ChunkId, checkNulls: bool, key: BufferKey)
    requires ca.WellFormed() && (!checkNulls ==> !ca.HasNulls())
    requires id.Null? || ValidId(ca.ChunkLens(), id)
    ensures HasKey(RefOf(ca, id, checkNulls), key) <==> References(ca, id, checkNulls, key)
  {
    var last := RefOf(ca, id, checkNulls);
    if References(ca, id, checkNulls, key) {
      assert Key(last[0]) == key;
    }
  }

  /** Some address of `ids` references `key` iff one of its prefix `init` does or its last one does. */
  lemma ReferencesSnoc(ca: ViewChunked, ids: seq<ChunkId>, init: seq<ChunkId>, checkNulls: bool, key: BufferKey)
    requires Readable(ca, ids, checkNulls) && |ids| > 0 && init == ids[..|ids| - 1]
    ensures Readable(ca, init, checkNulls)
    ensures (exists k :: 0 <= k < |ids| && References(ca, ids[k], checkNulls, key)) <==>
            (exists k :: 0 <= k < |init| && References(ca, init[k], checkNulls, key))
            || References(ca, ids[|ids| - 1], checkNulls, key)
  {
    var n := |ids| - 1;
    if exists k :: 0 <= k < n && References(ca, init[k], checkNulls, key) {
      var k :| 0 <= k < n && References(ca, init[k], checkNulls, key);
      assert ids[k] == init[k];
    }
    if exists k :: 0 <= k < |ids| && References(ca, ids[k], checkNulls, key) {
      var k :| 0 <= k < |ids| && References(ca, ids[k], checkNulls, key);
      if k < n {
        assert init[k] == ids[k];
      }
    }
  }

  /** The referenced-buffer list names exactly the keys some emitted long view references. */
  lemma {:induction false} ReferencedKeys(ca: ViewChunked, ids: seq<ChunkId>, checkNulls: bool, key: BufferKey)
    requires Readable(ca, ids, checkNulls)
    ensures HasKey(Referenced(ca, ids, checkNulls), key) <==>
            exists k :: 0 <= k < |ids| && References(ca, ids[k], checkNulls, key)
    decreases |ids|
  {
    if |ids| > 0 {
      var n := |ids| - 1;
      var init := ids[..n];
      ReferencesSnoc(ca, ids, init, checkNulls, key);
      ReferencedKeys(ca, init, checkNulls, key);
      RefOfKey(ca, ids[n], checkNulls, key);
      HasKeyConcat(Referenced(ca, init, checkNulls), RefOf(ca, ids[n], checkNulls), key);
    }
  }

  /** Every referenced buffer is one of the source column's buffers. */
  lemma {:induction false} ReferencedFromSource(ca: ViewChunked, ids: seq<ChunkId>, checkNulls: bool)
    requires Readable(ca, ids, checkNulls)
    ensures forall j :: 0 <= j < |Referenced(ca, ids, checkNulls)| ==>
      Referenced(ca, ids, checkNulls)[j] in ca.AllBuffers()
    decreases |ids|
  {
    if |ids| > 0 {
      var n := |ids| - 1;
      var refsInit := Referenced(ca, ids[..n], checkNulls);
      var last := RefOf(ca, ids[n], checkNulls);
      var refs := Referenced(ca, ids, checkNulls);
      ReferencedFromSource(ca, ids[..n], checkNulls);
      assert refs == refsInit + last;
      if |last| == 1 {
        var id := ids[n];
        SourceInBounds(ca, id, checkNulls);
        var arr := ca.chunks[id.chunk];
        assert last[0] == arr.buffers[arr.views[id.idx].bufferIdx];
      }
      forall j | 0 <= j < |refs|
        ensures refs[j] in ca.AllBuffers()
      {
        if j < |refsInit| { assert refs[j] == refsInit[j]; } else { assert refs[j] == last[0]; }
      }
    }
  }

  /**
   * Pool minimality of the multi-chunk path: the output pool holds each buffer some
   * emitted long view references exactly once and nothing else, in first-reference
   * order, and every pool buffer is a source buffer.
   */
  lemma MultiChunkPool(ca: ViewChunked, ids: seq<ChunkId>, opt: bool)
    requires ca.WellFormed() && ValidOptIds(ca.ChunkLens(), ids)
    requires !opt ==> ValidIds(ca.ChunkLens(), ids)
    ensures var out := MultiChunkGather(ca, ids, opt);
      && DistinctKeys(out.buffers)
      && (forall key :: HasKey(out.buffers, key) <==>
            exists k :: 0 <= k < |ids| && References(ca, ids[k], ca.HasNulls(), key))
      && (forall j :: 0 <= j < |out.buffers| ==> out.buffers[j] in ca.AllBuffers())
      && out.buffers == DedupByKey(Referenced(ca, ids, ca.HasNulls()))
  {
    var cn := ca.HasNulls();
    var out := MultiChunkGather(ca, ids, opt);
    var refs := Referenced(ca, ids, cn);
    forall key
      ensures HasKey(out.buffers, key) <==> exists k :: 0 <= k < |ids| && References(ca, ids[k], cn, key)
    {
      ReferencedKeys(ca, ids, cn, key);
    }
    ReferencedFromSource(ca, ids, cn);
  }

  /**
   * A slot emitted for a non-null element against a pool drawn from the column's own
   * buffers: with sound buffer identity a long view's new index names the very buffer
   * its source view names, so the slot denotes the source bytes.
   */
  lemma EmittedSameBuffer(ca: ViewChunked, id: ChunkId, cn: bool, v: View, pool: seq<Buffer>)
    requires ca.WellFormed() && ca.PointerCoherent() && (!cn ==> !ca.HasNulls())
    requires ValidId(ca.ChunkLens(), id) && !EmitsNull(ca, id, cn)
    requires forall j :: 0 <= j < |pool| ==> pool[j] in ca.AllBuffers()
    requires Emitted(ca, id, cn, v, true, pool)
    ensures var arr := ca.chunks[id.chunk];
      var src := arr.views[id.idx];
      && InBounds(src, arr.buffers) && InBounds(v, pool)
      && (src.IsInline() ==> v == src)
      && (!src.IsInline() ==>
            && v == src.(bufferIdx := v.bufferIdx)
            && pool[v.bufferIdx] == arr.buffers[src.bufferIdx])
      && ViewBytes(v, pool) == ViewBytes(src, arr.buffers)
  {
    var arr := ca.chunks[id.chunk];
    var src := arr.views[id.idx];
    SourceInBounds(ca, id, cn);
    if !src.IsInline() {
      assert pool[v.bufferIdx] in ca.AllBuffers();
      assert arr.buffers[src.bufferIdx] in ca.AllBuffers();
    }
  }

  /**
   * With sound buffer identity, each long view of the multi-chunk output resolves to
   * exactly the buffer its source view resolves to, at the same offset and length.
   */
  lemma MultiChunkResolves(ca: ViewChunked, ids: seq<ChunkId>, opt: bool, k: nat)
    requires ca.WellFormed() && ca.PointerCoherent() && ValidOptIds(ca.ChunkLens(), ids)
    requires !opt ==> ValidIds(ca.ChunkLens(), ids)
    requires k < |ids| && !EmitsNull(ca, ids[k], ca.HasNulls())
    ensures var out := MultiChunkGather(ca, ids, opt);
      var arr := ca.chunks[ids[k].chunk];
      var src := arr.views[ids[k].idx];
      && !out.IsNull(k)
      && (src.IsInline() ==> out.views[k] == src)
      && (!src.IsInline() ==>
            && out.views[k].bufferIdx < |out.buffers| && src.bufferIdx < |arr.buffers|
            && out.views[k] == src.(bufferIdx := out.views[k].bufferIdx)
            && out.buffers[out.views[k].bufferIdx] == arr.buffers[src.bufferIdx])
  {
    var cn := ca.HasNulls();
    var out := MultiChunkGather(ca, ids, opt);
    MultiChunkPool(ca, ids, opt);
    assert Emitted(ca, ids[k], cn, out.views[k], !out.IsNull(k), out.buffers);
    EmittedSameBuffer(ca, ids[k], cn, out.views[k], out.buffers);
  }

  /**
   * The validity bit of output slot `k` is false exactly when its address is null or
   * the source element is null, and a false bit comes with the zeroed view.
   */
  lemma GatherChunkValidity(ca: ViewChunked, ids: seq<ChunkId>, opt: bool)
    requires ca.WellFormed() && ValidOptIds(ca.ChunkLens(), ids)
    requires !opt ==> ValidIds(ca.ChunkLens(), ids)
    ensures var out := GatherChunk(ca, ids, opt);
      forall k :: 0 <= k < |ids| ==>
        && (out.IsNull(k) <==> ids[k].Null? || ca.chunks[ids[k].chunk].IsNull(ids[k].idx))
        && (out.IsNull(k) ==> out.views[k] == DefaultView)
  {
    var out := GatherChunk(ca, ids, opt);
    var cn := ca.HasNulls();
    forall k | 0 <= k < |ids|
      ensures out.IsNull(k) <==> ids[k].Null? || ca.chunks[ids[k].chunk].IsNull(ids[k].idx)
      ensures out.IsNull(k) ==> out.views[k] == DefaultView
    {
      if |ca.chunks| != 1 {
        assert Emitted(ca, ids[k], cn, out.views[k], !out.IsNull(k), out.buffers);
        if ids[k].Id? && ca.chunks[ids[k].chunk].IsNull(ids[k].idx) {
          assert ca.chunks[ids[k].chunk].HasNulls();
        }
      }
    }
  }

  /** The single-chunk output is well formed and equals rechunk-then-take. */
  lemma SingleChunkIsRechunkTake(ca: ViewChunked, ids: seq<ChunkId>, opt: bool)
    requires ca.WellFormed() && |ca.chunks| == 1 && ValidOptIds(ca.ChunkLens(), ids)
    requires !opt ==> ValidIds(ca.ChunkLens(), ids)
    ensures SingleChunkGather(ca.chunks[0], ids, opt).WellFormed()
    ensures SingleChunkGather(ca.chunks[0], ids, opt).Values()
            == TakeRef(ca.Values(), Positions(ca.ChunkLens(), ids))
  {
    var arr := ca.chunks[0];
    assert ca.ChunkLens() == [|arr.views|];
    var out := SingleChunkGather(arr, ids, opt);
    assert arr.WellFormed();
    var expected := TakeRef(ca.Values(), Positions(ca.ChunkLens(), ids));
    forall k | 0 <= k < |ids|
      ensures !out.IsNull(k) ==> InBounds(out.views[k], out.buffers)
      ensures out.WellFormed() ==> out.ValueAt(k) == expected[k]
    {
      if ids[k].Id? {
        ValueAtPosition(ca, ids[k]);
      }
    }
  }

  /** One slot of the multi-chunk output denotes the same bytes as its source element. */
  lemma MultiChunkSlot(ca: ViewChunked, ids: seq<ChunkId>, opt: bool, k: nat)
    requires ca.WellFormed() && ca.PointerCoherent() && ValidOptIds(ca.ChunkLens(), ids)
    requires !opt ==> ValidIds(ca.ChunkLens(), ids)
    requires k < |ids|
    ensures var out := MultiChunkGather(ca, ids, opt);
      && (out.IsNull(k) <==> EmitsNull(ca, ids[k], ca.HasNulls()))
      && (!out.IsNull(k) ==>
            var arr := ca.chunks[ids[k].chunk];
            && InBounds(out.views[k], out.buffers)
            && InBounds(arr.views[ids[k].idx], arr.buffers)
            && ViewBytes(out.views[k], out.buffers) == ViewBytes(arr.views[ids[k].idx], arr.buffers))
  {
    var cn := ca.HasNulls();
    var out := MultiChunkGather(ca, ids, opt);
    assert Emitted(ca, ids[k], cn, out.views[k], !out.IsNull(k), out.buffers);
    if !out.IsNull(k) {
      MultiChunkPool(ca, ids, opt);
      EmittedSameBuffer(ca, ids[k], cn, out.views[k], out.buffers);
    }
  }

  /** The multi-chunk output is well formed and equals rechunk-then-take. */
  lemma MultiChunkIsRechunkTake(ca: ViewChunked, ids: seq<ChunkId>, opt: bool)
    requires ca.WellFormed() && ca.PointerCoherent() && ValidOptIds(ca.ChunkLens(), ids)
    requires !opt ==> ValidIds(ca.ChunkLens(), ids)
    ensures MultiChunkGather(ca, ids, opt).WellFormed()
    ensures MultiChunkGather(ca, ids, opt).Values()
            == TakeRef(ca.Values(), Positions(ca.ChunkLens(), ids))
  {
    var cn := ca.HasNulls();
    var out := MultiChunkGather(ca, ids, opt);
    forall k | 0 <= k < |ids| && !out.IsNull(k)
      ensures InBounds(out.views[k], out.buffers)
    {
      MultiChunkSlot(ca, ids, opt, k);
    }
    assert out.WellFormed();
    var expected := TakeRef(ca.Values(), Positions(ca.ChunkLens(), ids));
    forall k | 0 <= k < |ids|
      ensures out.ValueAt(k) == expected[k]
    {
      MultiChunkSlot(ca, ids, opt, k);
      if ids[k].Id? {
        ValueAtPosition(ca, ids[k]);
        if !out.IsNull(k) {
          SourceInBounds(ca, ids[k], cn);
        }
      }
    }
  }

  /** The output chunk of either path equals rechunk-then-take. */
  lemma GatherChunkIsRechunkTake(ca: ViewChunked, ids: seq<ChunkId>, opt: bool)
    requires ca.WellFormed() && ca.PointerCoherent() && ValidOptIds(ca.ChunkLens(), ids)
    requires !opt ==> ValidIds(ca.ChunkLens(), ids)
    ensures GatherChunk(ca, ids, opt).WellFormed()
    ensures GatherChunk(ca, ids, opt).Values() == TakeRef(ca.Values(), Positions(ca.ChunkLens(), ids))
  {
    if |ca.chunks| == 1 {
      SingleChunkIsRechunkTake(ca, ids, opt);
    } else {
      MultiChunkIsRechunkTake(ca, ids, opt);
    }
  }

  /**
   * On a single-chunk source the fast path and the general multi-chunk path, if it
   * were forced, yield the same values.
   */
  lemma FastPathAgrees(ca: ViewChunked, ids: seq<ChunkId>, opt: bool)
    requires ca.WellFormed() && ca.PointerCoherent() && |ca.chunks| == 1
    requires ValidOptIds(ca.ChunkLens(), ids) && (!opt ==> ValidIds(ca.ChunkLens(), ids))
    ensures SingleChunkGather(ca.chunks[0], ids, opt).WellFormed()
    ensures MultiChunkGather(ca, ids, opt).WellFormed()
    ensures SingleChunkGather(ca.chunks[0], ids, opt).Values() == MultiChunkGather(ca, ids, opt).Values()
  {
    SingleChunkIsRechunkTake(ca, ids, opt);
    MultiChunkIsRechunkTake(ca, ids, opt);
  }

  /** `take_unchecked_binview` equals rechunk-then-take. */
  lemma TakeBinviewIsRechunkTake(ca: ViewChunked, ids: seq<ChunkId>, hint: IsSorted, sortedFlag: SortedFlagFn)
    requires ca.WellFormed() && ca.PointerCoherent() && ValidIds(ca.ChunkLens(), ids)
    ensures TakeBinview(ca, ids, hint, sortedFlag).WellFormed()
    ensures TakeBinview(ca, ids, hint, sortedFlag).Values() == TakeRef(ca.Values(), Positions(ca.ChunkLens(), ids))
  {
    var out := TakeBinview(ca, ids, hint, sortedFlag);
    GatherChunkIsRechunkTake(ca, ids, false);
    SingleOutputValues(out);
  }

  /**
   * `take_unchecked_binview_opt` equals rechunk-then-take with a null at every null
   * address; a valid address that points at a null keeps that null.
   */
  lemma TakeBinviewOptIsRechunkTake(ca: ViewChunked, ids: seq<ChunkId>)
    requires ca.WellFormed() && ca.PointerCoherent() && ValidOptIds(ca.ChunkLens(), ids)
    ensures TakeBinviewOpt(ca, ids).WellFormed()
    ensures TakeBinviewOpt(ca, ids).Values() == TakeRef(ca.Values(), Positions(ca.ChunkLens(), ids))
  {
    var out := TakeBinviewOpt(ca, ids);
    GatherChunkIsRechunkTake(ca, ids, true);
    SingleOutputValues(out);
  }

  /** A one-chunk column's values are its chunk's values. */
  lemma SingleOutputValues(out: ViewChunked)
    requires |out.chunks| == 1 && out.chunks[0].WellFormed()
    ensures out.WellFormed() && out.Values() == out.chunks[0].Values()
  {
    assert out.ChunkValues() == [out.chunks[0].Values()];
    assert out.ChunkValues()[..0] == [];
  }

  /** Gathering every row in order reproduces the column's values. */
  lemma IdentityGather(ca: ViewChunked, hint: IsSorted, sortedFlag: SortedFlagFn)
    requires ca.WellFormed() && ca.PointerCoherent()
    ensures TakeBinview(ca, IdentityIds(ca.ChunkLens()), hint, sortedFlag).WellFormed()
    ensures TakeBinview(ca, IdentityIds(ca.ChunkLens()), hint, sortedFlag).Values() == ca.Values()
  {
    var ids := IdentityIds(ca.ChunkLens());
    TakeBinviewIsRechunkTake(ca, ids, hint, sortedFlag);
    assert Lens(ca.ChunkValues()) == ca.ChunkLens();
    IdentityTake(ca.ChunkLens(), ca.Values());
  }
}
