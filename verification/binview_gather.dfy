/**
 * Gather over view-encoded binary and string columns (`take_unchecked_binview` and
 * `take_unchecked_binview_opt`). A single-chunk source keeps its buffer list and
 * copies views verbatim; a multi-chunk source routes every view through the dedup
 * step so the output pool holds only the buffers actually referenced.
 */
module BinviewGather {
  import opened Wrappers
  import opened Addressing
  import opened Sortedness
  import opened Views
  import opened ViewDedup

  // ---------------------------------------------------------------------------
  // Single-chunk path
  // ---------------------------------------------------------------------------

  /**
   * What one address contributes when the source has one chunk: the zeroed view and
   * a false bit for a null address or (when the source has nulls) a null element,
   * otherwise the source view verbatim and a true bit. Only the in-chunk index is
   * read; the chunk index of a valid address is necessarily zero.
   */
  function SingleStep(arr: ViewArray, id: ChunkId, checkNulls: bool): (View, bool)
    requires id.Null? || id.idx < |arr.views|
  {
    if id.Null? || (checkNulls && arr.IsNull(id.idx)) then (DefaultView, false)
    else (arr.views[id.idx], true)
  }

  /** Views and validity bits for every address of a single-chunk source. */
  function SinglePass(arr: ViewArray, ids: seq<ChunkId>, checkNulls: bool): (r: (seq<View>, seq<bool>))
    requires ValidOptIds([|arr.views|], ids)
    ensures |r.0| == |ids| && |r.1| == |ids|
    ensures forall k :: 0 <= k < |ids| ==> (r.0[k], r.1[k]) == SingleStep(arr, ids[k], checkNulls)
  {
    (seq(|ids|, k requires 0 <= k < |ids| => SingleStep(arr, ids[k], checkNulls).0),
     seq(|ids|, k requires 0 <= k < |ids| => SingleStep(arr, ids[k], checkNulls).1))
  }

  /**
   * The single-chunk branch: the chunk's buffer list is reused as is. The validity
   * bitmap is kept when the gather is null-aware or the chunk has nulls.
   */
  function SingleChunkGather(arr: ViewArray, ids: seq<ChunkId>, opt: bool): (r: ViewArray)
    requires ValidOptIds([|arr.views|], ids)
    requires !opt ==> ValidIds([|arr.views|], ids)
    ensures |r.views| == |ids|
    ensures r.buffers == arr.buffers
    ensures r.validity.Some? <==> opt || arr.HasNulls()
    ensures forall k :: 0 <= k < |ids| && ids[k].Id? && !arr.IsNull(ids[k].idx) ==>
      !r.IsNull(k) && r.views[k] == arr.views[ids[k].idx]
    ensures forall k :: 0 <= k < |ids| && (ids[k].Null? || arr.IsNull(ids[k].idx)) ==>
      r.IsNull(k) && r.views[k] == DefaultView
  {
    var checkNulls := arr.HasNulls();
    var (views, bits) := SinglePass(arr, ids, checkNulls);
    var r := ViewArray(views, arr.buffers, if opt || checkNulls then Some(bits) else None);
    assert forall k :: 0 <= k < |ids| && ids[k].Id? && arr.IsNull(ids[k].idx) ==> checkNulls;
    r
  }

  // ---------------------------------------------------------------------------
  // Multi-chunk path
  // ---------------------------------------------------------------------------

  /** Whether the element an address picks is emitted as null. */
  predicate EmitsNull(ca: ViewChunked, id: ChunkId, checkNulls: bool)
    requires id.Null? || ValidId(ca.ChunkLens(), id)
  {
    id.Null? || (checkNulls && ca.chunks[id.chunk].IsNull(id.idx))
  }

  /** The source buffers a gather may dereference are in bounds. */
  predicate Readable(ca: ViewChunked, ids: seq<ChunkId>, checkNulls: bool)
  {
    && ca.WellFormed()
    && ValidOptIds(ca.ChunkLens(), ids)
    && (!checkNulls ==> !ca.HasNulls())
  }

  lemma SourceInBounds(ca: ViewChunked, id: ChunkId, checkNulls: bool)
    requires ca.WellFormed() && (!checkNulls ==> !ca.HasNulls())
    requires ValidId(ca.ChunkLens(), id) && !EmitsNull(ca, id, checkNulls)
    ensures !ca.chunks[id.chunk].IsNull(id.idx)
    ensures InBounds(ca.chunks[id.chunk].views[id.idx], ca.chunks[id.chunk].buffers)
  {
    if !checkNulls {
      assert !ca.chunks[id.chunk].HasNulls();
    }
  }

  /** What one address contributes on the multi-chunk path, with the pool it leaves. */
  function MultiStep(ca: ViewChunked, id: ChunkId, checkNulls: bool, p: Pool): (r: (View, bool, Pool))
    requires ca.WellFormed() && (!checkNulls ==> !ca.HasNulls())
    requires id.Null? || ValidId(ca.ChunkLens(), id)
    requires Synced(p)
    ensures Synced(r.2)
  {
    if EmitsNull(ca, id, checkNulls) then (DefaultView, false, p)
    else
      var arr := ca.chunks[id.chunk];
      SourceInBounds(ca, id, checkNulls);
      var (v, p') := UpdateView(arr.views[id.idx], arr.buffers, p);
      (v, true, p')
  }

  /** The source buffer an address makes the output reference: none for a null or inline value. */
  function RefOf(ca: ViewChunked, id: ChunkId, checkNulls: bool): (r: seq<Buffer>)
    requires ca.WellFormed() && (!checkNulls ==> !ca.HasNulls())
    requires id.Null? || ValidId(ca.ChunkLens(), id)
    ensures |r| <= 1
  {
    if EmitsNull(ca, id, checkNulls) then []
    else
      var arr := ca.chunks[id.chunk];
      var v := arr.views[id.idx];
      SourceInBounds(ca, id, checkNulls);
      if v.IsInline() then [] else [arr.buffers[v.bufferIdx]]
  }

  /** Every buffer referenced by an emitted long view, in address order, repeats included. */
  function Referenced(ca: ViewChunked, ids: seq<ChunkId>, checkNulls: bool): (r: seq<Buffer>)
    requires Readable(ca, ids, checkNulls)
    decreases |ids|
  {
    if |ids| == 0 then []
    else Referenced(ca, ids[..|ids| - 1], checkNulls) + RefOf(ca, ids[|ids| - 1], checkNulls)
  }

  /**
   * Output slot `v, valid` is what address `id` must produce against the output
   * buffer list `pool`: the zeroed view and a false bit for a null; otherwise a true bit and the
   * source view, where a long view may differ only in its buffer index and that
   * index names a pool buffer that is the same storage as the source's.
   */
  predicate Emitted(ca: ViewChunked, id: ChunkId, checkNulls: bool, v: View, valid: bool, pool: seq<Buffer>)
    requires ca.WellFormed() && (!checkNulls ==> !ca.HasNulls())
    requires id.Null? || ValidId(ca.ChunkLens(), id)
  {
    if EmitsNull(ca, id, checkNulls) then v == DefaultView && !valid
    else
      var arr := ca.chunks[id.chunk];
      var src := arr.views[id.idx];
      SourceInBounds(ca, id, checkNulls);
      && valid
      && v == src.(bufferIdx := v.bufferIdx)
      && (src.IsInline() ==> v == src)
      && (!src.IsInline() ==>
            v.bufferIdx < |pool| && Key(pool[v.bufferIdx]) == Key(arr.buffers[src.bufferIdx]))
  }

  lemma EmittedGrow(ca: ViewChunked, id: ChunkId, checkNulls: bool, v: View, valid: bool,
                    pool: seq<Buffer>, pool': seq<Buffer>)
    requires ca.WellFormed() && (!checkNulls ==> !ca.HasNulls())
    requires id.Null? || ValidId(ca.ChunkLens(), id)
    requires Emitted(ca, id, checkNulls, v, valid, pool)
    requires |pool| <= |pool'| && pool'[..|pool|] == pool
    ensures Emitted(ca, id, checkNulls, v, valid, pool')
  {
    if !EmitsNull(ca, id, checkNulls) && !ca.chunks[id.chunk].views[id.idx].IsInline() {
      assert pool'[v.bufferIdx] == pool[v.bufferIdx];
    }
  }

  /**
   * The multi-chunk loop as a left fold: output views, validity bits and the final
   * dedup state. Every slot is `Emitted` against the final pool, and that pool is the
   * reference pool of the referenced buffers.
   */
  function MultiPass(ca: ViewChunked, ids: seq<ChunkId>, checkNulls: bool): (r: (seq<View>, seq<bool>, Pool))
    requires Readable(ca, ids, checkNulls)
    ensures |r.0| == |ids| && |r.1| == |ids|
    ensures Synced(r.2)
    ensures forall k :: 0 <= k < |ids| ==> Emitted(ca, ids[k], checkNulls, r.0[k], r.1[k], r.2.buffers)
    ensures r.2.buffers == DedupByKey(Referenced(ca, ids, checkNulls))
    decreases |ids|
  {
    if |ids| == 0 then ([], [], EmptyPool)
    else
      var init := ids[..|ids| - 1];
      var id := ids[|ids| - 1];
      var (views, bits, p) := MultiPass(ca, init, checkNulls);
      var (v, b, p') := MultiStep(ca, id, checkNulls, p);
      MultiStepSound(ca, ids, checkNulls, views, bits, p, v, b, p');
      (views + [v], bits + [b], p')
  }

  /** One step of the fold extends the pool to the reference pool of one more address. */
  lemma MultiStepPool(ca: ViewChunked, id: ChunkId, checkNulls: bool, p: Pool, refs: seq<Buffer>)
    requires ca.WellFormed() && (!checkNulls ==> !ca.HasNulls())
    requires id.Null? || ValidId(ca.ChunkLens(), id)
    requires Synced(p) && p.buffers == DedupByKey(refs)
    ensures var p' := MultiStep(ca, id, checkNulls, p).2;
      && |p.buffers| <= |p'.buffers| && p'.buffers[..|p.buffers|] == p.buffers
      && p'.buffers == DedupByKey(refs + RefOf(ca, id, checkNulls))
  {
    var p' := MultiStep(ca, id, checkNulls, p).2;
    if EmitsNull(ca, id, checkNulls) {
      assert refs + RefOf(ca, id, checkNulls) == refs;
    } else {
      var arr := ca.chunks[id.chunk];
      var src := arr.views[id.idx];
      SourceInBounds(ca, id, checkNulls);
      if src.IsInline() {
        assert refs + RefOf(ca, id, checkNulls) == refs;
      } else {
        var buf := arr.buffers[src.bufferIdx];
        assert RefOf(ca, id, checkNulls) == [buf];
        UpdateViewPool(src, arr.buffers, p);
        DedupSnoc(refs, buf);
        assert (p.buffers + [buf])[..|p.buffers|] == p.buffers;
      }
    }
  }

  /** One step of the fold keeps the fold's contract. */
  lemma MultiStepSound(ca: ViewChunked, ids: seq<ChunkId>, checkNulls: bool,
                       views: seq<View>, bits: seq<bool>, p: Pool, v: View, b: bool, p': Pool)
    requires Readable(ca, ids, checkNulls) && |ids| > 0
    requires |views| == |ids| - 1 && |bits| == |ids| - 1 && Synced(p)
    requires forall k :: 0 <= k < |ids| - 1 ==> Emitted(ca, ids[k], checkNulls, views[k], bits[k], p.buffers)
    requires p.buffers == DedupByKey(Referenced(ca, ids[..|ids| - 1], checkNulls))
    requires (v, b, p') == MultiStep(ca, ids[|ids| - 1], checkNulls, p)
    ensures Synced(p')
    ensures forall k :: 0 <= k < |ids| ==> Emitted(ca, ids[k], checkNulls, (views + [v])[k], (bits + [b])[k], p'.buffers)
    ensures p'.buffers == DedupByKey(Referenced(ca, ids, checkNulls))
  {
    var n := |ids| - 1;
    var refs := Referenced(ca, ids[..n], checkNulls);
    assert ids[..n] == ids[..|ids| - 1];
    assert Referenced(ca, ids, checkNulls) == refs + RefOf(ca, ids[n], checkNulls);
    MultiStepPool(ca, ids[n], checkNulls, p, refs);
    MultiStepSlots(ca, ids, checkNulls, views, bits, p, v, b, p');
  }

  /** After one step every earlier slot still resolves against the grown pool, and the new slot is right. */
  lemma MultiStepSlots(ca: ViewChunked, ids: seq<ChunkId>, checkNulls: bool,
                       views: seq<View>, bits: seq<bool>, p: Pool, v: View, b: bool, p': Pool)
    requires Readable(ca, ids, checkNulls) && |ids| > 0
    requires |views| == |ids| - 1 && |bits| == |ids| - 1 && Synced(p)
    requires forall k :: 0 <= k < |ids| - 1 ==> Emitted(ca, ids[k], checkNulls, views[k], bits[k], p.buffers)
    requires (v, b, p') == MultiStep(ca, ids[|ids| - 1], checkNulls, p)
    requires |p.buffers| <= |p'.buffers| && p'.buffers[..|p.buffers|] == p.buffers
    ensures forall k :: 0 <= k < |ids| ==> Emitted(ca, ids[k], checkNulls, (views + [v])[k], (bits + [b])[k], p'.buffers)
  {
    var n := |ids| - 1;
    forall k | 0 <= k < |ids|
      ensures Emitted(ca, ids[k], checkNulls, (views + [v])[k], (bits + [b])[k], p'.buffers)
    {
      if k < n {
        EmittedGrow(ca, ids[k], checkNulls, views[k], bits[k], p.buffers, p'.buffers);
      } else {
        MultiStepEmitted(ca, ids[k], checkNulls, p);
      }
    }
  }

  /** The slot a step emits is the one its address must produce. */
  lemma MultiStepEmitted(ca: ViewChunked, id: ChunkId, checkNulls: bool, p: Pool)
    requires ca.WellFormed() && (!checkNulls ==> !ca.HasNulls())
    requires id.Null? || ValidId(ca.ChunkLens(), id)
    requires Synced(p)
    ensures var r := MultiStep(ca, id, checkNulls, p); Emitted(ca, id, checkNulls, r.0, r.1, r.2.buffers)
  {
    if !EmitsNull(ca, id, checkNulls) {
      SourceInBounds(ca, id, checkNulls);
    }
  }

  /**
   * The multi-chunk branch: a fresh pool that is the reference pool of the buffers
   * referenced by emitted long views, and every slot as its address must produce it
   * against that pool, with a false validity bit exactly on the null slots.
   */
  function MultiChunkGather(ca: ViewChunked, ids: seq<ChunkId>, opt: bool): (r: ViewArray)
    requires ca.WellFormed() && ValidOptIds(ca.ChunkLens(), ids)
    requires !opt ==> ValidIds(ca.ChunkLens(), ids)
    ensures |r.views| == |ids|
    ensures r.validity.Some? <==> opt || ca.HasNulls()
    ensures r.validity.Some? ==> |r.validity.value| == |ids|
    ensures r.buffers == DedupByKey(Referenced(ca, ids, ca.HasNulls()))
    ensures forall k :: 0 <= k < |ids| ==> Emitted(ca, ids[k], ca.HasNulls(), r.views[k], !r.IsNull(k), r.buffers)
  {
    var checkNulls := ca.HasNulls();
    var (views, bits, pool) := MultiPass(ca, ids, checkNulls);
    var r := ViewArray(views, pool.buffers, if opt || checkNulls then Some(bits) else None);
    assert forall k :: 0 <= k < |ids| ==> bits[k] == !r.IsNull(k) by {
      forall k | 0 <= k < |ids|
        ensures bits[k] == !r.IsNull(k)
      {
        if !opt && !checkNulls {
          assert ValidId(ca.ChunkLens(), ids[k]) && !EmitsNull(ca, ids[k], checkNulls);
        }
      }
    }
    r
  }

  // ---------------------------------------------------------------------------
  // Entry points
  // ---------------------------------------------------------------------------

  /** The one output chunk, before the post-gather compaction that is not part of this model. */
  function GatherChunk(ca: ViewChunked, ids: seq<ChunkId>, opt: bool): (r: ViewArray)
    requires ca.WellFormed() && ValidOptIds(ca.ChunkLens(), ids)
    requires !opt ==> ValidIds(ca.ChunkLens(), ids)
    ensures |r.views| == |ids|
  {
    if |ca.chunks| == 1 then SingleChunkGather(ca.chunks[0], ids, opt)
    else MultiChunkGather(ca, ids, opt)
  }

  /** `take_unchecked_binview`: every address valid; the flag merges source flag and hint. */
  function TakeBinview(ca: ViewChunked, ids: seq<ChunkId>, hint: IsSorted, sortedFlag: SortedFlagFn): (r: ViewChunked)
    requires ca.WellFormed() && ValidIds(ca.ChunkLens(), ids)
    ensures |r.chunks| == 1 && |r.chunks[0].views| == |ids|
    ensures r.sorted == sortedFlag(ca.sorted, hint)
  {
    ViewChunked([GatherChunk(ca, ids, false)], sortedFlag(ca.sorted, hint))
  }

  /** `take_unchecked_binview_opt`: null addresses allowed; the flag is left unsorted. */
  function TakeBinviewOpt(ca: ViewChunked, ids: seq<ChunkId>): (r: ViewChunked)
    requires ca.WellFormed() && ValidOptIds(ca.ChunkLens(), ids)
    ensures |r.chunks| == 1 && |r.chunks[0].views| == |ids|
    ensures r.chunks[0].validity.Some?
    ensures r.sorted == Not
  {
    ViewChunked([GatherChunk(ca, ids, true)], Not)
  }
}
