/**
 * The buffer deduplication step of the multi-chunk view gather (`update_view`): a
 * long view's buffer index is rewritten to an index into a fresh output pool that
 * holds each referenced source buffer once.
 */
module ViewDedup {
  import opened Views

  /**
   * The dedup state: the map from buffer identity to output index, and the output
   * buffer pool it indexes.
   */
  datatype Pool = Pool(idxs: map<BufferKey, nat>, buffers: seq<Buffer>)

  const EmptyPool: Pool := Pool(map[], [])

  predicate HasKey(bs: seq<Buffer>, key: BufferKey)
  {
    exists j | 0 <= j < |bs| :: Key(bs[j]) == key
  }

  /** No two buffers of `bs` are the same storage. */
  predicate DistinctKeys(bs: seq<Buffer>)
  {
    forall i, j | 0 <= i < |bs| && 0 <= j < |bs| && Key(bs[i]) == Key(bs[j]) :: i == j
  }

  /**
   * The map and the pool are in sync: every map entry indexes a pool buffer with that
   * key, and every pool buffer is the entry of its own key.
   */
  predicate Synced(p: Pool)
  {
    && (forall key | key in p.idxs :: p.idxs[key] < |p.buffers| && Key(p.buffers[p.idxs[key]]) == key)
    && (forall j | 0 <= j < |p.buffers| :: Key(p.buffers[j]) in p.idxs && p.idxs[Key(p.buffers[j])] == j)
  }

  /** In a synced pool the map's keys are exactly the pool's keys, each held once. */
  lemma SyncedPool(p: Pool)
    requires Synced(p)
    ensures forall key :: key in p.idxs <==> HasKey(p.buffers, key)
    ensures DistinctKeys(p.buffers)
  {
    forall key | key in p.idxs
      ensures HasKey(p.buffers, key)
    {
      var j := p.idxs[key];
      assert Key(p.buffers[j]) == key;
    }
  }

  /**
   * `update_view`: an inline view passes through and nothing changes. A long view
   * gets the output index of its buffer, admitting the buffer to the pool when its
   * (address, length) key is not there yet.
   */
  function UpdateView(view: View, orig: seq<Buffer>, p: Pool): (r: (View, Pool))
    requires Synced(p)
    requires view.IsInline() || view.bufferIdx < |orig|
    ensures Synced(r.1)
    ensures view.IsInline() ==> r == (view, p)
    ensures !view.IsInline() ==>
      var key := Key(orig[view.bufferIdx]);
      && r.0 == view.(bufferIdx := r.0.bufferIdx)
      && r.0.bufferIdx < |r.1.buffers|
      && Key(r.1.buffers[r.0.bufferIdx]) == key
      && (r.1 == p <==> key in p.idxs)
      && (key !in p.idxs ==> r.1.buffers == p.buffers + [orig[view.bufferIdx]])
  {
    if view.length > MaxInlineLen then
      var origBuffer := orig[view.bufferIdx];
      var key := Key(origBuffer);
      if key in p.idxs then
        (view.(bufferIdx := p.idxs[key]), p)
      else
        var idx := |p.buffers|;
        var p' := Pool(p.idxs[key := idx], p.buffers + [origBuffer]);
        assert Synced(p') by {
          forall j | 0 <= j < |p'.buffers|
            ensures Key(p'.buffers[j]) in p'.idxs && p'.idxs[Key(p'.buffers[j])] == j
          {
            if j < idx {
              assert Key(p.buffers[j]) in p.idxs;
            }
          }
        }
        (view.(bufferIdx := idx), p')
    else
      (view, p)
  }

  /** Repeating a step with the same view is a no-op: the key is found at the index first assigned. */
  lemma UpdateViewIdempotent(view: View, orig: seq<Buffer>, p: Pool)
    requires Synced(p)
    requires view.IsInline() || view.bufferIdx < |orig|
    ensures UpdateView(view, orig, UpdateView(view, orig, p).1) == UpdateView(view, orig, p)
  {
    var r := UpdateView(view, orig, p);
    if !view.IsInline() {
      var key := Key(orig[view.bufferIdx]);
      SyncedPool(r.1);
      assert key in r.1.idxs;
      assert r.1.idxs[key] == r.0.bufferIdx;
    }
  }

  /** The keys of a concatenation are the keys of its parts. */
  lemma HasKeyConcat(a: seq<Buffer>, b: seq<Buffer>, key: BufferKey)
    ensures HasKey(a + b, key) <==> HasKey(a, key) || HasKey(b, key)
  {
    var r := a + b;
    if HasKey(r, key) {
      var j :| 0 <= j < |r| && Key(r[j]) == key;
      if j < |a| { assert a[j] == r[j]; } else { assert b[j - |a|] == r[j]; }
    }
    if HasKey(a, key) {
      var j :| 0 <= j < |a| && Key(a[j]) == key;
      assert r[j] == a[j];
    }
    if HasKey(b, key) {
      var j :| 0 <= j < |b| && Key(b[j]) == key;
      assert r[|a| + j] == b[j];
    }
  }

  /** The keys of `bs + [b]` are those of `bs` and the key of `b`. */
  lemma HasKeySnoc(bs: seq<Buffer>, b: Buffer)
    ensures forall key :: HasKey(bs + [b], key) <==> HasKey(bs, key) || key == Key(b)
  {
    var r := bs + [b];
    forall key | HasKey(r, key) && key != Key(b)
      ensures HasKey(bs, key)
    {
      var j :| 0 <= j < |r| && Key(r[j]) == key;
      assert bs[j] == r[j];
    }
    forall key | HasKey(bs, key)
      ensures HasKey(r, key)
    {
      var j :| 0 <= j < |bs| && Key(bs[j]) == key;
      assert r[j] == bs[j];
    }
    assert Key(r[|bs|]) == Key(b);
  }

  /**
   * The reference pool: each buffer of `bs` whose key has not been seen yet, in
   * first-reference order.
   */
  function DedupByKey(bs: seq<Buffer>): (r: seq<Buffer>)
    ensures DistinctKeys(r)
    ensures forall key :: HasKey(r, key) <==> HasKey(bs, key)
    ensures forall j :: 0 <= j < |r| ==> r[j] in bs
    decreases |bs|
  {
    if |bs| == 0 then []
    else
      var init := bs[..|bs| - 1];
      var last := bs[|bs| - 1];
      var d := DedupByKey(init);
      assert bs == init + [last];
      HasKeySnoc(init, last);
      if HasKey(d, Key(last)) then d
      else
        HasKeySnoc(d, last);
        assert forall j :: 0 <= j < |d| ==> Key(d[j]) != Key(last);
        d + [last]
  }

  /** One more reference: the buffer is appended exactly when its key is new. */
  lemma DedupSnoc(refs: seq<Buffer>, b: Buffer)
    ensures DedupByKey(refs + [b])
            == if HasKey(DedupByKey(refs), Key(b)) then DedupByKey(refs) else DedupByKey(refs) + [b]
  {
    var bs := refs + [b];
    assert bs[..|bs| - 1] == refs;
    assert bs[|bs| - 1] == b;
  }

  /** A long view's step appends its buffer to the pool exactly when the pool lacks its key. */
  lemma UpdateViewPool(view: View, orig: seq<Buffer>, p: Pool)
    requires Synced(p)
    requires !view.IsInline() && view.bufferIdx < |orig|
    ensures var buf := orig[view.bufferIdx];
      UpdateView(view, orig, p).1.buffers
      == if HasKey(p.buffers, Key(buf)) then p.buffers else p.buffers + [buf]
  {
    var key := Key(orig[view.bufferIdx]);
    if key in p.idxs {
      assert Key(p.buffers[p.idxs[key]]) == key;
    } else {
      forall j | 0 <= j < |p.buffers|
        ensures Key(p.buffers[j]) != key
      {
        assert Key(p.buffers[j]) in p.idxs;
      }
    }
  }

  /** Index of the first buffer of `bs` with key `key`. */
  function FirstIdx(bs: seq<Buffer>, key: BufferKey): (i: nat)
    requires HasKey(bs, key)
    ensures i < |bs| && Key(bs[i]) == key
    ensures forall j :: 0 <= j < i ==> Key(bs[j]) != key
    decreases |bs|
  {
    if Key(bs[0]) == key then 0
    else
      assert HasKey(bs[1..], key) by {
        var j :| 0 <= j < |bs| && Key(bs[j]) == key;
        assert bs[1..][j - 1] == bs[j];
      }
      1 + FirstIdx(bs[1..], key)
  }

  /**
   * The reference pool lists, in order of first reference, the first buffer of each
   * key of `bs`.
   */
  lemma {:induction false} DedupFirstReferenceOrder(bs: seq<Buffer>)
    ensures forall j :: 0 <= j < |DedupByKey(bs)| ==>
      HasKey(bs, Key(DedupByKey(bs)[j])) && DedupByKey(bs)[j] == bs[FirstIdx(bs, Key(DedupByKey(bs)[j]))]
    ensures forall j1, j2 :: 0 <= j1 < j2 < |DedupByKey(bs)| ==>
      HasKey(bs, Key(DedupByKey(bs)[j1])) && HasKey(bs, Key(DedupByKey(bs)[j2])) &&
      FirstIdx(bs, Key(DedupByKey(bs)[j1])) < FirstIdx(bs, Key(DedupByKey(bs)[j2]))
    decreases |bs|
  {
    if |bs| > 0 {
      var init := bs[..|bs| - 1];
      var last := bs[|bs| - 1];
      var d := DedupByKey(init);
      var r := DedupByKey(bs);
      DedupFirstReferenceOrder(init);
      assert bs == init + [last];
      FirstIdxSnoc(init, last);
      forall j | 0 <= j < |r|
        ensures HasKey(bs, Key(r[j])) && r[j] == bs[FirstIdx(bs, Key(r[j]))]
      {
        if j < |d| {
          assert r[j] == d[j];
          assert HasKey(d, Key(d[j]));
        } else {
          assert r[j] == last && !HasKey(d, Key(last));
          assert Key(bs[|bs| - 1]) == Key(last);
          FirstIdxUnique(bs, Key(last), |bs| - 1);
        }
      }
      forall j1, j2 | 0 <= j1 < j2 < |r|
        ensures HasKey(bs, Key(r[j1])) && HasKey(bs, Key(r[j2])) &&
                FirstIdx(bs, Key(r[j1])) < FirstIdx(bs, Key(r[j2]))
      {
        assert j1 < |d|;
        assert r[j1] == d[j1];
        assert HasKey(d, Key(d[j1]));
        if j2 < |d| {
          assert r[j2] == d[j2];
          assert HasKey(d, Key(d[j2]));
        } else {
          assert r[j2] == last && !HasKey(d, Key(last));
          assert Key(bs[|bs| - 1]) == Key(last);
          FirstIdxUnique(bs, Key(last), |bs| - 1);
        }
      }
    }
  }

  /** Appending a buffer keeps the first occurrence of every key already present. */
  lemma FirstIdxSnoc(init: seq<Buffer>, last: Buffer)
    ensures forall key | HasKey(init, key) :: HasKey(init + [last], key) && FirstIdx(init + [last], key) == FirstIdx(init, key)
  {
    var bs := init + [last];
    forall key | HasKey(init, key)
      ensures HasKey(bs, key) && FirstIdx(bs, key) == FirstIdx(init, key)
    {
      var i := FirstIdx(init, key);
      assert Key(bs[i]) == key;
      FirstIdxUnique(bs, key, i);
    }
  }

  /** The first index is the one position holding the key with none of it before. */
  lemma FirstIdxUnique(bs: seq<Buffer>, key: BufferKey, i: nat)
    requires i < |bs| && Key(bs[i]) == key
    requires forall j :: 0 <= j < i ==> Key(bs[j]) != key
    ensures HasKey(bs, key) && FirstIdx(bs, key) == i
  {
    var f := FirstIdx(bs, key);
    assert !(f < i);
    assert !(i < f);
  }
}
