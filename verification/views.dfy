/**
 * The view encoding of variable-length binary and string columns: fixed-size view
 * descriptors that either hold a short value inline or point into a pool of shared
 * byte buffers.
 */
module Views {
  import opened Wrappers
  import opened Addressing
  import opened Sortedness

  /** An octet. */
  newtype Byte = b: int | 0 <= b < 256

  /** Values of at most this many bytes are stored inside the view itself. */
  const MaxInlineLen: nat := 12

  /**
   * A view descriptor. For a long value, `prefix` holds its first four bytes,
   * `bufferIdx` selects a buffer of the owning array and `offset` is the start within
   * it. For a value of at most `MaxInlineLen` bytes the same twelve bytes after
   * `length` hold the value itself, little-endian.
   */
  datatype View = View(length: nat, prefix: nat, bufferIdx: nat, offset: nat)
  {
    predicate IsInline() { length <= MaxInlineLen }
  }

  /** The zeroed placeholder written for a null slot; it is never dereferenced. */
  const DefaultView: View := View(0, 0, 0, 0)

  /**
   * A shared byte buffer. `ptr` stands for the address of its first byte: two
   * buffers are the same storage exactly when they agree on address and length.
   */
  datatype Buffer = Buffer(ptr: nat, data: seq<Byte>)

  /** The identity used to deduplicate buffers: (address, length), never the content. */
  type BufferKey = (nat, nat)

  function Key(b: Buffer): BufferKey { (b.ptr, |b.data|) }

  /** Four little-endian bytes of a 32-bit field. */
  function LeBytes(x: nat): (r: seq<Byte>)
    ensures |r| == 4
  {
    [(x % 256) as Byte, (x / 0x100 % 256) as Byte, (x / 0x1_0000 % 256) as Byte, (x / 0x100_0000 % 256) as Byte]
  }

  /** The bytes of an inline view: the first `length` of the twelve bytes after the length field. */
  function InlineBytes(v: View): (r: seq<Byte>)
    requires v.IsInline()
    ensures |r| == v.length
  {
    (LeBytes(v.prefix) + LeBytes(v.bufferIdx) + LeBytes(v.offset))[..v.length]
  }

  /** A long view's target range lies inside its buffer. */
  predicate InBounds(v: View, buffers: seq<Buffer>)
  {
    v.IsInline() || (v.bufferIdx < |buffers| && v.offset + v.length <= |buffers[v.bufferIdx].data|)
  }

  /** The value a view denotes against a buffer pool. */
  function ViewBytes(v: View, buffers: seq<Buffer>): (r: seq<Byte>)
    requires InBounds(v, buffers)
    ensures |r| == v.length
  {
    if v.IsInline() then InlineBytes(v)
    else buffers[v.bufferIdx].data[v.offset .. v.offset + v.length]
  }

  /** One chunk: views, the buffers they point into, and an optional validity bitmap. */
  datatype ViewArray = ViewArray(views: seq<View>, buffers: seq<Buffer>, validity: Option<seq<bool>>)
  {
    predicate IsNull(i: nat)
    {
      validity.Some? && i < |validity.value| && !validity.value[i]
    }

    predicate HasNulls()
    {
      exists i | 0 <= i < |views| :: IsNull(i)
    }

    /** The array invariant: a bitmap covers every view, and every non-null view is in bounds. */
    predicate WellFormed()
    {
      && (validity.Some? ==> |validity.value| == |views|)
      && forall i | 0 <= i < |views| && !IsNull(i) :: InBounds(views[i], buffers)
    }

    function ValueAt(i: nat): Option<seq<Byte>>
      requires WellFormed() && i < |views|
    {
      if IsNull(i) then None else Some(ViewBytes(views[i], buffers))
    }

    /** The logical values of the chunk, `None` for a null slot. */
    function Values(): (r: seq<Option<seq<Byte>>>)
      requires WellFormed()
      ensures |r| == |views|
    {
      seq(|views|, i requires 0 <= i < |views| => ValueAt(i))
    }
  }

  /** A binary or string column stored as several view arrays. */
  datatype ViewChunked = ViewChunked(chunks: seq<ViewArray>, sorted: IsSorted)
  {
    predicate WellFormed()
    {
      forall c | 0 <= c < |chunks| :: chunks[c].WellFormed()
    }

    function ChunkLens(): (r: seq<nat>)
      ensures |r| == |chunks|
      ensures forall c :: 0 <= c < |chunks| ==> r[c] == |chunks[c].views|
    {
      seq(|chunks|, c requires 0 <= c < |chunks| => |chunks[c].views|)
    }

    predicate HasNulls()
    {
      exists c | 0 <= c < |chunks| :: chunks[c].HasNulls()
    }

    function ChunkValues(): (r: seq<seq<Option<seq<Byte>>>>)
      requires WellFormed()
      ensures Lens(r) == ChunkLens()
    {
      var r := seq(|chunks|, c requires 0 <= c < |chunks| => chunks[c].Values());
      assert Lens(r) == ChunkLens();
      r
    }

    /** The column's values in row order, as a rechunk would lay them out. */
    function Values(): seq<Option<seq<Byte>>>
      requires WellFormed()
    {
      Flatten(ChunkValues())
    }

    /** Every buffer any chunk owns. */
    function AllBuffers(): set<Buffer>
    {
      set c, j | 0 <= c < |chunks| && 0 <= j < |chunks[c].buffers| :: chunks[c].buffers[j]
    }

    /**
     * Buffer identity is sound: two buffers of the column with the same address and
     * length are the same storage, hence hold the same bytes.
     */
    predicate PointerCoherent()
    {
      forall b1, b2 | b1 in AllBuffers() && b2 in AllBuffers() && Key(b1) == Key(b2) :: b1 == b2
    }
  }

  /** The value a valid address picks is the rechunked column's value at its position. */
  lemma ValueAtPosition(ca: ViewChunked, id: ChunkId)
    requires ca.WellFormed() && ValidId(ca.ChunkLens(), id)
    ensures Position(ca.ChunkLens(), id).value < |ca.Values()|
    ensures ca.Values()[Position(ca.ChunkLens(), id).value] == ca.chunks[id.chunk].ValueAt(id.idx)
  {
    FlattenAt(ca.ChunkValues(), id.chunk, id.idx);
  }
}
