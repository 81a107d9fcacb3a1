/**
 * The concrete cases of the chunked view gather's unit test: a three-chunk string
 * column with long values and one inline value, gathered with and without null
 * addresses, and a two-chunk column that itself holds a null.
 */
module Scenarios {
  import opened Wrappers
  import opened Addressing
  import opened Sortedness
  import opened Views
  import opened ViewDedup
  import opened BinviewGather
  import opened Dispatch
  import opened DispatchProperties

  /** The bytes of an ASCII string. */
  function Ascii(s: string): (r: seq<Byte>)
    ensures |r| == |s|
  {
    seq(|s|, i requires 0 <= i < |s| => (s[i] as int % 256) as Byte)
  }

  /** A long view of `length` bytes at `offset` in buffer `bufferIdx`, its prefix read from `data`. */
  function LongView(data: seq<Byte>, bufferIdx: nat, offset: nat, length: nat): (v: View)
    requires offset + 4 <= |data|
    ensures v.length == length && v.bufferIdx == bufferIdx && v.offset == offset
    ensures v.prefix == LittleEndian(data[offset..offset + 4])
  {
    View(length, LittleEndian(data[offset..offset + 4]), bufferIdx, offset)
  }

  /** The number whose little-endian bytes are `bs`. */
  function LittleEndian(bs: seq<Byte>): nat
    decreases |bs|
  {
    if |bs| == 0 then 0 else bs[0] as nat + 0x100 * LittleEndian(bs[1..])
  }

  // ---------------------------------------------------------------------------
  // The column without nulls: three chunks of 2, 2 and 3 rows.
  // ---------------------------------------------------------------------------

  const S1: string := "1 loooooooooooong string"
  const S2: string := "2 loooooooooooong string"
  const S11: string := "11 loooooooooooong string"
  const S22: string := "22 loooooooooooong string"
  const S111: string := "111 loooooooooooong string"
  const S222: string := "222 loooooooooooong string"
  const Small: string := "small"

  /** Each chunk owns one buffer holding its long values back to back, at distinct addresses. */
  const B1: Buffer := Buffer(1, Ascii(S1) + Ascii(S2))
  const B2: Buffer := Buffer(2, Ascii(S11) + Ascii(S22))
  const B3: Buffer := Buffer(3, Ascii(S111) + Ascii(S222))

  /** "small" stored inline: its five bytes spread over the prefix and buffer-index fields. */
  const SmallView: View := View(5, 0x6c61_6d73, 0x6c, 0)

  const Chunk1: ViewArray := ViewArray([LongView(B1.data, 0, 0, 24), LongView(B1.data, 0, 24, 24)], [B1], None)
  const Chunk2: ViewArray := ViewArray([LongView(B2.data, 0, 0, 25), LongView(B2.data, 0, 25, 25)], [B2], None)
  const Chunk3: ViewArray := ViewArray([LongView(B3.data, 0, 0, 26), LongView(B3.data, 0, 26, 26), SmallView], [B3], None)

  const Column: ViewChunked := ViewChunked([Chunk1, Chunk2, Chunk3], Not)

  lemma SmallFields()
    ensures LeBytes(0x6c61_6d73) == [0x73, 0x6d, 0x61, 0x6c]
    ensures LeBytes(0x6c) == [0x6c, 0, 0, 0]
  {
    var x := 0x6c61_6d73;
    assert x / 0x100 == 0x6c_616d && x / 0x1_0000 == 0x6c61 && x / 0x100_0000 == 0x6c;
    assert 0x6c_616d % 256 == 0x6d && 0x6c61 % 256 == 0x61;
  }

  lemma SmallBytes()
    ensures Ascii(Small) == [0x73, 0x6d, 0x61, 0x6c, 0x6c]
  {
  }

  lemma SmallInline()
    ensures SmallView.IsInline() && InlineBytes(SmallView) == Ascii(Small)
  {
    SmallFields();
    SmallBytes();
    assert LeBytes(0x6c61_6d73) + LeBytes(0x6c) + LeBytes(0) == [0x73, 0x6d, 0x61, 0x6c, 0x6c, 0, 0, 0] + LeBytes(0);
  }

  lemma Chunk1Values()
    ensures Chunk1.WellFormed()
    ensures Chunk1.Values() == [Some(Ascii(S1)), Some(Ascii(S2))]
  {
    assert B1.data[0..24] == Ascii(S1);
    assert B1.data[24..48] == Ascii(S2);
  }

  lemma Chunk2Values()
    ensures Chunk2.WellFormed()
    ensures Chunk2.Values() == [Some(Ascii(S11)), Some(Ascii(S22))]
  {
    assert B2.data[0..25] == Ascii(S11);
    assert B2.data[25..50] == Ascii(S22);
  }

  lemma Chunk3Values()
    ensures Chunk3.WellFormed()
    ensures Chunk3.Values() == [Some(Ascii(S111)), Some(Ascii(S222)), Some(Ascii(Small))]
  {
    SmallInline();
    assert B3.data[0..26] == Ascii(S111);
    assert B3.data[26..52] == Ascii(S222);
  }

  lemma ColumnCoherent()
    ensures Column.PointerCoherent()
  {
    forall b | b in Column.AllBuffers()
      ensures b == B1 || b == B2 || b == B3
    {
      var c, j :| 0 <= c < |Column.chunks| && 0 <= j < |Column.chunks[c].buffers| && b == Column.chunks[c].buffers[j];
    }
  }

  /** The rechunked rows of `Column`. */
  const Rows: seq<Option<seq<Byte>>> :=
    [Some(Ascii(S1)), Some(Ascii(S2)), Some(Ascii(S11)), Some(Ascii(S22)),
     Some(Ascii(S111)), Some(Ascii(S222)), Some(Ascii(Small))]

  lemma ColumnValues()
    ensures Column.WellFormed() && Column.PointerCoherent()
    ensures Column.ChunkLens() == [2, 2, 3]
    ensures Column.Values() == Rows
  {
    Chunk1Values();
    Chunk2Values();
    Chunk3Values();
    ColumnCoherent();
    var cv := Column.ChunkValues();
    assert cv == [Chunk1.Values(), Chunk2.Values(), Chunk3.Values()];
    assert cv[..2][..1] == [Chunk1.Values()] && cv[..2][..1][..0] == [];
    assert Flatten(cv[..2][..1]) == Chunk1.Values();
    assert Flatten(cv[..2]) == Chunk1.Values() + Chunk2.Values();
    assert Flatten(cv) == Chunk1.Values() + Chunk2.Values() + Chunk3.Values();
  }

  /** The addresses of the first gather: chunk 1 visited backwards, the rest in order. */
  const Ids: seq<ChunkId> := [Id(0, 0), Id(0, 1), Id(1, 1), Id(1, 0), Id(2, 0), Id(2, 1), Id(2, 2)]

  /** The addresses of the null-aware gather: a null first. */
  const OptIds: seq<ChunkId> := [Null, Id(0, 1), Id(1, 1), Id(1, 0)]

  lemma StartsOfColumn()
    ensures Start([2, 2, 3], 0) == 0 && Start([2, 2, 3], 1) == 2 && Start([2, 2, 3], 2) == 4
    ensures Sum([2, 2, 3]) == 7
  {
    assert [2, 2, 3][..2][..1] == [2] && [2, 2, 3][..1] == [2] && [2][..0] == [];
    assert [2, 2, 3][..2] == [2, 2];
  }

  /** The addresses name rechunked rows 0, 1, 3, 2, 4, 5, 6 and null, 1, 3, 2. */
  lemma ColumnPositions()
    ensures ValidIds([2, 2, 3], Ids) && ValidOptIds([2, 2, 3], OptIds)
    ensures Positions([2, 2, 3], Ids) == [Some(0), Some(1), Some(3), Some(2), Some(4), Some(5), Some(6)]
    ensures Positions([2, 2, 3], OptIds) == [None, Some(1), Some(3), Some(2)]
  {
    StartsOfColumn();
  }

  /** The general result specialised to a single string column. */
  lemma StringGather(name: string, col: ViewChunked, ids: seq<ChunkId>, mode: Mode, env: Env)
    requires col.WellFormed() && col.PointerCoherent() && IdsFit(col.ChunkLens(), ids, mode)
    ensures Addressable(StringS(name, col), ids, mode, env)
    ensures var r := TakeSeries(StringS(name, col), ids, mode, env);
      && r.Success? && r.value.StringS? && r.value.name == name
      && r.value.views.WellFormed()
      && r.value.views.Values() == TakeRef(col.Values(), Positions(col.ChunkLens(), ids))
      && r.value.views.sorted == FlagAfter(mode, col.sorted, env)
  {
    TakeSeriesIsRechunkTake(StringS(name, col), ids, mode, env);
  }

  /** Picking rows 0, 1, 3, 2, 4, 5, 6 by position. */
  lemma PickRows<T>(rows: seq<Option<T>>)
    requires |rows| == 7
    ensures TakeRef(rows, [Some(0), Some(1), Some(3), Some(2), Some(4), Some(5), Some(6)])
            == [rows[0], rows[1], rows[3], rows[2], rows[4], rows[5], rows[6]]
  {
  }

  /** Picking a null, then rows 1, 3, 2 by position. */
  lemma PickWithNull<T>(rows: seq<Option<T>>)
    requires |rows| >= 4
    ensures TakeRef(rows, [None, Some(1), Some(3), Some(2)]) == [None, rows[1], rows[3], rows[2]]
  {
  }

  /**
   * On a column laid out like `Column` (chunks of 2, 2 and 3 rows) whose rechunked
   * rows are `rows`, the gather without null addresses yields rows 0, 1, 3, 2, 4, 5, 6
   * under the merged sortedness.
   */
  lemma GatherWithoutNulls(col: ViewChunked, rows: seq<Option<seq<Byte>>>, env: Env)
    requires col.WellFormed() && col.PointerCoherent() && col.ChunkLens() == [2, 2, 3] && col.Values() == rows
    ensures |rows| == 7
    ensures Addressable(StringS("a", col), Ids, Plain(Not), env)
    ensures var r := TakeSeries(StringS("a", col), Ids, Plain(Not), env);
      && r.Success? && r.value.StringS? && r.value.name == "a" && r.value.views.WellFormed()
      && r.value.views.Values() == [rows[0], rows[1], rows[3], rows[2], rows[4], rows[5], rows[6]]
      && r.value.views.sorted == env.sortedFlag(col.sorted, Not)
  {
    StartsOfColumn();
    assert |rows| == Sum(Lens(col.ChunkValues()));
    ColumnPositions();
    StringGather("a", col, Ids, Plain(Not), env);
    PickRows(rows);
  }

  /** On the same layout, the null-aware gather yields a null and then rows 1, 3, 2. */
  lemma GatherWithNullIds(col: ViewChunked, rows: seq<Option<seq<Byte>>>, env: Env)
    requires col.WellFormed() && col.PointerCoherent() && col.ChunkLens() == [2, 2, 3] && col.Values() == rows
    ensures |rows| == 7
    ensures Addressable(StringS("a", col), OptIds, Opt, env)
    ensures var r := TakeSeries(StringS("a", col), OptIds, Opt, env);
      && r.Success? && r.value.StringS? && r.value.name == "a" && r.value.views.WellFormed()
      && r.value.views.Values() == [None, rows[1], rows[3], rows[2]]
      && r.value.views.sorted == Not
  {
    StartsOfColumn();
    assert |rows| == Sum(Lens(col.ChunkValues()));
    ColumnPositions();
    StringGather("a", col, OptIds, Opt, env);
    assert Positions(col.ChunkLens(), OptIds) == [None, Some(1), Some(3), Some(2)];
    PickWithNull(rows);
  }

  /** Both gathers on the test's own column. */
  lemma ColumnGathers(env: Env)
    ensures Addressable(StringS("a", Column), Ids, Plain(Not), env)
    ensures Addressable(StringS("a", Column), OptIds, Opt, env)
    ensures var r := TakeSeries(StringS("a", Column), Ids, Plain(Not), env);
      r.Success? && r.value.StringS? && r.value.views.WellFormed()
      && r.value.views.Values() == [Rows[0], Rows[1], Rows[3], Rows[2], Rows[4], Rows[5], Rows[6]]
    ensures var r := TakeSeries(StringS("a", Column), OptIds, Opt, env);
      r.Success? && r.value.StringS? && r.value.views.WellFormed()
      && r.value.views.Values() == [None, Rows[1], Rows[3], Rows[2]]
  {
    ColumnValues();
    GatherWithoutNulls(Column, Rows, env);
    GatherWithNullIds(Column, Rows, env);
  }

  // ---------------------------------------------------------------------------
  // The column with a null: two chunks of 2 rows, the last row null.
  // ---------------------------------------------------------------------------

  const T1: string := "1 loooooooooooong string 1"
  const T2: string := "2 loooooooooooong string 2"
  const T11: string := "11 loooooooooooong string 11"

  const D1: Buffer := Buffer(4, Ascii(T1) + Ascii(T2))
  const D2: Buffer := Buffer(5, Ascii(T11))

  const Chunk4: ViewArray := ViewArray([LongView(D1.data, 0, 0, 26), LongView(D1.data, 0, 26, 26)], [D1], None)
  /** A pushed null occupies a zeroed view and a false validity bit. */
  const Chunk5: ViewArray := ViewArray([LongView(D2.data, 0, 0, 28), DefaultView], [D2], Some([true, false]))

  const NullColumn: ViewChunked := ViewChunked([Chunk4, Chunk5], Not)

  /** The rechunked rows of `NullColumn`. */
  const NullRows: seq<Option<seq<Byte>>> := [Some(Ascii(T1)), Some(Ascii(T2)), Some(Ascii(T11)), None]

  lemma NullColumnValues()
    ensures NullColumn.WellFormed() && NullColumn.PointerCoherent() && NullColumn.HasNulls()
    ensures NullColumn.ChunkLens() == [2, 2]
    ensures NullColumn.Values() == NullRows
  {
    assert D1.data[0..26] == Ascii(T1);
    assert D1.data[26..52] == Ascii(T2);
    assert D2.data[0..28] == Ascii(T11);
    assert Chunk4.Values() == [Some(Ascii(T1)), Some(Ascii(T2))];
    assert Chunk5.IsNull(1);
    assert Chunk5.Values() == [Some(Ascii(T11)), None];
    var cv := NullColumn.ChunkValues();
    assert cv == [Chunk4.Values(), Chunk5.Values()];
    assert cv[..1] == [Chunk4.Values()] && cv[..1][..0] == [];
    assert Flatten(cv[..1]) == Chunk4.Values();
    assert NullColumn.chunks[1].HasNulls();
    forall b | b in NullColumn.AllBuffers()
      ensures b == D1 || b == D2
    {
      var c, j :| 0 <= c < |NullColumn.chunks| && 0 <= j < |NullColumn.chunks[c].buffers| && b == NullColumn.chunks[c].buffers[j];
    }
  }

  const NullColumnIds: seq<ChunkId> := [Id(0, 0), Id(0, 1), Id(1, 1), Id(1, 0)]

  lemma NullColumnPositions()
    ensures ValidIds([2, 2], NullColumnIds) && ValidOptIds([2, 2], OptIds)
    ensures Positions([2, 2], NullColumnIds) == [Some(0), Some(1), Some(3), Some(2)]
    ensures Positions([2, 2], OptIds) == [None, Some(1), Some(3), Some(2)]
    ensures Sum([2, 2]) == 4
  {
    assert [2, 2][..1] == [2] && [2][..0] == [];
    assert Start([2, 2], 1) == 2;
  }

  /** Picking rows 0, 1, 3, 2 by position. */
  lemma PickFour<T>(rows: seq<Option<T>>)
    requires |rows| == 4
    ensures TakeRef(rows, [Some(0), Some(1), Some(3), Some(2)]) == [rows[0], rows[1], rows[3], rows[2]]
  {
  }

  /**
   * On a column of two 2-row chunks whose rechunked rows are `rows`, the gather of
   * rows 0, 1, 3, 2 and the null-aware gather of null, 1, 3, 2 pick those rows; a
   * null row stays null.
   */
  lemma NullColumnGathers(col: ViewChunked, rows: seq<Option<seq<Byte>>>, env: Env)
    requires col.WellFormed() && col.PointerCoherent() && col.ChunkLens() == [2, 2] && col.Values() == rows
    ensures |rows| == 4
    ensures Addressable(StringS("a", col), NullColumnIds, Plain(Not), env)
    ensures Addressable(StringS("a", col), OptIds, Opt, env)
    ensures var r := TakeSeries(StringS("a", col), NullColumnIds, Plain(Not), env);
      && r.Success? && r.value.StringS? && r.value.views.WellFormed()
      && r.value.views.Values() == [rows[0], rows[1], rows[3], rows[2]]
    ensures var r := TakeSeries(StringS("a", col), OptIds, Opt, env);
      && r.Success? && r.value.StringS? && r.value.views.WellFormed()
      && r.value.views.Values() == [None, rows[1], rows[3], rows[2]]
  {
    NullColumnPositions();
    assert |rows| == Sum(Lens(col.ChunkValues()));
    StringGather("a", col, NullColumnIds, Plain(Not), env);
    StringGather("a", col, OptIds, Opt, env);
    PickFour(rows);
    PickWithNull(rows);
  }

  /** On the test's column the third output slot is the null row, in both gathers. */
  lemma NullColumnScenario(env: Env)
    ensures Addressable(StringS("a", NullColumn), NullColumnIds, Plain(Not), env)
    ensures Addressable(StringS("a", NullColumn), OptIds, Opt, env)
    ensures var r := TakeSeries(StringS("a", NullColumn), NullColumnIds, Plain(Not), env);
      r.Success? && r.value.StringS? && r.value.views.WellFormed()
      && r.value.views.Values() == [Some(Ascii(T1)), Some(Ascii(T2)), None, Some(Ascii(T11))]
    ensures var r := TakeSeries(StringS("a", NullColumn), OptIds, Opt, env);
      r.Success? && r.value.StringS? && r.value.views.WellFormed()
      && r.value.views.Values() == [None, Some(Ascii(T2)), None, Some(Ascii(T11))]
  {
    NullColumnValues();
    NullColumnGathers(NullColumn, NullRows, env);
  }
}
