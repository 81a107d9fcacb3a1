/**
 * What the column-level gather computes: on a physical column tree it never aborts
 * and every leaf equals the rechunk-then-take reference; structs, decimals and
 * logical columns are expressed through the gathers they delegate to.
 */
module DispatchProperties {
  import opened Wrappers
  import opened Addressing
  import opened Sortedness
  import opened GenericGather
  import opened Views
  import opened BinviewGather
  import opened BinviewProperties
  import opened Dispatch

  /** No logical column anywhere in the field tree. */
  predicate IsPhysical(s: Series)
    decreases s
  {
    match s
    case StructS(_, fields) => forall i | 0 <= i < |fields| :: IsPhysical(fields[i])
    case LogicalS(_, _, _) => false
    case _ => true
  }

  /** Every view column of the tree is well formed and its buffer identity is sound. */
  predicate ViewsSound(s: Series)
    decreases s
  {
    match s
    case StructS(_, fields) => forall i | 0 <= i < |fields| :: ViewsSound(fields[i])
    case BinaryS(_, v) => v.WellFormed() && v.PointerCoherent()
    case StringS(_, v) => v.WellFormed() && v.PointerCoherent()
    case _ => true
  }

  /** The sortedness the output carries: merged with the hint, or unknown for the null-aware gather. */
  function FlagAfter(mode: Mode, before: IsSorted, env: Env): IsSorted
  {
    match mode
    case Plain(hint) => env.sortedFlag(before, hint)
    case Opt => Not
  }

  /** `out` is one chunk holding the rechunked `ca` taken at the addressed positions. */
  predicate GatheredFrom<T(==)>(out: ChunkedArray<T>, ca: ChunkedArray<T>, ids: seq<ChunkId>, mode: Mode, env: Env)
  {
    && ValidOptIds(ca.ChunkLens(), ids)
    && |out.chunks| == 1
    && out.Values() == TakeRef(ca.Values(), Positions(ca.ChunkLens(), ids))
    && out.sorted == FlagAfter(mode, ca.sorted, env)
  }

  /** The same reference for a view column, compared on the bytes the views denote. */
  predicate ViewsGatheredFrom(out: ViewChunked, v: ViewChunked, ids: seq<ChunkId>, mode: Mode, env: Env)
  {
    && v.WellFormed() && out.WellFormed()
    && ValidOptIds(v.ChunkLens(), ids)
    && |out.chunks| == 1
    && out.Values() == TakeRef(v.Values(), Positions(v.ChunkLens(), ids))
    && out.sorted == FlagAfter(mode, v.sorted, env)
  }

  /**
   * The reference gather of a physical column tree: same type and name, every leaf
   * the rechunk-then-take of its source, a struct field by field, the null type a
   * single chunk of `|ids|` nulls.
   */
  predicate GatherOf(src: Series, out: Series, ids: seq<ChunkId>, mode: Mode, env: Env)
    decreases src
  {
    match src
    case NumericS(n, k, ca) => out.NumericS? && out.name == n && out.kind == k && GatheredFrom(out.num, ca, ids, mode, env)
    case BooleanS(n, ca) => out.BooleanS? && out.name == n && GatheredFrom(out.bools, ca, ids, mode, env)
    case BinaryS(n, v) => out.BinaryS? && out.name == n && ViewsGatheredFrom(out.views, v, ids, mode, env)
    case StringS(n, v) => out.StringS? && out.name == n && ViewsGatheredFrom(out.views, v, ids, mode, env)
    case ListS(n, ca) => out.ListS? && out.name == n && GatheredFrom(out.lists, ca, ids, mode, env)
    case ArrayS(n, w, ca) => out.ArrayS? && out.name == n && out.width == w && GatheredFrom(out.lists, ca, ids, mode, env)
    case DecimalS(n, prec, sc, ca) =>
      out.DecimalS? && out.name == n && out.precision == prec && out.scale == sc && GatheredFrom(out.num, ca, ids, mode, env)
    case StructS(n, fields) =>
      && out.StructS? && out.name == n && |out.fields| == |fields|
      && forall i | 0 <= i < |fields| :: GatherOf(fields[i], out.fields[i], ids, mode, env)
    case NullS(n, _) => out == NullS(n, [|ids|])
    case LogicalS(_, _, _) => false
  }

  /** Only a logical column can abort the gather. */
  lemma {:induction false} PhysicalNeverPanics(s: Series, env: Env)
    requires IsPhysical(s)
    ensures !Panics(s, env)
    decreases s
  {
    if s.StructS? {
      forall i | 0 <= i < |s.fields|
        ensures !Panics(s.fields[i], env)
      {
        PhysicalNeverPanics(s.fields[i], env);
      }
    }
  }

  /** A struct's gather is the struct of its fields' gathers. */
  lemma StructGathersFields(s: Series, ids: seq<ChunkId>, mode: Mode, env: Env)
    requires s.StructS? && Addressable(s, ids, mode, env)
    requires TakeSeries(s, ids, mode, env).Success?
    ensures forall i :: 0 <= i < |s.fields| ==>
      && TakeSeries(s.fields[i], ids, mode, env).Success?
      && TakeSeries(s, ids, mode, env).value.fields[i] == TakeSeries(s.fields[i], ids, mode, env).value
  {
    var fields := s.fields;
    var results := seq(|fields|, i requires 0 <= i < |fields| => TakeSeries(fields[i], ids, mode, env));
    assert TakeSeries(s, ids, mode, env) == TakeStruct(s, ids, mode, env);
    var c := CollectFields(results);
    assert c.Success?;
    assert TakeSeries(s, ids, mode, env).value.fields == c.value;
  }

  /** The generic gather in either mode meets the reference. */
  lemma GenericGathered<T>(ca: ChunkedArray<T>, ids: seq<ChunkId>, mode: Mode, sliceable: bool, env: Env)
    requires IdsFit(ca.ChunkLens(), ids, mode)
    ensures GatheredFrom(TakeGeneric(ca, ids, mode, sliceable, env), ca, ids, mode, env)
  {
    match mode
    case Plain(hint) => TakeChunkedIsRechunkTake(ca, ids, hint, sliceable, env.sortedFlag);
    case Opt => TakeOptChunkedIsRechunkTake(ca, ids, sliceable);
  }

  /** The view gather in either mode meets the reference. */
  lemma ViewsGathered(v: ViewChunked, ids: seq<ChunkId>, mode: Mode, env: Env)
    requires v.WellFormed() && v.PointerCoherent() && IdsFit(v.ChunkLens(), ids, mode)
    ensures ViewsGatheredFrom(TakeViews(v, ids, mode, env), v, ids, mode, env)
  {
    match mode
    case Plain(hint) => TakeBinviewIsRechunkTake(v, ids, hint, env.sortedFlag);
    case Opt => TakeBinviewOptIsRechunkTake(v, ids);
  }

  /** A binary or string column gathers to the reference. */
  lemma ViewLeafIsRechunkTake(s: Series, ids: seq<ChunkId>, mode: Mode, env: Env)
    requires (s.BinaryS? || s.StringS?) && ViewsSound(s) && Addressable(s, ids, mode, env)
    ensures TakeSeries(s, ids, mode, env).Success?
    ensures GatherOf(s, TakeSeries(s, ids, mode, env).value, ids, mode, env)
  {
    ViewsGathered(s.views, ids, mode, env);
  }

  /** A physical non-struct column gathers to the reference. */
  lemma LeafIsRechunkTake(s: Series, ids: seq<ChunkId>, mode: Mode, env: Env)
    requires !s.StructS? && IsPhysical(s) && ViewsSound(s) && Addressable(s, ids, mode, env)
    ensures TakeSeries(s, ids, mode, env).Success?
    ensures GatherOf(s, TakeSeries(s, ids, mode, env).value, ids, mode, env)
  {
    match s
    case NumericS(_, _, ca) => GenericGathered(ca, ids, mode, true, env);
    case BooleanS(_, ca) => GenericGathered(ca, ids, mode, false, env);
    case BinaryS(_, _) => ViewLeafIsRechunkTake(s, ids, mode, env);
    case StringS(_, _) => ViewLeafIsRechunkTake(s, ids, mode, env);
    case ListS(_, ca) => GenericGathered(ca, ids, mode, false, env);
    case ArrayS(_, _, ca) => GenericGathered(ca, ids, mode, false, env);
    case DecimalS(_, _, _, ca) => GenericGathered(ca, ids, mode, true, env);
    case NullS(_, _) =>
  }

  /**
   * The column gather on a physical tree never aborts and equals the reference:
   * type, name and parameters kept, every leaf the rechunk-then-take of its source.
   */
  lemma {:induction false} TakeSeriesIsRechunkTake(s: Series, ids: seq<ChunkId>, mode: Mode, env: Env)
    requires IsPhysical(s) && ViewsSound(s) && Addressable(s, ids, mode, env)
    ensures TakeSeries(s, ids, mode, env).Success?
    ensures GatherOf(s, TakeSeries(s, ids, mode, env).value, ids, mode, env)
    decreases s
  {
    PhysicalNeverPanics(s, env);
    if s.StructS? {
      var r := TakeSeries(s, ids, mode, env);
      StructGathersFields(s, ids, mode, env);
      forall i | 0 <= i < |s.fields|
        ensures GatherOf(s.fields[i], r.value.fields[i], ids, mode, env)
      {
        TakeSeriesIsRechunkTake(s.fields[i], ids, mode, env);
      }
    } else {
      LeafIsRechunkTake(s, ids, mode, env);
    }
  }

  /** A decimal column is gathered as its integer column, keeping precision and scale. */
  lemma DecimalIsIntegerGather(n: string, prec: nat, sc: nat, ca: ChunkedArray<int>, ids: seq<ChunkId>, mode: Mode, env: Env)
    requires IdsFit(ca.ChunkLens(), ids, mode)
    ensures Addressable(NumericS(n, Int128, ca), ids, mode, env) && Addressable(DecimalS(n, prec, sc, ca), ids, mode, env)
    ensures TakeSeries(NumericS(n, Int128, ca), ids, mode, env).Success?
    ensures TakeSeries(DecimalS(n, prec, sc, ca), ids, mode, env)
            == Success(DecimalS(n, prec, sc, TakeSeries(NumericS(n, Int128, ca), ids, mode, env).value.num))
  {
  }

  /**
   * A logical column whose physical form kept its chunk layout is gathered through
   * that physical form and converted back to its own type.
   */
  lemma LogicalGoesThroughPhysical(s: Series, ids: seq<ChunkId>, mode: Mode, env: Env)
    requires s.LogicalS? && Addressable(s, ids, mode, env)
    requires NChunks(env.toPhysical(s)) == NChunks(s) && !env.toPhysical(s).LogicalS?
    ensures Addressable(env.toPhysical(s), ids, mode, env)
    ensures TakeSeries(env.toPhysical(s), ids, mode, env).Success?
    ensures TakeSeries(s, ids, mode, env)
            == Success(env.fromPhysical(TakeSeries(env.toPhysical(s), ids, mode, env).value, s.tag))
  {
    var p := env.toPhysical(s);
    assert LeafAddressable(p, ids, mode);
    assert PrepareSeries(s, env) == Success(p);
    assert PrepareSeries(p, env) == Success(p);
  }

  /** The null type gathers to `|ids|` nulls in one chunk, whatever its own layout. */
  lemma NullGather(n: string, lens: seq<nat>, ids: seq<ChunkId>, mode: Mode, env: Env)
    ensures Addressable(NullS(n, lens), ids, mode, env)
    ensures TakeSeries(NullS(n, lens), ids, mode, env) == Success(NullS(n, [|ids|]))
  {
  }
}
