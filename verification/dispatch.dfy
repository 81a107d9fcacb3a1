/**
 * The column-level gather: convert to the physical representation, check the chunk
 * layout survived, route by physical type (recursing field by field into structs),
 * and convert the result back to the logical type.
 */
module Dispatch {
  import opened Wrappers
  import opened Addressing
  import opened Sortedness
  import opened GenericGather
  import opened Views
  import opened BinviewGather

  datatype NumericKind =
    | Int8 | Int16 | Int32 | Int64 | Int128
    | UInt8 | UInt16 | UInt32 | UInt64
    | Float32 | Float64

  /** A list or fixed-size-array element, gathered as a unit without looking inside. */
  datatype Nested = Nested(handle: nat)

  /**
   * A column. Every variant but `LogicalS` is a physical representation; `LogicalS`
   * stands for a logical type (date, categorical, ...) whose physical form is reached
   * through the conversion in `Env`. Numeric values (including floats) are carried as
   * their bit patterns.
   */
  datatype Series =
    | NumericS(name: string, kind: NumericKind, num: ChunkedArray<int>)
    | BooleanS(name: string, bools: ChunkedArray<bool>)
    | BinaryS(name: string, views: ViewChunked)
    | StringS(name: string, views: ViewChunked)
    | ListS(name: string, lists: ChunkedArray<Nested>)
    | ArrayS(name: string, width: nat, lists: ChunkedArray<Nested>)
    | StructS(name: string, fields: seq<Series>)
    | DecimalS(name: string, precision: nat, scale: nat, num: ChunkedArray<int>)
    | NullS(name: string, chunkLens: seq<nat>)
    | LogicalS(name: string, tag: nat, chunkLens: seq<nat>)

  /** The physical form of a non-nested logical type is never a struct. */
  type LeafSeries = s: Series | !s.StructS? witness NullS([], [])

  /**
   * The collaborators the gather cannot see: the logical-to-physical conversion and
   * its inverse (given the logical type's tag), and the sortedness merge rule.
   */
  datatype Env = Env(toPhysical: Series -> LeafSeries,
                     fromPhysical: (Series, nat) -> Series,
                     sortedFlag: SortedFlagFn)

  /** The internal errors the gather aborts with. */
  datatype Panic = ImplementationError | Unreachable

  /** Plain gather with a sortedness hint, or the null-aware gather. */
  datatype Mode = Plain(hint: IsSorted) | Opt

  predicate IsNested(s: Series)
  {
    s.ListS? || s.ArrayS? || s.StructS?
  }

  function NChunks(s: LeafSeries): nat
  {
    match s
    case NumericS(_, _, ca) => |ca.chunks|
    case BooleanS(_, ca) => |ca.chunks|
    case BinaryS(_, v) => |v.chunks|
    case StringS(_, v) => |v.chunks|
    case ListS(_, ca) => |ca.chunks|
    case ArrayS(_, _, ca) => |ca.chunks|
    case DecimalS(_, _, _, ca) => |ca.chunks|
    case NullS(_, lens) => |lens|
    case LogicalS(_, _, lens) => |lens|
  }

  /** The physical representation: a physical column is its own. */
  function ToPhysicalRepr(s: LeafSeries, env: Env): LeafSeries
  {
    if s.LogicalS? then env.toPhysical(s) else s
  }

  /** Restores the logical type of the input `orig` on a gathered physical column. */
  function FromPhysicalRepr(out: Series, orig: Series, env: Env): Series
  {
    if orig.LogicalS? then env.fromPhysical(out, orig.tag) else out
  }

  /**
   * `prepare_series`: nested columns are used as they are; any other column is
   * converted to its physical form, and a conversion that changed the number of
   * chunks is an internal error, because the addresses would no longer fit.
   */
  function PrepareSeries(s: Series, env: Env): (r: Result<Series, Panic>)
    ensures IsNested(s) ==> r == Success(s)
    ensures !s.LogicalS? ==> r == Success(s)
    ensures r.Failure? <==> s.LogicalS? && NChunks(env.toPhysical(s)) != NChunks(s)
    ensures r.Failure? ==> r.error == ImplementationError
    ensures s.LogicalS? && r.Success? ==> r.value == env.toPhysical(s)
    ensures r.Success? ==> (r.value.StructS? ==> r.value == s) && (!r.value.StructS? ==> NChunks(r.value) == NChunks(s))
  {
    if IsNested(s) then
      Success(s)
    else
      var phys := ToPhysicalRepr(s, env);
      if NChunks(phys) != NChunks(s) then Failure(ImplementationError) else Success(phys)
  }

  /** The addresses suit a column with chunk lengths `lens` under `mode`. */
  predicate IdsFit(lens: seq<nat>, ids: seq<ChunkId>, mode: Mode)
  {
    if mode.Plain? then ValidIds(lens, ids) else ValidOptIds(lens, ids)
  }

  /** The caller's promise for a physical non-struct column. */
  predicate LeafAddressable(p: LeafSeries, ids: seq<ChunkId>, mode: Mode)
  {
    match p
    case NumericS(_, _, ca) => IdsFit(ca.ChunkLens(), ids, mode)
    case BooleanS(_, ca) => IdsFit(ca.ChunkLens(), ids, mode)
    case BinaryS(_, v) => v.WellFormed() && IdsFit(v.ChunkLens(), ids, mode)
    case StringS(_, v) => v.WellFormed() && IdsFit(v.ChunkLens(), ids, mode)
    case ListS(_, ca) => IdsFit(ca.ChunkLens(), ids, mode)
    case ArrayS(_, _, ca) => IdsFit(ca.ChunkLens(), ids, mode)
    case DecimalS(_, _, _, ca) => IdsFit(ca.ChunkLens(), ids, mode)
    case NullS(_, _) => true
    case LogicalS(_, _, _) => true
  }

  /**
   * The caller's promise: every address fits the physical form that will be
   * gathered, field by field for a struct.
   */
  predicate Addressable(s: Series, ids: seq<ChunkId>, mode: Mode, env: Env)
    decreases s
  {
    match s
    case StructS(_, fields) => forall i | 0 <= i < |fields| :: Addressable(fields[i], ids, mode, env)
    case LogicalS(_, _, _) =>
      var p := env.toPhysical(s);
      NChunks(p) == NChunks(s) ==> LeafAddressable(p, ids, mode)
    case _ => LeafAddressable(s, ids, mode)
  }

  /**
   * When the gather aborts: a logical column whose physical form has a different
   * chunk count, or whose physical form is not a gatherable type, anywhere in the
   * column's field tree.
   */
  predicate Panics(s: Series, env: Env)
    decreases s
  {
    match s
    case StructS(_, fields) => exists i | 0 <= i < |fields| :: Panics(fields[i], env)
    case LogicalS(_, _, _) =>
      var p := env.toPhysical(s);
      NChunks(p) != NChunks(s) || p.LogicalS?
    case _ => false
  }

  /** The generic gather in the given mode. */
  function TakeGeneric<T>(ca: ChunkedArray<T>, ids: seq<ChunkId>, mode: Mode, sliceable: bool, env: Env): ChunkedArray<T>
    requires IdsFit(ca.ChunkLens(), ids, mode)
  {
    match mode
    case Plain(hint) => TakeChunked(ca, ids, hint, sliceable, env.sortedFlag)
    case Opt => TakeOptChunked(ca, ids, sliceable)
  }

  /** The view gather in the given mode. */
  function TakeViews(v: ViewChunked, ids: seq<ChunkId>, mode: Mode, env: Env): ViewChunked
    requires v.WellFormed() && IdsFit(v.ChunkLens(), ids, mode)
  {
    match mode
    case Plain(hint) => TakeBinview(v, ids, hint, env.sortedFlag)
    case Opt => TakeBinviewOpt(v, ids)
  }

  /**
   * Routing by physical type for every non-struct column. A decimal is gathered as
   * its integer column and gets its precision and scale back; the null type yields
   * one all-null chunk of the address list's length; a type outside the closed set
   * is unreachable.
   */
  function TakeLeaf(p: LeafSeries, ids: seq<ChunkId>, mode: Mode, env: Env): (r: Result<Series, Panic>)
    requires LeafAddressable(p, ids, mode)
    ensures r.Failure? <==> p.LogicalS?
    ensures r.Failure? ==> r.error == Unreachable
    ensures r.Success? ==> r.value.name == p.name
  {
    match p
    case NumericS(n, k, ca) => Success(NumericS(n, k, TakeGeneric(ca, ids, mode, true, env)))
    case BooleanS(n, ca) => Success(BooleanS(n, TakeGeneric(ca, ids, mode, false, env)))
    case BinaryS(n, v) => Success(BinaryS(n, TakeViews(v, ids, mode, env)))
    case StringS(n, v) => Success(StringS(n, TakeViews(v, ids, mode, env)))
    case ListS(n, ca) => Success(ListS(n, TakeGeneric(ca, ids, mode, false, env)))
    case ArrayS(n, w, ca) => Success(ArrayS(n, w, TakeGeneric(ca, ids, mode, false, env)))
    case DecimalS(n, prec, sc, ca) => Success(DecimalS(n, prec, sc, TakeGeneric(ca, ids, mode, true, env)))
    case NullS(n, _) => Success(NullS(n, [|ids|]))
    case LogicalS(_, _, _) => Failure(Unreachable)
  }

  /** All field results, or the error of the first field that aborted. */
  function CollectFields(results: seq<Result<Series, Panic>>): (r: Result<seq<Series>, Panic>)
    ensures r.Success? <==> forall i :: 0 <= i < |results| ==> results[i].Success?
    ensures r.Success? ==> |r.value| == |results| && forall i :: 0 <= i < |results| ==> results[i] == Success(r.value[i])
    decreases |results|
  {
    if |results| == 0 then Success([])
    else if results[0].Failure? then Failure(results[0].error)
    else
      match CollectFields(results[1..])
      case Failure(e) =>
        assert exists i :: 0 <= i < |results[1..]| && results[1..][i].Failure?;
        Failure(e)
      case Success(rest) =>
        var all := [results[0].value] + rest;
        assert forall i :: 1 <= i < |results| ==> results[i] == results[1..][i - 1];
        Success(all)
  }

  /**
   * `take_chunked_unchecked` / `take_opt_chunked_unchecked` on a column: prepare,
   * route by physical type, then restore the logical type.
   */
  function TakeSeries(s: Series, ids: seq<ChunkId>, mode: Mode, env: Env): (r: Result<Series, Panic>)
    requires Addressable(s, ids, mode, env)
    ensures r.Failure? <==> Panics(s, env)
    ensures s.LogicalS? && NChunks(env.toPhysical(s)) != NChunks(s) ==> r == Failure(ImplementationError)
    ensures s.LogicalS? && NChunks(env.toPhysical(s)) == NChunks(s) && env.toPhysical(s).LogicalS? ==> r == Failure(Unreachable)
    ensures s.NullS? ==> r == Success(NullS(s.name, [|ids|]))
    ensures r.Success? && !s.LogicalS? ==> r.value.name == s.name
    decreases s, 1
  {
    match PrepareSeries(s, env)
    case Failure(e) => Failure(e)
    case Success(phys) =>
      if phys.StructS? then TakeStruct(s, ids, mode, env)
      else
        match TakeLeaf(phys, ids, mode, env)
        case Failure(e) => Failure(e)
        case Success(o) => Success(FromPhysicalRepr(o, s, env))
  }

  /** A struct gathers each of its fields with the same addresses. */
  function TakeStruct(s: Series, ids: seq<ChunkId>, mode: Mode, env: Env): (r: Result<Series, Panic>)
    requires s.StructS? && Addressable(s, ids, mode, env)
    ensures r.Failure? <==> Panics(s, env)
    ensures r.Success? ==> r.value.StructS? && r.value.name == s.name && |r.value.fields| == |s.fields|
    decreases s, 0
  {
    var fields := s.fields;
    var results := seq(|fields|, i requires 0 <= i < |fields| => TakeSeries(fields[i], ids, mode, env));
    assert forall i :: 0 <= i < |fields| ==> (results[i].Failure? <==> Panics(fields[i], env));
    match CollectFields(results)
    case Failure(e) => Failure(e)
    case Success(gathered) => Success(StructS(s.name, gathered))
  }
}
