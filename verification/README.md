# Chunked gather engine — a Dafny model

This project models the chunked gather ("take") engine of a columnar query library. A column is stored as several chunks. A gather receives a list of row addresses; each address is a (chunk, index-in-chunk) pair or, for the null-aware variant, a null sentinel. It produces one new chunk holding the addressed values in address order.

The model covers:

- **Addresses and the reference semantics** (`Addressing`). An address is either `Null` or `Id(chunk, idx)`. The reference semantics first concatenates the chunks (a *rechunk*), then indexes the result with each address's flat position. This is the meaning every gather is proved against.
- **The generic gather of a chunked array** (`GenericGather`). This is `take_chunked_unchecked` and `take_opt_chunked_unchecked`.
  - It has two routes. A column whose element type is stored as plain slices and which has no nulls is read through the slices. Any other column is read through the validity-aware iterator.
  - The plain gather gives its output the merge of the source's sortedness flag with the caller's hint. The null-aware gather leaves the flag unset.
- **The view encoding of binary and string columns** (`Views`). Each value is a small view descriptor.
  - A value of at most 12 bytes is stored inside the descriptor itself.
  - A longer value points, by buffer index and offset, into a pool of shared byte buffers.
  - A buffer's identity is its (address, length), never its content.
- **`update_view` and buffer deduplication** (`ViewDedup`). A long view is re-pointed into an output pool. The output pool admits each source buffer once, keyed by identity, in the order the buffers are first referenced.
- **The view gather** (`BinviewGather`, `BinviewProperties`). This is `take_unchecked_binview` and `take_unchecked_binview_opt`.
  - A single-chunk source keeps its own buffer pool and copies views.
  - A multi-chunk source builds a fresh deduplicated pool through `update_view`.
  - A null slot always receives the zeroed default view.
- **The column-level dispatcher** (`Dispatch`, `DispatchProperties`). This is `prepare_series` and the `Series` gathers.
  - A column is converted to its physical form. If the conversion changed the number of chunks, the gather aborts with an implementation error.
  - The physical form is routed by type: numeric, boolean, binary, string, list, array, struct (field by field; the struct's own validity is not modelled), decimal (as its integer column) or null.
  - The result is converted back to the logical type.
- **The unit test of the view gather** (`Scenarios`). It is written out on concrete strings, buffers and views: a three-chunk column without nulls, and a two-chunk column with a null, each gathered with and without null addresses.

The main results:

- Every gather equals the rechunk-then-take reference: generic or view, plain or null-aware, single- or multi-chunk, and for a whole column tree without logical columns. A logical column is gathered as its physical form and then converted back; no value-level reference is stated for it, because the conversions are parameters.
- The slice route and the iterator route agree.
- The single-chunk fast path and the multi-chunk path denote the same values.
- The deduplicated pool holds exactly the buffers that some emitted long view references, each once, in first-reference order.
- `update_view` keeps the pool and its index map in sync, and applying it twice changes nothing.

## Model

| member | source | states |
|---|---|---|
| Addressing.Position | crates/polars-ops/src/chunked_array/gather/chunked.rs:629-641 | an address has a flat position in the rechunked column exactly when it is not the null sentinel, and that position lies inside the rechunked column |
| Addressing.DecomposePosition | crates/polars-ops/src/chunked_array/gather/chunked.rs:629-641 | splitting an address's flat position back into (chunk, index) gives the original address, so the pairs in the test and the rechunked indices denote the same rows |
| Addressing.PositionInjective | crates/polars-ops/src/chunked_array/gather/chunked.rs:629-641 | two valid addresses have the same flat position if and only if they are the same address |
| Addressing.FlattenAt | crates/polars-ops/src/chunked_array/gather/chunked.rs:641 | after a rechunk, element `i` of chunk `c` sits at the sum of the earlier chunk lengths plus `i` |
| Addressing.IdentityTake | crates/polars-ops/src/chunked_array/gather/chunked.rs:640-641 | taking the rechunked values at every position in order gives back the values |
| GenericGather.DowncastSlices | crates/polars-ops/src/chunked_array/gather/chunked.rs:256-257 | the slice route is available exactly when the element type is slice-stored and no chunk has a null; each slice then has its chunk's length and holds that chunk's values |
| GenericGather.TakeChunked | crates/polars-ops/src/chunked_array/gather/chunked.rs:249-287 | the output is one chunk as long as the address list; slot `k` is the element the `k`-th address names; the flag is the merge of the source flag and the hint |
| GenericGather.TakeOptChunked | crates/polars-ops/src/chunked_array/gather/chunked.rs:290-326 | the output is one chunk as long as the address list; a null address gives null; any other address gives the element it names; no sortedness flag is set |
| GenericGather.TakeChunkedIsRechunkTake | crates/polars-ops/src/chunked_array/gather/chunked.rs:249-287 | the plain gather equals rechunking the source and taking the addresses' flat positions |
| GenericGather.TakeOptChunkedIsRechunkTake | crates/polars-ops/src/chunked_array/gather/chunked.rs:290-326 | the null-aware gather equals the rechunk-then-take, with null at each null address and source nulls preserved |
| GenericGather.RoutesAgree | crates/polars-ops/src/chunked_array/gather/chunked.rs:256-283 | the slice route and the iterator route of the plain gather produce the same column |
| GenericGather.OptRoutesAgree | crates/polars-ops/src/chunked_array/gather/chunked.rs:293-325 | the slice route and the iterator route of the null-aware gather produce the same column |
| GenericGather.OptWithoutNullsIsPlain | crates/polars-ops/src/chunked_array/gather/chunked.rs:290-326 | on an address list without null sentinels, the null-aware gather yields the same chunk as the plain gather |
| GenericGather.IdentityGather | crates/polars-ops/src/chunked_array/gather/chunked.rs:249-287 | gathering with the identity address list reproduces the column's values |
| ViewDedup.SyncedPool | crates/polars-ops/src/chunked_array/gather/chunked.rs:372-386 | when the index map and the pool are in sync, the map's keys are exactly the pool's buffer identities and no identity is held twice |
| ViewDedup.UpdateView | crates/polars-ops/src/chunked_array/gather/chunked.rs:369-390 | an inline view and the pool are returned unchanged; a long view keeps its length, prefix and offset and is re-pointed at a pool buffer with its source buffer's identity; the pool grows by that buffer exactly when its identity was new; the map stays in sync |
| ViewDedup.UpdateViewIdempotent | crates/polars-ops/src/chunked_array/gather/chunked.rs:369-390 | re-applying `update_view` to the pool it produced returns the same view and pool |
| ViewDedup.UpdateViewPool | crates/polars-ops/src/chunked_array/gather/chunked.rs:375-387 | for a long view, the pool afterwards is the old pool, plus its source buffer at the end if that identity was absent |
| ViewDedup.DedupByKey | crates/polars-ops/src/chunked_array/gather/chunked.rs:379-386 | the reference pool: it holds no identity twice, has the same identities as the referenced list, and contains only referenced buffers |
| ViewDedup.DedupFirstReferenceOrder | crates/polars-ops/src/chunked_array/gather/chunked.rs:379-386 | each pool buffer is the first referenced buffer with its identity, and pool order is first-reference order |
| BinviewGather.SingleChunkGather | crates/polars-ops/src/chunked_array/gather/chunked.rs:406-433 | for the plain gather here and, with `opt`, for the null-aware gather at lines 505-535: the single-chunk path keeps the chunk's buffers; it has a validity mask exactly for the null-aware gather or a chunk with nulls; a non-null slot copies the source view; a null address or null source slot gives a null slot holding the default view |
| BinviewGather.MultiPass | crates/polars-ops/src/chunked_array/gather/chunked.rs:434-476 | for the plain gather here and, when null addresses are allowed, for the null-aware gather at lines 536-586: the multi-chunk loop emits one view and validity bit per address; the pool stays in sync; each slot is emitted from its address against the final pool; the final pool is the deduplicated list of referenced buffers |
| BinviewGather.MultiStepSound | crates/polars-ops/src/chunked_array/gather/chunked.rs:440-457 | one more loop step keeps the loop invariant: all earlier slots stay valid as the pool grows, and the pool is the deduplication of the references so far |
| BinviewGather.MultiChunkGather | crates/polars-ops/src/chunked_array/gather/chunked.rs:434-476 | for the plain gather here and, when null addresses are allowed, for the null-aware gather at lines 536-586: the multi-chunk path emits one view per address; it has a validity mask exactly for the null-aware gather or a source with nulls; its pool is the deduplicated referenced-buffer list; every slot is emitted from its address |
| BinviewGather.TakeBinview | crates/polars-ops/src/chunked_array/gather/chunked.rs:392-490 | the plain view gather produces one chunk as long as the address list, flagged with the merge of the source flag and the hint |
| BinviewGather.TakeBinviewOpt | crates/polars-ops/src/chunked_array/gather/chunked.rs:492-597 | the null-aware view gather produces one chunk as long as the address list; it always carries a validity mask and no sortedness flag |
| BinviewProperties.ReferencedKeys | crates/polars-ops/src/chunked_array/gather/chunked.rs:375-386 | an identity occurs in the referenced-buffer list exactly when some non-null address emits a long view into a buffer with that identity |
| BinviewProperties.ReferencedFromSource | crates/polars-ops/src/chunked_array/gather/chunked.rs:377-383 | every referenced buffer is one of the source chunks' buffers |
| BinviewProperties.MultiChunkPool | crates/polars-ops/src/chunked_array/gather/chunked.rs:434-476 | pool minimality: the output pool holds each identity once; an identity is in it exactly when some emitted long view references it; every pool buffer comes from the source |
| BinviewProperties.MultiChunkResolves | crates/polars-ops/src/chunked_array/gather/chunked.rs:440-471 | a non-null output slot holds the source view; if it is long, only the buffer index changes, and it points at the very source buffer the source view used |
| BinviewProperties.MultiChunkSlot | crates/polars-ops/src/chunked_array/gather/chunked.rs:434-476 | an output slot is null exactly when its address emits null; otherwise its view denotes the same bytes as the source view |
| BinviewProperties.GatherChunkValidity | crates/polars-ops/src/chunked_array/gather/chunked.rs:505-586 | on both paths, an output slot is null exactly when its address is null or names a null source slot, and every null slot holds the default view |
| BinviewProperties.SingleChunkIsRechunkTake | crates/polars-ops/src/chunked_array/gather/chunked.rs:406-433 | the single-chunk path is well formed and equals the rechunk-then-take |
| BinviewProperties.MultiChunkIsRechunkTake | crates/polars-ops/src/chunked_array/gather/chunked.rs:434-476 | the multi-chunk path is well formed and equals the rechunk-then-take |
| BinviewProperties.GatherChunkIsRechunkTake | crates/polars-ops/src/chunked_array/gather/chunked.rs:404-476 | whichever path the chunk count selects, the gathered chunk is well formed and equals the rechunk-then-take |
| BinviewProperties.FastPathAgrees | crates/polars-ops/src/chunked_array/gather/chunked.rs:404-405 | on a single-chunk source, reusing the chunk's pool and rebuilding a deduplicated pool denote the same values |
| BinviewProperties.TakeBinviewIsRechunkTake | crates/polars-ops/src/chunked_array/gather/chunked.rs:392-490 | the plain view gather is well formed and equals the rechunk-then-take |
| BinviewProperties.TakeBinviewOptIsRechunkTake | crates/polars-ops/src/chunked_array/gather/chunked.rs:492-597 | the null-aware view gather is well formed and equals the rechunk-then-take, with null at each null address |
| BinviewProperties.IdentityGather | crates/polars-ops/src/chunked_array/gather/chunked.rs:392-490 | gathering a view column with the identity address list reproduces its values |
| Dispatch.PrepareSeries | crates/polars-ops/src/chunked_array/gather/chunked.rs:96-109 | nested and physical columns pass through unchanged; a logical column that succeeds becomes exactly its physical form; it fails with an implementation error exactly when the conversion changed the chunk count |
| Dispatch.TakeLeaf | crates/polars-ops/src/chunked_array/gather/chunked.rs:139-185 | routing by physical type keeps the column's name; it fails exactly on a type outside the gatherable set, and then with the unreachable error |
| Dispatch.CollectFields | crates/polars-ops/src/chunked_array/gather/chunked.rs:168-173 | the field results combine into a success exactly when every field succeeded, and then hold each field's result in order |
| Dispatch.TakeSeries | crates/polars-ops/src/chunked_array/gather/chunked.rs:131-241 | the column gather aborts exactly when some logical column in the tree has a chunk-count-changing or ungatherable physical form; a chunk-count change gives the implementation error; a physical form outside the gatherable set gives the unreachable error; the null type gives a single chunk of one null per address; a physical column keeps its name |
| Dispatch.TakeStruct | crates/polars-ops/src/chunked_array/gather/chunked.rs:167-173 | a struct gathers each field with the same addresses; it aborts exactly when a field does, and otherwise keeps its name and field count |
| DispatchProperties.PhysicalNeverPanics | crates/polars-ops/src/chunked_array/gather/chunked.rs:96-109 | a column tree with no logical column never aborts |
| DispatchProperties.StructGathersFields | crates/polars-ops/src/chunked_array/gather/chunked.rs:167-173 | field `i` of a gathered struct is the gather of field `i` |
| DispatchProperties.GenericGathered | crates/polars-ops/src/chunked_array/gather/chunked.rs:249-326 | in either mode, the generic gather gives one chunk equal to the rechunk-then-take, carrying the flag its mode prescribes |
| DispatchProperties.ViewsGathered | crates/polars-ops/src/chunked_array/gather/chunked.rs:150-157 | in either mode, the view gather gives one well-formed chunk equal to the rechunk-then-take, carrying the flag its mode prescribes |
| DispatchProperties.ViewLeafIsRechunkTake | crates/polars-ops/src/chunked_array/gather/chunked.rs:150-157 | a binary or string column gathers successfully to the reference, keeping its type and name |
| DispatchProperties.LeafIsRechunkTake | crates/polars-ops/src/chunked_array/gather/chunked.rs:139-185 | every physical non-struct column gathers successfully to the reference, keeping its type, name and parameters |
| DispatchProperties.TakeSeriesIsRechunkTake | crates/polars-ops/src/chunked_array/gather/chunked.rs:131-241 | on a physical column tree the gather never aborts; every leaf equals the rechunk-then-take of its source and the struct shape is kept |
| DispatchProperties.DecimalIsIntegerGather | crates/polars-ops/src/chunked_array/gather/chunked.rs:176-182 | a decimal column is gathered as its 128-bit integer column, and precision and scale are restored |
| DispatchProperties.LogicalGoesThroughPhysical | crates/polars-ops/src/chunked_array/gather/chunked.rs:131-187 | a logical column whose physical form kept its chunk layout is gathered as that physical form and then converted back with its own type |
| DispatchProperties.NullGather | crates/polars-ops/src/chunked_array/gather/chunked.rs:183 | the null type gathers to one null per address, whatever its own chunk layout |
| Scenarios.SmallInline | crates/polars-ops/src/chunked_array/gather/chunked.rs:620 | the five-byte value "small" is held inline in its view, and the view's inline bytes are its ASCII bytes |
| Scenarios.ColumnValues | crates/polars-ops/src/chunked_array/gather/chunked.rs:607-626 | the three appended chunks form a well-formed, pointer-coherent column of chunk lengths 2, 2, 3 holding the seven test strings in order |
| Scenarios.ColumnPositions | crates/polars-ops/src/chunked_array/gather/chunked.rs:629-653 | the test's address lists are valid and decode to flat positions 0,1,3,2,4,5,6 and null,1,3,2 |
| Scenarios.GatherWithoutNulls | crates/polars-ops/src/chunked_array/gather/chunked.rs:639-642 | on any column with that layout, the plain gather returns rows 0,1,3,2,4,5,6 |
| Scenarios.GatherWithNullIds | crates/polars-ops/src/chunked_array/gather/chunked.rs:651-655 | on any column with that layout, the null-aware gather with a leading null address returns null, then rows 1,3,2 |
| Scenarios.ColumnGathers | crates/polars-ops/src/chunked_array/gather/chunked.rs:604-655 | the test column gathers to the rechunk-then-take in both modes |
| Scenarios.NullColumnValues | crates/polars-ops/src/chunked_array/gather/chunked.rs:658-663 | the second test column has chunk lengths 2, 2, has a null, and holds three strings and one null in order |
| Scenarios.NullColumnPositions | crates/polars-ops/src/chunked_array/gather/chunked.rs:666-687 | the second test's address lists are valid and decode to positions 0,1,3,2 and null,1,3,2 |
| Scenarios.NullColumnGathers | crates/polars-ops/src/chunked_array/gather/chunked.rs:673-689 | on any column of that layout, the plain gather returns rows 0,1,3,2, and the null-aware gather returns null, then rows 1,3,2 |
| Scenarios.NullColumnScenario | crates/polars-ops/src/chunked_array/gather/chunked.rs:657-689 | on the second test column, the plain gather returns the two long strings, the null and the 11-string; the null-aware gather returns null, the 2-string, the null and the 11-string |

## Left out

- The table-level fan-out over a data frame's columns (optionally in parallel), and the `Column` wrappers that delegate to the column gather. They add no logic of their own to the gather.
- The object type's gather and its dispatch arms. It appends through a builder supplied by the type's registration, which is not visible here.
- The garbage collection applied to the output view array. Pool minimality is stated on the pool before it runs.
- The logical-to-physical conversion and its inverse, and the sortedness merge rule. They are defined outside this file and are parameters (`Env`, `SortedFlagFn`).
  - The inverse conversion is modelled as total; a failure of it is not modelled.
  - The physical form of a non-nested column is assumed never to be a struct.
- The bit packing of addresses into one integer, with its null sentinel. An address is the abstract `Null` or `Id(chunk, idx)`.
- The `downcast_slices` test is modelled as a `sliceable` flag of the element type plus the absence of nulls.
- Arrow data types, building output arrays from iterators, and validity bitmaps are modelled as sequences of optional values and of booleans.
- Floating-point and other numeric values are carried as integers (their bit patterns), because the gather copies them without interpreting them.
- ViewDedup.UpdateView: buffer indices are unbounded, so the truncation `buffers.len() as u32` is not modelled; it matters only beyond 2^32 buffers.
- Buffer identity is assumed sound: two source buffers with the same address and length hold the same bytes. Every byte- and value-level result about view columns takes this as a precondition (`PointerCoherent`, and `ViewsSound` for column trees). That covers `BinviewProperties.MultiChunkResolves`, `MultiChunkSlot`, `MultiChunkIsRechunkTake`, `GatherChunkIsRechunkTake`, `FastPathAgrees`, `TakeBinviewIsRechunkTake`, `TakeBinviewOptIsRechunkTake` and `IdentityGather`, and the dispatch theorems built on them. In the source it holds because a buffer's memory is owned and immutable while referenced.
- A struct's own validity mask is not modelled. A struct column is its fields only, so a null at struct level cannot be expressed; what the field-wise gather does with the struct's own validity is decided outside this file.
- GenericGather.IdentityGather: states that the values are reproduced but not the sortedness flag, because the flag is the result of the merge rule, which is a parameter.
- BinviewProperties.IdentityGather: states that the values are reproduced but not the sortedness flag, for the same reason.
- Decimal precision is modelled as a plain number, not an optional one.
- The test's `equals` / `equals_missing` comparisons are modelled as equality of the value sequences. Column names are kept alongside.
