# Kernel argument validation and format routing (DGL `src/array/kernel.cc`)

This project models the argument-validation and dispatch layer in front of DGL's
generalised sparse kernels: SpMM (sparse × dense multiply with a combine and a
reduce operator), SDDMM (sampled dense-dense multiply, one value per edge),
segment reduce and its backward pass, and the edge-mapping lookup.

The layer never computes anything numeric. The SpMM and SDDMM entry points
- check that every provided operand tensor is on the reference device
  context;
- check that every provided operand is contiguous;
- assert that the graph has a single edge type;
- check that every provided operand has rank at least two and a leading
  dimension equal to the graph count its role selects (source vertices,
  edges or destination vertices);
- route the call to the kernel for the sparse format the graph selects, or
  abort when no kernel exists for that format.

The segment-reduce and backward segment-compare entry points only check that
their operands are on `feat`'s context and contiguous, then launch their
kernel. The edge-mapping lookup checks nothing: it returns the CSC edge-id
array or the null array, depending on the format the graph selects.

Null arrays stand for optional operands that were not provided and are
skipped by every check.

Files and modules:
- `tensor.dfy` (module `Tensor`): tensor descriptors
  (`Desc = Null(ctx) | Tensor(ctx, contiguous, shape)`), device contexts, and
  the 64-bit count and dimension types. It also states how a signed
  dimension compares with an unsigned count.
- `checks.dfy` (module `Checks`): the three validators `CheckCtx`,
  `CheckContiguous` and `CheckShape`. Each is a loop method proved equal to a
  recursive specification function. The function's contract says when the
  check passes, and which operand, name and fault it reports when it does
  not: the first offending one.
- `dispatch.dfy` (module `Dispatch`): the graph snapshot the layer reads, the
  format routing of `SpMM` and `SDDMM`, and `GetEdgeMapping`.
- `entry.dfy` (module `Entry`): the entry-point bodies as functions over a
  `Result` (`Launched(kernel call)` or `Aborted(error)`), with lemmas on
  check order, operand roles and optional operands.

Modelling choices:
- A fatal `CHECK`/`LOG(FATAL)` becomes an `Aborted` result or a `Fatal`
  outcome naming the operand. The message text is not modelled; the operand's
  position, its name and the kind of fault are.
- The rank (`ndim`) of a tensor is the length of its shape.
- The leading-dimension test compares a `uint64_t` count with an `int64_t`
  dimension. C++ converts the signed operand to unsigned, so
  `Tensor.AsUnsigned` wraps negative dimensions modulo 2^64 before comparing.
- `gdim[uev_idx[i]]` is an unchecked vector index in the source: a role
  outside `[0, 3)` is undefined behaviour. The model reports it instead as a
  `RoleOutOfRange` fault of that operand. It is reached only where the source
  would perform the out-of-range index: after that operand's rank check.
- The graph's format selection, counts and CSC edge-id array are fields of a
  `Graph` snapshot taken as input. This covers `SelectFormat(0, csc_code)`,
  `SelectFormat(0, coo_code)`, the counts read through `FindEdge(0)` and
  `GetCSCMatrix(0).data`.
- SpMM on a CSC selection calls the `SpMMCsr` kernel with the CSC matrix. The
  launch records both: `OnGraph(SpMMCsr, Csc)`.
- A null array keeps a device context. The segment entry points take `feat`'s
  context as the reference even when `feat` is null. `NullArray()` is on the
  CPU, device 0. That default comes from the array library, which is not part
  of this model.

## Model

| member | source | states |
|---|---|---|
| `Tensor.AsUnsigned` | src/array/kernel.cc:62 | the int64 leading dimension as the uint64 it becomes in the mixed comparison: unchanged when non-negative, wrapped by 2^64 when negative |
| `Tensor.SameSizeMeaning` | src/array/kernel.cc:62 | a non-negative dimension matches a count iff the two are equal; a negative one matches only a count of at least 2^63 (the wrapped value) |
| `Checks.CtxCheck` | src/array/kernel.cc:23-34 | passes iff every non-null array is on the reference context; otherwise reports the first array that is not, by position and name, with both contexts |
| `Checks.CheckCtx` | src/array/kernel.cc:23-34 | the loop returns exactly the verdict of `CtxCheck`: pass iff every non-null array is on the reference context |
| `Checks.ContiguityCheck` | src/array/kernel.cc:37-46 | passes iff every non-null array is contiguous; otherwise reports the first non-contiguous one by position and name |
| `Checks.CheckContiguous` | src/array/kernel.cc:37-46 | the loop returns exactly the verdict of `ContiguityCheck`: pass iff every non-null array is contiguous |
| `Checks.OperandShape` | src/array/kernel.cc:55-65 | one operand is accepted iff it is null, or has rank ≥ 2, a role indexing the counts, and a leading dimension equal to that count; the rank fault takes precedence over the others |
| `Checks.ShapeCheck` | src/array/kernel.cc:49-67 | passes iff every non-null array `i` has rank ≥ 2 and leading dimension `gdim[roles[i]]`; otherwise reports the first failing array and its fault |
| `Checks.CheckShape` | src/array/kernel.cc:49-67 | the loop returns exactly the verdict of `ShapeCheck` |
| `Checks.LowRankFails` | src/array/kernel.cc:57-61 | a non-null array of rank < 2 always makes the shape check fail, at that array (with a rank fault) or at an earlier one |
| `Checks.NullsPass` | src/array/kernel.cc:27-29 | a list of null arrays passes all three checks, whatever the context, counts and roles |
| `Checks.CtxCheckUpToNulls` | src/array/kernel.cc:27-29 | two operand lists that differ only in which null arrays they hold get the same context verdict |
| `Checks.ContiguityCheckUpToNulls` | src/array/kernel.cc:40-42 | two operand lists that differ only in which null arrays they hold get the same contiguity verdict |
| `Checks.ShapeCheckUpToNulls` | src/array/kernel.cc:54-56 | two operand lists that differ only in which null arrays they hold get the same shape verdict, whatever the roles |
| `Dispatch.SupportedFormats` | src/array/kernel.cc:85-126 | SpMM has kernels for exactly CSC and COO, SDDMM for exactly CSR and COO |
| `Dispatch.SpMM` | src/array/kernel.cc:72-99 | launches iff the CSC-preferred selection is CSC or COO, on that matrix, with an SpMM kernel; a CSR selection is a fatal unsupported-format error |
| `Dispatch.SDDMM` | src/array/kernel.cc:102-130 | launches iff the COO-preferred selection is CSR or COO, on that matrix, with an SDDMM kernel; a CSC selection is fatal |
| `Dispatch.RoutingFits` | src/array/kernel.cc:85-126 | every launch hands its kernel the matrix layout that kernel reads, and never a kernel of the other operation |
| `Dispatch.GetEdgeMapping` | src/array/kernel.cc:132-139 | the CSC matrix's edge-id array when CSC is selected, the null array (`Tensor.NullArray`) otherwise |
| `Dispatch.EdgeMappingMatchesSpMM` | src/array/kernel.cc:79-139 | on one graph whose CSC edge-id array is not null, the mapping is that array exactly when SpMM runs on the CSC matrix |
| `Dispatch.EdgeMappingNullOnCoo` | src/array/kernel.cc:79-139 | on any graph, when SpMM runs on COO the mapping is the null array |
| `Entry.SpMMEntry` | src/array/kernel.cc:167-191 | launches iff all five operands pass context and contiguity, the graph has one edge type, U matches the source-vertex count, E the edge count, out/Arg_U/Arg_E the destination-vertex count, and the format is supported; the launch is then SpMM's |
| `Entry.SpMMEntryOrder` | src/array/kernel.cc:177-190 | a context error is reported before all else, at the first operand off the context; then contiguity, at the first non-contiguous operand; then the edge-type count (before any shape); then the first shape fault; once all pass, the result is exactly SpMM's routing, so an unsupported format is reported only then |
| `Entry.SpMMEntryRejectsSourceMismatch` | src/array/kernel.cc:185-189 | with the earlier checks passing, a U whose leading dimension is not the source-vertex count aborts with U_data's mismatch |
| `Entry.SpMMEntryNullArgs` | src/array/kernel.cc:175-190 | with null Arg_U/Arg_E the outcome is the same as with any other null arrays there, and it depends on U, E and out alone |
| `Entry.SDDMMEntry` | src/array/kernel.cc:193-214 | launches iff lhs, rhs and out pass context and contiguity, the graph has one edge type, lhs matches `gdim[lhs_target]`, rhs `gdim[rhs_target]`, out the edge count, and the format is supported |
| `Entry.SDDMMEntryOrder` | src/array/kernel.cc:202-213 | the same check order as SpMM: the first operand off the context, then the first non-contiguous one, edge types, then the first shape fault (roles `[lhs_target, rhs_target, 1]`); once all pass, the result is exactly SDDMM's routing |
| `Entry.SDDMMOutIsPerEdge` | src/array/kernel.cc:208-212 | an out whose leading dimension is not the edge count never launches, whatever the targets; an out of the right size is never the operand a shape fault is reported at |
| `Entry.SDDMMBadTarget` | src/array/kernel.cc:208-212 | an lhs target outside the count triple aborts the call at lhs, named U_data |
| `Entry.SegmentReduceEntry` | src/array/kernel.cc:216-226 | launches segment reduce iff offsets and out are on feat's context and feat, offsets and out are contiguous; feat never fails the context check; a context error comes before contiguity, and each reports its first offending operand |
| `Entry.SegmentReduceIgnoresArg` | src/array/kernel.cc:222-225 | the argument output is never checked: the outcome is the same whatever is passed for it |
| `Entry.BwdSegmentCmpEntry` | src/array/kernel.cc:228-236 | launches the backward segment compare iff arg and out are on feat's context and feat, arg and out are contiguous; a context error comes before contiguity, and each reports its first offending operand |

## Left out

- The numeric kernels (`SpMMCsr`, `SpMMCoo`, `SDDMMCsr`, `SDDMMCoo`, `SegmentReduce`, `BackwardSegmentCmp`) are declared in `kernel_decl.h`, which is not part of this model. They appear only as the launch they receive. The op and reduce strings and the operands passed through to them are not recorded.
- `CalcBcastOff` (broadcast resolution) is not part of this model. In the source it runs between the format selection and the routing and can abort there; the model goes straight from the shape check to the routing.
- The device, id-type and float-width switches (`ATEN_XPU_SWITCH_CUDA`, `ATEN_ID_TYPE_SWITCH`, `ATEN_FLOAT_BITS_SWITCH`) are not part of this model. Their unsupported-device and unsupported-dtype aborts, which precede the format check, are not modelled.
- `graph->SelectFormat`, lazy format materialisation and `meta_graph()->FindEdge` belong to the graph object. Their results are inputs (fields of `Dispatch.Graph`).
- `NDArray::IsContiguous` and `IsNullArray` are defined in the array library, which is not part of this model. Contiguity is a flag and nullness a constructor. `IsNullArray` decides nullness from the array's shape (the null array is an empty array). So a provided tensor with zero rows may also count as "not provided" there and skip the context, contiguity and shape checks. The model treats only `Null` as not provided, and checks zero-row tensors like any other.
- SpMMEntryRejectsSourceMismatch: because of the nullness rule above, its promise is not backed by the source for a U whose leading dimension is 0. The source may treat such a U as not provided and let it through.
- SDDMMOutIsPerEdge: likewise, its promise is not backed by the source for an out whose leading dimension is 0.
- The packed-function argument marshalling (`DGL_REGISTER_GLOBAL`) is not modelled. The entry functions take the unpacked arguments.
- The optional FeatGraph path (`_CAPI_FG_LoadModule`, `_CAPI_FG_SDDMMTreeReduction`) loads a foreign module and converts tensors through DLPack; it is not modelled. On that path the shape check is commented out (src/array/kernel.cc:260-267).
- Error-message text is not modelled beyond the operand name each check reports.
