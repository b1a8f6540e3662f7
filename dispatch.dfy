/** Sparse-format routing for the two graph kernels, and the edge mapping
    lookup. The graph is a snapshot of what the kernel layer reads from it;
    the numeric kernels appear only as the launch they receive. */
module Dispatch {
  import opened Tensor
  import opened Checks

  /** The sparse storage formats a relation can be read in. */
  datatype SparseFormat = Coo | Csr | Csc

  /** What the kernel layer reads from a graph with (it is asserted) one edge
      type. `cscSelection` and `cooSelection` are the formats the graph
      selects for edge type 0 when asked with a CSC or a COO preference;
      `cscEdgeIds` is the `data` array of its CSC matrix, mapping CSC edge
      positions to edge ids. The counts are those of edge type 0 and of its
      source and destination vertex types. */
  datatype Graph = Graph(
    ctx: Context,
    numEdgeTypes: nat,
    srcVertices: u64,
    edges: u64,
    dstVertices: u64,
    cscSelection: SparseFormat,
    cooSelection: SparseFormat,
    cscEdgeIds: Desc)

  /** The triple of counts an operand's role index selects from: 0 for source
      vertices, 1 for edges, 2 for destination vertices. */
  function Dims(g: Graph): seq<u64>
  {
    [g.srcVertices, g.edges, g.dstVertices]
  }

  /** The graph operations whose kernels come in per-format variants. */
  datatype Operation = SpMMOp | SDDMMOp

  /** The numeric kernels, named as in the kernel declarations. */
  datatype Kernel = SpMMCsr | SpMMCoo | SDDMMCsr | SDDMMCoo | SegmentReduce | BackwardSegmentCmp

  /** A kernel call: a graph kernel with the sparse matrix it is handed, or a
      segment kernel that reads no graph. */
  datatype Launch = OnGraph(kernel: Kernel, matrix: SparseFormat) | OnFeatures(kernel: Kernel)

  /** Every fatal error of the kernel layer. */
  datatype Error =
    | InvalidOperand(operand: nat, name: string, fault: Fault)
    | EdgeTypeCount(count: nat)
    | UnsupportedFormat(op: Operation, format: SparseFormat)

  /** How a call ends: one kernel launched, or aborted with an error. */
  datatype Result = Launched(launch: Launch) | Aborted(error: Error)

  /** The formats for which each operation has a kernel: SpMM runs on CSC or
      COO, SDDMM on CSR or COO. */
  function SupportedFormats(op: Operation): (fs: set<SparseFormat>)
    ensures Coo in fs && |fs| == 2
    ensures op == SpMMOp ==> Csr !in fs
    ensures op == SDDMMOp ==> Csc !in fs
  {
    match op
    case SpMMOp => {Csc, Coo}
    case SDDMMOp => {Csr, Coo}
  }

  /** SpMM on the format the graph selects under a CSC preference: CSC goes to
      the CSR-layout kernel handed the CSC matrix (the transposed adjacency),
      COO to the COO kernel; anything else is fatal and launches nothing. */
  function SpMM(g: Graph): (r: Result)
    ensures r.Launched? <==> g.cscSelection in SupportedFormats(SpMMOp)
    ensures r.Launched? ==> r.launch.OnGraph? && r.launch.matrix == g.cscSelection
    ensures r.Launched? ==> r.launch.kernel in {SpMMCsr, SpMMCoo}
    ensures r.Aborted? ==> r.error == UnsupportedFormat(SpMMOp, g.cscSelection)
  {
    match g.cscSelection
    case Csc => Launched(OnGraph(SpMMCsr, Csc))
    case Coo => Launched(OnGraph(SpMMCoo, Coo))
    case Csr => Aborted(UnsupportedFormat(SpMMOp, Csr))
  }

  /** SDDMM on the format the graph selects under a COO preference: CSR goes
      to the CSR kernel, COO to the COO kernel; anything else is fatal. */
  function SDDMM(g: Graph): (r: Result)
    ensures r.Launched? <==> g.cooSelection in SupportedFormats(SDDMMOp)
    ensures r.Launched? ==> r.launch.OnGraph? && r.launch.matrix == g.cooSelection
    ensures r.Launched? ==> r.launch.kernel in {SDDMMCsr, SDDMMCoo}
    ensures r.Aborted? ==> r.error == UnsupportedFormat(SDDMMOp, g.cooSelection)
  {
    match g.cooSelection
    case Csr => Launched(OnGraph(SDDMMCsr, Csr))
    case Coo => Launched(OnGraph(SDDMMCoo, Coo))
    case Csc => Aborted(UnsupportedFormat(SDDMMOp, Csc))
  }

  /** The kernel each graph launch uses matches the matrix it is handed:
      the SpMM kernels read CSC (through the CSR-layout kernel) or COO, the
      SDDMM kernels CSR or COO. */
  predicate KernelFitsMatrix(l: Launch)
  {
    l.OnGraph? &&
    match l.kernel
    case SpMMCsr => l.matrix == Csc
    case SpMMCoo => l.matrix == Coo
    case SDDMMCsr => l.matrix == Csr
    case SDDMMCoo => l.matrix == Coo
    case _ => false
  }

  /** Both routers only ever launch a kernel on a matrix of the layout that
      kernel reads, and never a kernel of the other operation. */
  lemma RoutingFits(g: Graph)
    ensures SpMM(g).Launched? ==> KernelFitsMatrix(SpMM(g).launch)
    ensures SDDMM(g).Launched? ==> KernelFitsMatrix(SDDMM(g).launch)
    ensures SpMM(g).Launched? ==> SpMM(g).launch.kernel !in {SDDMMCsr, SDDMMCoo}
    ensures SDDMM(g).Launched? ==> SDDMM(g).launch.kernel !in {SpMMCsr, SpMMCoo}
  {
  }

  /** The array mapping CSC edge positions to edge ids when the graph selects
      CSC under a CSC preference, and the null array otherwise (the edge order
      is then the identity). */
  function GetEdgeMapping(g: Graph): (r: Desc)
    ensures g.cscSelection == Csc ==> r == g.cscEdgeIds
    ensures g.cscSelection != Csc ==> r == NullArray()
  {
    if g.cscSelection == Csc then g.cscEdgeIds else NullArray()
  }

  /** The edge mapping and SpMM read the same selection: on one graph, the
      mapping is the CSC edge-id array exactly when SpMM runs on the CSC
      matrix, provided that array is not itself null. Both read the selection
      from the same snapshot: the source asks the graph for it once in each
      call, and this lemma assumes the graph's answer does not change between
      the two calls. */
  lemma EdgeMappingMatchesSpMM(g: Graph)
    requires g.cscEdgeIds.Tensor?
    ensures GetEdgeMapping(g) == g.cscEdgeIds <==> (SpMM(g).Launched? && SpMM(g).launch.matrix == Csc)
  {
  }

  /** When SpMM runs on COO the edges are in their own order, and the mapping
      is the null array, whatever the CSC edge-id array holds. */
  lemma EdgeMappingNullOnCoo(g: Graph)
    ensures SpMM(g).Launched? && SpMM(g).launch.matrix == Coo ==> GetEdgeMapping(g) == NullArray()
  {
  }
}
