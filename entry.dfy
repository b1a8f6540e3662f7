/** The packed-function entry points: each runs the validators in a fixed
    order (context, contiguity, then for the graph kernels the single edge
    type and the shapes) and reaches its kernel only when all of them pass. */
module Entry {
  import opened Tensor
  import opened Checks
  import opened Dispatch

  /** The error a failed validator reports. */
  function Abort(o: Outcome): Result
    requires o.Fatal?
  {
    Aborted(InvalidOperand(o.operand, o.name, o.fault))
  }

  /** An operand tied to graph count `count` by its role: null, or of rank at
      least two with that count as its leading dimension. */
  predicate Leading(count: u64, a: Desc)
  {
    a.Null? || (|a.shape| >= 2 && SameSize(count, a.shape[0]))
  }

  /** Every operand is null or on `ctx`. */
  predicate AllOnContext(ctx: Context, arrays: seq<Desc>)
  {
    forall j :: 0 <= j < |arrays| ==> OnContext(ctx, arrays[j])
  }

  /** Every operand is null or contiguous. */
  predicate AllContiguous(arrays: seq<Desc>)
  {
    forall j :: 0 <= j < |arrays| ==> ContiguousOrNull(arrays[j])
  }

  /** A shape fault: the fault kinds only the shape check reports. */
  predicate IsShapeFault(f: Fault)
  {
    f.RankBelowTwo? || f.RoleOutOfRange? || f.LeadingDimMismatch?
  }

  // ------------------------------------------------------------------ SpMM

  const SpMMNames: seq<string> := ["U_data", "E_data", "out", "Arg_U", "Arg_E"]

  /** The role of each SpMM operand: U by source vertex, E by edge, and the
      output and both argument outputs by destination vertex. */
  const SpMMRoles: seq<int> := [0, 1, 2, 2, 2]

  /** The SpMM operands in the order the entry checks them. */
  function SpMMOperands(u: Desc, e: Desc, v: Desc, argU: Desc, argE: Desc): seq<Desc>
  {
    [u, e, v, argU, argE]
  }

  /** Everything the SpMM entry demands of its operands and graph, operand by
      operand. */
  predicate SpMMAccepts(g: Graph, u: Desc, e: Desc, v: Desc, argU: Desc, argE: Desc)
  {
    && OnContext(g.ctx, u) && OnContext(g.ctx, e) && OnContext(g.ctx, v)
    && OnContext(g.ctx, argU) && OnContext(g.ctx, argE)
    && ContiguousOrNull(u) && ContiguousOrNull(e) && ContiguousOrNull(v)
    && ContiguousOrNull(argU) && ContiguousOrNull(argE)
    && g.numEdgeTypes == 1
    && Leading(g.srcVertices, u)
    && Leading(g.edges, e)
    && Leading(g.dstVertices, v) && Leading(g.dstVertices, argU) && Leading(g.dstVertices, argE)
    && g.cscSelection in SupportedFormats(SpMMOp)
  }

  /** The SpMM entry point over U, E, out, Arg_U and Arg_E: it launches a
      kernel exactly when every demand holds, and then the one SpMM routes to. */
  function SpMMEntry(g: Graph, u: Desc, e: Desc, v: Desc, argU: Desc, argE: Desc): (r: Result)
    ensures r.Launched? <==> SpMMAccepts(g, u, e, v, argU, argE)
    ensures r.Launched? ==> r == SpMM(g)
  {
    var arrays := SpMMOperands(u, e, v, argU, argE);
    assert |arrays| == 5 && arrays[0] == u && arrays[1] == e && arrays[2] == v && arrays[3] == argU && arrays[4] == argE;
    var c := CtxCheck(g.ctx, arrays, SpMMNames, 0);
    if c.Fatal? then Abort(c)
    else
      var k := ContiguityCheck(arrays, SpMMNames, 0);
      if k.Fatal? then Abort(k)
      else if g.numEdgeTypes != 1 then Aborted(EdgeTypeCount(g.numEdgeTypes))
      else
        var s := ShapeCheck(Dims(g), SpMMRoles, arrays, SpMMNames, 0);
        if s.Fatal? then Abort(s)
        else SpMM(g)
  }

  /** The checks run in order and the first to fail decides the error: an
      operand off the graph's context is reported before anything else (the
      first such operand), a non-contiguous one next (again the first), then
      a graph with other than one edge type, then the first shape fault, and
      once all of those pass the call is exactly what SpMM's routing gives. */
  lemma SpMMEntryOrder(g: Graph, u: Desc, e: Desc, v: Desc, argU: Desc, argE: Desc)
    ensures var r := SpMMEntry(g, u, e, v, argU, argE);
            var arrays := SpMMOperands(u, e, v, argU, argE);
      && (!AllOnContext(g.ctx, arrays) ==>
            r.Aborted? && r.error.InvalidOperand? && r.error.fault.ContextMismatch?)
      && (!AllOnContext(g.ctx, arrays) ==> r == Abort(CtxCheck(g.ctx, arrays, SpMMNames, 0)))
      && (AllOnContext(g.ctx, arrays) && !AllContiguous(arrays) ==>
            r.Aborted? && r.error.InvalidOperand? && r.error.fault == NotContiguous)
      && (AllOnContext(g.ctx, arrays) && !AllContiguous(arrays) ==>
            r == Abort(ContiguityCheck(arrays, SpMMNames, 0)))
      && (AllOnContext(g.ctx, arrays) && AllContiguous(arrays) && g.numEdgeTypes != 1 ==>
            r == Aborted(EdgeTypeCount(g.numEdgeTypes)))
      && (r.Aborted? && r.error.InvalidOperand? && IsShapeFault(r.error.fault) ==>
            AllOnContext(g.ctx, arrays) && AllContiguous(arrays) && g.numEdgeTypes == 1)
      && (AllOnContext(g.ctx, arrays) && AllContiguous(arrays) && g.numEdgeTypes == 1 &&
          ShapeCheck(Dims(g), SpMMRoles, arrays, SpMMNames, 0).Fatal? ==>
            r == Abort(ShapeCheck(Dims(g), SpMMRoles, arrays, SpMMNames, 0)))
      && (r.Aborted? && r.error.UnsupportedFormat? ==>
            && r.error == UnsupportedFormat(SpMMOp, g.cscSelection) && g.cscSelection == Csr
            && ShapeCheck(Dims(g), SpMMRoles, arrays, SpMMNames, 0).Pass?)
      && (AllOnContext(g.ctx, arrays) && AllContiguous(arrays) && g.numEdgeTypes == 1 &&
          ShapeCheck(Dims(g), SpMMRoles, arrays, SpMMNames, 0).Pass? ==>
            r == SpMM(g))
  {
  }

  /** A single leading dimension off its role's count is enough to stop the
      call: with every other check passing, a U whose leading dimension is not
      the source-vertex count is reported as U_data's mismatch. */
  lemma SpMMEntryRejectsSourceMismatch(g: Graph, u: Desc, e: Desc, v: Desc, argU: Desc, argE: Desc)
    requires AllOnContext(g.ctx, SpMMOperands(u, e, v, argU, argE))
    requires AllContiguous(SpMMOperands(u, e, v, argU, argE))
    requires g.numEdgeTypes == 1
    requires u.Tensor? && |u.shape| >= 2 && !SameSize(g.srcVertices, u.shape[0])
    ensures SpMMEntry(g, u, e, v, argU, argE)
         == Aborted(InvalidOperand(0, "U_data", LeadingDimMismatch(g.srcVertices, u.shape[0])))
  {
  }

  /** The argument outputs are optional: when they are null, the call's fate
      depends on U, E and out alone, as if null arrays had been passed. */
  lemma SpMMEntryNullArgs(g: Graph, u: Desc, e: Desc, v: Desc, argU: Desc, argE: Desc)
    requires argU.Null? && argE.Null?
    ensures SpMMEntry(g, u, e, v, argU, argE) == SpMMEntry(g, u, e, v, NullArray(), NullArray())
    ensures SpMMEntry(g, u, e, v, argU, argE).Launched? <==>
      && OnContext(g.ctx, u) && OnContext(g.ctx, e) && OnContext(g.ctx, v)
      && ContiguousOrNull(u) && ContiguousOrNull(e) && ContiguousOrNull(v)
      && g.numEdgeTypes == 1
      && Leading(g.srcVertices, u) && Leading(g.edges, e) && Leading(g.dstVertices, v)
      && g.cscSelection in {Csc, Coo}
  {
    var a := SpMMOperands(u, e, v, argU, argE);
    var b := SpMMOperands(u, e, v, NullArray(), NullArray());
    CtxCheckUpToNulls(g.ctx, a, b, SpMMNames, 0);
    ContiguityCheckUpToNulls(a, b, SpMMNames, 0);
    ShapeCheckUpToNulls(Dims(g), SpMMRoles, a, b, SpMMNames, 0);
  }

  // ----------------------------------------------------------------- SDDMM

  /** Three operands in the order an entry checks them. */
  function Triple(a: Desc, b: Desc, c: Desc): seq<Desc>
  {
    [a, b, c]
  }


  const SDDMMNames: seq<string> := ["lhs", "rhs", "out"]

  /** The shape check of the SDDMM entry labels its operands differently from
      the other two checks. */
  const SDDMMShapeNames: seq<string> := ["U_data", "E_data", "V_data"]

  /** The count a role index selects, when it selects one. */
  predicate RoleLeading(g: Graph, target: int, a: Desc)
  {
    a.Null? || (|a.shape| >= 2 && 0 <= target < 3 && SameSize(Dims(g)[target], a.shape[0]))
  }

  /** Everything the SDDMM entry demands: lhs and rhs are tied to the counts
      their targets select, and out always to the edge count. */
  predicate SDDMMAccepts(g: Graph, lhs: Desc, rhs: Desc, out: Desc, lhsTarget: int, rhsTarget: int)
  {
    && OnContext(g.ctx, lhs) && OnContext(g.ctx, rhs) && OnContext(g.ctx, out)
    && ContiguousOrNull(lhs) && ContiguousOrNull(rhs) && ContiguousOrNull(out)
    && g.numEdgeTypes == 1
    && RoleLeading(g, lhsTarget, lhs)
    && RoleLeading(g, rhsTarget, rhs)
    && Leading(g.edges, out)
    && g.cooSelection in SupportedFormats(SDDMMOp)
  }

  /** The SDDMM entry point over lhs, rhs and out with the targets of lhs and
      rhs (0 source vertex, 1 edge, 2 destination vertex). A target outside
      that range is an unchecked index in the source; here it is reported as
      a fault of the operand that carries it. */
  function SDDMMEntry(g: Graph, lhs: Desc, rhs: Desc, out: Desc, lhsTarget: int, rhsTarget: int): (r: Result)
    ensures r.Launched? <==> SDDMMAccepts(g, lhs, rhs, out, lhsTarget, rhsTarget)
    ensures r.Launched? ==> r == SDDMM(g)
  {
    var arrays := Triple(lhs, rhs, out);
    assert |arrays| == 3 && arrays[0] == lhs && arrays[1] == rhs && arrays[2] == out;
    var c := CtxCheck(g.ctx, arrays, SDDMMNames, 0);
    if c.Fatal? then Abort(c)
    else
      var k := ContiguityCheck(arrays, SDDMMNames, 0);
      if k.Fatal? then Abort(k)
      else if g.numEdgeTypes != 1 then Aborted(EdgeTypeCount(g.numEdgeTypes))
      else
        var s := ShapeCheck(Dims(g), [lhsTarget, rhsTarget, 1], arrays, SDDMMShapeNames, 0);
        if s.Fatal? then Abort(s)
        else SDDMM(g)
  }

  /** The same order as SpMM: the first operand off the context, then the
      first non-contiguous one, the edge types, the first shape fault, and
      then exactly what SDDMM's routing gives. */
  lemma SDDMMEntryOrder(g: Graph, lhs: Desc, rhs: Desc, out: Desc, lhsTarget: int, rhsTarget: int)
    ensures var r := SDDMMEntry(g, lhs, rhs, out, lhsTarget, rhsTarget);
            var arrays := Triple(lhs, rhs, out);
      && (!AllOnContext(g.ctx, arrays) ==>
            r.Aborted? && r.error.InvalidOperand? && r.error.fault.ContextMismatch?)
      && (!AllOnContext(g.ctx, arrays) ==> r == Abort(CtxCheck(g.ctx, arrays, SDDMMNames, 0)))
      && (AllOnContext(g.ctx, arrays) && !AllContiguous(arrays) ==>
            r.Aborted? && r.error.InvalidOperand? && r.error.fault == NotContiguous)
      && (AllOnContext(g.ctx, arrays) && !AllContiguous(arrays) ==>
            r == Abort(ContiguityCheck(arrays, SDDMMNames, 0)))
      && (AllOnContext(g.ctx, arrays) && AllContiguous(arrays) && g.numEdgeTypes != 1 ==>
            r == Aborted(EdgeTypeCount(g.numEdgeTypes)))
      && (r.Aborted? && r.error.InvalidOperand? && IsShapeFault(r.error.fault) ==>
            AllOnContext(g.ctx, arrays) && AllContiguous(arrays) && g.numEdgeTypes == 1)
      && (AllOnContext(g.ctx, arrays) && AllContiguous(arrays) && g.numEdgeTypes == 1 &&
          ShapeCheck(Dims(g), [lhsTarget, rhsTarget, 1], arrays, SDDMMShapeNames, 0).Fatal? ==>
            r == Abort(ShapeCheck(Dims(g), [lhsTarget, rhsTarget, 1], arrays, SDDMMShapeNames, 0)))
      && (r.Aborted? && r.error.UnsupportedFormat? ==>
            && r.error == UnsupportedFormat(SDDMMOp, g.cooSelection) && g.cooSelection == Csc
            && ShapeCheck(Dims(g), [lhsTarget, rhsTarget, 1], arrays, SDDMMShapeNames, 0).Pass?)
      && (AllOnContext(g.ctx, arrays) && AllContiguous(arrays) && g.numEdgeTypes == 1 &&
          ShapeCheck(Dims(g), [lhsTarget, rhsTarget, 1], arrays, SDDMMShapeNames, 0).Pass? ==>
            r == SDDMM(g))
  {
  }

  /** The output of SDDMM holds one row per edge whatever the targets: a
      non-null out whose leading dimension is not the edge count never
      launches a kernel, and an out of the right size is never the operand a
      shape fault is reported at, whatever lhs and rhs are tied to. */
  lemma SDDMMOutIsPerEdge(g: Graph, lhs: Desc, rhs: Desc, out: Desc, lhsTarget: int, rhsTarget: int)
    ensures out.Tensor? && |out.shape| >= 2 && !SameSize(g.edges, out.shape[0]) ==>
      SDDMMEntry(g, lhs, rhs, out, lhsTarget, rhsTarget).Aborted?
    ensures SDDMMEntry(g, lhs, rhs, out, lhsTarget, rhsTarget).Launched? ==> Leading(g.edges, out)
    ensures var r := SDDMMEntry(g, lhs, rhs, out, lhsTarget, rhsTarget);
      Leading(g.edges, out) && r.Aborted? && r.error.InvalidOperand? && IsShapeFault(r.error.fault) ==>
        r.error.operand != 2
  {
  }

  /** A role index outside the triple is never silently used: once the checks
      before it pass, a non-null operand of rank two or more whose target is
      out of range stops the call, and lhs is examined before rhs. */
  lemma SDDMMBadTarget(g: Graph, lhs: Desc, rhs: Desc, out: Desc, lhsTarget: int, rhsTarget: int)
    requires AllOnContext(g.ctx, Triple(lhs, rhs, out))
    requires AllContiguous(Triple(lhs, rhs, out))
    requires g.numEdgeTypes == 1
    requires lhs.Tensor? && |lhs.shape| >= 2 && !(0 <= lhsTarget < 3)
    ensures SDDMMEntry(g, lhs, rhs, out, lhsTarget, rhsTarget)
         == Aborted(InvalidOperand(0, "U_data", RoleOutOfRange(lhsTarget)))
  {
  }

  // -------------------------------------------------------------- segments

  const SegmentReduceNames: seq<string> := ["feat", "offsets", "out"]

  /** The segment-reduce entry point: feat, offsets and out must be on feat's
      context and contiguous, context checked first and the first offender
      reported; the argument output is passed to the kernel without being
      checked. No graph is involved, so there is no edge-type or shape
      check. */
  function SegmentReduceEntry(feat: Desc, offsets: Desc, out: Desc, arg: Desc): (r: Result)
    ensures r.Launched? <==>
      && OnContext(feat.ctx, offsets) && OnContext(feat.ctx, out)
      && ContiguousOrNull(feat) && ContiguousOrNull(offsets) && ContiguousOrNull(out)
    ensures r.Launched? ==> r.launch == OnFeatures(SegmentReduce)
    ensures r.Aborted? ==>
      && r.error.InvalidOperand?
      && (r.error.fault == NotContiguous || (r.error.fault.ContextMismatch? && r.error.operand != 0))
    ensures !AllOnContext(feat.ctx, Triple(feat, offsets, out)) ==>
      r == Abort(CtxCheck(feat.ctx, Triple(feat, offsets, out), SegmentReduceNames, 0))
    ensures AllOnContext(feat.ctx, Triple(feat, offsets, out)) && !AllContiguous(Triple(feat, offsets, out)) ==>
      r == Abort(ContiguityCheck(Triple(feat, offsets, out), SegmentReduceNames, 0))
  {
    var arrays := Triple(feat, offsets, out);
    assert |arrays| == 3 && arrays[0] == feat && arrays[1] == offsets && arrays[2] == out;
    var c := CtxCheck(feat.ctx, arrays, SegmentReduceNames, 0);
    if c.Fatal? then Abort(c)
    else
      var k := ContiguityCheck(arrays, SegmentReduceNames, 0);
      if k.Fatal? then Abort(k)
      else Launched(OnFeatures(SegmentReduce))
  }

  /** The argument output of segment reduce is never examined: the call ends
      the same way whatever is passed for it. */
  lemma SegmentReduceIgnoresArg(feat: Desc, offsets: Desc, out: Desc, arg1: Desc, arg2: Desc)
    ensures SegmentReduceEntry(feat, offsets, out, arg1) == SegmentReduceEntry(feat, offsets, out, arg2)
  {
  }

  const BwdSegmentCmpNames: seq<string> := ["feat", "arg", "out"]

  /** The backward segment-compare entry point: feat, arg and out must be on
      feat's context and contiguous, context checked first and the first
      offender reported. */
  function BwdSegmentCmpEntry(feat: Desc, arg: Desc, out: Desc): (r: Result)
    ensures r.Launched? <==>
      && OnContext(feat.ctx, arg) && OnContext(feat.ctx, out)
      && ContiguousOrNull(feat) && ContiguousOrNull(arg) && ContiguousOrNull(out)
    ensures r.Launched? ==> r.launch == OnFeatures(BackwardSegmentCmp)
    ensures !AllOnContext(feat.ctx, Triple(feat, arg, out)) ==>
      r == Abort(CtxCheck(feat.ctx, Triple(feat, arg, out), BwdSegmentCmpNames, 0))
    ensures AllOnContext(feat.ctx, Triple(feat, arg, out)) && !AllContiguous(Triple(feat, arg, out)) ==>
      r == Abort(ContiguityCheck(Triple(feat, arg, out), BwdSegmentCmpNames, 0))
  {
    var arrays := Triple(feat, arg, out);
    assert |arrays| == 3 && arrays[0] == feat && arrays[1] == arg && arrays[2] == out;
    var c := CtxCheck(feat.ctx, arrays, BwdSegmentCmpNames, 0);
    if c.Fatal? then Abort(c)
    else
      var k := ContiguityCheck(arrays, BwdSegmentCmpNames, 0);
      if k.Fatal? then Abort(k)
      else Launched(OnFeatures(BackwardSegmentCmp))
  }
}
