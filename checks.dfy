/** The three operand validators that every kernel entry point runs before
    dispatch. Each walks a list of descriptors in order, skips null arrays and
    aborts on the first operand that fails, naming it. Each validator is a
    loop method proved equal to a recursive specification function whose
    contract characterises when it passes and which operand it reports. */
module Checks {
  import opened Tensor

  /** Why an operand was rejected. */
  datatype Fault =
    | ContextMismatch(expected: Context, got: Context)
    | NotContiguous
    | RankBelowTwo(ndim: nat)
    | RoleOutOfRange(role: int)
    | LeadingDimMismatch(count: u64, dim: i64)

  /** The verdict of one validator: pass, or a fatal error naming the first
      offending operand by position and by name. */
  datatype Outcome = Pass | Fatal(operand: nat, name: string, fault: Fault)

  // ---------------------------------------------------------------- context

  /** An operand is acceptable to the context check when it is null or lives
      on the reference context. */
  predicate OnContext(ctx: Context, a: Desc)
  {
    a.Null? || a.ctx == ctx
  }

  /** The context check applied to `arrays[from..]`. */
  function CtxCheck(ctx: Context, arrays: seq<Desc>, names: seq<string>, from: nat): (r: Outcome)
    requires |names| == |arrays| && from <= |arrays|
    ensures r.Pass? <==> forall j :: from <= j < |arrays| ==> OnContext(ctx, arrays[j])
    ensures r.Fatal? ==>
      && from <= r.operand < |arrays|
      && arrays[r.operand].Tensor?
      && r.name == names[r.operand]
      && r.fault == ContextMismatch(ctx, arrays[r.operand].ctx)
      && arrays[r.operand].ctx != ctx
      && forall j :: from <= j < r.operand ==> OnContext(ctx, arrays[j])
    decreases |arrays| - from
  {
    if from == |arrays| then Pass
    else if !arrays[from].Null? && arrays[from].ctx != ctx then
      Fatal(from, names[from], ContextMismatch(ctx, arrays[from].ctx))
    else CtxCheck(ctx, arrays, names, from + 1)
  }

  /** Aborts unless every non-null array is on `ctx`. */
  method CheckCtx(ctx: Context, arrays: seq<Desc>, names: seq<string>) returns (r: Outcome)
    requires |names| == |arrays|
    ensures r == CtxCheck(ctx, arrays, names, 0)
    ensures r.Pass? <==> forall j :: 0 <= j < |arrays| ==> OnContext(ctx, arrays[j])
  {
    var i := 0;
    while i < |arrays|
      invariant 0 <= i <= |arrays|
      invariant CtxCheck(ctx, arrays, names, i) == CtxCheck(ctx, arrays, names, 0)
    {
      if arrays[i].Null? {
        i := i + 1;
        continue;
      }
      if arrays[i].ctx != ctx {
        return Fatal(i, names[i], ContextMismatch(ctx, arrays[i].ctx));
      }
      i := i + 1;
    }
    return Pass;
  }

  // ------------------------------------------------------------- contiguity

  /** An operand is acceptable to the contiguity check when it is null or
      contiguous. */
  predicate ContiguousOrNull(a: Desc)
  {
    a.Null? || a.contiguous
  }

  /** The contiguity check applied to `arrays[from..]`. */
  function ContiguityCheck(arrays: seq<Desc>, names: seq<string>, from: nat): (r: Outcome)
    requires |names| == |arrays| && from <= |arrays|
    ensures r.Pass? <==> forall j :: from <= j < |arrays| ==> ContiguousOrNull(arrays[j])
    ensures r.Fatal? ==>
      && from <= r.operand < |arrays|
      && arrays[r.operand].Tensor?
      && !arrays[r.operand].contiguous
      && r.name == names[r.operand]
      && r.fault == NotContiguous
      && forall j :: from <= j < r.operand ==> ContiguousOrNull(arrays[j])
    decreases |arrays| - from
  {
    if from == |arrays| then Pass
    else if !arrays[from].Null? && !arrays[from].contiguous then
      Fatal(from, names[from], NotContiguous)
    else ContiguityCheck(arrays, names, from + 1)
  }

  /** Aborts unless every non-null array is contiguous. */
  method CheckContiguous(arrays: seq<Desc>, names: seq<string>) returns (r: Outcome)
    requires |names| == |arrays|
    ensures r == ContiguityCheck(arrays, names, 0)
    ensures r.Pass? <==> forall j :: 0 <= j < |arrays| ==> ContiguousOrNull(arrays[j])
  {
    var i := 0;
    while i < |arrays|
      invariant 0 <= i <= |arrays|
      invariant ContiguityCheck(arrays, names, i) == ContiguityCheck(arrays, names, 0)
    {
      if arrays[i].Null? {
        i := i + 1;
        continue;
      }
      if !arrays[i].contiguous {
        return Fatal(i, names[i], NotContiguous);
      }
      i := i + 1;
    }
    return Pass;
  }

  // ------------------------------------------------------------------ shape

  /** An operand is acceptable to the shape check when it is null, or has rank
      at least two and a leading dimension equal to the count its role selects. */
  predicate ShapeOk(gdim: seq<u64>, role: int, a: Desc)
  {
    a.Null? || (|a.shape| >= 2 && 0 <= role < |gdim| && SameSize(gdim[role], a.shape[0]))
  }

  /** The shape check's verdict on one operand. */
  datatype Verdict = Accepted | Rejected(fault: Fault)

  /** The fault the shape check finds in one operand whose role index is
      `role`. The rank is examined first, then the role, then the leading
      dimension: the source aborts on the rank before it indexes the counts. */
  function OperandShape(gdim: seq<u64>, role: int, a: Desc): (v: Verdict)
    ensures v.Accepted? <==> ShapeOk(gdim, role, a)
    ensures v.Rejected? && a.Tensor? && |a.shape| < 2 ==> v.fault == RankBelowTwo(|a.shape|)
    ensures v.Rejected? && a.Tensor? && |a.shape| >= 2 && !(0 <= role < |gdim|) ==> v.fault == RoleOutOfRange(role)
    ensures v.Rejected? && a.Tensor? && |a.shape| >= 2 && 0 <= role < |gdim| ==>
      v.fault == LeadingDimMismatch(gdim[role], a.shape[0]) && !SameSize(gdim[role], a.shape[0])
  {
    if a.Null? then Accepted
    else if |a.shape| < 2 then Rejected(RankBelowTwo(|a.shape|))
    else if !(0 <= role < |gdim|) then Rejected(RoleOutOfRange(role))
    else if !SameSize(gdim[role], a.shape[0]) then Rejected(LeadingDimMismatch(gdim[role], a.shape[0]))
    else Accepted
  }

  /** The shape check applied to `arrays[from..]`, operand `i` being checked
      against `gdim[roles[i]]`. */
  function ShapeCheck(gdim: seq<u64>, roles: seq<int>, arrays: seq<Desc>, names: seq<string>, from: nat): (r: Outcome)
    requires |roles| == |arrays| && |names| == |arrays| && from <= |arrays|
    ensures r.Pass? <==> forall j :: from <= j < |arrays| ==> ShapeOk(gdim, roles[j], arrays[j])
    ensures r.Fatal? ==>
      && from <= r.operand < |arrays|
      && arrays[r.operand].Tensor?
      && !ShapeOk(gdim, roles[r.operand], arrays[r.operand])
      && r.name == names[r.operand]
      && r.fault == OperandShape(gdim, roles[r.operand], arrays[r.operand]).fault
      && forall j :: from <= j < r.operand ==> ShapeOk(gdim, roles[j], arrays[j])
    decreases |arrays| - from
  {
    if from == |arrays| then Pass
    else
      var v := OperandShape(gdim, roles[from], arrays[from]);
      if v.Rejected? then Fatal(from, names[from], v.fault)
      else ShapeCheck(gdim, roles, arrays, names, from + 1)
  }

  /** Aborts unless every non-null array has rank at least two and a leading
      dimension equal to `gdim[roles[i]]`. */
  method CheckShape(gdim: seq<u64>, roles: seq<int>, arrays: seq<Desc>, names: seq<string>) returns (r: Outcome)
    requires |roles| == |arrays| && |names| == |arrays|
    ensures r == ShapeCheck(gdim, roles, arrays, names, 0)
    ensures r.Pass? <==> forall j :: 0 <= j < |arrays| ==> ShapeOk(gdim, roles[j], arrays[j])
  {
    var i := 0;
    while i < |arrays|
      invariant 0 <= i <= |arrays|
      invariant ShapeCheck(gdim, roles, arrays, names, i) == ShapeCheck(gdim, roles, arrays, names, 0)
    {
      if arrays[i].Null? {
        i := i + 1;
        continue;
      }
      var a := arrays[i];
      if |a.shape| < 2 {
        return Fatal(i, names[i], RankBelowTwo(|a.shape|));
      }
      var role := roles[i];
      if !(0 <= role < |gdim|) {
        return Fatal(i, names[i], RoleOutOfRange(role));
      }
      if !SameSize(gdim[role], a.shape[0]) {
        return Fatal(i, names[i], LeadingDimMismatch(gdim[role], a.shape[0]));
      }
      i := i + 1;
    }
    return Pass;
  }

  // ----------------------------------------------------------- properties

  /** A tensor of rank below two always fails the shape check: if the check
      does not stop at an earlier operand, it stops at this one with a rank
      fault. */
  lemma {:induction false} LowRankFails(gdim: seq<u64>, roles: seq<int>, arrays: seq<Desc>, names: seq<string>, k: nat)
    requires |roles| == |arrays| && |names| == |arrays|
    requires k < |arrays| && arrays[k].Tensor? && |arrays[k].shape| < 2
    ensures ShapeCheck(gdim, roles, arrays, names, 0).Fatal?
    ensures ShapeCheck(gdim, roles, arrays, names, 0).operand <= k
    ensures ShapeCheck(gdim, roles, arrays, names, 0).operand == k ==>
      ShapeCheck(gdim, roles, arrays, names, 0).fault == RankBelowTwo(|arrays[k].shape|)
  {
    assert !ShapeOk(gdim, roles[k], arrays[k]);
  }

  /** Null arrays never cause a failure: a list of null arrays passes all
      three checks whatever the context, counts and roles. */
  lemma {:induction false} NullsPass(ctx: Context, gdim: seq<u64>, roles: seq<int>, arrays: seq<Desc>, names: seq<string>)
    requires |roles| == |arrays| && |names| == |arrays|
    requires forall j :: 0 <= j < |arrays| ==> arrays[j].Null?
    ensures CtxCheck(ctx, arrays, names, 0) == Pass
    ensures ContiguityCheck(arrays, names, 0) == Pass
    ensures ShapeCheck(gdim, roles, arrays, names, 0) == Pass
  {
  }

  /** Two operand lists that differ only in which null arrays they hold. */
  predicate SameUpToNulls(a: seq<Desc>, b: seq<Desc>)
  {
    |a| == |b| && forall j :: 0 <= j < |a| ==> a[j] == b[j] || (a[j].Null? && b[j].Null?)
  }

  /** Which null array stands in a position never changes the context
      verdict: two lists that differ only there get the same verdict. */
  lemma {:induction false} CtxCheckUpToNulls(ctx: Context, a: seq<Desc>, b: seq<Desc>, names: seq<string>, from: nat)
    requires SameUpToNulls(a, b) && |names| == |a| && from <= |a|
    ensures CtxCheck(ctx, a, names, from) == CtxCheck(ctx, b, names, from)
    decreases |a| - from
  {
    if from < |a| {
      CtxCheckUpToNulls(ctx, a, b, names, from + 1);
    }
  }

  /** The same for the contiguity verdict. */
  lemma {:induction false} ContiguityCheckUpToNulls(a: seq<Desc>, b: seq<Desc>, names: seq<string>, from: nat)
    requires SameUpToNulls(a, b) && |names| == |a| && from <= |a|
    ensures ContiguityCheck(a, names, from) == ContiguityCheck(b, names, from)
    decreases |a| - from
  {
    if from < |a| {
      ContiguityCheckUpToNulls(a, b, names, from + 1);
    }
  }

  /** The same for the shape verdict, whatever the counts and roles. */
  lemma {:induction false} ShapeCheckUpToNulls(gdim: seq<u64>, roles: seq<int>, a: seq<Desc>, b: seq<Desc>,
                                               names: seq<string>, from: nat)
    requires SameUpToNulls(a, b) && |names| == |a| && |roles| == |a| && from <= |a|
    ensures ShapeCheck(gdim, roles, a, names, from) == ShapeCheck(gdim, roles, b, names, from)
    decreases |a| - from
  {
    if from < |a| {
      ShapeCheckUpToNulls(gdim, roles, a, b, names, from + 1);
    }
  }
}
