/**
 * ArrayUtilsKernel: the two-phase dot product and norm2.  Phase one reduces
 * blocks of 1024 elements into one partial sum per block; phase two reduces
 * the partial sums on a single block.  The partial sums live in a scratch
 * array owned by the instance that is reallocated only when it is missing or
 * too small, so it never shrinks.
 */
module ArrayUtils {
  import opened Base
  import opened DTypes
  import opened Gpu

  const DotBlockDim: nat := 1024

  /** The accumulator's C type as the kernels are compiled with it. */
  function AccCType(acc: DType): string
  {
    if acc == Float64 then "double" else "float"
  }

  /** `elsize`: bound only for the two floating accumulators. */
  function ElementSize(acc: DType): (e: Option<nat>)
    ensures e.Some? <==> acc == Float32 || acc == Float64
  {
    if acc == Float32 then Some(4) else if acc == Float64 then Some(8) else None
  }

  /** Number of phase-one blocks for `size` elements. */
  function DotBlocks(size: nat): (g: nat)
    ensures g * DotBlockDim >= size && (g == 0 || (g - 1) * DotBlockDim < size)
    ensures g >= 1 <==> size > 0
  {
    CeilDiv(size, DotBlockDim)
  }

  /** Whether dot allocates a new scratch array for g partial sums. */
  predicate NeedsScratch(ctmp: Option<Buffer>, g: nat)
  {
    ctmp.None? || ctmp.value.Size() < g
  }

  /**
   * The launches dot enqueues once its checks pass: phase one writes the
   * partial sums into `out` when there is a single block and into the scratch
   * array otherwise; phase two runs only for more than one block.
   */
  function DotCommands(cdot: Kernel, dot: Kernel, fullReduce: Kernel,
                       A: Buffer, B: Buffer, out: Buffer, ctmp: Buffer, elsize: nat): (cs: seq<Command>)
    ensures var g := DotBlocks(B.Size());
            && |cs| == (if g > 1 then 2 else 1)
            && (forall i :: 0 <= i < |cs| ==> cs[i].Run?)
            && cs[0].launch.kernel == (if B.dtype.IsComplex() then cdot else dot)
            && cs[0].launch.grid == Dim3(g, 1, 1)
            && OutputOf(cs[0].launch.args) == Some(if g == 1 then out else ctmp)
            && (g > 1 ==> cs[1].launch.kernel == fullReduce && cs[1].launch.args == [In(ctmp), Out(out), I32(g)]
                          && cs[1].launch.grid == Dim3(1, 1, 1)
                          && OutputOf(cs[1].launch.args) == Some(out))
  {
    var g := DotBlocks(B.Size());
    var target := if g == 1 then out else ctmp;
    var args1 := [In(A), In(B), I32(A.Size()), Out(target)];
    OutputAt(args1, 3);
    var phase1 := Launch(if B.dtype.IsComplex() then cdot else dot, args1,
                         Dim3(DotBlockDim, 1, 1), Dim3(g, 1, 1), DotBlockDim * elsize);
    if g > 1 then
      var args2 := [In(ctmp), Out(out), I32(g)];
      OutputAt(args2, 1);
      [Run(phase1),
       Run(Launch(fullReduce, args2, Dim3(DotBlockDim, 1, 1), Dim3(1, 1, 1), elsize * DotBlockDim))]
    else
      [Run(phase1)]
  }

  /**
   * Whatever the scratch array or `out` held before, dot leaves in `out` a
   * value that depends on the contents of A and B only: with one block the
   * phase-one result goes straight to `out`, otherwise phase two reads back
   * exactly the partial sums phase one wrote.
   */
  lemma {:induction false} DotResultDependsOnInputsOnly(
      cdot: Kernel, dot: Kernel, fullReduce: Kernel,
      A: Buffer, B: Buffer, out: Buffer, ctmp: Buffer, elsize: nat,
      mem1: Memory, mem2: Memory)
    requires DotBlocks(B.Size()) >= 1
    requires DotBlocks(B.Size()) > 1 ==> ctmp.id != A.id && ctmp.id != B.id
    requires Read(mem1, A.id) == Read(mem2, A.id) && Read(mem1, B.id) == Read(mem2, B.id)
    ensures var cs := DotCommands(cdot, dot, fullReduce, A, B, out, ctmp, elsize);
            Read(ExecAll(mem1, cs), out.id) == Read(ExecAll(mem2, cs), out.id)
  {
    var cs := DotCommands(cdot, dot, fullReduce, A, B, out, ctmp, elsize);
    var g := DotBlocks(B.Size());
    var l1 := cs[0].launch;
    assert ReadsWithin(l1.args, {A.id, B.id});
    RunKeepsAgreement(mem1, mem2, l1, {A.id, B.id});
    var m1, m2 := Exec(mem1, cs[0]), Exec(mem2, cs[0]);
    if g > 1 {
      var l2 := cs[1].launch;
      assert ReadsWithin(l2.args, {ctmp.id});
      RunKeepsAgreement(m1, m2, l2, {ctmp.id});
      ExecAllTwo(mem1, cs[0], cs[1]);
      ExecAllTwo(mem2, cs[0], cs[1]);
    } else {
      ExecAllOne(mem1, cs[0]);
      ExecAllOne(mem2, cs[0]);
    }
  }

  /** An empty input launches an empty grid into the scratch array: `out` is not written. */
  lemma DotOfEmptyLeavesOut(
      cdot: Kernel, dot: Kernel, fullReduce: Kernel,
      A: Buffer, B: Buffer, out: Buffer, ctmp: Buffer, elsize: nat, mem: Memory)
    requires B.Size() == 0 && out.id != ctmp.id
    ensures var cs := DotCommands(cdot, dot, fullReduce, A, B, out, ctmp, elsize);
            |cs| == 1 && cs[0].launch.grid.x == 0 &&
            Read(ExecAll(mem, cs), out.id) == Read(mem, out.id)
  {
    var cs := DotCommands(cdot, dot, fullReduce, A, B, out, ctmp, elsize);
    OutputAt(cs[0].launch.args, 3);
    ExecAllOne(mem, cs[0]);
  }

  class ArrayUtilsKernel {
    const dev: Device
    const accDtype: DType
    const cdotCuda: Kernel
    const dotCuda: Kernel
    const fullReduceCuda: Kernel
    var ctmp: Option<Buffer>

    /** The scratch array, once allocated, is a vector of accumulators. */
    ghost predicate Valid()
      reads this
    {
      ctmp.Some? ==> |ctmp.value.shape| == 1 && ctmp.value.dtype == accDtype
    }

    constructor (accDtype: DType, dev: Device)
      modifies dev
      ensures Valid() && this.dev == dev && this.accDtype == accDtype && ctmp.None?
      ensures var acc := Text(AccCType(accDtype));
              && cdotCuda == Kernel("dot", map["IN_TYPE" := Text("complex<float>"), "ACC_TYPE" := acc], None)
              && dotCuda == Kernel("dot", map["IN_TYPE" := Text("float"), "ACC_TYPE" := acc], None)
              && fullReduceCuda == Kernel("full_reduce",
                   map["IN_TYPE" := acc, "OUT_TYPE" := acc, "ACC_TYPE" := acc, "BDIM_X" := Num(1024)], None)
      ensures |dev.builds| == |old(dev.builds)| + 3
      ensures dev.queue == old(dev.queue) && dev.nextId == old(dev.nextId)
    {
      this.dev := dev;
      this.accDtype := accDtype;
      var acc := Text(AccCType(accDtype));
      var k1 := dev.Load(["dot"], map["IN_TYPE" := Text("complex<float>"), "ACC_TYPE" := acc], None);
      var k2 := dev.Load(["dot"], map["IN_TYPE" := Text("float"), "ACC_TYPE" := acc], None);
      var k3 := dev.Load(["full_reduce"],
                         map["IN_TYPE" := acc, "OUT_TYPE" := acc, "ACC_TYPE" := acc, "BDIM_X" := Num(1024)], None);
      cdotCuda, dotCuda, fullReduceCuda := k1[0], k2[0], k3[0];
      ctmp := None;
    }

    /**
     * dot(A, B, out): the dtype and size assertions, then the scratch
     * reallocation, then the launches.
     */
    method Dot(A: Buffer, B: Buffer, out: Option<Buffer>) returns (r: Result<Buffer>)
      requires Valid()
      modifies this, dev
      ensures Valid()
      ensures dev.builds == old(dev.builds)
      ensures A.dtype != B.dtype ==> r == Err(AssertionError(DtypeMismatch))
      ensures A.dtype == B.dtype && A.Size() != B.Size() ==> r == Err(AssertionError(SizeMismatch))
      ensures A.dtype != B.dtype || A.Size() != B.Size() ==>
                ctmp == old(ctmp) && dev.queue == old(dev.queue) && dev.nextId == old(dev.nextId)
      ensures A.dtype == B.dtype && A.Size() == B.Size() ==>
                var g := DotBlocks(B.Size());
                && ctmp.Some? && ctmp.value.Size() >= g
                && (NeedsScratch(old(ctmp), g) ==> ctmp.value.shape == [g] && ctmp.value.id >= old(dev.nextId))
                && (!NeedsScratch(old(ctmp), g) ==> ctmp == old(ctmp))
                && (ElementSize(accDtype).None? ==> r == Err(UnboundLocalError) && dev.queue == old(dev.queue))
                && (ElementSize(accDtype).Some? ==>
                      && r.Ok?
                      && (out.Some? ==> r.value == out.value)
                      && (out.None? ==> r.value == Buffer(old(dev.nextId), [1], accDtype))
                      && dev.queue == old(dev.queue) + DotCommands(cdotCuda, dotCuda, fullReduceCuda, A, B,
                                                                   r.value, ctmp.value, ElementSize(accDtype).value))
      ensures old(ctmp).Some? ==> ctmp.Some? && ctmp.value.Size() >= old(ctmp).value.Size()
    {
      if A.dtype != B.dtype {
        return Err(AssertionError(DtypeMismatch));
      }
      if A.Size() != B.Size() {
        return Err(AssertionError(SizeMismatch));
      }
      var o: Buffer;
      if out.None? {
        o := dev.Alloc([1], accDtype);
      } else {
        o := out.value;
      }
      var g := DotBlocks(B.Size());
      var elsize := ElementSize(accDtype);
      if NeedsScratch(ctmp, g) {
        var grown := dev.Alloc([g], accDtype);
        ProdSingleton(g);
        ctmp := Some(grown);
      }
      if elsize.None? {
        return Err(UnboundLocalError);
      }
      var scratch := ctmp.value;
      var target := if g == 1 then o else scratch;
      var kernel := if B.dtype.IsComplex() then cdotCuda else dotCuda;
      dev.Enqueue(Run(Launch(kernel, [In(A), In(B), I32(A.Size()), Out(target)],
                             Dim3(DotBlockDim, 1, 1), Dim3(g, 1, 1), DotBlockDim * elsize.value)));
      if g > 1 {
        dev.Enqueue(Run(Launch(fullReduceCuda, [In(scratch), Out(o), I32(g)],
                               Dim3(DotBlockDim, 1, 1), Dim3(1, 1, 1), elsize.value * DotBlockDim)));
      }
      r := Ok(o);
    }

    /**
     * norm2(A) is dot(A, A): its own assertions cannot fail, so it promises
     * everything dot promises once both assertions pass.
     */
    method Norm2(A: Buffer, out: Option<Buffer>) returns (r: Result<Buffer>)
      requires Valid()
      modifies this, dev
      ensures Valid()
      ensures dev.builds == old(dev.builds)
      ensures var g := DotBlocks(A.Size());
              && ctmp.Some? && ctmp.value.Size() >= g
              && (NeedsScratch(old(ctmp), g) ==> ctmp.value.shape == [g] && ctmp.value.id >= old(dev.nextId))
              && (!NeedsScratch(old(ctmp), g) ==> ctmp == old(ctmp))
              && (ElementSize(accDtype).None? ==> r == Err(UnboundLocalError) && dev.queue == old(dev.queue))
              && (ElementSize(accDtype).Some? ==>
                    && r.Ok?
                    && (out.Some? ==> r.value == out.value)
                    && (out.None? ==> r.value == Buffer(old(dev.nextId), [1], accDtype))
                    && dev.queue == old(dev.queue) + DotCommands(cdotCuda, dotCuda, fullReduceCuda, A, A,
                                                                 r.value, ctmp.value, ElementSize(accDtype).value))
      ensures old(ctmp).Some? ==> ctmp.Some? && ctmp.value.Size() >= old(ctmp).value.Size()
    {
      r := Dot(A, A, out);
    }
  }
}
