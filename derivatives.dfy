/**
 * DerivativesKernel: forward and backward finite differences along one axis.
 * The array is viewed as (higher, extent, lower) around the chosen axis; the
 * last axis has its own kernel that views the array as (flat, extent).
 * Forward and backward kernels are compiled from one source that differs in
 * a single macro.
 */
module Derivatives {
  import opened Base
  import opened DTypes
  import opened Gpu

  const DelxBlockX: nat := 256
  const DelxBlockY: nat := 4

  /** The C type a DerivativesKernel is compiled for; other dtypes are refused. */
  function SType(dt: DType): (r: Result<string>)
    ensures r.Ok? <==> dt == Float32 || dt == Complex64
    ensures r.Ok? ==> CType(dt) == r
    ensures r.Err? ==> r.error == NotImplementedError(UnsupportedDtype)
  {
    if dt == Float32 then Ok("float")
    else if dt == Complex64 then Ok("complex<float>")
    else Err(NotImplementedError(UnsupportedDtype))
  }

  function DelxSubs(forward: bool, stype: string): map<string, Macro>
  {
    map["IS_FORWARD" := Text(if forward then "true" else "false"),
        "BDIM_X" := Text("256"), "BDIM_Y" := Text("4"),
        "IN_TYPE" := Text(stype), "OUT_TYPE" := Text(stype)]
  }

  /** How the array is laid out around the differentiated axis. */
  datatype DelxPlan =
    | LastAxis(flat: nat, extent: nat)                // rows of length `extent`
    | MidAxis(lower: nat, higher: nat, extent: nat)    // higher x extent x lower
  {
    /** The number of elements the kernel's index space addresses. */
    function Addressed(): nat
    {
      match this
      case LastAxis(f, e) => f * e
      case MidAxis(l, h, e) => h * e * l
    }
  }

  /** A negative axis counts from the end, once. */
  function NormalAxis(ndim: nat, axis: int): (k: int)
    ensures -(ndim as int) <= axis < ndim ==> 0 <= k < ndim
    ensures axis >= 0 ==> k == axis
    ensures k == axis || k == axis + ndim
  {
    if axis < 0 then ndim + axis else axis
  }

  /**
   * The layout delxf/delxb choose for `axis`, or IndexError when the extent
   * along the normalised axis cannot be read.  The normalised axis is itself
   * read with Python's indexing, so it may still be negative.
   */
  function DelxPlanOf(shape: seq<nat>, axis: int): (r: Result<DelxPlan>)
    ensures r.Ok? <==> -|shape| <= NormalAxis(|shape|, axis) < |shape|
    ensures r.Err? ==> r.error == IndexError
    ensures var n, k := |shape|, NormalAxis(|shape|, axis);
            0 <= k < n ==>
              && r.Ok? && r.value.extent == shape[k]
              && (r.value.LastAxis? <==> k == n - 1)
              && r.value.Addressed() == Prod(shape)
              && (r.value.MidAxis? ==> r.value.higher == Prod(shape[..k]) && r.value.lower == Prod(shape[k + 1..]))
              && (r.value.LastAxis? ==> r.value.flat == Prod(shape[..k]))
  {
    var n := |shape|;
    var k := NormalAxis(n, axis);
    if k == n - 1 then
      match PyIndex(shape, k)
      case Err(e) => Err(e)
      case Ok(extent) =>
        var flat := Prod(PySlice(shape, 0, -1));
        if 0 <= k < n then
          ProdAround(shape, k);
          assert shape[k + 1..] == [];
          Ok(LastAxis(flat, extent))
        else
          Ok(LastAxis(flat, extent))
    else
      var lower, higher := Prod(PySlice(shape, k + 1, n)), Prod(PySlice(shape, 0, k));
      match PyIndex(shape, k)
      case Err(e) => Err(e)
      case Ok(extent) =>
        if 0 <= k < n then
          assert PySlice(shape, k + 1, n) == shape[k + 1..];
          assert PySlice(shape, 0, k) == shape[..k];
          ProdAround(shape, k);
          assert higher * extent * lower == higher * (extent * lower);
          Ok(MidAxis(lower, higher, extent))
        else
          Ok(MidAxis(lower, higher, extent))
  }

  /**
   * One step below that range the axis wraps to -1 but still takes the
   * middle-axis path, and the "lower" block is the whole array: the kernel's
   * index space is the element count squared.
   */
  lemma AxisBelowRangeOverreaches(shape: seq<nat>)
    requires |shape| >= 1
    ensures var n := |shape|;
            var r := DelxPlanOf(shape, -n - 1);
            && r == Ok(MidAxis(Prod(shape), Prod(shape[..n - 1]), shape[n - 1]))
            && r.value.Addressed() == Prod(shape) * Prod(shape)
  {
    var n := |shape|;
    assert PySlice(shape, 0, n) == shape;
    assert PySlice(shape, 0, -1) == shape[..n - 1];
    var h, e, all := Prod(shape[..n - 1]), shape[n - 1], Prod(shape);
    assert DelxPlanOf(shape, -n - 1) == Ok(MidAxis(all, h, e));
    ProdAround(shape, n - 1);
    assert shape[n..] == [];
    SquareOfSplit(h, e, all);
  }

  lemma SquareOfSplit(h: nat, e: nat, all: nat)
    requires h * e * 1 == all
    ensures MidAxis(all, h, e).Addressed() == all * all
  {
  }

  /** The launch for a layout: (256, 4, 1) threads per block in both cases. */
  function DelxLaunch(last: Kernel, mid: Kernel, input: Buffer, out: Buffer, p: DelxPlan): (l: Launch)
    ensures l.block == Dim3(DelxBlockX, DelxBlockY, 1)
    ensures OutputOf(l.args) == Some(out)
    ensures p.LastAxis? ==>
              && l.kernel == last && l.grid.y == 1 && l.grid.z == 1
              && l.grid.x * DelxBlockY >= p.flat && (l.grid.x == 0 || (l.grid.x - 1) * DelxBlockY < p.flat)
    ensures p.MidAxis? ==>
              && l.kernel == mid && l.grid.y == 1 && l.grid.z == p.higher
              && l.grid.x * DelxBlockX >= p.lower && (l.grid.x == 0 || (l.grid.x - 1) * DelxBlockX < p.lower)
  {
    match p
    case LastAxis(flat, extent) =>
      var args := [In(input), Out(out), I32(flat), I32(extent)];
      OutputAt(args, 1);
      Launch(last, args, Dim3(DelxBlockX, DelxBlockY, 1), Dim3(CeilDiv(flat, DelxBlockY), 1, 1), 0)
    case MidAxis(lower, higher, extent) =>
      var args := [In(input), Out(out), I32(lower), I32(higher), I32(extent)];
      OutputAt(args, 1);
      Launch(mid, args, Dim3(DelxBlockX, DelxBlockY, 1), Dim3(CeilDiv(lower, DelxBlockX), 1, higher), 0)
  }

  /** What delxf/delxb(input, out, axis) enqueues, or what it raises. */
  function DelxCommand(dtype: DType, last: Kernel, mid: Kernel, input: Buffer, out: Buffer, axis: int): (r: Result<Command>)
    ensures input.dtype != dtype ==> r == Err(ValueError(DtypeMismatch))
    ensures input.dtype == dtype ==> (r.Ok? <==> DelxPlanOf(input.shape, axis).Ok?)
    ensures r.Ok? ==> r.value.Run? && OutputOf(r.value.launch.args) == Some(out)
  {
    if input.dtype != dtype then Err(ValueError(DtypeMismatch))
    else
      match DelxPlanOf(input.shape, axis)
      case Err(e) => Err(e)
      case Ok(p) => Ok(Run(DelxLaunch(last, mid, input, out, p)))
  }

  class DerivativesKernel {
    const dev: Device
    const dtype: DType
    const delxfLast: Kernel
    const delxfMid: Kernel
    const delxbLast: Kernel
    const delxbMid: Kernel

    /**
     * The two kernel pairs, for a dtype SType accepts.  The forward and
     * backward pairs differ only in IS_FORWARD.
     */
    constructor (dtype: DType, dev: Device)
      requires SType(dtype).Ok?
      modifies dev
      ensures this.dev == dev && this.dtype == dtype
      ensures var st := SType(dtype).value;
              && delxfLast == Kernel("delx_last", DelxSubs(true, st), Some("delx.cu"))
              && delxfMid == Kernel("delx_mid", DelxSubs(true, st), Some("delx.cu"))
              && delxbLast == Kernel("delx_last", DelxSubs(false, st), Some("delx.cu"))
              && delxbMid == Kernel("delx_mid", DelxSubs(false, st), Some("delx.cu"))
              && dev.builds == old(dev.builds) + [Build(["delx_last", "delx_mid"], DelxSubs(true, st), Some("delx.cu")),
                                                  Build(["delx_last", "delx_mid"], DelxSubs(false, st), Some("delx.cu"))]
      ensures dev.queue == old(dev.queue) && dev.nextId == old(dev.nextId)
    {
      this.dev := dev;
      this.dtype := dtype;
      var st := SType(dtype).value;
      var f := dev.Load(["delx_last", "delx_mid"], DelxSubs(true, st), Some("delx.cu"));
      var b := dev.Load(["delx_last", "delx_mid"], DelxSubs(false, st), Some("delx.cu"));
      delxfLast, delxfMid := f[0], f[1];
      delxbLast, delxbMid := b[0], b[1];
    }

    /** `DerivativesKernel(dtype)`: NotImplementedError for a dtype without kernels. */
    static method Create(dtype: DType, dev: Device) returns (r: Result<DerivativesKernel>)
      modifies dev
      ensures r.Ok? <==> SType(dtype).Ok?
      ensures r.Err? ==> r.error == NotImplementedError(UnsupportedDtype) && dev.builds == old(dev.builds)
      ensures r.Ok? ==> r.value.dev == dev && r.value.dtype == dtype && |dev.builds| == |old(dev.builds)| + 2
      ensures dev.queue == old(dev.queue) && dev.nextId == old(dev.nextId)
    {
      var st := SType(dtype);
      if st.Err? {
        return Err(st.error);
      }
      var k := new DerivativesKernel(dtype, dev);
      r := Ok(k);
    }

    method Delx(last: Kernel, mid: Kernel, input: Buffer, out: Buffer, axis: int) returns (r: Result<()>)
      modifies dev
      ensures dev.builds == old(dev.builds) && dev.nextId == old(dev.nextId)
      ensures var c := DelxCommand(dtype, last, mid, input, out, axis);
              && (c.Err? ==> r == Err(c.error) && dev.queue == old(dev.queue))
              && (c.Ok? ==> r.Ok? && dev.queue == old(dev.queue) + [c.value])
    {
      var c := DelxCommand(dtype, last, mid, input, out, axis);
      if c.Err? {
        return Err(c.error);
      }
      dev.Enqueue(c.value);
      r := Ok(());
    }

    /** delxf(input, out, axis): forward difference, one launch of a forward kernel. */
    method DelxF(input: Buffer, out: Buffer, axis: int) returns (r: Result<()>)
      modifies dev
      ensures dev.builds == old(dev.builds) && dev.nextId == old(dev.nextId)
      ensures var c := DelxCommand(dtype, delxfLast, delxfMid, input, out, axis);
              && (c.Err? ==> r == Err(c.error) && dev.queue == old(dev.queue))
              && (c.Ok? ==> r.Ok? && dev.queue == old(dev.queue) + [c.value])
    {
      r := Delx(delxfLast, delxfMid, input, out, axis);
    }

    /** delxb(input, out, axis): backward difference, one launch of a backward kernel. */
    method DelxB(input: Buffer, out: Buffer, axis: int) returns (r: Result<()>)
      modifies dev
      ensures dev.builds == old(dev.builds) && dev.nextId == old(dev.nextId)
      ensures var c := DelxCommand(dtype, delxbLast, delxbMid, input, out, axis);
              && (c.Err? ==> r == Err(c.error) && dev.queue == old(dev.queue))
              && (c.Ok? ==> r.Ok? && dev.queue == old(dev.queue) + [c.value])
    {
      r := Delx(delxbLast, delxbMid, input, out, axis);
    }
  }
}
