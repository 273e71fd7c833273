/**
 * InterpolatedShiftKernel: shifts a stack of complex64 images by a 2-D
 * offset.  Each offset component is split into integer and fractional parts
 * (numpy's modf); an offset whose fractional parts are both negligible is a
 * whole-pixel shift, done by a copy kernel, unless it is no shift at all, in
 * which case the input array itself is returned.  Any other offset goes to
 * the bilinear-interpolation kernel.
 */
module InterpolatedShift {
  import opened Base
  import opened DTypes
  import opened Gpu

  const ShiftTile: nat := 32

  /** Below this magnitude a fractional part counts as zero. */
  const FracTolerance: real := 0.000001

  /** The interpolation kernel's shared memory: a haloed tile plus a row-pass tile, 8 bytes per element. */
  const InterpolateShared: nat := (ShiftTile + 2) * (ShiftTile + 2) * 8 + ShiftTile * (ShiftTile + 2) * 8

  function ShiftSubs(): map<string, Macro>
  {
    map["IN_TYPE" := Text("complex<float>"), "OUT_TYPE" := Text("complex<float>"),
        "BDIM_X" := Num(ShiftTile), "BDIM_Y" := Num(ShiftTile)]
  }

  function Abs(x: real): real { if x < 0.0 then -x else x }

  /** numpy's modf: the fractional part keeps the sign of x, the integral part is x truncated. */
  function ModF(x: real): (r: (real, int))
    ensures r.0 + r.1 as real == x
    ensures Abs(r.0) < 1.0
    ensures 0.0 <= x ==> 0.0 <= r.0 && 0 <= r.1
    ensures x < 0.0 ==> r.0 <= 0.0 && r.1 <= 0
  {
    var t := Trunc(x);
    (x - t as real, t)
  }

  /** A whole number is its own integral part and has no fractional part. */
  lemma ModFOfInteger(k: int)
    ensures ModF(k as real) == (0.0, k)
  {
    if k >= 0 {
      assert (k as real).Floor == k;
    } else {
      assert (-(k as real)).Floor == -k;
    }
  }

  /** What interpolate_shift does with an offset. */
  datatype ShiftAction =
    | NoShift                                    // the input is returned as it is
    | IntegerShift(rowPixels: int, colPixels: int)     // whole-pixel copy
    | Interpolate(rowOff: real, colOff: real)    // bilinear interpolation

  function ShiftActionOf(offRow: real, offCol: real): (a: ShiftAction)
    ensures a.IntegerShift? ==> a.rowPixels == ModF(offRow).1 && a.colPixels == ModF(offCol).1
    ensures a.Interpolate? ==> a.rowOff == offRow && a.colOff == offCol
  {
    var (fr, ir) := ModF(offRow);
    var (fc, ic) := ModF(offCol);
    if Abs(fr) < FracTolerance && Abs(fc) < FracTolerance then
      if ir == 0 && ic == 0 then NoShift else IntegerShift(Trunc(offRow), Trunc(offCol))
    else
      Interpolate(offRow, offCol)
  }

  /** A component is a negligible shift exactly when it is smaller in magnitude than the tolerance. */
  lemma NegligibleComponent(x: real)
    ensures Abs(ModF(x).0) < FracTolerance && ModF(x).1 == 0 <==> Abs(x) < FracTolerance
  {
    var (f, i) := ModF(x);
    if Abs(x) < FracTolerance {
      assert -1.0 < x < 1.0;
      assert i == 0;
    }
  }

  /** The input comes back untouched exactly when both components are below the tolerance. */
  lemma NoShiftIffNegligible(offRow: real, offCol: real)
    ensures ShiftActionOf(offRow, offCol).NoShift? <==>
              Abs(offRow) < FracTolerance && Abs(offCol) < FracTolerance
  {
    NegligibleComponent(offRow);
    NegligibleComponent(offCol);
  }

  /**
   * A whole-pixel shift moves by the offset's integral parts, which lie
   * within the tolerance of the offset and are not both zero.
   */
  lemma IntegerShiftIsNearOffset(offRow: real, offCol: real)
    requires ShiftActionOf(offRow, offCol).IntegerShift?
    ensures var a := ShiftActionOf(offRow, offCol);
            && Abs(offRow - a.rowPixels as real) < FracTolerance
            && Abs(offCol - a.colPixels as real) < FracTolerance
            && (a.rowPixels != 0 || a.colPixels != 0)
  {
  }

  /** An offset of whole numbers, not both zero, is copied by exactly that many pixels. */
  lemma WholeOffsetIsIntegerShift(dr: int, dc: int)
    requires dr != 0 || dc != 0
    ensures ShiftActionOf(dr as real, dc as real) == IntegerShift(dr, dc)
  {
    ModFOfInteger(dr);
    ModFOfInteger(dc);
  }

  /** Interpolation is chosen exactly when some fractional part reaches the tolerance. */
  lemma InterpolateIffFractional(offRow: real, offCol: real)
    ensures ShiftActionOf(offRow, offCol).Interpolate? <==>
              Abs(ModF(offRow).0) >= FracTolerance || Abs(ModF(offCol).0) >= FracTolerance
  {
  }

  /** The image stack interpolate_shift works on. */
  datatype Stack = Stack(items: nat, rows: nat, cols: nat)

  /** The checks interpolate_shift makes, in order, and the stack it sees; a 2-D array is one image. */
  function StackOf(arr: Buffer, shift: seq<real>): (r: Result<Stack>)
    ensures |shift| != 2 ==> r == Err(NotImplementedError(ShiftNot2D))
    ensures |shift| == 2 && arr.dtype != Complex64 ==> r == Err(NotImplementedError(UnsupportedDtype))
    ensures |shift| == 2 && arr.dtype == Complex64 ==>
              (r.Ok? <==> |arr.shape| == 2 || |arr.shape| == 3)
    ensures r.Err? ==> r.error.NotImplementedError?
    ensures r.Ok? ==>
              && r.value.items * r.value.rows * r.value.cols == arr.Size()
              && r.value.rows == arr.shape[|arr.shape| - 2] && r.value.cols == arr.shape[|arr.shape| - 1]
              && (|arr.shape| == 2 ==> r.value.items == 1)
  {
    if |shift| != 2 then Err(NotImplementedError(ShiftNot2D))
    else if arr.dtype != Complex64 then Err(NotImplementedError(UnsupportedDtype))
    else if |arr.shape| == 3 then
      var s := arr.shape;
      assert s[1..][1..] == [s[2]];
      ProdSingleton(s[2]);
      assert Prod(s) == s[0] * (s[1] * s[2]);
      assert s[0] * s[1] * s[2] == s[0] * (s[1] * s[2]);
      Ok(Stack(s[0], s[1], s[2]))
    else if |arr.shape| == 2 then
      var s := arr.shape;
      assert s[1..] == [s[1]];
      ProdSingleton(s[1]);
      Ok(Stack(1, s[0], s[1]))
    else Err(NotImplementedError(UnsupportedRank))
  }

  /**
   * The launch for a shift that does move the image: 32x32 tiles over rows
   * (x) and columns (y), one grid layer per image.  The whole-pixel copy
   * leaves the destinations whose source lies outside the image untouched,
   * so for it the new array is read as well as written.
   */
  function ShiftLaunch(integerShift: Kernel, interpolate: Kernel, arr: Buffer, out: Buffer,
                       st: Stack, a: ShiftAction): (l: Launch)
    requires !a.NoShift?
    ensures OutputOf(l.args) == Some(out)
    ensures a.IntegerShift? ==> ReadsWithin(l.args, {arr.id, out.id}) && |l.args| > 1 && l.args[1] == InOut(out)
    ensures a.Interpolate? ==> ReadsWithin(l.args, {arr.id}) && |l.args| > 1 && l.args[1] == Out(out)
    ensures l.kernel == (if a.IntegerShift? then integerShift else interpolate)
    ensures l.shared == (if a.IntegerShift? then 0 else InterpolateShared)
    ensures l.block == Dim3(ShiftTile, ShiftTile, 1) && l.grid.z == st.items
    ensures l.grid.x * ShiftTile >= st.rows && (l.grid.x == 0 || (l.grid.x - 1) * ShiftTile < st.rows)
    ensures l.grid.y * ShiftTile >= st.cols && (l.grid.y == 0 || (l.grid.y - 1) * ShiftTile < st.cols)
  {
    var grid := Dim3(CeilDiv(st.rows, ShiftTile), CeilDiv(st.cols, ShiftTile), st.items);
    var block := Dim3(ShiftTile, ShiftTile, 1);
    match a
    case IntegerShift(dr, dc) =>
      var args := [In(arr), InOut(out), I32(st.rows), I32(st.cols), I32(dr), I32(dc)];
      OutputAt(args, 1);
      Launch(integerShift, args, block, grid, 0)
    case Interpolate(dr, dc) =>
      var args := [In(arr), Out(out), I32(st.rows), I32(st.cols), F32(dr), F32(dc)];
      OutputAt(args, 1);
      Launch(interpolate, args, block, grid, InterpolateShared)
  }

  /**
   * The interpolated image is computed from the input alone, whatever the
   * new array held before; the whole-pixel copy depends on the input and on
   * what the new array held, since its uncovered margin keeps that.
   */
  lemma ShiftDependsOnInputOnly(integerShift: Kernel, interpolate: Kernel, arr: Buffer, out: Buffer,
                                st: Stack, a: ShiftAction, mem1: Memory, mem2: Memory)
    requires !a.NoShift?
    requires Read(mem1, arr.id) == Read(mem2, arr.id)
    requires a.IntegerShift? ==> Read(mem1, out.id) == Read(mem2, out.id)
    ensures var cs := [Run(ShiftLaunch(integerShift, interpolate, arr, out, st, a))];
            Read(ExecAll(mem1, cs), out.id) == Read(ExecAll(mem2, cs), out.id)
  {
    var l := ShiftLaunch(integerShift, interpolate, arr, out, st, a);
    var ids := if a.IntegerShift? then {arr.id, out.id} else {arr.id};
    RunKeepsAgreement(mem1, mem2, l, ids);
    ExecAllOne(mem1, Run(l));
    ExecAllOne(mem2, Run(l));
  }

  /**
   * The whole-pixel copy is computed from the input, the two pixel counts
   * and what the new array held before, which survives where no source
   * pixel lands.
   */
  lemma IntegerShiftKeepsOldOutput(integerShift: Kernel, interpolate: Kernel, arr: Buffer, out: Buffer,
                                   st: Stack, a: ShiftAction, mem: Memory)
    requires a.IntegerShift?
    ensures var cs := [Run(ShiftLaunch(integerShift, interpolate, arr, out, st, a))];
            Read(ExecAll(mem, cs), out.id) ==
              Computed(integerShift, [Img(Read(mem, arr.id)), Img(Read(mem, out.id)), Int(st.rows), Int(st.cols),
                                      Int(a.rowPixels), Int(a.colPixels)])
  {
    var l := ShiftLaunch(integerShift, interpolate, arr, out, st, a);
    ExecAllOne(mem, Run(l));
    ExecRun(mem, l, out.id);
    assert Inputs(mem, l.args) == [Img(Read(mem, arr.id)), Img(Read(mem, out.id)), Int(st.rows), Int(st.cols),
                                    Int(a.rowPixels), Int(a.colPixels)];
  }

  class InterpolatedShiftKernel {
    const dev: Device
    const integerShiftCuda: Kernel
    const linearInterpolateCuda: Kernel

    constructor (dev: Device)
      modifies dev
      ensures this.dev == dev
      ensures integerShiftCuda == Kernel("integer_shift_kernel", ShiftSubs(), Some("interpolated_shift.cu"))
      ensures linearInterpolateCuda == Kernel("linear_interpolate_kernel", ShiftSubs(), Some("interpolated_shift.cu"))
      ensures dev.builds == old(dev.builds) +
                [Build(["integer_shift_kernel", "linear_interpolate_kernel"], ShiftSubs(), Some("interpolated_shift.cu"))]
      ensures dev.queue == old(dev.queue) && dev.nextId == old(dev.nextId)
    {
      this.dev := dev;
      var ks := dev.Load(["integer_shift_kernel", "linear_interpolate_kernel"], ShiftSubs(), Some("interpolated_shift.cu"));
      integerShiftCuda, linearInterpolateCuda := ks[0], ks[1];
    }

    /**
     * interpolate_shift(arr, shift): after the checks an output like the
     * input is always allocated, but with no shift the input itself is
     * returned and nothing is launched.
     */
    method InterpolateShiftBy(arr: Buffer, shift: seq<real>) returns (r: Result<Buffer>)
      modifies dev
      ensures dev.builds == old(dev.builds)
      ensures var st := StackOf(arr, shift);
              && (st.Err? ==> r == Err(st.error) && dev.queue == old(dev.queue) && dev.nextId == old(dev.nextId))
              && (st.Ok? ==>
                    var a := ShiftActionOf(shift[0], shift[1]);
                    && r.Ok?
                    && dev.nextId == old(dev.nextId) + 1
                    && (a.NoShift? ==> r.value == arr && dev.queue == old(dev.queue))
                    && (!a.NoShift? ==>
                          && r.value == Buffer(old(dev.nextId), arr.shape, arr.dtype)
                          && dev.queue == old(dev.queue) +
                               [Run(ShiftLaunch(integerShiftCuda, linearInterpolateCuda, arr, r.value, st.value, a))]))
    {
      var st := StackOf(arr, shift);
      if st.Err? {
        return Err(st.error);
      }
      var a := ShiftActionOf(shift[0], shift[1]);
      var out := dev.Alloc(arr.shape, arr.dtype);
      if a.NoShift? {
        return Ok(arr);
      }
      dev.Enqueue(Run(ShiftLaunch(integerShiftCuda, linearInterpolateCuda, arr, out, st.value, a)));
      r := Ok(out);
    }
  }
}
