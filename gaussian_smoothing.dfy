/**
 * GaussianSmoothingKernel: in-place separable Gaussian smoothing of a stack
 * of 2-D complex images, a row pass and then a column pass, each run only
 * when its standard deviation exceeds 0.1.  The taps live in one device
 * buffer of fixed capacity shared by both passes, and the pair (radius, std)
 * they were computed for is remembered so that they are recomputed only when
 * a pass needs different ones.  The passes alternate between `data` and the
 * scratch array `tmp`; the call arranges for the result to end in `data`.
 */
module GaussianSmoothing {
  import opened Base
  import opened DTypes
  import opened Gpu

  const BlockDimX: nat := 4
  const BlockDimY: nat := 16
  /** Half of 48 KiB, so that two blocks fit on one multiprocessor. */
  const MaxSharedPerBlock: nat := 48 * 1024 / 2
  /** Capacity of the tap buffer: 3072 slots. */
  const MaxKernelRadius: nat := MaxSharedPerBlock / 2 * 4 / BlockDimY
  const Complex64Size: nat := 8
  /** A pass runs only for a standard deviation above this. */
  const Threshold: real := 0.1

  /** `int(num_stdevs * std + 0.5)`. */
  function Radius(numStdevs: real, s: real): (r: int)
    ensures numStdevs >= 0.0 && s >= 0.0 ==> r >= 0
    ensures numStdevs >= 0.0 && s >= 0.0 ==> r as real <= numStdevs * s + 0.5 < r as real + 1.0
  {
    assert numStdevs >= 0.0 && s >= 0.0 ==> numStdevs * s >= 0.0;
    Trunc(numStdevs * s + 0.5)
  }

  /** The right half of the radius-r kernel for std s, centre tap first. */
  function GaussTaps(r: nat, s: real): (t: seq<Tap>)
    ensures |t| == r + 1
    ensures forall k :: 0 <= k < |t| ==> t[k] == GaussTap(r, s, k)
  {
    seq(r + 1, k requires 0 <= k <= r => GaussTap(r, s, k))
  }

  /** The remembered pair `(self.r, self.std)`. */
  datatype TapState = TapState(r: int, std: real)

  /**
   * The tap buffer has its fixed capacity, and unless no pass has run yet
   * (std is still 0, which no pass can match) its first r+1 slots hold the
   * taps for the remembered pair.
   */
  predicate TapsValid(st: TapState, taps: seq<Tap>)
  {
    && |taps| == MaxKernelRadius
    && (st.std == 0.0 || (0 <= st.r && st.r + 1 <= |taps| && taps[..st.r + 1] == GaussTaps(st.r, st.std)))
  }

  /**
   * Shared memory of one pass: a tile plus a halo of r on each side, times
   * the other block extent, times the size of a complex64.  The row pass
   * computes (4 + 2r) * 16 * 8 and the column pass, with the block extents
   * swapped, (4 + 2r) * 16 * 8 as well.
   */
  function PassShared(r: int): (b: int)
    ensures b <= MaxSharedPerBlock <==> r <= 94
  {
    (BlockDimX + 2 * r) * BlockDimY * Complex64Size
  }

  /** The radius check, corrected: r+1 taps must fit in the buffer. */
  predicate RadiusFits(r: int)
  {
    r + 1 <= MaxKernelRadius
  }

  /** The radius check as written: only a radius beyond the capacity is refused. */
  predicate AsWrittenRadiusRejected(r: int)
  {
    r > MaxKernelRadius
  }

  /**
   * A radius the written check lets through needs one tap more than the
   * buffer holds: std 767.9 at four standard deviations gives r = 3072.
   */
  lemma AsWrittenGuardOverflowsTaps()
    ensures var r := Radius(4.0, 767.9);
            && r == 3072
            && !AsWrittenRadiusRejected(r)
            && |GaussTaps(r, 767.9)| > MaxKernelRadius
            && !RadiusFits(r)
  {
    var r := Radius(4.0, 767.9);
    assert 4.0 * 767.9 + 0.5 == 3072.1;
    assert r as real <= 3072.1 < r as real + 1.0;
  }

  /** Batch count, rows, columns and the two standard deviations of one call. */
  datatype Geometry = Geometry(batches: nat, y: nat, x: nat, stdy: real, stdx: real)

  /** `tmp`, or the array the call allocates when it is not given. */
  function TmpOf(data: Buffer, tmp: Option<Buffer>, nextId: nat): Buffer
  {
    if tmp.Some? then tmp.value else Buffer(nextId, data.shape, data.dtype)
  }

  /**
   * The scratch assertion, then the geometry by rank: a 3-D array is a stack
   * of images, a 2-D array one image, a 1-D array one column (only the
   * column pass can run).  `mfs` is unpacked as (stdy, stdx).
   */
  function ConvGeometryOf(data: Buffer, tmp: Buffer, mfs: seq<real>): (r: Result<Geometry>)
    ensures tmp.shape != data.shape || tmp.dtype != data.dtype ==> r == Err(AssertionError(TmpMismatch))
    ensures tmp.shape == data.shape && tmp.dtype == data.dtype ==>
              && (|data.shape| == 0 || |data.shape| > 3 ==> r == Err(NotImplementedError(UnsupportedRank)))
              && (2 <= |data.shape| <= 3 ==> (r.Ok? <==> |mfs| == 2))
              && (|data.shape| == 1 ==> (r.Ok? <==> |mfs| >= 1))
    ensures r.Ok? ==>
              var g, n := r.value, |data.shape|;
              && g.batches * g.y * g.x == data.Size()
              && g.y == data.shape[if n == 1 then 0 else n - 2]
              && g.stdy == mfs[0]
              && (n == 1 ==> g.x == 1 && g.stdx == 0.0)
              && (n >= 2 ==> g.x == data.shape[n - 1] && g.stdx == mfs[1])
  {
    var s := data.shape;
    if tmp.shape != s || tmp.dtype != data.dtype then Err(AssertionError(TmpMismatch))
    else if |s| == 3 then
      if |mfs| != 2 then Err(ValueError(UnpackMismatch))
      else
        assert s[1..][1..] == s[2..] && s[2..][1..] == [];
        assert Prod(s[2..]) == s[2];
        assert Prod(s) == s[0] * (s[1] * s[2]);
        assert s[0] * s[1] * s[2] == s[0] * (s[1] * s[2]);
        Ok(Geometry(s[0], s[1], s[2], mfs[0], mfs[1]))
    else if |s| == 2 then
      if |mfs| != 2 then Err(ValueError(UnpackMismatch))
      else
        assert Prod(s) == s[0] * (s[1] * Prod(s[2..]));
        Ok(Geometry(1, s[0], s[1], mfs[0], mfs[1]))
    else if |s| == 1 then
      if |mfs| == 0 then Err(IndexError)
      else
        assert Prod(s) == s[0] * Prod(s[1..]);
        Ok(Geometry(1, s[0], 1, mfs[0], 0.0))
    else Err(NotImplementedError(UnsupportedRank))
  }

  /**
   * The launch of one pass.  The row pass uses 4x16 blocks and the column
   * pass 16x4; either way the grid covers every row and column of every image.
   */
  function PassLaunch(k: Kernel, row: bool, input: Buffer, output: Buffer, g: Geometry, taps: seq<Tap>, r: nat): (l: Launch)
    ensures l.grid.x * l.block.x >= g.y && l.grid.y * l.block.y >= g.x && l.grid.z == g.batches
    ensures l.block == (if row then Dim3(BlockDimX, BlockDimY, 1) else Dim3(BlockDimY, BlockDimX, 1))
    ensures OutputOf(l.args) == Some(output)
  {
    var bw := if row then BlockDimX else BlockDimY;
    var bh := if row then BlockDimY else BlockDimX;
    var args := [In(input), Out(output), I32(g.y), I32(g.x), TapBuf(taps), I32(r)];
    OutputAt(args, 1);
    Launch(k, args, Dim3(bw, bh, 1), Dim3(CeilDiv(g.y, bw), CeilDiv(g.x, bh), g.batches), PassShared(r))
  }

  /** What one pass raises (if anything), the remembered pair and taps after it, and its launch. */
  datatype PassOutcome = PassOutcome(error: Option<Error>, st: TapState, taps: seq<Tap>, launch: Option<Launch>)

  /**
   * One pass with standard deviation s: the radius check, the tap cache
   * (recomputed only when the radius or the std differs from the remembered
   * pair, and before the shared-memory check), the shared-memory check, and
   * the launch, which reads the taps for its own radius and std.
   */
  function RunPass(numStdevs: real, st: TapState, taps: seq<Tap>, s: real, k: Kernel, row: bool,
                   input: Buffer, output: Buffer, g: Geometry): (o: PassOutcome)
    requires numStdevs >= 0.0 && s > Threshold && TapsValid(st, taps)
    ensures TapsValid(o.st, o.taps)
    ensures var r := Radius(numStdevs, s);
            && (o.error == Some(ValueError(KernelTooLarge)) <==> !RadiusFits(r))
            && (!RadiusFits(r) ==> o.st == st && o.taps == taps && o.launch.None?)
            && (RadiusFits(r) ==>
                  && o.st == TapState(r, s)
                  && o.taps[..r + 1] == GaussTaps(r, s)
                  && (st == TapState(r, s) ==> o.taps == taps)
                  && o.taps[r + 1..] == taps[r + 1..])
            && (o.error == Some(MemoryError(SharedMemoryExceeded)) <==> RadiusFits(r) && r > 94)
            && (o.error.None? <==> o.launch.Some?)
            && (o.launch.Some? ==> r <= 94 && o.launch.value == PassLaunch(k, row, input, output, g, GaussTaps(r, s), r))
  {
    var r := Radius(numStdevs, s);
    if !RadiusFits(r) then PassOutcome(Some(ValueError(KernelTooLarge)), st, taps, None)
    else
      var taps' := if st.r != r || st.std != s then GaussTaps(r, s) + taps[r + 1..] else taps;
      assert taps'[..r + 1] == GaussTaps(r, s);
      assert taps'[r + 1..] == taps[r + 1..];
      if PassShared(r) > MaxSharedPerBlock then
        PassOutcome(Some(MemoryError(SharedMemoryExceeded)), TapState(r, s), taps', None)
      else
        PassOutcome(None, TapState(r, s), taps', Some(PassLaunch(k, row, input, output, g, taps'[..r + 1], r)))
  }

  /** The command of a pass that gets past its checks: it reads the taps for its own radius and std. */
  function PassCommand(numStdevs: real, s: real, k: Kernel, row: bool, input: Buffer, output: Buffer, g: Geometry): Command
    requires numStdevs >= 0.0 && s > Threshold
  {
    var r := Radius(numStdevs, s);
    Run(PassLaunch(k, row, input, output, g, GaussTaps(r, s), r))
  }

  /**
   * The commands of a call whose passes all get past their checks: the row
   * pass from data into tmp, the column pass from wherever the data now is
   * into the other array, and a copy from tmp back into data when exactly
   * one of the two ran.
   */
  function ConvCommands(numStdevs: real, rowK: Kernel, colK: Kernel, data: Buffer, tmp: Buffer, g: Geometry): (cs: seq<Command>)
    requires numStdevs >= 0.0
    ensures |cs| == (if g.stdx > Threshold || g.stdy > Threshold then 2 else 0)
    ensures (g.stdx > Threshold) != (g.stdy > Threshold) ==> cs[1] == Copy(data, tmp)
    ensures g.stdx > Threshold ==> cs[0].Run? && cs[0].launch.kernel == rowK
    ensures g.stdx <= Threshold && g.stdy > Threshold ==> cs[0].Run? && cs[0].launch.kernel == colK
    ensures g.stdx > Threshold && g.stdy > Threshold ==> cs[1].Run? && cs[1].launch.kernel == colK
  {
    var rowRuns, colRuns := g.stdx > Threshold, g.stdy > Threshold;
    if rowRuns && colRuns then
      [PassCommand(numStdevs, g.stdx, rowK, true, data, tmp, g), PassCommand(numStdevs, g.stdy, colK, false, tmp, data, g)]
    else if rowRuns then
      [PassCommand(numStdevs, g.stdx, rowK, true, data, tmp, g), Copy(data, tmp)]
    else if colRuns then
      [PassCommand(numStdevs, g.stdy, colK, false, data, tmp, g), Copy(data, tmp)]
    else
      []
  }

  /** The row pass of a call, from data into tmp, or nothing when its std is at most the threshold. */
  function RowStage(numStdevs: real, st0: TapState, taps0: seq<Tap>, rowK: Kernel,
                    data: Buffer, tmp: Buffer, g: Geometry): (p: PassOutcome)
    requires numStdevs >= 0.0 && TapsValid(st0, taps0)
    ensures TapsValid(p.st, p.taps)
    ensures g.stdx <= Threshold ==> p == PassOutcome(None, st0, taps0, None)
    ensures g.stdx > Threshold && p.error.None? ==>
              p.launch == Some(PassCommand(numStdevs, g.stdx, rowK, true, data, tmp, g).launch)
  {
    if g.stdx > Threshold then RunPass(numStdevs, st0, taps0, g.stdx, rowK, true, data, tmp, g)
    else PassOutcome(None, st0, taps0, None)
  }

  /** The column pass of a call, reading what the row pass wrote if it ran, or nothing. */
  function ColStage(numStdevs: real, st1: TapState, taps1: seq<Tap>, colK: Kernel,
                    data: Buffer, tmp: Buffer, g: Geometry): (p: PassOutcome)
    requires numStdevs >= 0.0 && TapsValid(st1, taps1)
    ensures TapsValid(p.st, p.taps)
    ensures g.stdy <= Threshold ==> p == PassOutcome(None, st1, taps1, None)
    ensures g.stdy > Threshold && p.error.None? ==>
              var input, output := if g.stdx > Threshold then tmp else data, if g.stdx > Threshold then data else tmp;
              p.launch == Some(PassCommand(numStdevs, g.stdy, colK, false, input, output, g).launch)
  {
    var input := if g.stdx > Threshold then tmp else data;
    var output := if g.stdx > Threshold then data else tmp;
    if g.stdy > Threshold then RunPass(numStdevs, st1, taps1, g.stdy, colK, false, input, output, g)
    else PassOutcome(None, st1, taps1, None)
  }

  /** What the whole call raises, enqueues, and leaves in the tap cache. */
  datatype ConvOutcome = ConvOutcome(result: Result<()>, cmds: seq<Command>, st: TapState, taps: seq<Tap>)

  /**
   * The two stages in order.  An error in the row pass enqueues nothing; an
   * error in the column pass leaves the row pass enqueued; either way the
   * tap cache keeps whatever the failing pass already wrote into it.
   */
  function ConvRun(numStdevs: real, st0: TapState, taps0: seq<Tap>, rowK: Kernel, colK: Kernel,
                   data: Buffer, tmp: Buffer, g: Geometry): (o: ConvOutcome)
    requires numStdevs >= 0.0 && TapsValid(st0, taps0)
    ensures TapsValid(o.st, o.taps)
    ensures g.stdx <= Threshold && g.stdy <= Threshold ==> o == ConvOutcome(Ok(()), [], st0, taps0)
    ensures o.result.Ok? ==> o.cmds == ConvCommands(numStdevs, rowK, colK, data, tmp, g)
  {
    var p1 := RowStage(numStdevs, st0, taps0, rowK, data, tmp, g);
    if p1.error.Some? then ConvOutcome(Err(p1.error.value), [], p1.st, p1.taps)
    else
      var cmds1 := if g.stdx > Threshold then [PassCommand(numStdevs, g.stdx, rowK, true, data, tmp, g)] else [];
      var p2 := ColStage(numStdevs, p1.st, p1.taps, colK, data, tmp, g);
      if p2.error.Some? then ConvOutcome(Err(p2.error.value), cmds1, p2.st, p2.taps)
      else ConvOutcome(Ok(()), ConvCommands(numStdevs, rowK, colK, data, tmp, g), p2.st, p2.taps)
  }

  /** ConvCommands is the row command, then the column command, then the copy, each when it applies. */
  lemma ConvCommandsPieces(numStdevs: real, rowK: Kernel, colK: Kernel, data: Buffer, tmp: Buffer, g: Geometry)
    requires numStdevs >= 0.0
    ensures var rowRuns, colRuns := g.stdx > Threshold, g.stdy > Threshold;
            var input, output := if rowRuns then tmp else data, if rowRuns then data else tmp;
            ConvCommands(numStdevs, rowK, colK, data, tmp, g)
              == (if rowRuns then [PassCommand(numStdevs, g.stdx, rowK, true, data, tmp, g)] else [])
                 + (if colRuns then [PassCommand(numStdevs, g.stdy, colK, false, input, output, g)] else [])
                 + (if rowRuns != colRuns then [Copy(data, tmp)] else [])
  {
  }

  lemma ConcatThree<T>(q: seq<T>, a: seq<T>, b: seq<T>, c: seq<T>)
    ensures q + a + b + c == q + (a + b + c)
  {
  }

  /** What one pass computes from an image, with the taps for its own radius and std. */
  function PassImage(k: Kernel, img: Image, g: Geometry, numStdevs: real, s: real): Image
    requires numStdevs >= 0.0 && s > Threshold
  {
    var r := Radius(numStdevs, s);
    Computed(k, [Img(img), Slot, Int(g.y), Int(g.x), Taps(GaussTaps(r, s)), Int(r)])
  }

  /**
   * Separable smoothing, independent of where intermediate results are kept:
   * the row pass if its std exceeds the threshold, then the column pass if
   * its std does.
   */
  function Smoothed(numStdevs: real, rowK: Kernel, colK: Kernel, g: Geometry, img: Image): Image
    requires numStdevs >= 0.0
  {
    var afterRow := if g.stdx > Threshold then PassImage(rowK, img, g, numStdevs, g.stdx) else img;
    if g.stdy > Threshold then PassImage(colK, afterRow, g, numStdevs, g.stdy) else afterRow
  }

  /** A pass reads its input array and writes the pass's image of it into its output array. */
  lemma PassWrites(numStdevs: real, s: real, k: Kernel, row: bool, input: Buffer, output: Buffer, g: Geometry, mem: Memory)
    requires numStdevs >= 0.0 && s > Threshold
    ensures Read(Exec(mem, PassCommand(numStdevs, s, k, row, input, output, g)), output.id)
              == PassImage(k, Read(mem, input.id), g, numStdevs, s)
  {
    var c := PassCommand(numStdevs, s, k, row, input, output, g);
    assert Inputs(mem, c.launch.args) == [Img(Read(mem, input.id)), Slot, Int(g.y), Int(g.x),
                                          Taps(GaussTaps(Radius(numStdevs, s), s)), Int(Radius(numStdevs, s))];
  }

  /**
   * Whichever passes run, the commands of a call leave the smoothed image in
   * `data` once they have executed, whatever `data`'s original contents and
   * whatever `tmp` held.
   */
  lemma {:induction false} ConvolutionLeavesResultInData(
      numStdevs: real, rowK: Kernel, colK: Kernel, data: Buffer, tmp: Buffer, g: Geometry, mem: Memory)
    requires numStdevs >= 0.0 && data.id != tmp.id
    ensures Read(ExecAll(mem, ConvCommands(numStdevs, rowK, colK, data, tmp, g)), data.id)
              == Smoothed(numStdevs, rowK, colK, g, Read(mem, data.id))
  {
    var img := Read(mem, data.id);
    var rowRuns, colRuns := g.stdx > Threshold, g.stdy > Threshold;
    if rowRuns {
      var c1 := PassCommand(numStdevs, g.stdx, rowK, true, data, tmp, g);
      PassWrites(numStdevs, g.stdx, rowK, true, data, tmp, g, mem);
      var m1 := Exec(mem, c1);
      if colRuns {
        var c2 := PassCommand(numStdevs, g.stdy, colK, false, tmp, data, g);
        PassWrites(numStdevs, g.stdy, colK, false, tmp, data, g, m1);
        ExecAllTwo(mem, c1, c2);
      } else {
        ExecAllTwo(mem, c1, Copy(data, tmp));
      }
    } else if colRuns {
      var c2 := PassCommand(numStdevs, g.stdy, colK, false, data, tmp, g);
      PassWrites(numStdevs, g.stdy, colK, false, data, tmp, g, mem);
      ExecAllTwo(mem, c2, Copy(data, tmp));
    }
  }

  class GaussianSmoothingKernel {
    const dev: Device
    const kernelType: string
    const numStdevs: real
    const convolutionRow: Kernel
    const convolutionCol: Kernel
    /** The device tap buffer, `kernel_gpu`. */
    const kernelGpu: array<Tap>
    var r: int
    var std: real

    ghost predicate Valid()
      reads this, kernelGpu
    {
      numStdevs >= 0.0 && TapsValid(TapState(r, std), kernelGpu[..])
    }

    /** The two pass kernels, with the block extents swapped for the column pass, and an empty tap buffer. */
    constructor (dev: Device, numStdevs: real, kernelType: string)
      requires kernelType == "float" || kernelType == "double"
      requires numStdevs >= 0.0
      modifies dev
      ensures Valid() && fresh(kernelGpu)
      ensures this.dev == dev && this.numStdevs == numStdevs && this.kernelType == kernelType
      ensures r == 0 && std == 0.0
      ensures convolutionRow == Kernel("convolution_row", map["BDIM_X" := Num(4), "BDIM_Y" := Num(16),
                "DTYPE" := Text("complex<float>"), "MATH_TYPE" := Text(kernelType)], Some("convolution.cu"))
      ensures convolutionCol == Kernel("convolution_col", map["BDIM_X" := Num(16), "BDIM_Y" := Num(4),
                "DTYPE" := Text("complex<float>"), "MATH_TYPE" := Text(kernelType)], Some("convolution.cu"))
      ensures dev.builds == old(dev.builds) + [Build(["convolution_row"], convolutionRow.subs, Some("convolution.cu")),
                                              Build(["convolution_col"], convolutionCol.subs, Some("convolution.cu"))]
      ensures dev.queue == old(dev.queue) && dev.nextId == old(dev.nextId)
    {
      this.dev := dev;
      this.kernelType := kernelType;
      this.numStdevs := numStdevs;
      var rk := dev.Load(["convolution_row"], map["BDIM_X" := Num(BlockDimX), "BDIM_Y" := Num(BlockDimY),
                           "DTYPE" := Text("complex<float>"), "MATH_TYPE" := Text(kernelType)], Some("convolution.cu"));
      var ck := dev.Load(["convolution_col"], map["BDIM_X" := Num(BlockDimY), "BDIM_Y" := Num(BlockDimX),
                           "DTYPE" := Text("complex<float>"), "MATH_TYPE" := Text(kernelType)], Some("convolution.cu"));
      convolutionRow, convolutionCol := rk[0], ck[0];
      kernelGpu := new Tap[MaxKernelRadius](_ => Unset);
      r, std := 0, 0.0;
    }

    /** `GaussianSmoothingKernel(num_stdevs, kernel_type)`: ValueError for any other kernel type. */
    static method Create(dev: Device, numStdevs: real, kernelType: string) returns (res: Result<GaussianSmoothingKernel>)
      requires numStdevs >= 0.0
      modifies dev
      ensures res.Ok? <==> kernelType == "float" || kernelType == "double"
      ensures res.Err? ==> res.error == ValueError(InvalidKernelType) && dev.builds == old(dev.builds)
      ensures res.Ok? ==> res.value.Valid() && res.value.dev == dev && res.value.kernelType == kernelType
      ensures dev.queue == old(dev.queue) && dev.nextId == old(dev.nextId)
    {
      if kernelType != "float" && kernelType != "double" {
        return Err(ValueError(InvalidKernelType));
      }
      var k := new GaussianSmoothingKernel(dev, numStdevs, kernelType);
      res := Ok(k);
    }

    /** One pass: radius check, tap cache update, shared-memory check, launch. */
    method Pass(s: real, k: Kernel, row: bool, input: Buffer, output: Buffer, g: Geometry) returns (e: Option<Error>)
      requires Valid() && s > Threshold
      modifies this, kernelGpu, dev
      ensures Valid()
      ensures var o := RunPass(numStdevs, TapState(old(r), old(std)), old(kernelGpu[..]), s, k, row, input, output, g);
              && e == o.error && TapState(r, std) == o.st && kernelGpu[..] == o.taps
              && dev.queue == old(dev.queue) + (if o.launch.Some? then [Run(o.launch.value)] else [])
      ensures dev.builds == old(dev.builds) && dev.nextId == old(dev.nextId)
    {
      var rad := Radius(numStdevs, s);
      if !RadiusFits(rad) {
        return Some(ValueError(KernelTooLarge));
      }
      if rad != r || s != std {
        forall i | 0 <= i <= rad {
          kernelGpu[i] := GaussTap(rad, s, i);
        }
        r, std := rad, s;
        assert kernelGpu[..] == GaussTaps(rad, s) + old(kernelGpu[..])[rad + 1..];
      }
      if PassShared(rad) > MaxSharedPerBlock {
        return Some(MemoryError(SharedMemoryExceeded));
      }
      dev.Enqueue(Run(PassLaunch(k, row, input, output, g, kernelGpu[..rad + 1], rad)));
      e := None;
    }

    /**
     * convolution(data, mfs, tmp): allocate tmp if it is not given, check
     * it, work out the geometry, run the passes ping-ponging between data
     * and tmp, and copy tmp into data when exactly one pass ran.
     */
    method Convolution(data: Buffer, mfs: seq<real>, tmp: Option<Buffer>) returns (res: Result<()>)
      requires Valid()
      modifies this, kernelGpu, dev
      ensures Valid()
      ensures dev.builds == old(dev.builds)
      ensures dev.nextId == old(dev.nextId) + (if tmp.None? then 1 else 0)
      ensures var t := TmpOf(data, tmp, old(dev.nextId));
              var pre := ConvGeometryOf(data, t, mfs);
              && (pre.Err? ==>
                    && res == Err(pre.error) && dev.queue == old(dev.queue)
                    && r == old(r) && std == old(std) && kernelGpu[..] == old(kernelGpu[..]))
              && (pre.Ok? ==>
                    var o := ConvRun(numStdevs, TapState(old(r), old(std)), old(kernelGpu[..]),
                                     convolutionRow, convolutionCol, data, t, pre.value);
                    && res == o.result && dev.queue == old(dev.queue) + o.cmds
                    && TapState(r, std) == o.st && kernelGpu[..] == o.taps)
    {
      var t: Buffer;
      if tmp.None? {
        t := dev.Alloc(data.shape, data.dtype);
      } else {
        t := tmp.value;
      }
      var pre := ConvGeometryOf(data, t, mfs);
      if pre.Err? {
        return Err(pre.error);
      }
      var g := pre.value;
      ghost var p1 := RowStage(numStdevs, TapState(r, std), kernelGpu[..], convolutionRow, data, t, g);
      ghost var cmds1 := if g.stdx > Threshold then [PassCommand(numStdevs, g.stdx, convolutionRow, true, data, t, g)] else [];
      var input, output := data, t;
      if g.stdx > Threshold {
        var e := Pass(g.stdx, convolutionRow, true, input, output, g);
        if e.Some? {
          return Err(e.value);
        }
        input, output := output, data;
      }
      assert p1.error.None? && TapState(r, std) == p1.st && kernelGpu[..] == p1.taps;
      assert dev.queue == old(dev.queue) + cmds1;
      ghost var p2 := ColStage(numStdevs, p1.st, p1.taps, convolutionCol, data, t, g);
      ghost var cmds2 := if g.stdy > Threshold then [PassCommand(numStdevs, g.stdy, convolutionCol, false, input, output, g)] else [];
      ghost var q1 := dev.queue;
      if g.stdy > Threshold {
        var e := Pass(g.stdy, convolutionCol, false, input, output, g);
        if e.Some? {
          return Err(e.value);
        }
      }
      assert p2.error.None? && TapState(r, std) == p2.st && kernelGpu[..] == p2.taps;
      assert dev.queue == q1 + cmds2;
      ghost var copy: seq<Command> := [];
      if (g.stdx > Threshold) != (g.stdy > Threshold) {
        dev.Enqueue(Copy(data, t));
        copy := [Copy(data, t)];
      }
      assert dev.queue == q1 + cmds2 + copy;
      ConvCommandsPieces(numStdevs, convolutionRow, convolutionCol, data, t, g);
      ConcatThree(old(dev.queue), cmds1, cmds2, copy);
      res := Ok(());
    }
  }
}
