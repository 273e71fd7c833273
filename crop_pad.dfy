/**
 * CropPadKernel: copy the overlap of B, shifted by an offset, into the last
 * three axes of A, batch by batch; and crop_pad_2d_simple, which centres B in
 * A along the last two axes.  The copy kernel is compiled once per
 * (B's C type, A's C type) and cached under a comma-joined key.
 */
module CropPad {
  import opened Base
  import opened DTypes
  import opened Gpu

  const Fill3DBlockDim: nat := 32

  /** Where the copy starts in A along one axis: the offset clipped at zero. */
  function AStart(off: int): nat { if off < 0 then 0 else off }

  /** Where the copy starts in B along one axis: the negated offset clipped at zero. */
  function BStart(off: int): nat { if off < 0 then -off else 0 }

  /** The check the host makes per axis before copying. */
  predicate Overlaps(alim: nat, blim: nat, off: int)
  {
    BStart(off) < blim && AStart(off) < alim
  }

  /** The copy length as computed from A's side, and as computed from B's side. */
  function LengthFromA(alim: nat, blim: nat, off: int): int { Min(off + blim, alim) - AStart(off) }
  function LengthFromB(alim: nat, blim: nat, off: int): int { Min(alim - off, blim) - BStart(off) }

  /** Index j of A receives element j - off of B: both indices must exist. */
  predicate Covered(alim: nat, blim: nat, off: int, j: int)
  {
    0 <= j < alim && 0 <= j - off < blim
  }

  /** The copy along one axis: A[aStart .. aStart+length] receives B[bStart .. bStart+length]. */
  datatype AxisWindow = AxisWindow(aStart: nat, bStart: nat, length: nat)
  {
    predicate Holds(j: int) { aStart <= j < aStart + length }
  }

  /**
   * The window of one axis.  It pairs A's index j with B's index j - off,
   * lies inside both arrays, and covers exactly the indices of A whose
   * partner in B exists: the whole overlap and nothing else.
   */
  function AxisOf(alim: nat, blim: nat, off: int): (w: AxisWindow)
    requires Overlaps(alim, blim, off)
    ensures 1 <= w.length
    ensures w.aStart + w.length <= alim && w.bStart + w.length <= blim
    ensures w.aStart - w.bStart == off
    ensures forall j :: w.Holds(j) <==> Covered(alim, blim, off, j)
  {
    AxisWindow(AStart(off), BStart(off), LengthFromA(alim, blim, off))
  }

  /**
   * The per-axis check passes exactly when some index of A has a partner in
   * B: when it fails, the overlap along that axis is empty.
   */
  lemma OverlapsIffSomeCovered(alim: nat, blim: nat, off: int)
    ensures Overlaps(alim, blim, off) <==> exists j :: Covered(alim, blim, off, j)
  {
    if Overlaps(alim, blim, off) {
      assert Covered(alim, blim, off, AStart(off));
    }
  }

  /** The per-axis windows of the last three axes and the number of batches. */
  datatype Window = Window(axes: seq<AxisWindow>, batch: nat)

  /**
   * What fill3D computes from the shapes and the offset, or what it raises,
   * in the order the host checks.  A one-component offset is broadcast over
   * the three axes by the overlap test and then fails when its second
   * component is read; any other length other than three cannot be broadcast.
   */
  function Fill3DWindow(A: Buffer, B: Buffer, offset: seq<int>): (r: Result<Window>)
    ensures r.Ok? <==>
              && |A.shape| >= 3 && |A.shape| == |B.shape|
              && A.shape[..|A.shape| - 3] == B.shape[..|B.shape| - 3]
              && |offset| == 3
              && forall i :: 0 <= i < 3 ==>
                   Overlaps(A.shape[|A.shape| - 3 + i], B.shape[|B.shape| - 3 + i], offset[i])
    ensures |A.shape| < 3 || |B.shape| < 3 ==> r == Err(ValueError(NotAtLeast3D))
    ensures |A.shape| >= 3 && |B.shape| >= 3 && |A.shape| != |B.shape| ==> r == Err(AssertionError(NdimMismatch))
    ensures r.Err? && r.error.AssertionError? ==> r.error.why != LengthsMismatch
    ensures r.Ok? ==>
              var n := |A.shape|;
              && |r.value.axes| == 3
              && r.value.batch == Prod(A.shape[..n - 3])
              && forall i :: 0 <= i < 3 ==>
                   r.value.axes[i] == AxisOf(A.shape[n - 3 + i], B.shape[n - 3 + i], offset[i])
  {
    if |A.shape| < 3 || |B.shape| < 3 then Err(ValueError(NotAtLeast3D))
    else if |A.shape| != |B.shape| then Err(AssertionError(NdimMismatch))
    else if A.shape[..|A.shape| - 3] != B.shape[..|B.shape| - 3] then Err(AssertionError(LeadingDimsMismatch))
    else if |offset| != 1 && |offset| != 3 then Err(ValueError(BroadcastMismatch))
    else
      var n := |A.shape|;
      var alim, blim := A.shape[n - 3..], B.shape[n - 3..];
      var off := if |offset| == 1 then [offset[0], offset[0], offset[0]] else offset;
      if !(forall i :: 0 <= i < 3 ==> Overlaps(alim[i], blim[i], off[i])) then
        Err(AssertionError(NoOverlap))
      else if |offset| == 1 then Err(IndexError)
      else if exists i :: 0 <= i < 3 && LengthFromA(alim[i], blim[i], off[i]) != LengthFromB(alim[i], blim[i], off[i]) then
        Err(AssertionError(LengthsMismatch))
      else
        Ok(Window([AxisOf(alim[0], blim[0], off[0]), AxisOf(alim[1], blim[1], off[1]), AxisOf(alim[2], blim[2], off[2])],
                  Prod(A.shape[..n - 3])))
  }

  function Fill3DSubs(inC: string, outC: string): map<string, Macro>
  {
    map["IN_TYPE" := Text(inC), "OUT_TYPE" := Text(outC)]
  }

  /** The copy kernel compiled for B's C type `inC` and A's C type `outC`. */
  function Fill3DKernel(inC: string, outC: string): Kernel
  {
    Kernel("fill3D", Fill3DSubs(inC, outC), None)
  }

  /**
   * The launch: A is written only inside the window, so it is passed as
   * read-write.  32x32 threads per block; the grid covers the window's last
   * two axes, and its third extent runs over the batches.
   */
  function Fill3DLaunch(k: Kernel, A: Buffer, B: Buffer, w: Window): (l: Launch)
    requires |A.shape| >= 3 && |B.shape| >= 3 && |w.axes| == 3
    ensures l.block == Dim3(Fill3DBlockDim, Fill3DBlockDim, 1)
    ensures l.grid.x * Fill3DBlockDim >= w.axes[2].length && l.grid.y * Fill3DBlockDim >= w.axes[1].length
    ensures (l.grid.x == 0 || (l.grid.x - 1) * Fill3DBlockDim < w.axes[2].length)
    ensures (l.grid.y == 0 || (l.grid.y - 1) * Fill3DBlockDim < w.axes[1].length)
    ensures l.grid.z == w.batch
    ensures OutputOf(l.args) == Some(A)
  {
    var n, m := |A.shape|, |B.shape|;
    var args := [InOut(A), In(B),
                 I32(A.shape[n - 3]), I32(A.shape[n - 2]), I32(A.shape[n - 1]),
                 I32(B.shape[m - 3]), I32(B.shape[m - 2]), I32(B.shape[m - 1]),
                 I32(w.axes[0].aStart), I32(w.axes[1].aStart), I32(w.axes[2].aStart),
                 I32(w.axes[0].bStart), I32(w.axes[1].bStart), I32(w.axes[2].bStart),
                 I32(w.axes[0].length), I32(w.axes[1].length), I32(w.axes[2].length)];
    OutputAt(args, 0);
    Launch(k, args,
           Dim3(Fill3DBlockDim, Fill3DBlockDim, 1),
           Dim3(CeilDiv(w.axes[2].length, Fill3DBlockDim), CeilDiv(w.axes[1].length, Fill3DBlockDim), w.batch), 0)
  }

  /** Everything fill3D decides before it touches the cache: the C types and the window. */
  datatype Fill3DCall = Fill3DCall(inC: string, outC: string, window: Window)

  /** The window first, then B's C type, then A's, as the host evaluates them. */
  function Fill3DCallOf(A: Buffer, B: Buffer, offset: seq<int>): (r: Result<Fill3DCall>)
    ensures r.Ok? <==> Fill3DWindow(A, B, offset).Ok? && A.dtype.Supported() && B.dtype.Supported()
    ensures Fill3DWindow(A, B, offset).Err? ==> r == Err(Fill3DWindow(A, B, offset).error)
    ensures r.Ok? ==>
              && r.value.window == Fill3DWindow(A, B, offset).value
              && CType(B.dtype) == Ok(r.value.inC) && CType(A.dtype) == Ok(r.value.outC)
  {
    match Fill3DWindow(A, B, offset)
    case Err(e) => Err(e)
    case Ok(w) =>
      match CType(B.dtype)
      case Err(e) => Err(e)
      case Ok(inC) =>
        match CType(A.dtype)
        case Err(e) => Err(e)
        case Ok(outC) => Ok(Fill3DCall(inC, outC, w))
  }

  /**
   * crop_pad_2d_simple's arguments to fill3D: 2-D arrays gain a leading
   * batch axis of extent 1, and the offset puts the centre of B (index b//2)
   * on the centre of A (index a//2) along each of the last two axes.
   */
  datatype CropPadArgs = CropPadArgs(A: Buffer, B: Buffer, offset: seq<int>)

  function AsBatch(X: Buffer): (Y: Buffer)
  {
    if |X.shape| == 2 then Buffer(X.id, [1] + X.shape, X.dtype) else X
  }

  /**
   * The shape of crop_pad_2d_simple's call to fill3D: equal ranks of at least
   * three, equal extents outside the last two axes, no shift along the third
   * axis from the end, and a shift of a//2 - b//2 along each of the last two.
   */
  predicate Centred(c: CropPadArgs)
  {
    var n := |c.A.shape|;
    && n == |c.B.shape| >= 3
    && c.A.shape[..n - 2] == c.B.shape[..n - 2]
    && c.offset == [0, c.A.shape[n - 2] as int / 2 - c.B.shape[n - 2] as int / 2,
                       c.A.shape[n - 1] as int / 2 - c.B.shape[n - 1] as int / 2]
  }

  function CropPadArgsOf(A: Buffer, B: Buffer): (r: Result<CropPadArgs>)
    ensures r.Ok? <==>
              |A.shape| >= 2 && |A.shape| == |B.shape| && A.shape[..|A.shape| - 2] == B.shape[..|B.shape| - 2]
    ensures |A.shape| < 2 ==> r == Err(AssertionError(RankBelowTwo))
    ensures r.Ok? ==>
              && Centred(r.value)
              && r.value.A.id == A.id && r.value.B.id == B.id
              && r.value.A.dtype == A.dtype && r.value.B.dtype == B.dtype
              && r.value.A.Size() == A.Size() && r.value.B.Size() == B.Size()
              && r.value.A.shape[|r.value.A.shape| - 2..] == A.shape[|A.shape| - 2..]
              && r.value.B.shape[|r.value.B.shape| - 2..] == B.shape[|B.shape| - 2..]
  {
    if |A.shape| < 2 then Err(AssertionError(RankBelowTwo))
    else if |A.shape| != |B.shape| then Err(AssertionError(NdimMismatch))
    else if A.shape[..|A.shape| - 2] != B.shape[..|B.shape| - 2] then Err(AssertionError(LeadingDimsMismatch))
    else
      var A', B' := AsBatch(A), AsBatch(B);
      ProdAppend([1], A.shape);
      ProdAppend([1], B.shape);
      ProdSingleton(1);
      var n := |A'.shape|;
      assert A'.shape[n - 2..] == A.shape[|A.shape| - 2..];
      assert B'.shape[n - 2..] == B.shape[|B.shape| - 2..];
      assert A'.shape[..n - 2] == B'.shape[..n - 2] by {
        if |A.shape| == 2 {
          assert A'.shape[..n - 2] == [1] == B'.shape[..n - 2];
        }
      }
      var a1, a2 := A'.shape[n - 2], A'.shape[n - 1];
      var b1, b2 := B'.shape[n - 2], B'.shape[n - 1];
      var offset: seq<int> := [0, a1 as int / 2 - b1 as int / 2, a2 as int / 2 - b2 as int / 2];
      Ok(CropPadArgs(A', B', offset))
  }

  /**
   * Along each of the last two axes the centre index of B is copied into the
   * centre index of A, whichever of the two is larger: crop and pad are one
   * operation.
   */
  lemma CropPadCentres(c: CropPadArgs, i: nat)
    requires Centred(c) && Fill3DWindow(c.A, c.B, c.offset).Ok?
    requires i == 1 || i == 2
    ensures var n := |c.A.shape|;
            var w := Fill3DWindow(c.A, c.B, c.offset).value.axes[i];
            var a, b := c.A.shape[n - 3 + i], c.B.shape[n - 3 + i];
            && w.Holds(a / 2)
            && w.bStart <= b / 2 < w.bStart + w.length
            && a / 2 - w.aStart == b / 2 - w.bStart
  {
    var n := |c.A.shape|;
    var a, b := c.A.shape[n - 3 + i], c.B.shape[n - 3 + i];
    WindowAxis(c.A, c.B, c.offset, i);
    assert c.offset[i] == a as int / 2 - b as int / 2;
    CentreInWindow(a, b);
  }

  lemma WindowAxis(A: Buffer, B: Buffer, offset: seq<int>, i: nat)
    requires Fill3DWindow(A, B, offset).Ok? && i < 3
    ensures |A.shape| == |B.shape| >= 3 && |offset| == 3
    ensures var n := |A.shape|;
            && Overlaps(A.shape[n - 3 + i], B.shape[n - 3 + i], offset[i])
            && Fill3DWindow(A, B, offset).value.axes[i] == AxisOf(A.shape[n - 3 + i], B.shape[n - 3 + i], offset[i])
  {
  }

  lemma CentreInWindow(a: nat, b: nat)
    requires Overlaps(a, b, a as int / 2 - b as int / 2)
    ensures var w := AxisOf(a, b, a as int / 2 - b as int / 2);
            && w.Holds(a / 2)
            && w.bStart <= b / 2 < w.bStart + w.length
            && a / 2 - w.aStart == b / 2 - w.bStart
  {
    assert Covered(a, b, a as int / 2 - b as int / 2, a / 2);
  }

  /**
   * crop_pad_2d_simple never fails for lack of overlap unless an extent is
   * zero: past its own assertions, fill3D's window exists exactly when none
   * of the last three extents of either array is zero.
   */
  lemma CropPadOverlapsIffNonEmpty(c: CropPadArgs)
    requires Centred(c)
    ensures var n := |c.A.shape|;
            Fill3DWindow(c.A, c.B, c.offset).Ok? <==>
              forall i :: n - 3 <= i < n ==> c.A.shape[i] > 0 && c.B.shape[i] > 0
  {
    var n := |c.A.shape|;
    assert c.A.shape[n - 3] == c.B.shape[n - 3] by {
      assert c.A.shape[..n - 2][n - 3] == c.B.shape[..n - 2][n - 3];
    }
    assert c.A.shape[..n - 3] == c.B.shape[..n - 3] by {
      assert c.A.shape[..n - 3] == c.A.shape[..n - 2][..n - 3];
      assert c.B.shape[..n - 3] == c.B.shape[..n - 2][..n - 3];
    }
    forall i | 1 <= i < 3
      ensures Overlaps(c.A.shape[n - 3 + i], c.B.shape[n - 3 + i], c.offset[i]) <==>
                c.A.shape[n - 3 + i] > 0 && c.B.shape[n - 3 + i] > 0
    {
      var a, b := c.A.shape[n - 3 + i], c.B.shape[n - 3 + i];
      assert c.offset[i] == a as int / 2 - b as int / 2;
      if a > 0 && b > 0 {
        assert 0 <= a / 2 < a && 0 <= b / 2 < b;
      }
    }
  }

  /**
   * The centring offset a//2 - b//2 differs from the half-difference
   * (a - b)//2 by one exactly when a is even and b is odd.
   */
  lemma CentringVersusHalfDifference(a: nat, b: nat)
    ensures a / 2 - b / 2 - (a - b) / 2 == (if a % 2 == 0 && b % 2 == 1 then 1 else 0)
  {
    var p, q := a / 2, b / 2;
    assert a == 2 * p + a % 2 && b == 2 * q + b % 2;
    assert a - b == 2 * (p - q) + (a % 2 - b % 2);
    if a % 2 == 0 && b % 2 == 1 {
      assert a - b == 2 * (p - q - 1) + 1;
    } else if a % 2 == b % 2 {
      assert a - b == 2 * (p - q);
    } else {
      assert a - b == 2 * (p - q) + 1;
    }
  }

  class CropPadKernel {
    const dev: Device
    var fill3DCuda: map<string, Kernel>

    /** Each cached kernel was compiled for the two C types its key spells. */
    ghost predicate Valid()
      reads this
    {
      forall a, b :: CommaFree(a) && CommaFree(b) && Version2(a, b) in fill3DCuda ==>
        fill3DCuda[Version2(a, b)] == Fill3DKernel(a, b)
    }

    constructor (dev: Device)
      ensures Valid() && this.dev == dev && fill3DCuda == map[]
    {
      this.dev := dev;
      fill3DCuda := map[];
    }

    /**
     * fill3D(A, B, offset): the checks, then the kernel for the two dtypes
     * (compiled on first use), then one launch.  The cache only grows, and
     * the launch always uses the kernel compiled for exactly these dtypes.
     */
    method Fill3D(A: Buffer, B: Buffer, offset: seq<int>) returns (r: Result<()>)
      requires Valid()
      modifies this, dev
      ensures Valid() && dev.nextId == old(dev.nextId)
      ensures var c := Fill3DCallOf(A, B, offset);
              && (c.Err? ==>
                    && r == Err(c.error) && fill3DCuda == old(fill3DCuda)
                    && dev.queue == old(dev.queue) && dev.builds == old(dev.builds))
              && (c.Ok? ==>
                    var key, k := Version2(c.value.inC, c.value.outC), Fill3DKernel(c.value.inC, c.value.outC);
                    && r.Ok? && fill3DCuda == old(fill3DCuda)[key := k]
                    && dev.builds == old(dev.builds) + (if key in old(fill3DCuda) then [] else [Build(["fill3D"], k.subs, None)])
                    && dev.queue == old(dev.queue) + [Run(Fill3DLaunch(k, A, B, c.value.window))])
    {
      var c := Fill3DCallOf(A, B, offset);
      if c.Err? {
        return Err(c.error);
      }
      var inC, outC := c.value.inC, c.value.outC;
      var version := Version2(inC, outC);
      if version !in fill3DCuda {
        var ks := dev.Load(["fill3D"], Fill3DSubs(inC, outC), None);
        fill3DCuda := fill3DCuda[version := ks[0]];
        forall a, b | CommaFree(a) && CommaFree(b) && Version2(a, b) in fill3DCuda
          ensures fill3DCuda[Version2(a, b)] == Fill3DKernel(a, b)
        {
          if Version2(a, b) == version {
            Version2Injective(a, b, inC, outC);
          }
        }
      } else {
        assert fill3DCuda[version] == Fill3DKernel(inC, outC);
        assert fill3DCuda == fill3DCuda[version := Fill3DKernel(inC, outC)];
      }
      dev.Enqueue(Run(Fill3DLaunch(fill3DCuda[version], A, B, c.value.window)));
      r := Ok(());
    }

    /** crop_pad_2d_simple(A, B): its assertions, then fill3D with the centring offset. */
    method CropPad2DSimple(A: Buffer, B: Buffer) returns (r: Result<()>)
      requires Valid()
      modifies this, dev
      ensures Valid() && dev.nextId == old(dev.nextId)
      ensures var p := CropPadArgsOf(A, B);
              p.Err? ==>
                && r == Err(p.error) && fill3DCuda == old(fill3DCuda)
                && dev.queue == old(dev.queue) && dev.builds == old(dev.builds)
      ensures var p := CropPadArgsOf(A, B);
              var c := if p.Ok? then Fill3DCallOf(p.value.A, p.value.B, p.value.offset) else Err(IndexError);
              && (p.Ok? && c.Err? ==>
                    && r == Err(c.error) && fill3DCuda == old(fill3DCuda)
                    && dev.queue == old(dev.queue) && dev.builds == old(dev.builds))
              && (p.Ok? && c.Ok? ==>
                    var key, k := Version2(c.value.inC, c.value.outC), Fill3DKernel(c.value.inC, c.value.outC);
                    && r.Ok? && fill3DCuda == old(fill3DCuda)[key := k]
                    && dev.builds == old(dev.builds) + (if key in old(fill3DCuda) then [] else [Build(["fill3D"], k.subs, None)])
                    && dev.queue == old(dev.queue) + [Run(Fill3DLaunch(k, p.value.A, p.value.B, c.value.window))])
    {
      var p := CropPadArgsOf(A, B);
      if p.Err? {
        return Err(p.error);
      }
      r := Fill3D(p.value.A, p.value.B, p.value.offset);
    }
  }
}
