/**
 * MassCenterKernel: the centre of mass of a 2-D or 3-D float32 array.  The
 * host reads back the total, scales by its reciprocal, and runs one indexed
 * sum per axis into a small vector, then a final kernel that reduces the
 * vectors into an output of two components (2-D, or a third axis of extent 1)
 * or three.
 */
module MassCenter {
  import opened Base
  import opened DTypes
  import opened Gpu

  const ThreadsPerBlock: nat := 256
  const LastDimTile: nat := 32

  function SumSubs(bx: nat, bw: nat): map<string, Macro>
  {
    map["IN_TYPE" := Text("float"), "BDIM_X" := Num(bx), "BDIM_Y" := Num(bw)]
  }

  /** The extents mass_center works with: n is 1 unless there is a third axis. */
  datatype Dims = Dims(i: nat, m: nat, n: nat)

  /** The checks mass_center makes before reading the total, and the extents it takes. */
  function DimsOf(arr: Buffer): (r: Result<Dims>)
    ensures arr.dtype != Float32 ==> r == Err(NotImplementedError(UnsupportedDtype))
    ensures arr.dtype == Float32 ==> (r.Ok? <==> |arr.shape| >= 2)
    ensures r.Err? && arr.dtype == Float32 ==> r.error == IndexError
    ensures r.Ok? ==>
              && r.value.i == arr.shape[0] && r.value.m == arr.shape[1]
              && r.value.n == (if |arr.shape| >= 3 then arr.shape[2] else 1)
  {
    if arr.dtype != Float32 then Err(NotImplementedError(UnsupportedDtype))
    else if |arr.shape| < 2 then Err(IndexError)
    else Ok(Dims(arr.shape[0], arr.shape[1], if |arr.shape| >= 3 then arr.shape[2] else 1))
  }

  /** The number of components of the result, and of final-sum blocks. */
  function OutLength(n: nat): nat
  {
    if n > 1 then 3 else 2
  }

  /** The result has a third component exactly for a 3-D array whose third extent exceeds one. */
  lemma OutLengthThreeIffThirdAxis(arr: Buffer)
    requires DimsOf(arr).Ok?
    ensures OutLength(DimsOf(arr).value.n) == 3 <==> |arr.shape| >= 3 && arr.shape[2] > 1
    ensures OutLength(DimsOf(arr).value.n) == 2 <==> |arr.shape| == 2 || arr.shape[2] <= 1
  {
  }

  /** The scaling factor `1. / total`: Python refuses a zero total. */
  function ScaleOf(total: real): (r: Result<real>)
    ensures r.Err? <==> total == 0.0
    ensures r.Err? ==> r.error == ZeroDivisionError
    ensures r.Ok? ==> r.value * total == 1.0
  {
    if total == 0.0 then Err(ZeroDivisionError) else Ok(1.0 / total)
  }

  /** The three compiled kernels. */
  datatype Kernels = Kernels(middim: Kernel, lastdim: Kernel, finalSums: Kernel)

  /** The intermediate vectors and the result: one vector per axis, and `out`. */
  datatype Sums = Sums(iSum: Buffer, mSum: Buffer, nSum: Buffer, out: Buffer)

  /** The vectors mass_center allocates, numbered from `next`. */
  function SumsOf(d: Dims, next: nat): (s: Sums)
    ensures s.iSum.shape == [d.i] && s.mSum.shape == [d.m] && s.nSum.shape == [d.n]
    ensures s.out.shape == [OutLength(d.n)]
    ensures s.iSum.dtype == s.mSum.dtype == s.nSum.dtype == s.out.dtype == Float32
    ensures s.iSum.id == next && s.mSum.id == next + 1 && s.nSum.id == next + 2 && s.out.id == next + 3
  {
    Sums(Buffer(next, [d.i], Float32), Buffer(next + 1, [d.m], Float32),
         Buffer(next + 2, [d.n], Float32), Buffer(next + 3, [OutLength(d.n)], Float32))
  }

  /**
   * The launches after the total is known: the first-axis sum, then for a
   * 3-D array the middle- and last-axis sums, or for a 2-D array the
   * last-axis sum into the middle vector, and the final reduction.
   */
  function MassCenterCommands(ks: Kernels, arr: Buffer, d: Dims, sc: real, s: Sums): (cs: seq<Command>)
    ensures |cs| == (if |arr.shape| >= 3 then 4 else 3)
    ensures forall c :: c in cs ==> c.Run?
  {
    var first := Run(Launch(ks.middim, [In(arr), Out(s.iSum), I32(1), I32(d.i), I32(d.n * d.m), F32(sc)],
                            Dim3(ThreadsPerBlock, 1, 1), Dim3(d.i, 1, 1), ThreadsPerBlock * 4));
    var final := Run(Launch(ks.finalSums, [In(s.iSum), I32(d.i), In(s.mSum), I32(d.m), In(s.nSum), I32(d.n), Out(s.out)],
                            Dim3(256, 1, 1), Dim3(OutLength(d.n), 1, 1), 256 * 4));
    if |arr.shape| >= 3 then
      [first,
       Run(Launch(ks.middim, [In(arr), Out(s.mSum), I32(d.i), I32(d.n), I32(d.m), F32(sc)],
                  Dim3(ThreadsPerBlock, 1, 1), Dim3(d.m, 1, 1), ThreadsPerBlock * 4)),
       Run(Launch(ks.lastdim, [In(arr), Out(s.nSum), I32(d.i * d.m), I32(d.n), F32(sc)],
                  Dim3(LastDimTile, LastDimTile, 1), Dim3(1, CeilDiv(d.n, LastDimTile), 1), LastDimTile * LastDimTile * 4)),
       final]
    else
      [first,
       Run(Launch(ks.lastdim, [In(arr), Out(s.mSum), I32(d.i), I32(d.m), F32(sc)],
                  Dim3(LastDimTile, LastDimTile, 1), Dim3(1, CeilDiv(d.m, LastDimTile), 1), LastDimTile * LastDimTile * 4)),
       final]
  }

  /**
   * One block per index of the summed axis, and for the last axis 32-wide
   * column tiles that cover it: for a 3-D array the middle-axis sum gets one
   * block per middle index and the last-axis tiles span the third extent;
   * for a 2-D array the tiles span the second extent.
   */
  lemma SumsCoverAxes(ks: Kernels, arr: Buffer, sc: real, next: nat)
    requires DimsOf(arr).Ok?
    ensures var d := DimsOf(arr).value;
            var cs := MassCenterCommands(ks, arr, d, sc, SumsOf(d, next));
            var cols := if |arr.shape| >= 3 then arr.shape[2] else arr.shape[1];
            var tiles := cs[|cs| - 2].launch.grid.y;
            && cs[0].launch.grid.x == arr.shape[0]
            && (|arr.shape| >= 3 ==> cs[1].launch.grid.x == arr.shape[1])
            && tiles * LastDimTile >= cols && (tiles == 0 || (tiles - 1) * LastDimTile < cols)
            && cs[|cs| - 1].launch.grid.x == SumsOf(d, next).out.shape[0]
  {
  }

  /**
   * The result depends on the array's contents and the scale only: the
   * vectors it is reduced from are written first, from the array alone.  For
   * a 2-D array the last vector is never written yet still passed to the
   * final reduction, so its earlier contents must agree as well.
   */
  lemma {:induction false} MassCenterDependsOnArrayOnly(ks: Kernels, arr: Buffer, d: Dims, sc: real, s: Sums,
                                                        mem1: Memory, mem2: Memory)
    requires Read(mem1, arr.id) == Read(mem2, arr.id)
    requires |arr.shape| < 3 ==> Read(mem1, s.nSum.id) == Read(mem2, s.nSum.id)
    ensures var cs := MassCenterCommands(ks, arr, d, sc, s);
            Read(ExecAll(mem1, cs), s.out.id) == Read(ExecAll(mem2, cs), s.out.id)
  {
    if |arr.shape| >= 3 {
      DependsThreeD(ks, arr, d, sc, s, mem1, mem2);
    } else {
      DependsTwoD(ks, arr, d, sc, s, mem1, mem2);
    }
  }

  lemma DependsThreeD(ks: Kernels, arr: Buffer, d: Dims, sc: real, s: Sums, mem1: Memory, mem2: Memory)
    requires |arr.shape| >= 3
    requires Read(mem1, arr.id) == Read(mem2, arr.id)
    ensures var cs := MassCenterCommands(ks, arr, d, sc, s);
            Read(ExecAll(mem1, cs), s.out.id) == Read(ExecAll(mem2, cs), s.out.id)
  {
    var cs := MassCenterCommands(ks, arr, d, sc, s);
    OutputAt(cs[0].launch.args, 1);
    OutputAt(cs[1].launch.args, 1);
    OutputAt(cs[2].launch.args, 1);
    OutputAt(cs[3].launch.args, 6);
    var ids := {arr.id};
    RunKeepsAgreement(mem1, mem2, cs[0].launch, ids);
    var a1, a2 := Exec(mem1, cs[0]), Exec(mem2, cs[0]);
    RunKeepsAgreement(a1, a2, cs[1].launch, ids + {s.iSum.id});
    var b1, b2 := Exec(a1, cs[1]), Exec(a2, cs[1]);
    RunKeepsAgreement(b1, b2, cs[2].launch, ids + {s.iSum.id, s.mSum.id});
    var c1, c2 := Exec(b1, cs[2]), Exec(b2, cs[2]);
    RunKeepsAgreement(c1, c2, cs[3].launch, ids + {s.iSum.id, s.mSum.id, s.nSum.id});
    UnrollFour(mem1, cs);
    UnrollFour(mem2, cs);
  }

  lemma DependsTwoD(ks: Kernels, arr: Buffer, d: Dims, sc: real, s: Sums, mem1: Memory, mem2: Memory)
    requires |arr.shape| < 3
    requires Read(mem1, arr.id) == Read(mem2, arr.id) && Read(mem1, s.nSum.id) == Read(mem2, s.nSum.id)
    ensures var cs := MassCenterCommands(ks, arr, d, sc, s);
            Read(ExecAll(mem1, cs), s.out.id) == Read(ExecAll(mem2, cs), s.out.id)
  {
    var cs := MassCenterCommands(ks, arr, d, sc, s);
    OutputAt(cs[0].launch.args, 1);
    OutputAt(cs[1].launch.args, 1);
    OutputAt(cs[2].launch.args, 6);
    var ids := {arr.id, s.nSum.id};
    RunKeepsAgreement(mem1, mem2, cs[0].launch, ids);
    var a1, a2 := Exec(mem1, cs[0]), Exec(mem2, cs[0]);
    RunKeepsAgreement(a1, a2, cs[1].launch, ids + {s.iSum.id});
    var b1, b2 := Exec(a1, cs[1]), Exec(a2, cs[1]);
    RunKeepsAgreement(b1, b2, cs[2].launch, ids + {s.iSum.id, s.mSum.id});
    UnrollThree(mem1, cs);
    UnrollThree(mem2, cs);
  }

  lemma UnrollThree(mem: Memory, cs: seq<Command>)
    requires |cs| == 3
    ensures ExecAll(mem, cs) == Exec(Exec(Exec(mem, cs[0]), cs[1]), cs[2])
  {
    assert cs == [cs[0], cs[1]] + [cs[2]];
    ExecAllAppend(mem, [cs[0], cs[1]], [cs[2]]);
    ExecAllTwo(mem, cs[0], cs[1]);
    ExecAllOne(Exec(Exec(mem, cs[0]), cs[1]), cs[2]);
  }

  lemma UnrollFour(mem: Memory, cs: seq<Command>)
    requires |cs| == 4
    ensures ExecAll(mem, cs) == Exec(Exec(Exec(Exec(mem, cs[0]), cs[1]), cs[2]), cs[3])
  {
    assert cs == [cs[0], cs[1]] + [cs[2], cs[3]];
    ExecAllAppend(mem, [cs[0], cs[1]], [cs[2], cs[3]]);
    ExecAllTwo(mem, cs[0], cs[1]);
    ExecAllTwo(Exec(Exec(mem, cs[0]), cs[1]), cs[2], cs[3]);
  }

  class MassCenterKernel {
    const dev: Device
    const kernels: Kernels

    constructor (dev: Device)
      modifies dev
      ensures this.dev == dev
      ensures kernels == Kernels(Kernel("indexed_sum_middim", SumSubs(ThreadsPerBlock, 1), Some("mass_center.cu")),
                                 Kernel("indexed_sum_lastdim", SumSubs(32, 32), Some("mass_center.cu")),
                                 Kernel("final_sums", SumSubs(256, 1), Some("mass_center.cu")))
      ensures dev.builds == old(dev.builds) +
                [Build(["indexed_sum_middim"], SumSubs(ThreadsPerBlock, 1), Some("mass_center.cu")),
                 Build(["indexed_sum_lastdim"], SumSubs(32, 32), Some("mass_center.cu")),
                 Build(["final_sums"], SumSubs(256, 1), Some("mass_center.cu"))]
      ensures dev.queue == old(dev.queue) && dev.nextId == old(dev.nextId)
    {
      this.dev := dev;
      var k1 := dev.Load(["indexed_sum_middim"], SumSubs(ThreadsPerBlock, 1), Some("mass_center.cu"));
      var k2 := dev.Load(["indexed_sum_lastdim"], SumSubs(32, 32), Some("mass_center.cu"));
      var k3 := dev.Load(["final_sums"], SumSubs(256, 1), Some("mass_center.cu"));
      kernels := Kernels(k1[0], k2[0], k3[0]);
    }

    /**
     * mass_center(arr).  The total is reduced on the device and read back to
     * the host; `total` is the value that read-back returns.
     */
    method MassCenter(arr: Buffer, total: real) returns (r: Result<Buffer>)
      modifies dev
      ensures dev.builds == old(dev.builds)
      ensures DimsOf(arr).Err? ==>
                r == Err(DimsOf(arr).error) && dev.queue == old(dev.queue) && dev.nextId == old(dev.nextId)
      ensures DimsOf(arr).Ok? && total == 0.0 ==>
                r == Err(ZeroDivisionError) && dev.queue == old(dev.queue) + [HostSum(arr)]
                && dev.nextId == old(dev.nextId)
      ensures DimsOf(arr).Ok? && total != 0.0 ==>
                var d := DimsOf(arr).value;
                var s := SumsOf(d, old(dev.nextId));
                && r == Ok(s.out)
                && dev.nextId == old(dev.nextId) + 4
                && dev.queue == old(dev.queue) + [HostSum(arr)] + MassCenterCommands(kernels, arr, d, 1.0 / total, s)
    {
      var dims := DimsOf(arr);
      if dims.Err? {
        return Err(dims.error);
      }
      var d := dims.value;
      dev.Enqueue(HostSum(arr));
      var sc := ScaleOf(total);
      if sc.Err? {
        return Err(sc.error);
      }
      var iSum := dev.Alloc([d.i], Float32);
      var mSum := dev.Alloc([d.m], Float32);
      var nSum := dev.Alloc([d.n], Float32);
      var out := dev.Alloc([OutLength(d.n)], Float32);
      var s := Sums(iSum, mSum, nSum, out);
      assert s == SumsOf(d, old(dev.nextId));
      var cs := MassCenterCommands(kernels, arr, d, sc.value, s);
      dev.Enqueue(cs[0]);
      if |arr.shape| >= 3 {
        dev.Enqueue(cs[1]);
        dev.Enqueue(cs[2]);
        dev.Enqueue(cs[3]);
      } else {
        dev.Enqueue(cs[1]);
        dev.Enqueue(cs[2]);
      }
      assert dev.queue == old(dev.queue) + [HostSum(arr)] + cs;
      r := Ok(out);
    }
  }
}
