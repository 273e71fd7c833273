/**
 * ClipMagnitudesKernel: clamps the magnitude of every element of a complex
 * array into [clip_min, clip_max], in place, with one thread per element in
 * blocks of 256.
 */
module ClipMagnitudes {
  import opened Base
  import opened DTypes
  import opened Gpu

  const ClipBlockDim: nat := 256

  function ClipSubs(): map<string, Macro>
  {
    map["IN_TYPE" := Text("complex<float>")]
  }

  /**
   * The launch clip_magnitudes_to_range(arr, clip_min, clip_max) makes: the
   * array is both read and written, and the blocks cover every element with
   * less than one block to spare.
   */
  function ClipLaunch(k: Kernel, arr: Buffer, cmin: real, cmax: real): (l: Launch)
    ensures l.kernel == k && l.block == Dim3(ClipBlockDim, 1, 1)
    ensures l.args == [InOut(arr), F32(cmin), F32(cmax), I32(arr.Size())]
    ensures OutputOf(l.args) == Some(arr)
    ensures l.grid.y == 1 && l.grid.z == 1
    ensures l.grid.x * ClipBlockDim >= arr.Size()
    ensures l.grid.x == 0 || (l.grid.x - 1) * ClipBlockDim < arr.Size()
  {
    var args := [InOut(arr), F32(cmin), F32(cmax), I32(arr.Size())];
    OutputAt(args, 0);
    Launch(k, args, Dim3(ClipBlockDim, 1, 1), Dim3(CeilDiv(arr.Size(), ClipBlockDim), 1, 1), 0)
  }

  /**
   * The clip works in place: afterwards the array holds the kernel applied to
   * its own earlier contents and the two bounds, and no other array changes.
   */
  lemma ClipRewritesOnlyArray(k: Kernel, arr: Buffer, cmin: real, cmax: real, mem: Memory, id: nat)
    ensures var after := ExecAll(mem, [Run(ClipLaunch(k, arr, cmin, cmax))]);
            && Read(after, arr.id) ==
                 Computed(k, [Img(Read(mem, arr.id)), Real(cmin), Real(cmax), Int(arr.Size())])
            && (id != arr.id ==> Read(after, id) == Read(mem, id))
  {
    var l := ClipLaunch(k, arr, cmin, cmax);
    ExecAllOne(mem, Run(l));
    ExecRun(mem, l, arr.id);
    ExecRun(mem, l, id);
    assert Inputs(mem, l.args) == [Img(Read(mem, arr.id)), Real(cmin), Real(cmax), Int(arr.Size())];
  }

  class ClipMagnitudesKernel {
    const dev: Device
    const clipMagnitudesCuda: Kernel

    constructor (dev: Device)
      modifies dev
      ensures this.dev == dev
      ensures clipMagnitudesCuda == Kernel("clip_magnitudes", ClipSubs(), None)
      ensures dev.builds == old(dev.builds) + [Build(["clip_magnitudes"], ClipSubs(), None)]
      ensures dev.queue == old(dev.queue) && dev.nextId == old(dev.nextId)
    {
      this.dev := dev;
      var ks := dev.Load(["clip_magnitudes"], ClipSubs(), None);
      clipMagnitudesCuda := ks[0];
    }

    /** clip_magnitudes_to_range(arr, clip_min, clip_max): one launch, nothing raised. */
    method ClipMagnitudesToRange(arr: Buffer, clipMin: real, clipMax: real)
      modifies dev
      ensures dev.queue == old(dev.queue) + [Run(ClipLaunch(clipMagnitudesCuda, arr, clipMin, clipMax))]
      ensures dev.builds == old(dev.builds) && dev.nextId == old(dev.nextId)
    {
      dev.Enqueue(Run(ClipLaunch(clipMagnitudesCuda, arr, clipMin, clipMax)));
    }
  }
}
