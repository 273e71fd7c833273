/**
 * TransposeKernel: a 16x16-tiled transpose of 2-D int32 arrays.  The host
 * checks the input rank, then the flipped shape, then the dtypes, and covers
 * the input with 16x16 tiles.
 */
module Transpose {
  import opened Base
  import opened DTypes
  import opened Gpu

  const TileDim: nat := 16

  /**
   * The launch transpose(input, output) makes, or the error it raises.  Only
   * the first two extents of `output` are read, so an output of rank below
   * two raises IndexError while looking them up.
   */
  function TransposeLaunch(k: Kernel, input: Buffer, output: Buffer): (r: Result<Launch>)
    ensures r.Ok? <==>
              && |input.shape| == 2 && |output.shape| >= 2
              && input.shape[0] == output.shape[1] && input.shape[1] == output.shape[0]
              && input.dtype == Int32 && output.dtype == Int32
    ensures |input.shape| != 2 ==> r == Err(ValueError(NotTwoDimensional))
    ensures |input.shape| == 2 && |output.shape| < 2 ==> r == Err(IndexError)
    ensures r.Ok? ==>
              var l := r.value;
              var width, height := input.shape[1], input.shape[0];
              && l.kernel == k && l.args == [In(input), Out(output), I32(width), I32(height)]
              && l.block == Dim3(TileDim, TileDim, 1) && l.grid.z == 1
              // the tiles cover the input, and no tile row or column is wholly outside it
              && l.grid.x * TileDim >= width && (l.grid.x == 0 || (l.grid.x - 1) * TileDim < width)
              && l.grid.y * TileDim >= height && (l.grid.y == 0 || (l.grid.y - 1) * TileDim < height)
  {
    if |input.shape| != 2 then Err(ValueError(NotTwoDimensional))
    else if |output.shape| < 2 then Err(IndexError)
    else if input.shape[0] != output.shape[1] || input.shape[1] != output.shape[0] then
      Err(ValueError(ShapeNotFlipped))
    else if input.dtype != Int32 || output.dtype != Int32 then Err(ValueError(IntOnly))
    else
      var width, height := input.shape[1], input.shape[0];
      Ok(Launch(k, [In(input), Out(output), I32(width), I32(height)],
                Dim3(TileDim, TileDim, 1),
                Dim3(CeilDiv(width, TileDim), CeilDiv(height, TileDim), 1), 0))
  }

  /** A transpose the host accepts can be undone: the reverse call is accepted too. */
  lemma TransposeBackAccepted(k: Kernel, input: Buffer, output: Buffer)
    requires TransposeLaunch(k, input, output).Ok? && |output.shape| == 2
    ensures TransposeLaunch(k, output, input).Ok?
    ensures TransposeLaunch(k, output, input).value.grid.x == TransposeLaunch(k, input, output).value.grid.y
    ensures TransposeLaunch(k, output, input).value.grid.y == TransposeLaunch(k, input, output).value.grid.x
  {
  }

  class TransposeKernel {
    const dev: Device
    const transposeCuda: Kernel

    constructor (dev: Device)
      modifies dev
      ensures this.dev == dev
      ensures transposeCuda == Kernel("transpose", map["DTYPE" := Text("int"), "BDIM" := Num(16)], None)
      ensures dev.builds == old(dev.builds) + [Build(["transpose"], transposeCuda.subs, None)]
      ensures dev.queue == old(dev.queue) && dev.nextId == old(dev.nextId)
    {
      this.dev := dev;
      var ks := dev.Load(["transpose"], map["DTYPE" := Text("int"), "BDIM" := Num(16)], None);
      transposeCuda := ks[0];
    }

    method Transpose(input: Buffer, output: Buffer) returns (r: Result<()>)
      modifies dev
      ensures dev.builds == old(dev.builds) && dev.nextId == old(dev.nextId)
      ensures var plan := TransposeLaunch(transposeCuda, input, output);
              && (plan.Err? ==> r == Err(plan.error) && dev.queue == old(dev.queue))
              && (plan.Ok? ==> r.Ok? && dev.queue == old(dev.queue) + [Run(plan.value)])
    {
      var plan := TransposeLaunch(transposeCuda, input, output);
      if plan.Err? {
        return Err(plan.error);
      }
      dev.Enqueue(Run(plan.value));
      r := Ok(());
    }
  }
}
