/**
 * Abs2SumKernel: sums |x|^2 over the first axis (the modes) of a 3-D array.
 * The instance is compiled for one input dtype; the output has that dtype's
 * real counterpart.  The output-type choice as written compares the C type
 * with a misspelt 'complex<double>', so it is modelled twice: as written, and
 * as intended, which is what the kernel class uses.
 */
module Abs2Sum {
  import opened Base
  import opened DTypes
  import opened Gpu

  const Abs2SumBlockDim: nat := 32

  /** The output C type and dtype chosen for an input C type and dtype. */
  datatype OutType = OutType(stype: string, dtype: DType)

  /**
   * The choice as written: the second test compares the C type against
   * 'copmlex<double>', which no C type equals, so only complex64 gets a real
   * output and every other dtype keeps its own.
   */
  function OutTypeAsWritten(dt: DType): (o: OutType)
    requires CType(dt).Ok?
    ensures dt == Complex64 ==> o == OutType("float", Float32)
    ensures dt != Complex64 ==> o == OutType(CType(dt).value, dt)
  {
    var inStype := CType(dt).value;
    if inStype == "complex<float>" then OutType("float", Float32)
    else if inStype == "copmlex<double>" then OutType("double", Float64)
    else OutType(inStype, dt)
  }

  /**
   * The choice as intended: each complex dtype sums into its real
   * counterpart, a real dtype into itself; the output C type is always the
   * output dtype's.
   */
  function OutTypeOf(dt: DType): (o: OutType)
    requires CType(dt).Ok?
    ensures !o.dtype.IsComplex()
    ensures CType(o.dtype) == Ok(o.stype)
    ensures dt == Complex64 ==> o.dtype == Float32
    ensures dt == Complex128 ==> o.dtype == Float64
    ensures !dt.IsComplex() ==> o.dtype == dt
  {
    var inStype := CType(dt).value;
    if inStype == "complex<float>" then OutType("float", Float32)
    else if inStype == "complex<double>" then OutType("double", Float64)
    else OutType(inStype, dt)
  }

  /** As written, complex128 input keeps a complex128 output: |x|^2 is stored in a complex array. */
  lemma AsWrittenComplex128StaysComplex()
    ensures OutTypeAsWritten(Complex128) == OutType("complex<double>", Complex128)
    ensures OutTypeAsWritten(Complex128).dtype.IsComplex()
    ensures !OutTypeOf(Complex128).dtype.IsComplex()
  {
  }

  /** The two choices differ for complex128 only. */
  lemma AsWrittenDiffersOnlyForComplex128(dt: DType)
    requires CType(dt).Ok?
    ensures OutTypeAsWritten(dt) != OutTypeOf(dt) <==> dt == Complex128
  {
  }

  function Abs2SumSubs(inStype: string, outStype: string): map<string, Macro>
  {
    map["IN_TYPE" := Text(inStype), "OUT_TYPE" := Text(outStype), "BDIM_X" := Num(Abs2SumBlockDim)]
  }

  /** The extents abs2sum works with. */
  datatype Extents = Extents(nmodes: nat, rows: nat, cols: nat)

  /** abs2sum reads the mode count, then unpacks the remaining extents into exactly two. */
  function ExtentsOf(shape: seq<nat>): (r: Result<Extents>)
    ensures |shape| == 0 ==> r == Err(IndexError)
    ensures |shape| > 0 ==> (r.Ok? <==> |shape| == 3)
    ensures |shape| > 0 && r.Err? ==> r.error == ValueError(UnpackMismatch)
    ensures r.Ok? ==> r.value == Extents(shape[0], shape[1], shape[2])
  {
    if |shape| == 0 then Err(IndexError)
    else if |shape[1..]| != 2 then Err(ValueError(UnpackMismatch))
    else Ok(Extents(shape[0], shape[1], shape[2]))
  }

  /** The summed-over axis is the first: the modes times one output image account for every input element. */
  lemma ExtentsSplitSize(arr: Buffer)
    requires ExtentsOf(arr.shape).Ok?
    ensures var e := ExtentsOf(arr.shape).value;
            e.nmodes * Prod(arr.shape[1..]) == arr.Size() && Prod(arr.shape[1..]) == e.rows * e.cols
  {
    var s := arr.shape;
    assert s[1..][1..] == [s[2]];
    ProdSingleton(s[2]);
  }

  /** The launch: one block of 32 threads per output row. */
  function Abs2SumLaunch(k: Kernel, arr: Buffer, e: Extents, out: Buffer): (l: Launch)
    ensures OutputOf(l.args) == Some(out)
    ensures l.block == Dim3(Abs2SumBlockDim, 1, 1) && l.grid == Dim3(1, e.rows, 1)
  {
    var args := [In(arr), I32(e.nmodes), I32(e.rows), I32(e.cols), Out(out)];
    OutputAt(args, 4);
    Launch(k, args, Dim3(Abs2SumBlockDim, 1, 1), Dim3(1, e.rows, 1), 0)
  }

  /** The output is computed from the input array alone, whatever it held before. */
  lemma Abs2SumDependsOnInputOnly(k: Kernel, arr: Buffer, e: Extents, out: Buffer, mem1: Memory, mem2: Memory)
    requires Read(mem1, arr.id) == Read(mem2, arr.id)
    ensures var cs := [Run(Abs2SumLaunch(k, arr, e, out))];
            Read(ExecAll(mem1, cs), out.id) == Read(ExecAll(mem2, cs), out.id)
  {
    var l := Abs2SumLaunch(k, arr, e, out);
    RunKeepsAgreement(mem1, mem2, l, {arr.id});
    ExecAllOne(mem1, Run(l));
    ExecAllOne(mem2, Run(l));
  }

  class Abs2SumKernel {
    const dev: Device
    const inStype: string
    const outStype: string
    const outDtype: DType
    const abs2sumCuda: Kernel

    constructor (dtype: DType, dev: Device)
      requires CType(dtype).Ok?
      modifies dev
      ensures this.dev == dev && inStype == CType(dtype).value
      ensures OutType(outStype, outDtype) == OutTypeOf(dtype)
      ensures abs2sumCuda == Kernel("abs2sum", Abs2SumSubs(inStype, outStype), None)
      ensures dev.builds == old(dev.builds) + [Build(["abs2sum"], Abs2SumSubs(inStype, outStype), None)]
      ensures dev.queue == old(dev.queue) && dev.nextId == old(dev.nextId)
    {
      this.dev := dev;
      var st := CType(dtype).value;
      inStype := st;
      var o := OutTypeOf(dtype);
      outStype, outDtype := o.stype, o.dtype;
      var ks := dev.Load(["abs2sum"], Abs2SumSubs(st, o.stype), None);
      abs2sumCuda := ks[0];
    }

    /** `Abs2SumKernel(dtype)`: map2ctype's ValueError for an unsupported dtype. */
    static method Create(dtype: DType, dev: Device) returns (r: Result<Abs2SumKernel>)
      modifies dev
      ensures r.Ok? <==> dtype.Supported()
      ensures r.Err? ==> r.error == ValueError(NoCTypeMapping) && dev.builds == old(dev.builds)
      ensures r.Ok? ==> r.value.dev == dev && r.value.outDtype == OutTypeOf(dtype).dtype
      ensures r.Ok? ==> |dev.builds| == |old(dev.builds)| + 1
      ensures dev.queue == old(dev.queue) && dev.nextId == old(dev.nextId)
    {
      var st := CType(dtype);
      if st.Err? {
        return Err(st.error);
      }
      var k := new Abs2SumKernel(dtype, dev);
      r := Ok(k);
    }

    /** abs2sum(arr): a new (rows, cols) output of the instance's output dtype, and one launch. */
    method Abs2Sum(arr: Buffer) returns (r: Result<Buffer>)
      modifies dev
      ensures dev.builds == old(dev.builds)
      ensures var e := ExtentsOf(arr.shape);
              && (e.Err? ==> r == Err(e.error) && dev.queue == old(dev.queue) && dev.nextId == old(dev.nextId))
              && (e.Ok? ==>
                    && r == Ok(Buffer(old(dev.nextId), arr.shape[1..], outDtype))
                    && dev.nextId == old(dev.nextId) + 1
                    && dev.queue == old(dev.queue) + [Run(Abs2SumLaunch(abs2sumCuda, arr, e.value, r.value))])
    {
      var e := ExtentsOf(arr.shape);
      if e.Err? {
        return Err(e.error);
      }
      var out := dev.Alloc(arr.shape[1..], outDtype);
      dev.Enqueue(Run(Abs2SumLaunch(abs2sumCuda, arr, e.value, out)));
      r := Ok(out);
    }
  }
}
