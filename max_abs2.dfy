/**
 * MaxAbs2Kernel: max |x|^2 over the last two axes of a batched array, in two
 * steps (a per-row maximum into a scratch vector, then a maximum over that
 * vector).  Both compiled steps and the scratch vector are cached per
 * (input C type, output C type, row count), under a comma-joined string key;
 * an entry is built on the first call with its key and then reused for good.
 */
module MaxAbs2 {
  import opened Base
  import opened DTypes
  import opened Gpu

  const MaxAbs2BlockDim: nat := 64

  function MaxAbs2Subs(inC: string, outC: string): map<string, Macro>
  {
    map["IN_TYPE" := Text(inC), "OUT_TYPE" := Text(outC), "BDIM_X" := Num(MaxAbs2BlockDim)]
  }

  /** One cache entry: the two compiled steps and their scratch vector. */
  datatype Variant = Variant(step1: Kernel, step2: Kernel, scratch: Buffer)

  /** The entry was built for these C types and this row count. */
  ghost predicate BuiltFor(v: Variant, inC: string, outC: string, rows: nat)
  {
    && v.step1 == Kernel("max_abs2_step1", MaxAbs2Subs(inC, outC), Some("max_abs2.cu"))
    && v.step2 == Kernel("max_abs2_step2", MaxAbs2Subs(inC, outC), Some("max_abs2.cu"))
    && v.scratch.shape == [rows]
    && CType(v.scratch.dtype) == Ok(outC)
  }

  /** The cache key of max_abs2(X, out), or what computing it raises. */
  function MaxAbs2Key(X: Buffer, out: Buffer): (r: Result<string>)
    ensures |X.shape| < 2 ==> r == Err(IndexError)
    ensures |X.shape| >= 2 ==> (r.Ok? <==> X.dtype.Supported() && out.dtype.Supported())
    ensures r.Err? && |X.shape| >= 2 ==> r.error == ValueError(NoCTypeMapping)
  {
    if |X.shape| < 2 then Err(IndexError)
    else
      match CType(X.dtype)
      case Err(e) => Err(e)
      case Ok(inC) =>
        match CType(out.dtype)
        case Err(e) => Err(e)
        case Ok(outC) => Ok(Version3(inC, outC, X.shape[|X.shape| - 2]))
  }

  /** Two calls share a cache entry exactly when they agree on both dtypes and the row count. */
  lemma KeyDeterminesVariant(X1: Buffer, out1: Buffer, X2: Buffer, out2: Buffer)
    requires MaxAbs2Key(X1, out1).Ok? && MaxAbs2Key(X2, out2).Ok?
    ensures MaxAbs2Key(X1, out1) == MaxAbs2Key(X2, out2) <==>
              && X1.dtype == X2.dtype && out1.dtype == out2.dtype
              && X1.shape[|X1.shape| - 2] == X2.shape[|X2.shape| - 2]
  {
    if MaxAbs2Key(X1, out1) == MaxAbs2Key(X2, out2) {
      var a1, b1 := CType(X1.dtype).value, CType(out1.dtype).value;
      var a2, b2 := CType(X2.dtype).value, CType(out2.dtype).value;
      Version3Injective(a1, b1, X1.shape[|X1.shape| - 2], a2, b2, X2.shape[|X2.shape| - 2]);
      CTypeInjective(X1.dtype, X2.dtype);
      CTypeInjective(out1.dtype, out2.dtype);
    }
  }

  /** The two launches of one call, given the entry it uses. */
  function MaxAbs2Commands(X: Buffer, out: Buffer, v: Variant): (cs: seq<Command>)
    requires |X.shape| >= 2
    ensures |cs| == 2 && cs[0].Run? && cs[1].Run?
    ensures cs[0].launch.kernel == v.step1 && cs[1].launch.kernel == v.step2
    ensures ReadsWithin(cs[0].launch.args, {X.id}) && OutputOf(cs[0].launch.args) == Some(v.scratch)
    ensures ReadsWithin(cs[1].launch.args, {v.scratch.id}) && OutputOf(cs[1].launch.args) == Some(out)
    ensures cs[0].launch.grid == Dim3(1, X.shape[|X.shape| - 2], 1) && cs[1].launch.grid == Dim3(1, 1, 1)
  {
    var n := |X.shape|;
    var rows, cols := X.shape[n - 2], X.shape[n - 1];
    var args1 := [In(X), I32(Prod(X.shape[..n - 2])), I32(rows), I32(cols), Out(v.scratch)];
    var args2 := [In(v.scratch), I32(rows), Out(out)];
    OutputAt(args1, 4);
    OutputAt(args2, 2);
    [Run(Launch(v.step1, args1, Dim3(MaxAbs2BlockDim, 1, 1), Dim3(1, rows, 1), 0)),
     Run(Launch(v.step2, args2, Dim3(MaxAbs2BlockDim, 1, 1), Dim3(1, 1, 1), 0))]
  }

  /**
   * Step one gets one block per row and is told the batch count, the row
   * count and the row length, which together account for every element.
   */
  lemma StepOneCoversInput(X: Buffer, out: Buffer, v: Variant)
    requires |X.shape| >= 2
    ensures var l := MaxAbs2Commands(X, out, v)[0].launch;
            var n := |X.shape|;
            && l.grid.y == X.shape[n - 2]
            && l.args[1].n * l.args[2].n * l.args[3].n == X.Size()
  {
    var s, n := X.shape, |X.shape|;
    assert s == s[..n - 2] + s[n - 2..];
    ProdAppend(s[..n - 2], s[n - 2..]);
    var tail := s[n - 2..];
    assert tail == [s[n - 2]] + [s[n - 1]];
    ProdAppend([s[n - 2]], [s[n - 1]]);
    ProdSingleton(s[n - 2]);
    ProdSingleton(s[n - 1]);
    assert Prod(s[..n - 2]) * s[n - 2] * s[n - 1] == Prod(s[..n - 2]) * (s[n - 2] * s[n - 1]);
  }

  /**
   * Whatever the cached scratch vector held from earlier calls, `out` ends up
   * with a value computed from X alone.
   */
  lemma {:induction false} MaxAbs2DependsOnInputOnly(X: Buffer, out: Buffer, v: Variant, mem1: Memory, mem2: Memory)
    requires |X.shape| >= 2 && v.scratch.id != X.id
    requires Read(mem1, X.id) == Read(mem2, X.id)
    ensures var cs := MaxAbs2Commands(X, out, v);
            Read(ExecAll(mem1, cs), out.id) == Read(ExecAll(mem2, cs), out.id)
  {
    var cs := MaxAbs2Commands(X, out, v);
    var l1, l2 := cs[0].launch, cs[1].launch;
    OutputAt(l1.args, 4);
    OutputAt(l2.args, 2);
    assert Inputs(mem1, l1.args) == Inputs(mem2, l1.args);
    var m1, m2 := Exec(mem1, cs[0]), Exec(mem2, cs[0]);
    assert Read(m1, v.scratch.id) == Read(m2, v.scratch.id);
    assert Inputs(m1, l2.args) == Inputs(m2, l2.args);
    ExecAllTwo(mem1, cs[0], cs[1]);
    ExecAllTwo(mem2, cs[0], cs[1]);
  }

  class MaxAbs2Kernel {
    const dev: Device
    var maxAbs2Cuda: map<string, Variant>

    /** Every cached entry was built for the types and row count its key spells. */
    ghost predicate Valid()
      reads this
    {
      forall a, b, n :: CommaFree(a) && CommaFree(b) && Version3(a, b, n) in maxAbs2Cuda ==>
        BuiltFor(maxAbs2Cuda[Version3(a, b, n)], a, b, n)
    }

    constructor (dev: Device)
      ensures Valid() && this.dev == dev && maxAbs2Cuda == map[]
    {
      this.dev := dev;
      maxAbs2Cuda := map[];
    }

    /** max_abs2(X, out): compute the key, build the entry if it is missing, launch both steps. */
    method MaxAbs2(X: Buffer, out: Buffer) returns (r: Result<()>)
      requires Valid()
      modifies this, dev
      ensures Valid()
      ensures forall k :: k in old(maxAbs2Cuda) ==> k in maxAbs2Cuda && maxAbs2Cuda[k] == old(maxAbs2Cuda)[k]
      ensures var key := MaxAbs2Key(X, out);
              && (key.Err? ==>
                    && r == Err(key.error) && maxAbs2Cuda == old(maxAbs2Cuda)
                    && dev.queue == old(dev.queue) && dev.builds == old(dev.builds) && dev.nextId == old(dev.nextId))
              && (key.Ok? ==> r.Ok? && key.value in maxAbs2Cuda)
              && (key.Ok? && key.value in maxAbs2Cuda ==>
                    var n := |X.shape|;
                    var v := maxAbs2Cuda[key.value];
                    && maxAbs2Cuda.Keys == old(maxAbs2Cuda).Keys + {key.value}
                    && (key.value in old(maxAbs2Cuda) ==>
                          dev.builds == old(dev.builds) && dev.nextId == old(dev.nextId))
                    && (key.value !in old(maxAbs2Cuda) ==>
                          && dev.builds == old(dev.builds) +
                               [Build(["max_abs2_step1", "max_abs2_step2"],
                                      MaxAbs2Subs(CType(X.dtype).value, CType(out.dtype).value), Some("max_abs2.cu"))]
                          && v.scratch == Buffer(old(dev.nextId), [X.shape[n - 2]], out.dtype)
                          && dev.nextId == old(dev.nextId) + 1)
                    && BuiltFor(v, CType(X.dtype).value, CType(out.dtype).value, X.shape[n - 2])
                    && dev.queue == old(dev.queue) + MaxAbs2Commands(X, out, v))
    {
      if |X.shape| < 2 {
        return Err(IndexError);
      }
      var n := |X.shape|;
      var rows := X.shape[n - 2];
      var inC := CType(X.dtype);
      if inC.Err? {
        return Err(inC.error);
      }
      var outC := CType(out.dtype);
      if outC.Err? {
        return Err(outC.error);
      }
      var version := Version3(inC.value, outC.value, rows);
      if version !in maxAbs2Cuda {
        var subs := MaxAbs2Subs(inC.value, outC.value);
        var ks := dev.Load(["max_abs2_step1", "max_abs2_step2"], subs, Some("max_abs2.cu"));
        var scratch := dev.Alloc([rows], out.dtype);
        maxAbs2Cuda := maxAbs2Cuda[version := Variant(ks[0], ks[1], scratch)];
        forall a, b, m | CommaFree(a) && CommaFree(b) && Version3(a, b, m) in maxAbs2Cuda
          ensures BuiltFor(maxAbs2Cuda[Version3(a, b, m)], a, b, m)
        {
          if Version3(a, b, m) == version {
            Version3Injective(a, b, m, inC.value, outC.value, rows);
          }
        }
      }
      var v := maxAbs2Cuda[version];
      var cs := MaxAbs2Commands(X, out, v);
      dev.Enqueue(cs[0]);
      dev.Enqueue(cs[1]);
      assert dev.queue == old(dev.queue) + cs;
      r := Ok(());
    }
  }
}
