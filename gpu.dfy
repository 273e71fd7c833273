/**
 * The device as the kernel wrappers see it: arrays with an identity, a shape
 * and a dtype; compiled kernels named by their symbol, macro table and source
 * file; and one ordered command queue.  Kernel bodies are not interpreted:
 * executing a launch stores, in the launch's output array, the term
 * "this kernel applied to these argument values".  That is enough to say which
 * array a wrapper's result ends up in and what it was computed from.
 */
module Gpu {
  import opened Base
  import opened DTypes

  /** A device array.  Shape and dtype never change; `id` is its identity. */
  datatype Buffer = Buffer(id: nat, shape: seq<nat>, dtype: DType)
  {
    function Ndim(): nat { |shape| }
    function Size(): nat { Prod(shape) }
  }

  /** A macro substitution value: load_kernel accepts strings and integers. */
  datatype Macro = Text(s: string) | Num(n: int)

  /** A compiled kernel, determined by what it was compiled from. */
  datatype Kernel = Kernel(name: string, subs: map<string, Macro>, file: Option<string>)

  /** One call of the kernel source provider (load_kernel). */
  datatype Build = Build(names: seq<string>, subs: map<string, Macro>, file: Option<string>)

  datatype Dim3 = Dim3(x: nat, y: nat, z: nat)

  /** One slot of a Gaussian tap buffer: unset, or tap k of the radius-r taps for std. */
  datatype Tap = Unset | GaussTap(radius: nat, std: real, k: nat)

  /** A positional kernel argument.  Arrays carry their access direction. */
  datatype Arg =
    | In(buf: Buffer)
    | Out(buf: Buffer)
    | InOut(buf: Buffer)
    | I32(n: int)
    | F32(x: real)
    | TapBuf(taps: seq<Tap>)   // the taps a convolution kernel reads from its tap buffer

  datatype Launch = Launch(kernel: Kernel, args: seq<Arg>, block: Dim3, grid: Dim3, shared: nat)

  datatype Command =
    | Run(launch: Launch)
    | Copy(dst: Buffer, src: Buffer)   // `dst[:] = src[:]`
    | HostSum(src: Buffer)             // gpuarray.sum followed by a read-back to the host

  /** Symbolic array contents. */
  datatype Image = Initial(id: nat) | Computed(kernel: Kernel, inputs: seq<Value>)
  datatype Value = Img(image: Image) | Int(n: int) | Real(x: real) | Taps(taps: seq<Tap>) | Slot

  type Memory = map<nat, Image>

  /** The contents of array `id`; an array never written holds its initial contents. */
  function Read(mem: Memory, id: nat): Image
  {
    if id in mem then mem[id] else Initial(id)
  }

  /** The array a launch writes: its first Out or InOut argument. */
  function OutputOf(args: seq<Arg>): Option<Buffer>
  {
    if args == [] then None
    else if args[0].Out? || args[0].InOut? then Some(args[0].buf)
    else OutputOf(args[1..])
  }

  /** What the kernel sees of one argument; an output-only array contributes nothing. */
  function ValueOf(mem: Memory, a: Arg): Value
  {
    match a
    case In(b) => Img(Read(mem, b.id))
    case InOut(b) => Img(Read(mem, b.id))
    case Out(_) => Slot
    case I32(n) => Int(n)
    case F32(x) => Real(x)
    case TapBuf(t) => Taps(t)
  }

  function Inputs(mem: Memory, args: seq<Arg>): (vs: seq<Value>)
    ensures |vs| == |args|
    ensures forall i :: 0 <= i < |args| ==> vs[i] == ValueOf(mem, args[i])
  {
    if args == [] then [] else [ValueOf(mem, args[0])] + Inputs(mem, args[1..])
  }

  function Exec(mem: Memory, c: Command): Memory
  {
    match c
    case Run(l) =>
      (match OutputOf(l.args)
       case Some(b) => mem[b.id := Computed(l.kernel, Inputs(mem, l.args))]
       case None => mem)
    case Copy(dst, src) => mem[dst.id := Read(mem, src.id)]
    case HostSum(_) => mem
  }

  /** Commands on one queue take effect in the order they were enqueued. */
  function ExecAll(mem: Memory, cs: seq<Command>): Memory
    decreases |cs|
  {
    if cs == [] then mem else ExecAll(Exec(mem, cs[0]), cs[1..])
  }

  lemma {:induction false} ExecAllAppend(mem: Memory, a: seq<Command>, b: seq<Command>)
    ensures ExecAll(mem, a + b) == ExecAll(ExecAll(mem, a), b)
    decreases |a|
  {
    if a == [] {
      assert a + b == b;
    } else {
      assert (a + b)[0] == a[0] && (a + b)[1..] == a[1..] + b;
      ExecAllAppend(Exec(mem, a[0]), a[1..], b);
    }
  }

  lemma ExecAllOne(mem: Memory, c: Command)
    ensures ExecAll(mem, [c]) == Exec(mem, c)
  {
    assert [c][1..] == [];
  }

  lemma ExecAllTwo(mem: Memory, c1: Command, c2: Command)
    ensures ExecAll(mem, [c1, c2]) == Exec(Exec(mem, c1), c2)
  {
    assert [c1, c2][1..] == [c2];
    ExecAllOne(Exec(mem, c1), c2);
  }

  /** The output of a launch is the first array argument marked as written. */
  lemma {:induction false} OutputAt(args: seq<Arg>, k: nat)
    requires k < |args| && (args[k].Out? || args[k].InOut?)
    requires forall i :: 0 <= i < k ==> !args[i].Out? && !args[i].InOut?
    ensures OutputOf(args) == Some(args[k].buf)
  {
    if k > 0 {
      OutputAt(args[1..], k - 1);
    }
  }

  /**
   * A launch leaves every array other than its output as it was, and puts in
   * its output a value computed from the launch's arguments alone.
   */
  lemma ExecRun(mem: Memory, l: Launch, id: nat)
    ensures OutputOf(l.args).Some? && OutputOf(l.args).value.id == id ==>
              Read(Exec(mem, Run(l)), id) == Computed(l.kernel, Inputs(mem, l.args))
    ensures (OutputOf(l.args).None? || OutputOf(l.args).value.id != id) ==>
              Read(Exec(mem, Run(l)), id) == Read(mem, id)
  {
  }

  /** Two memories hold the same contents for every array in `ids`. */
  ghost predicate Agree(m1: Memory, m2: Memory, ids: set<nat>)
  {
    forall id :: id in ids ==> Read(m1, id) == Read(m2, id)
  }

  /** Every array a launch reads is in `ids`. */
  ghost predicate ReadsWithin(args: seq<Arg>, ids: set<nat>)
  {
    forall i :: 0 <= i < |args| && (args[i].In? || args[i].InOut?) ==> args[i].buf.id in ids
  }

  /**
   * A launch that reads only arrays on which two memories agree writes the
   * same value into its output in both, so they then agree on the output too.
   */
  lemma RunKeepsAgreement(m1: Memory, m2: Memory, l: Launch, ids: set<nat>)
    requires Agree(m1, m2, ids) && ReadsWithin(l.args, ids) && OutputOf(l.args).Some?
    ensures Agree(Exec(m1, Run(l)), Exec(m2, Run(l)), ids + {OutputOf(l.args).value.id})
  {
    assert forall i :: 0 <= i < |l.args| ==> ValueOf(m1, l.args[i]) == ValueOf(m2, l.args[i]);
    assert Inputs(m1, l.args) == Inputs(m2, l.args);
  }

  /** The host's handle on the device: the command queue, the compilations requested, the allocator. */
  class Device {
    var queue: seq<Command>
    var builds: seq<Build>
    var nextId: nat

    constructor ()
      ensures queue == [] && builds == [] && nextId == 0
    {
      queue, builds, nextId := [], [], 0;
    }

    /** gpuarray.empty / gpuarray.zeros: a new array distinct from every earlier one. */
    method Alloc(shape: seq<nat>, dtype: DType) returns (b: Buffer)
      modifies this
      ensures b == Buffer(old(nextId), shape, dtype)
      ensures nextId == old(nextId) + 1
      ensures queue == old(queue) && builds == old(builds)
    {
      b := Buffer(nextId, shape, dtype);
      nextId := nextId + 1;
    }

    method Enqueue(c: Command)
      modifies this
      ensures queue == old(queue) + [c]
      ensures builds == old(builds) && nextId == old(nextId)
    {
      queue := queue + [c];
    }

    /** load_kernel: compile the named kernels from one source with one macro table. */
    method Load(names: seq<string>, subs: map<string, Macro>, file: Option<string>) returns (ks: seq<Kernel>)
      modifies this
      ensures |ks| == |names|
      ensures forall i :: 0 <= i < |names| ==> ks[i] == Kernel(names[i], subs, file)
      ensures builds == old(builds) + [Build(names, subs, file)]
      ensures queue == old(queue) && nextId == old(nextId)
    {
      ks := seq(|names|, i requires 0 <= i < |names| => Kernel(names[i], subs, file));
      builds := builds + [Build(names, subs, file)];
    }
  }
}
