# GPU array-kernel dispatch layer of ptypy, in Dafny

This project models the host side of `ptypy/accelerate/cuda_pycuda/array_utils.py`: the Python wrappers that
- choose, compile, cache and launch the CUDA kernels behind a group of array operations:
  - dot product and norm²;
  - transpose;
  - max |x|²;
  - crop/pad placement;
  - finite differences;
  - separable Gaussian smoothing;
  - magnitude clipping;
  - centre of mass;
  - |x|² summed over modes;
  - sub-pixel shift;
- map numpy dtypes to C types (`map2ctype`);
- validate shapes, dtypes and offsets before any launch.

The kernels themselves are opaque. The model records what the host does with them:
- which kernel is compiled, and with which macro table;
- which launches are enqueued, with which positional arguments, block, grid and shared-memory size;
- which arrays are allocated;
- which Python exception is raised, and when.

The model is organised as follows:
- `Base` holds the vocabulary:
  - Python exceptions as an `Error` datatype, with a `Result` type;
  - `prod` over shapes;
  - ceiling division for grid sizes;
  - `int()` truncation;
  - Python slicing and indexing of shape tuples;
  - decimal printing for cache keys.
- `DTypes` holds the dtype enumeration, `map2ctype`, and the comma-joined cache keys with their injectivity.
- `Gpu` holds the device:
  - arrays are values with an identity, a shape and a dtype;
  - a compiled kernel is the value it was compiled from;
  - one ordered command queue;
  - a `Device` class whose methods allocate, compile and enqueue;
  - a symbolic execution of the queue, in which a launch stores "this kernel applied to these argument values" in its output array.
- One module per wrapper class holds the class itself and the pure functions and lemmas that specify it:
  - `ArrayUtils`, `Transpose`, `MaxAbs2`, `CropPad`, `Derivatives`;
  - `GaussianSmoothing`, `ClipMagnitudes`, `MassCenter`, `Abs2Sum`, `InterpolatedShift`.
  - Classes whose state changes keep it in fields:
    - the scratch array of `dot`;
    - the kernel caches of `max_abs2` and `fill3D`;
    - the `(r, std)` pair and the tap buffer (an `array`) of the Gaussian smoother.
  - Each method states its whole new state in terms of the specification functions.

Where the documented behaviour of the system and the code differ, the model follows the code. The two exceptions are the bugs listed under Findings: there, the Gaussian pass (`RunPass`) and the `Abs2SumKernel` class follow the intended behaviour, and the code as written is modelled alongside. The differences that follow the code are:
- `crop_pad_2d_simple` centres with `a//2 - b//2`, not `(a-b)//2`. The two differ by one exactly when `a` is even and `b` odd, as `CentringVersusHalfDifference` shows.
- The Gaussian radius is `int(num_stdevs*std + 0.5)`, not a ceiling.
- `mfs` is unpacked as `(stdy, stdx)`.
- `transpose` compares only `output.shape[0]` and `output.shape[1]`.
- `mass_center` returns two components whenever the third extent is 1, not one per axis of the input.
- Not every refusal happens before device work is enqueued:
  - `mass_center` has already queued the total-sum reduction when it raises ZeroDivisionError;
  - `convolution` has already queued the row pass, and already rewritten the tap cache, when the column pass is refused.

## Model

| member | source | states |
|---|---|---|
| DTypes.CType | ptypy/accelerate/cuda_pycuda/array_utils.py:8-22 | map2ctype is defined exactly on the six supported dtypes; on them it gives a non-empty, comma-free C type; any other dtype raises ValueError |
| DTypes.CTypeInjective | ptypy/accelerate/cuda_pycuda/array_utils.py:8-22 | distinct supported dtypes map to distinct C types |
| DTypes.Version2Injective | ptypy/accelerate/cuda_pycuda/array_utils.py:200 | the fill3D key `'{},{}'` of two comma-free C types determines both types |
| DTypes.Version3Injective | ptypy/accelerate/cuda_pycuda/array_utils.py:127 | the max_abs2 key `'{},{},{}'` determines both C types and the row count |
| Base.CeilDiv | ptypy/accelerate/cuda_pycuda/array_utils.py:53 | `(n + b - 1) // b` blocks of `b` cover `n` items, with less than one block to spare |
| Base.Trunc | ptypy/accelerate/cuda_pycuda/array_utils.py:417 | Python's `int()` of a float truncates toward zero and is within one of its argument |
| ArrayUtils.ElementSize | ptypy/accelerate/cuda_pycuda/array_utils.py:54-57 | `elsize` is bound only when the accumulator is float32 or float64 |
| ArrayUtils.DotBlocks | ptypy/accelerate/cuda_pycuda/array_utils.py:53 | the phase-one grid covers the elements in blocks of 1024 with less than one block to spare, and is at least one block exactly when there is an element |
| ArrayUtils.NeedsScratch | ptypy/accelerate/cuda_pycuda/array_utils.py:58-59 | the scratch array is reallocated when it is missing or holds fewer slots than blocks |
| ArrayUtils.DotCommands | ptypy/accelerate/cuda_pycuda/array_utils.py:61-76 | one launch for at most one block and two otherwise; phase one writes `out` for a single block and the scratch array otherwise; phase two reads the scratch array and writes `out` on a single block |
| ArrayUtils.DotResultDependsOnInputsOnly | ptypy/accelerate/cuda_pycuda/array_utils.py:58-76 | whatever the scratch array held, `out` ends up computed from A and B alone: phase two reads exactly the partial sums phase one wrote, and one block writes `out` directly |
| ArrayUtils.DotOfEmptyLeavesOut | ptypy/accelerate/cuda_pycuda/array_utils.py:53-76 | with zero elements the phase-one grid computed at line 53 has zero blocks and targets the scratch array, so the model's queue never writes `out` (the driver's refusal of that grid is not modelled; see Left out) |
| ArrayUtils.ArrayUtilsKernel.constructor | ptypy/accelerate/cuda_pycuda/array_utils.py:26-43 | compiles the complex and real dot kernels and full_reduce with the accumulator type, and starts with no scratch array |
| ArrayUtils.ArrayUtilsKernel.Dot | ptypy/accelerate/cuda_pycuda/array_utils.py:45-78 | dtype assertion, then size assertion; the scratch array is at least one slot per block and never shrinks; UnboundLocalError for other accumulators; one launch for at most one block, two (the second a full_reduce) otherwise |
| ArrayUtils.ArrayUtilsKernel.Norm2 | ptypy/accelerate/cuda_pycuda/array_utils.py:80-81 | norm2(A) is dot(A, A), whose assertions cannot fail: same scratch growth (never shrinking), `out` or a fresh one-element result, UnboundLocalError with nothing queued for other accumulators, the same launches, builds unchanged |
| Transpose.TransposeLaunch | ptypy/accelerate/cuda_pycuda/array_utils.py:92-110 | accepted exactly for 2-D int32 input with flipped-shape int32 output, with errors in the source's order; the 16×16 tiles cover the input minimally |
| Transpose.TransposeBackAccepted | ptypy/accelerate/cuda_pycuda/array_utils.py:94-108 | when a 2-D transpose is accepted, the reverse call (output back into input) is accepted too, and its grid is the original grid with x and y swapped |
| Transpose.TransposeKernel.constructor | ptypy/accelerate/cuda_pycuda/array_utils.py:85-90 | compiles `transpose` for int with BDIM 16 |
| Transpose.TransposeKernel.Transpose | ptypy/accelerate/cuda_pycuda/array_utils.py:92-110 | enqueues the accepted launch, or raises without enqueuing |
| MaxAbs2.MaxAbs2Key | ptypy/accelerate/cuda_pycuda/array_utils.py:119-127 | IndexError below two axes; otherwise the key exists exactly when both dtypes have a C type, else ValueError |
| MaxAbs2.KeyDeterminesVariant | ptypy/accelerate/cuda_pycuda/array_utils.py:127-128 | two calls share a cache entry if and only if they agree on both dtypes and the row count |
| MaxAbs2.MaxAbs2Commands | ptypy/accelerate/cuda_pycuda/array_utils.py:145-154 | step one reads X only and writes the cached scratch array, one block per row; step two reads the scratch array only and writes `out` on a single block |
| MaxAbs2.StepOneCoversInput | ptypy/accelerate/cuda_pycuda/array_utils.py:121-150 | step one has one block per row, and batches × rows × cols is the element count |
| MaxAbs2.MaxAbs2DependsOnInputOnly | ptypy/accelerate/cuda_pycuda/array_utils.py:145-154 | whatever the cached scratch held from earlier calls, `out` is computed from X alone |
| MaxAbs2.MaxAbs2Kernel.Valid | ptypy/accelerate/cuda_pycuda/array_utils.py:127-140 | the cache invariant: every key built from two comma-free C types and a row count holds the two steps compiled for those types and a scratch array of that many rows |
| MaxAbs2.MaxAbs2Kernel.constructor | ptypy/accelerate/cuda_pycuda/array_utils.py:114-117 | starts with an empty cache |
| MaxAbs2.MaxAbs2Kernel.MaxAbs2 | ptypy/accelerate/cuda_pycuda/array_utils.py:119-154 | existing entries are kept unchanged and none is removed; a missing key gets two compiled steps and a `rows`-element scratch array; every entry matches its key; both steps are enqueued |
| CropPad.Overlaps | ptypy/accelerate/cuda_pycuda/array_utils.py:176-183 | the per-axis overlap check: B's start (the negated offset clipped at 0) is below B's extent and A's start (the offset clipped at 0) is below A's extent |
| CropPad.OverlapsIffSomeCovered | ptypy/accelerate/cuda_pycuda/array_utils.py:176-183 | the overlap check passes exactly when some index of A has a partner in B; when it fails, that axis has no overlap at all |
| CropPad.AxisOf | ptypy/accelerate/cuda_pycuda/array_utils.py:176-196 | on an overlapping axis the window has length ≥ 1, fits both arrays, pairs A's index j with B's j - off, and covers exactly the indices whose partner exists |
| CropPad.Fill3DWindow | ptypy/accelerate/cuda_pycuda/array_utils.py:168-197 | refuses rank < 3, unequal ranks, differing leading extents and a non-overlapping axis, in that order; the lengths assertion at line 196 can never fire; the batch is the product of the leading extents |
| CropPad.Fill3DLaunch | ptypy/accelerate/cuda_pycuda/array_utils.py:206-220 | 32×32 blocks whose grid covers the window's last two axes minimally, one grid layer per batch; A is the written array |
| CropPad.Fill3DCallOf | ptypy/accelerate/cuda_pycuda/array_utils.py:168-200 | the window is checked first, then B's and A's C types, which form the cache key |
| CropPad.CropPadArgsOf | ptypy/accelerate/cuda_pycuda/array_utils.py:228-238 | assertions on rank ≥ 2, equal ranks and equal leading extents; 2-D arrays gain a batch axis of 1; the offset is `[0, a1//2 - b1//2, a2//2 - b2//2]` |
| CropPad.CropPadCentres | ptypy/accelerate/cuda_pycuda/array_utils.py:236-239 | along each of the last two axes, B's centre index is copied onto A's centre index, whether cropping or padding |
| CropPad.CropPadOverlapsIffNonEmpty | ptypy/accelerate/cuda_pycuda/array_utils.py:183 | once crop_pad_2d_simple's own assertions pass, fill3D's overlap check passes exactly when none of the last three extents is zero |
| CropPad.CentringVersusHalfDifference | ptypy/accelerate/cuda_pycuda/array_utils.py:238 | `a//2 - b//2` exceeds `(a-b)//2` by one exactly when a is even and b is odd, and equals it otherwise |
| CropPad.CropPadKernel.Valid | ptypy/accelerate/cuda_pycuda/array_utils.py:200-205 | the cache invariant: every key built from two comma-free C types maps to the copy kernel compiled for those types |
| CropPad.CropPadKernel.constructor | ptypy/accelerate/cuda_pycuda/array_utils.py:159-162 | starts with an empty cache |
| CropPad.CropPadKernel.Fill3D | ptypy/accelerate/cuda_pycuda/array_utils.py:164-220 | on error nothing changes; otherwise the cache gains at most the key for (B, A), compiled only if it was absent; every entry matches its key; one launch is enqueued |
| CropPad.CropPadKernel.CropPad2DSimple | ptypy/accelerate/cuda_pycuda/array_utils.py:223-239 | its own assertions, then exactly fill3D on the reshaped arrays with the centring offset |
| Derivatives.SType | ptypy/accelerate/cuda_pycuda/array_utils.py:243-250 | only float32 and complex64 are accepted, with their C types; any other dtype raises NotImplementedError |
| Derivatives.NormalAxis | ptypy/accelerate/cuda_pycuda/array_utils.py:283-284 | a negative axis is counted from the end once; an axis within Python's range becomes a valid index, and a non-negative axis is kept |
| Derivatives.DelxPlanOf | ptypy/accelerate/cuda_pycuda/array_utils.py:283-304 | a negative axis is counted once from the end; the call fails with IndexError exactly when the extent along that axis cannot be read; for an axis in range, flat × extent or higher × extent × lower is the element count |
| Derivatives.AxisBelowRangeOverreaches | ptypy/accelerate/cuda_pycuda/array_utils.py:283-304 | axis -ndim-1 is accepted, takes the middle-axis path with the whole array as `lower_dim`, and addresses the element count squared |
| Derivatives.DelxLaunch | ptypy/accelerate/cuda_pycuda/array_utils.py:287-308 | (256, 4, 1) blocks; the last-axis grid covers flat_dim in fours, the middle-axis grid covers lower_dim in 256s with one layer per higher index |
| Derivatives.DelxCommand | ptypy/accelerate/cuda_pycuda/array_utils.py:279-308 | a dtype mismatch raises ValueError first; otherwise the call succeeds exactly when the layout exists, and writes `out` |
| Derivatives.DerivativesKernel.constructor | ptypy/accelerate/cuda_pycuda/array_utils.py:243-276 | two compilations of delx_last and delx_mid, which differ only in IS_FORWARD |
| Derivatives.DerivativesKernel.Create | ptypy/accelerate/cuda_pycuda/array_utils.py:243-250 | construction succeeds exactly for float32 and complex64, else raises NotImplementedError and compiles nothing |
| Derivatives.DerivativesKernel.Delx | ptypy/accelerate/cuda_pycuda/array_utils.py:279-339 | the shared body of delxf and delxb: one launch or an error, nothing else changed |
| Derivatives.DerivativesKernel.DelxF | ptypy/accelerate/cuda_pycuda/array_utils.py:279-308 | delxf enqueues one forward launch, or raises without enqueuing |
| Derivatives.DerivativesKernel.DelxB | ptypy/accelerate/cuda_pycuda/array_utils.py:310-339 | delxb enqueues one backward launch, or raises without enqueuing |
| GaussianSmoothing.Radius | ptypy/accelerate/cuda_pycuda/array_utils.py:417 | the radius is non-negative and within half a unit of num_stdevs × std, rounded half up |
| GaussianSmoothing.GaussTaps | ptypy/accelerate/cuda_pycuda/array_utils.py:421-425 | the uploaded taps are the right half of the kernel, r + 1 of them, centre first |
| GaussianSmoothing.TapsValid | ptypy/accelerate/cuda_pycuda/array_utils.py:421-428 | the tap cache invariant: the buffer holds 3072 slots and, once a radius and std are remembered, its first r + 1 slots hold exactly the taps for them |
| GaussianSmoothing.PassShared | ptypy/accelerate/cuda_pycuda/array_utils.py:431-435 | a pass fits the 24576-byte shared budget exactly when r ≤ 94 |
| GaussianSmoothing.AsWrittenRadiusRejected | ptypy/accelerate/cuda_pycuda/array_utils.py:419 | the radius check as written refuses only r > 3072 |
| GaussianSmoothing.RadiusFits | ptypy/accelerate/cuda_pycuda/array_utils.py:419-426 | the corrected radius check: the r + 1 taps fit the 3072-slot buffer |
| GaussianSmoothing.AsWrittenGuardOverflowsTaps | ptypy/accelerate/cuda_pycuda/array_utils.py:418-425 | the radius guard as written lets r = 3072 through (std 767.9, four stdevs), and that radius needs more taps than the buffer's 3072 slots |
| GaussianSmoothing.ConvGeometryOf | ptypy/accelerate/cuda_pycuda/array_utils.py:387-410 | the tmp assertion comes first; then rank 3 is a stack, rank 2 one image, rank 1 one column with stdx 0, other ranks raise NotImplementedError; batches × y × x is the element count |
| GaussianSmoothing.PassLaunch | ptypy/accelerate/cuda_pycuda/array_utils.py:437-441 | row-pass blocks are 4×16 and column-pass blocks 16×4, and either grid covers every row, column and image |
| GaussianSmoothing.RunPass | ptypy/accelerate/cuda_pycuda/array_utils.py:416-441 | the radius check (corrected), then the cache: the taps are rewritten only when (r, std) differs, and before the shared check; MemoryError exactly when r > 94; the launch reads the taps for its own r and std; the cache invariant is kept |
| GaussianSmoothing.RowStage | ptypy/accelerate/cuda_pycuda/array_utils.py:414-444 | the row pass runs only above the 0.1 threshold, from data into tmp |
| GaussianSmoothing.ColStage | ptypy/accelerate/cuda_pycuda/array_utils.py:446-471 | the column pass runs only above the threshold, reading wherever the row pass left the data |
| GaussianSmoothing.ConvCommands | ptypy/accelerate/cuda_pycuda/array_utils.py:412-479 | no commands when neither std exceeds 0.1; otherwise two: the row pass (data into tmp) when it runs, the column pass, and a copy from tmp back into data when only one pass ran |
| GaussianSmoothing.Smoothed | ptypy/accelerate/cuda_pycuda/array_utils.py:412-479 | the reference result: the row pass applied when stdx exceeds 0.1, then the column pass when stdy exceeds 0.1 |
| GaussianSmoothing.ConvRun | ptypy/accelerate/cuda_pycuda/array_utils.py:412-479 | with neither std above 0.1 nothing happens; a successful call enqueues exactly the ping-pong commands; the tap cache stays valid even when a pass is refused |
| GaussianSmoothing.ConvolutionLeavesResultInData | ptypy/accelerate/cuda_pycuda/array_utils.py:412-479 | whichever passes run, `data` ends up holding the row pass (if any) followed by the column pass (if any) of its original contents, whatever tmp held |
| GaussianSmoothing.GaussianSmoothingKernel.constructor | ptypy/accelerate/cuda_pycuda/array_utils.py:343-380 | compiles both passes with block extents swapped for the column pass, allocates a 3072-slot tap buffer, and starts from (0, 0) |
| GaussianSmoothing.GaussianSmoothingKernel.Create | ptypy/accelerate/cuda_pycuda/array_utils.py:343-345 | a kernel type other than 'float' or 'double' raises ValueError before anything is compiled |
| GaussianSmoothing.GaussianSmoothingKernel.Pass | ptypy/accelerate/cuda_pycuda/array_utils.py:416-441 | one pass updates the remembered pair, the tap buffer and the queue as RunPass says, uploading taps 0..r in place |
| GaussianSmoothing.GaussianSmoothingKernel.Convolution | ptypy/accelerate/cuda_pycuda/array_utils.py:382-479 | allocates tmp when it is not given; on a refused geometry nothing else changes; otherwise queue, remembered pair and tap buffer are as ConvRun says |
| ClipMagnitudes.ClipLaunch | ptypy/accelerate/cuda_pycuda/array_utils.py:489-501 | the array is read and written in place, and blocks of 256 cover every element with less than one block to spare |
| ClipMagnitudes.ClipRewritesOnlyArray | ptypy/accelerate/cuda_pycuda/array_utils.py:489-501 | after the launch the array holds the clip of its own earlier contents by the two bounds, and no other array changes |
| ClipMagnitudes.ClipMagnitudesKernel.constructor | ptypy/accelerate/cuda_pycuda/array_utils.py:483-487 | compiles clip_magnitudes for complex<float> |
| ClipMagnitudes.ClipMagnitudesKernel.ClipMagnitudesToRange | ptypy/accelerate/cuda_pycuda/array_utils.py:489-501 | exactly one launch, and nothing raised |
| MassCenter.DimsOf | ptypy/accelerate/cuda_pycuda/array_utils.py:533-542 | non-float32 input raises NotImplementedError; fewer than two axes raises IndexError; n is the third extent, or 1 for 2-D |
| MassCenter.OutLengthThreeIffThirdAxis | ptypy/accelerate/cuda_pycuda/array_utils.py:539-550 | the result has three components exactly when there is a third axis of extent above one, and two otherwise |
| MassCenter.ScaleOf | ptypy/accelerate/cuda_pycuda/array_utils.py:545 | a zero total raises ZeroDivisionError; otherwise the scale is its reciprocal |
| MassCenter.SumsOf | ptypy/accelerate/cuda_pycuda/array_utils.py:547-550 | four fresh float32 vectors of lengths i, m, n and 3-or-2 |
| MassCenter.MassCenterCommands | ptypy/accelerate/cuda_pycuda/array_utils.py:552-597 | four launches for 3-D input and three for 2-D |
| MassCenter.SumsCoverAxes | ptypy/accelerate/cuda_pycuda/array_utils.py:552-597 | one block per first-axis index (and per middle index for 3-D); the 32-wide tiles cover the last axis minimally; one final block per output component |
| MassCenter.MassCenterDependsOnArrayOnly | ptypy/accelerate/cuda_pycuda/array_utils.py:552-599 | the result is computed from the array's contents and the scale alone, whether or not the sum vectors alias |
| MassCenter.MassCenterKernel.constructor | ptypy/accelerate/cuda_pycuda/array_utils.py:505-531 | compiles the three reductions from mass_center.cu with their block extents |
| MassCenter.MassCenterKernel.MassCenter | ptypy/accelerate/cuda_pycuda/array_utils.py:533-599 | errors before the total leave everything unchanged; a zero total raises after the total is queued; otherwise four vectors are allocated and the launches are queued |
| Abs2Sum.OutTypeAsWritten | ptypy/accelerate/cuda_pycuda/array_utils.py:603-613 | as written, only complex64 gets a real output; every other dtype, complex128 included, keeps its own |
| Abs2Sum.OutTypeOf | ptypy/accelerate/cuda_pycuda/array_utils.py:603-613 | as intended, every supported dtype gets a real output: complex64 → float32, complex128 → float64, a real dtype itself; its C type matches |
| Abs2Sum.AsWrittenComplex128StaysComplex | ptypy/accelerate/cuda_pycuda/array_utils.py:608 | the misspelt comparison leaves complex128 input with a complex128 output |
| Abs2Sum.AsWrittenDiffersOnlyForComplex128 | ptypy/accelerate/cuda_pycuda/array_utils.py:603-613 | the written and the intended choice differ for complex128 and for no other dtype |
| Abs2Sum.ExtentsOf | ptypy/accelerate/cuda_pycuda/array_utils.py:626-627 | IndexError for a 0-d array, ValueError unless the array is 3-D |
| Abs2Sum.ExtentsSplitSize | ptypy/accelerate/cuda_pycuda/array_utils.py:626-628 | modes × one output image is the element count, and the output image is rows × cols |
| Abs2Sum.Abs2SumLaunch | ptypy/accelerate/cuda_pycuda/array_utils.py:630-635 | 32-thread blocks, one per output row, writing `out` |
| Abs2Sum.Abs2SumDependsOnInputOnly | ptypy/accelerate/cuda_pycuda/array_utils.py:625-637 | the output is computed from the input array alone |
| Abs2Sum.Abs2SumKernel.constructor | ptypy/accelerate/cuda_pycuda/array_utils.py:603-623 | compiles abs2sum for the input C type and the intended output type |
| Abs2Sum.Abs2SumKernel.Create | ptypy/accelerate/cuda_pycuda/array_utils.py:603-604 | an unsupported dtype raises map2ctype's ValueError before anything is compiled |
| Abs2Sum.Abs2SumKernel.Abs2Sum | ptypy/accelerate/cuda_pycuda/array_utils.py:625-637 | a new array of shape `shape[1:]` in the output dtype, and one launch; errors change nothing |
| InterpolatedShift.ModF | ptypy/accelerate/cuda_pycuda/array_utils.py:669-670 | numpy's modf: the two parts add up to x, the fractional part is below one in magnitude, and both carry the sign of x |
| InterpolatedShift.ModFOfInteger | ptypy/accelerate/cuda_pycuda/array_utils.py:669-670 | a whole number has no fractional part and is its own integral part |
| InterpolatedShift.ShiftActionOf | ptypy/accelerate/cuda_pycuda/array_utils.py:676-695 | a whole-pixel shift moves by the truncated offsets; interpolation receives the offsets unchanged |
| InterpolatedShift.NegligibleComponent | ptypy/accelerate/cuda_pycuda/array_utils.py:676-677 | a component has a negligible fractional part and a zero integral part exactly when it is below 1e-6 in magnitude |
| InterpolatedShift.NoShiftIffNegligible | ptypy/accelerate/cuda_pycuda/array_utils.py:676-679 | the input itself is returned exactly when both offset components are below 1e-6 in magnitude |
| InterpolatedShift.IntegerShiftIsNearOffset | ptypy/accelerate/cuda_pycuda/array_utils.py:676-687 | the whole-pixel copy moves by amounts within 1e-6 of the offsets, and not both of them zero |
| InterpolatedShift.WholeOffsetIsIntegerShift | ptypy/accelerate/cuda_pycuda/array_utils.py:676-687 | an offset of whole numbers, not both zero, is copied by exactly those numbers of pixels |
| InterpolatedShift.InterpolateIffFractional | ptypy/accelerate/cuda_pycuda/array_utils.py:676-695 | interpolation is chosen exactly when a fractional part reaches 1e-6 |
| InterpolatedShift.StackOf | ptypy/accelerate/cuda_pycuda/array_utils.py:655-665 | NotImplementedError for a shift without two components, then for a dtype other than complex64, then for a rank other than 2 or 3; items × rows × cols is the element count |
| InterpolatedShift.ShiftLaunch | ptypy/accelerate/cuda_pycuda/array_utils.py:672-695 | 32×32 tiles cover rows and columns minimally, one layer per image; interpolation gets 17952 bytes of shared memory and only writes the new array; the whole-pixel copy gets none and reads the new array as well as writing it, because it leaves unreached destinations untouched |
| InterpolatedShift.ShiftDependsOnInputOnly | ptypy/accelerate/cuda_pycuda/array_utils.py:672-695 | the interpolated image is computed from the input alone, whatever the `empty_like` array held; the whole-pixel copy's result is determined by the input together with the array's earlier contents |
| InterpolatedShift.IntegerShiftKeepsOldOutput | ptypy/accelerate/cuda_pycuda/array_utils.py:672-687 | the whole-pixel copy's result is a function of the input, the new array's earlier (uninitialised) contents and the two pixel counts, so its uncovered margin is not defined by the input |
| InterpolatedShift.InterpolatedShiftKernel.constructor | ptypy/accelerate/cuda_pycuda/array_utils.py:641-652 | compiles both kernels from one source with 32×32 blocks |
| InterpolatedShift.InterpolatedShiftKernel.InterpolateShiftBy | ptypy/accelerate/cuda_pycuda/array_utils.py:654-697 | errors change nothing; otherwise a new array is always allocated; with no shift the input itself is returned and nothing is launched; otherwise the new array is returned with one launch |

## Left out

- Kernel bodies are uninterpreted. The numerics of the dot products, max |x|², transpose, finite differences, convolution sums, magnitude clipping, centre-of-mass sums, |x|² sums and bilinear interpolation are not modelled. A launch stores a symbolic term in its output array.
- Gaussian tap values are not modelled. The normalised Gaussian `g(k)/sum(g)` is represented by a symbolic tap `GaussTap(r, std, k)`, because its floating-point content is outside the model.
- Scalars are unbounded. The `np.int32` wrap-around of products, extents and offsets is not modelled, because the shapes involved are far below 2³¹ in practice.
- Rounding to float32 is not modelled, and clip bounds, shift offsets, standard deviations and the centre-of-mass scale are exact reals:
  - ClipMagnitudes.ClipMagnitudesKernel.ClipMagnitudesToRange passes the clip bounds unrounded;
  - InterpolatedShift.InterpolatedShiftKernel.InterpolateShiftBy splits the unrounded offsets;
  - MassCenter.MassCenterKernel.MassCenter uses the exact reciprocal of the total.
- MassCenter.MassCenterKernel.MassCenter: the device total read back to the host is a parameter, because the reduction's arithmetic is outside the model. It is queued as a `HostSum` command.
- GaussianSmoothing.GaussianSmoothingKernel.constructor requires `num_stdevs >= 0`, and so does GaussianSmoothing.GaussianSmoothingKernel.Create. A negative `num_stdevs` gives a negative radius, whose tap slicing has no meaning in the model.
- Abs2Sum.Abs2SumKernel.constructor compiles with the intended output type (`OutTypeOf`): complex128 gets OUT_TYPE `double`, where the code as written keeps `complex<double>`. The written choice is `OutTypeAsWritten`; see Findings.
- Abs2Sum.Abs2SumKernel.Abs2Sum allocates its output in the intended dtype, so complex128 input gets a float64 output, where the code as written allocates complex128.
- Abs2Sum.Abs2SumKernel.Create inherits the constructor's intended output type for complex128.
- GaussianSmoothing.RunPass refuses a radius of 3072 with the "kernel too large" ValueError (the corrected guard). As written, the code instead fails on the oversized tap upload; see Findings.
- ArrayUtils.DotOfEmptyLeavesOut and ArrayUtils.ArrayUtilsKernel.Dot queue a launch whose grid has a zero extent when the input is empty. The CUDA driver refuses such a launch, and pycuda raises `LogicError`, so `dot` never returns. The model queues it like any other launch and returns the result. The same holds for every wrapper whose grid can have a zero extent: transpose, max_abs2 with zero rows, abs2sum, delxf/delxb and convolution. Launch-configuration limits of the driver are outside the model.
- Streams and asynchronous execution are not modelled. Every wrapper's `queue` is one in-order command queue, and device faults are not modelled.
- Compilation failures of the kernel source provider are not modelled. Compilation is a `Build` record that always succeeds.
- The contents of fresh arrays are not modelled, so `gpuarray.zeros` and `gpuarray.empty` both give an array with its own initial contents.
- MassCenter.MassCenterDependsOnArrayOnly requires, for 2-D input, that the never-written `n_sum` vector agree between the two memories. The final reduction receives it as an argument, and the model cannot see that the kernel does not read it.
- `fill3D` offsets are integer sequences; numpy offsets given as floats are not modelled.
- `interpolate_shift` shifts are sequences of reals; a scalar shift (for which `len` fails) is not modelled.

## Findings

| source | as written | input that shows it | evidently intended | confidence | as-written member | corrected member |
|---|---|---|---|---|---|---|
| ptypy/accelerate/cuda_pycuda/array_utils.py:419 | `if r > self.max_kernel_radius` admits r = 3072. The code then uploads r + 1 = 3073 taps into the 3072-element `kernel_gpu`, so the intended "Size of Gaussian kernel too large" error is never raised for that radius | `num_stdevs = 4`, `stdx = 767.9`, giving `r = int(3071.6 + 0.5) = 3072` | refuse every radius whose r + 1 taps do not fit, i.e. r ≥ 3072 | medium (the shared-memory check would refuse r > 94 anyway, but only after the upload); not executed | GaussianSmoothing.AsWrittenGuardOverflowsTaps | GaussianSmoothing.RunPass |
| ptypy/accelerate/cuda_pycuda/array_utils.py:608 | `elif self.in_stype == 'copmlex<double>'` never matches, so complex128 input keeps `out_stype = 'complex<double>'` and `out_dtype = complex128` | `Abs2SumKernel(np.complex128)` | complex128 sums into float64 with C type `double` | high; not executed | Abs2Sum.AsWrittenComplex128StaysComplex | Abs2Sum.OutTypeOf |
