/** Turning tensors and scalars into the arguments of a ctypes call
    (cast_to_ctype, engine/utils.py:149-160, and the argtype slicing of
    run_dynamic_benchmark, engine/utils.py:234-244 and 260). */
module CtypeCast {
  import opened Wrappers

  /** A Python number passed as an extra parameter. */
  datatype PyNumber = PyInt(i: int) | PyFloat(f: real)

  /** An element of the data list: a torch tensor, known by its device
      address (tensor.data_ptr()), or anything else. */
  datatype Arg = Tensor(dataPtr: nat) | Scalar(value: PyNumber)

  /** A ctypes type from the entry point's argtypes, known by its name. */
  datatype CType = CType(name: string)

  /** An element of a call list: a pointer cast of an address, a scalar
      converted by a ctypes type, or an element passed on untouched. */
  datatype CallArg = PointerCast(address: nat, ctype: CType) | Converted(value: PyNumber, ctype: CType) | Raw(arg: Arg)

  /** One loop step of cast_to_ctype: ctypes.cast(tensor.data_ptr(), argtype)
      for a tensor, argtype(value) for anything else. */
  function CastOne(a: Arg, t: CType): CallArg {
    match a
    case Tensor(p) => PointerCast(p, t)
    case Scalar(v) => Converted(v, t)
  }

  function Min(a: int, b: int): int { if a <= b then a else b }

  /** The cast of zip(data, argtypes): it stops at the shorter list. */
  function ZipCast(data: seq<Arg>, argtypes: seq<CType>): (r: seq<CallArg>)
    ensures |r| == Min(|data|, |argtypes|)
    ensures forall i :: 0 <= i < |r| ==> r[i] == CastOne(data[i], argtypes[i])
  {
    if data == [] || argtypes == [] then []
    else [CastOne(data[0], argtypes[0])] + ZipCast(data[1..], argtypes[1..])
  }

  /** The data list returned unchanged, as call arguments. */
  function Uncast(data: seq<Arg>): (r: seq<CallArg>)
    ensures |r| == |data| && forall i :: 0 <= i < |data| ==> r[i] == Raw(data[i])
  {
    seq(|data|, i requires 0 <= i < |data| => Raw(data[i]))
  }

  /** Nothing is lost when the data list is passed on: each element reads back. */
  lemma UncastRoundTrip(data: seq<Arg>)
    ensures var r := Uncast(data); seq(|r|, i requires 0 <= i < |r| => r[i].arg) == data
  {
  }

  /** cast_to_ctype: for "cuda" the loop over zip(data, argtypes); for any
      other language the data unchanged. */
  method CastToCtype(data: seq<Arg>, argtypes: seq<CType>, language: string) returns (casted: seq<CallArg>)
    ensures language == "cuda" ==> |casted| == Min(|data|, |argtypes|)
    ensures language == "cuda" ==> forall i :: 0 <= i < |casted| ==>
      (data[i].Tensor? ==> casted[i] == PointerCast(data[i].dataPtr, argtypes[i])) &&
      (data[i].Scalar? ==> casted[i] == Converted(data[i].value, argtypes[i]))
    ensures language == "cuda" ==> casted == ZipCast(data, argtypes)
    ensures language != "cuda" ==> casted == Uncast(data)
  {
    if language != "cuda" {
      return Uncast(data);
    }
    casted := [];
    var n := Min(|data|, |argtypes|);
    for i := 0 to n
      invariant |casted| == i
      invariant forall j :: 0 <= j < i ==> casted[j] == CastOne(data[j], argtypes[j])
    {
      var t := argtypes[i];
      if data[i].Tensor? {
        casted := casted + [PointerCast(data[i].dataPtr, t)];
      } else {
        casted := casted + [Converted(data[i].value, t)];
      }
    }
    assert casted == ZipCast(data, argtypes);
  }

  /** Python's xs[:n] for n >= 0. */
  function SliceTo<T>(xs: seq<T>, n: nat): (r: seq<T>)
    ensures |r| == Min(n, |xs|) && r == xs[..|r|]
  {
    if n <= |xs| then xs[..n] else xs
  }

  /** Python's xs[-k:] for k >= 0. As -0 == 0, xs[-0:] is the whole list;
      a k beyond the length clamps to the whole list too. */
  function SliceLast<T>(xs: seq<T>, k: nat): (r: seq<T>)
    ensures k == 0 || k >= |xs| ==> r == xs
    ensures 0 < k <= |xs| ==> |r| == k && r == xs[|xs| - k..]
  {
    if k == 0 || k >= |xs| then xs else xs[|xs| - k..]
  }

  /** Python's xs[start:] for any integer start: a negative start counts from
      the end, and the result is clamped to the list. */
  function PySliceFrom<T>(xs: seq<T>, start: int): seq<T> {
    var s := if start < 0 then start + |xs| else start;
    var c := if s < 0 then 0 else if s > |xs| then |xs| else s;
    xs[c..]
  }

  /** SliceLast is Python's slice rule at start -k: the -0 case and the
      clamp for a long k follow from the rule. */
  lemma SliceLastIsPythonSlice<T>(xs: seq<T>, k: nat)
    ensures SliceLast(xs, k) == PySliceFrom(xs, -(k as int))
  {
  }

  /** The argument list of the CUDA call: inputs cast with argtypes[:n], the
      output cast with argtypes[n], the extras cast with argtypes[-k:], and
      then inputs + [output] + extras. argtypes[n] past the end raises
      IndexError; this code has no arity check of its own. With more slots
      than arguments the extras still take the LAST k slots, so the slots
      between the output and them receive nothing. */
  function CudaCallArgs(argtypes: seq<CType>, inputs: seq<Arg>, outputPtr: nat, extras: seq<Arg>)
    : (r: Result<seq<CallArg>, PyException>)
    ensures r.Failure? <==> |argtypes| <= |inputs|
    ensures r.Failure? ==> r.error == IndexError(|inputs|)
    ensures r.Success? ==> |r.value| == |inputs| + 1 + Min(|extras|, |argtypes|)
    ensures r.Success? ==> forall i :: 0 <= i < |inputs| ==> r.value[i] == CastOne(inputs[i], argtypes[i])
    ensures r.Success? ==> r.value[|inputs|] == PointerCast(outputPtr, argtypes[|inputs|])
    ensures r.Success? && |extras| <= |argtypes| ==> forall j :: 0 <= j < |extras| ==>
      r.value[|inputs| + 1 + j] == CastOne(extras[j], argtypes[|argtypes| - |extras| + j])
    ensures r.Success? && |extras| > |argtypes| ==> forall j :: 0 <= j < |argtypes| ==>
      r.value[|inputs| + 1 + j] == CastOne(extras[j], argtypes[j])
  {
    var n := |inputs|;
    var inputPtrs := ZipCast(inputs, SliceTo(argtypes, n));
    if n >= |argtypes| then Failure(IndexError(n))
    else
      var outputArg := PointerCast(outputPtr, argtypes[n]);
      var extraArgs := ZipCast(extras, SliceLast(argtypes, |extras|));
      var call := inputPtrs + [outputArg] + extraArgs;
      assert forall i :: 0 <= i < |inputs| ==> call[i] == inputPtrs[i];
      assert forall j :: 0 <= j < |extraArgs| ==> call[n + 1 + j] == extraArgs[j];
      Success(call)
  }

  /** The argument list of the Python call: inputs + [output] + extras, as they are. */
  function PythonCallArgs(inputs: seq<Arg>, outputPtr: nat, extras: seq<Arg>): (r: seq<CallArg>)
    ensures r == Uncast(inputs + [Tensor(outputPtr)] + extras)
  {
    Uncast(inputs) + [Raw(Tensor(outputPtr))] + Uncast(extras)
  }

  /** The ctypes type a call argument was given, if any. */
  function CTypeOf(c: CallArg): Option<CType> {
    match c
    case PointerCast(_, t) => Some(t)
    case Converted(_, t) => Some(t)
    case Raw(_) => None
  }

  /** When argtypes declares exactly one slot per input, the output and each
      extra, the call fills every slot in order: slot i is the i-th element
      of inputs + [output] + extras, cast with argtypes[i]. */
  lemma CudaCallArgsAligned(argtypes: seq<CType>, inputs: seq<Arg>, outputPtr: nat, extras: seq<Arg>)
    requires |argtypes| == |inputs| + 1 + |extras|
    ensures CudaCallArgs(argtypes, inputs, outputPtr, extras).Success?
    ensures var call := CudaCallArgs(argtypes, inputs, outputPtr, extras).value;
      var all := inputs + [Tensor(outputPtr)] + extras;
      |call| == |argtypes| &&
      forall i :: 0 <= i < |call| ==> call[i] == CastOne(all[i], argtypes[i]) && CTypeOf(call[i]) == Some(argtypes[i])
  {
  }

  /** No arity check: whenever argtypes has a slot past the inputs the call
      list is built, however many slots it declares. With fewer slots than
      arguments the extras take the trailing types, so one extra is cast
      with the output's type argtypes[n]. */
  lemma CudaCallArgsNoArityCheck(argtypes: seq<CType>, inputs: seq<Arg>, outputPtr: nat, extras: seq<Arg>)
    requires |inputs| < |argtypes| < |inputs| + 1 + |extras|
    ensures CudaCallArgs(argtypes, inputs, outputPtr, extras).Success?
    ensures var call := CudaCallArgs(argtypes, inputs, outputPtr, extras).value;
      var n, k := |inputs|, |extras|;
      var shared := if k <= |argtypes| then n + k - |argtypes| else n;
      && |call| == n + 1 + Min(k, |argtypes|)
      && call[n] == PointerCast(outputPtr, argtypes[n])
      && n + 1 + shared < |call|
      && CTypeOf(call[n + 1 + shared]) == Some(argtypes[n])
  {
  }

  /** With no extra parameters the slice argtypes[-0:] is the whole list,
      but zipping it with no extras adds nothing after the output. */
  lemma NoExtrasEndAtOutput(argtypes: seq<CType>, inputs: seq<Arg>, outputPtr: nat)
    requires |inputs| < |argtypes|
    ensures SliceLast(argtypes, 0) == argtypes
    ensures CudaCallArgs(argtypes, inputs, outputPtr, []).Success?
    ensures var call := CudaCallArgs(argtypes, inputs, outputPtr, []).value;
      |call| == |inputs| + 1 && call[|inputs|] == PointerCast(outputPtr, argtypes[|inputs|])
  {
  }
}
