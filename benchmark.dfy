/** The measuring part of run_dynamic_benchmark (engine/utils.py:211-280):
    the call list, the stopping rule, the minimum and the result record.
    Wall-clock time and the CUDA event timings are inputs:
    - clock[j] is time.time() - start when the loop condition is evaluated
      for the (j+1)-th time, that is, after j samples;
    - elapsedMs[j] is the CUDA event time, in milliseconds, of the (j+1)-th call. */
module Benchmark {
  import opened Wrappers
  import opened CtypeCast

  const MinIters: nat := 3
  const MaxRuntime: real := 1.0

  /** The record returned for one test case. Its "runtime_ms" field holds
      the number of samples taken, as the source fills it. */
  datatype BenchmarkResult = BenchmarkResult(name: string, testId: int, gflops: real, runtimeMs: nat)

  /** The loop condition after `count` samples:
      time.time() - start < max_runtime or len(runtimes) < min_iters. */
  predicate KeepGoing(clock: seq<real>, count: nat)
    requires count < |clock|
  {
    clock[count] < MaxRuntime || count < MinIters
  }

  /** The clock readings reach a point where the loop stops: the budget has
      elapsed with at least MinIters samples taken. */
  predicate ClockReachesBudget(clock: seq<real>) {
    exists j :: 0 <= j < |clock| && !KeepGoing(clock, j)
  }

  /** The first sample count, from `from` on, at which the loop condition fails. */
  function ExitIndexFrom(clock: seq<real>, from: nat): (k: nat)
    requires exists j :: from <= j < |clock| && !KeepGoing(clock, j)
    ensures from <= k < |clock| && !KeepGoing(clock, k)
    ensures forall j :: from <= j < k ==> KeepGoing(clock, j)
    decreases |clock| - from
  {
    if !KeepGoing(clock, from) then from else ExitIndexFrom(clock, from + 1)
  }

  /** The number of samples the loop takes: at least MinIters, taken with
      the budget spent, and the loop condition held for every smaller count. */
  function ExitIndex(clock: seq<real>): (k: nat)
    requires ClockReachesBudget(clock)
    ensures MinIters <= k < |clock| && clock[k] >= MaxRuntime
    ensures forall j :: 0 <= j < k ==> clock[j] < MaxRuntime || j < MinIters
  {
    var k := ExitIndexFrom(clock, 0);
    assert forall j :: 0 <= j < k ==> clock[j] < MaxRuntime || j < MinIters by {
      forall j | 0 <= j < k ensures clock[j] < MaxRuntime || j < MinIters {
        assert KeepGoing(clock, j);
      }
    }
    k
  }

  /** The runtimes list, in seconds: one sample per iteration, in order. */
  function Samples(elapsedMs: seq<real>, clock: seq<real>): (s: seq<real>)
    requires ClockReachesBudget(clock) && ExitIndex(clock) <= |elapsedMs|
    ensures |s| == ExitIndex(clock) && |s| >= MinIters
    ensures forall i :: 0 <= i < |s| ==> s[i] == elapsedMs[i] / 1000.0
  {
    seq(ExitIndex(clock), i requires 0 <= i < ExitIndex(clock) => elapsedMs[i] / 1000.0)
  }

  /** min(runtimes): no larger than any sample and equal to one of them. */
  function Best(s: seq<real>): (m: real)
    requires |s| > 0
    ensures forall i :: 0 <= i < |s| ==> m <= s[i]
    ensures exists i :: 0 <= i < |s| && s[i] == m
  {
    if |s| == 1 then s[0]
    else
      var rest := Best(s[1..]);
      if s[0] <= rest then s[0] else rest
  }

  /** The call made on every iteration: the cast list for "cuda", the
      arguments as they are for "python", and no call for any other language. */
  function KernelCall(language: string, argtypes: seq<CType>, inputs: seq<Arg>, outputPtr: nat, extras: seq<Arg>)
    : Option<seq<CallArg>>
    requires language == "cuda" ==> |inputs| < |argtypes|
  {
    if language == "cuda" then Some(CudaCallArgs(argtypes, inputs, outputPtr, extras).value)
    else if language == "python" then Some(PythonCallArgs(inputs, outputPtr, extras))
    else None
  }

  /** run_dynamic_benchmark with the clock and the timings as inputs. */
  method RunDynamicBenchmark(argtypes: seq<CType>, inputs: seq<Arg>, outputPtr: nat, extraParams: seq<Arg>,
                             language: string, flops: real, name: string, testId: int,
                             elapsedMs: seq<real>, clock: seq<real>)
    returns (r: Result<BenchmarkResult, PyException>, call: Option<seq<CallArg>>)
    requires ClockReachesBudget(clock) && ExitIndex(clock) <= |elapsedMs|
    ensures language == "cuda" && |argtypes| <= |inputs| ==> r == Failure(IndexError(|inputs|)) && call == None
    ensures !(language == "cuda" && |argtypes| <= |inputs|) ==>
      var samples := Samples(elapsedMs, clock);
      && call == KernelCall(language, argtypes, inputs, outputPtr, extraParams)
      && (r.Failure? <==> Best(samples) == 0.0)
      && (r.Failure? ==> r.error == ZeroDivisionError)
      && (r.Success? ==> r.value == BenchmarkResult(name, testId, (flops / Best(samples)) / 1e9, |samples|))
  {
    if language == "cuda" {
      var inputPtrs := CastToCtype(inputs, SliceTo(argtypes, |inputs|), language);
      if |inputs| >= |argtypes| {
        return Failure(IndexError(|inputs|)), None;
      }
      var outputArg := PointerCast(outputPtr, argtypes[|inputs|]);
      var extraCasted := CastToCtype(extraParams, SliceLast(argtypes, |extraParams|), language);
      call := Some(inputPtrs + [outputArg] + extraCasted);
    } else if language == "python" {
      call := Some(PythonCallArgs(inputs, outputPtr, extraParams));
    } else {
      call := None;
    }

    var runtimes: seq<real> := [];
    while clock[|runtimes|] < MaxRuntime || |runtimes| < MinIters
      invariant |runtimes| <= ExitIndex(clock)
      invariant forall i :: 0 <= i < |runtimes| ==> runtimes[i] == elapsedMs[i] / 1000.0
      decreases ExitIndex(clock) - |runtimes|
    {
      runtimes := runtimes + [elapsedMs[|runtimes|] / 1000.0];
    }
    assert runtimes == Samples(elapsedMs, clock);

    var best := Best(runtimes);
    if best == 0.0 {
      return Failure(ZeroDivisionError), call;
    }
    var gflops := (flops / best) / 1e9;
    r := Success(BenchmarkResult(name, testId, gflops, |runtimes|));
  }

  /** Sum of timings in milliseconds. */
  function SumMs(s: seq<real>): real {
    if s == [] then 0.0 else SumMs(s[..|s| - 1]) + s[|s| - 1]
  }

  lemma {:induction false} SumMsLowerBound(s: seq<real>, floor: real)
    requires forall i :: 0 <= i < |s| ==> s[i] >= floor
    ensures SumMs(s) >= floor * (|s| as real)
  {
    if s != [] {
      SumMsLowerBound(s[..|s| - 1], floor);
    }
  }

  /** The wall clock advances at least as fast as the calls it times. */
  predicate ClockCoversCalls(clock: seq<real>, elapsedMs: seq<real>) {
    forall j :: 0 <= j < |clock| && j <= |elapsedMs| ==> clock[j] >= SumMs(elapsedMs[..j]) / 1000.0
  }

  /** A kernel whose every call takes at least a second still gets exactly
      MinIters calls: the budget is spent after the first, the minimum
      count holds the loop until the third. */
  lemma SlowKernelRunsMinIters(clock: seq<real>, elapsedMs: seq<real>)
    requires |clock| > MinIters && |elapsedMs| >= MinIters
    requires ClockCoversCalls(clock, elapsedMs)
    requires forall i :: 0 <= i < |elapsedMs| ==> elapsedMs[i] >= 1000.0
    ensures ClockReachesBudget(clock)
    ensures ExitIndex(clock) == MinIters
  {
    SumMsLowerBound(elapsedMs[..MinIters], 1000.0);
    assert clock[MinIters] >= MaxRuntime;
    assert !KeepGoing(clock, MinIters);
  }

  /** A kernel that always takes the same time reports the same throughput,
      however many samples the loop took. */
  lemma ConstantKernelThroughput(elapsedMs: seq<real>, clock: seq<real>, t: real)
    requires ClockReachesBudget(clock) && ExitIndex(clock) <= |elapsedMs|
    requires forall i :: 0 <= i < |elapsedMs| ==> elapsedMs[i] == t
    ensures Best(Samples(elapsedMs, clock)) == t / 1000.0
  {
  }
}
