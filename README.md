# Execution core of the tensara GPU-kernel judge, in Dafny

This project models the sequential logic of `engine/utils.py`, the part of the
judging engine that prepares, times and sandboxes a submitted kernel:

- **nvcc command line** (`nvcc.dfy`, module `Nvcc`): the device table
  `GPU_COMPUTE_CAPABILITIES` and `nvcc_command`. The command is the fixed flags,
  `-arch=compute_XX -code=sm_XX` for the device's code, `-shared` exactly when
  the output ends in `.so`, then `-o`, the output and the sources. An unknown
  device raises `KeyError` at the lookup. A parser for such command lines is
  the partner: parsing the built command recovers the code, the shared flag,
  the output and the sources.
- **Slug to module name** (`slug.dfy`, module `Slug`): `convert_slug_to_module_name`,
  Python's `replace("-", "_")`.
- **Hashable arguments** (`hash_dict.dfy`, module `HashDict`): the argument
  rewriting of `hash_dict`. Dict arguments become `HDict`s with the same items.
  Everything else passes through in order.
- **Argument adapter** (`ctype_cast.dfy`, module `CtypeCast`): `cast_to_ctype`
  over `zip(data, argtypes)` and the argtype slicing of `run_dynamic_benchmark`:
  inputs take `argtypes[:n]`, the output takes `argtypes[n]`, the extras take
  `argtypes[-k:]`, and the call list is inputs + [output] + extras. Tensors are
  known by their device address; ctypes types by their names.
- **Benchmark loop** (`benchmark.dfy`, module `Benchmark`): the stopping rule
  `elapsed < 1 or len(runtimes) < 3`, the samples, `min(runtimes)`, the
  throughput `(flops / best) / 1e9` and the result record. The wall clock and
  the CUDA event timings are inputs: `clock[j]` is `time.time() - start` when
  the loop condition is evaluated after `j` samples, and `elapsedMs[j]` is the
  event time of the `(j+1)`-th call. The record's `"runtime_ms"` field holds
  the number of samples, as the source fills it.
- **Sandboxed event stream** (`subproc.dfy`, module `Subproc`): the worker side
  of `subproc_generator` puts the generator's events on a queue (a class whose
  `Put` appends), then `None`, also when the generator raised. The caller side
  is a receive loop over given receive outcomes (`Got(item)` or `Empty`). It
  yields each received item, stops right after `None`, and on the first
  `Empty` yields one `TIME_LIMIT_EXCEEDED` record and stops.

`wrappers.dfy` holds `Option`, `Result` and the Python exceptions the modelled
lines raise (`KeyError`, `IndexError`, `ZeroDivisionError`).

Notes on what the code does, which a reader might expect otherwise:
- Compile failures are not cached. The compile function is memoised with
  `functools.lru_cache`, which stores no result for a call that raises, so an
  `NVCCError` is raised again on every retry. The cache is not modelled (see below).
- This code has no arity check of its own. `zip` truncates silently, and too
  few argtypes only fail at `argtypes[n]` with `IndexError`. With more argtypes
  than arguments the extras still take the last slots
  (`CtypeCast.CudaCallArgs`). With fewer, one extra is given the output's type
  (`CtypeCast.CudaCallArgsNoArityCheck`). Whether ctypes then rejects the call
  is outside this code and is not modelled.
- The stream has no dedicated terminal event. A plain `None` ends it, and a
  timeout yields a time-limit dict. A worker crash reads as a timeout
  (`Subproc.CrashLooksLikeTimeout`). A `None` yielded by the wrapped
  generator is taken for the end of the stream (`Subproc.ProducedNoneEndsStream`).
- The docstring of `run_dynamic_benchmark` describes a variance-based stopping
  rule. The code uses the fixed rule above, and the model follows it.

## Model

| member | source | states |
|---|---|---|
| `Nvcc.ComputeCapability` | engine/utils.py:25-32 | the lookup succeeds exactly for T4, H100, A100-80GB, A10G, L40S and L4, and otherwise raises KeyError(gpu); L40S and L4 both give "89"; every code is one of the five two-digit codes |
| `Nvcc.NvccCommand` | engine/utils.py:45-64 | an unsupported gpu gives KeyError(gpu) and no command; otherwise the command starts with nvcc -std=c++20 -O2 -Xcompiler -fPIC -arch=compute_SM -code=sm_SM, holds -shared at position 7 exactly when out ends with ".so" and exactly once among the flags, ends with "-o", out, then the sources in order, has no other element, and parses back to (SM, shared, out, srcs) |
| `Nvcc.AssembledCommandShape` | engine/utils.py:52-62 | any command assembled in nvcc_command's append order has that length, prefix and tail, holds -shared once when requested and never otherwise, and parses back to its inputs |
| `Nvcc.FlagsHoldSharedOnce` | engine/utils.py:52-59 | the flags before "-o" hold "-shared" once when the shared flag was appended and not at all otherwise |
| `Slug.ReplaceChar` | engine/utils.py:287 | replacing one character keeps the length and changes exactly the positions holding it |
| `Slug.ConvertSlugToModuleName` | engine/utils.py:283-287 | the module name has the slug's length, holds no '-', has '_' wherever the slug has '-' and the slug's character everywhere else |
| `Slug.ConvertSlugIdempotent` | engine/utils.py:283-287 | converting twice equals converting once |
| `Slug.ConvertSlugFixedPoints` | engine/utils.py:283-287 | a string converts to itself exactly when it holds no '-' |
| `Slug.ConvertSlugMergesSeparators` | engine/utils.py:283-287 | slugs that differ only in '-' versus '_' get the same module name |
| `HashDict.FreezeRoundTrip` | engine/utils.py:73-79 | rewriting one argument never leaves a plain dict, thawing undoes it for anything that was not already an HDict, and rewriting again changes nothing |
| `HashDict.HashDictArgs` | engine/utils.py:79 | positional arguments keep their number and order; non-dicts pass unchanged and dicts become HDicts with the same items |
| `HashDict.HashDictKwargs` | engine/utils.py:80 | keyword arguments keep their names; non-dicts pass unchanged and dicts become HDicts with the same items |
| `HashDict.HashDictArgsThaw` | engine/utils.py:73-79 | for arguments holding no HDict, reading each HDict back as a dict gives the original arguments |
| `HashDict.HashDictArgsIdempotent` | engine/utils.py:79 | rewriting already rewritten arguments changes nothing |
| `CtypeCast.ZipCast` | engine/utils.py:153-157 | the cast list has length min(len(data), len(argtypes)); element i is a pointer cast of data[i]'s address with argtypes[i] for a tensor and argtypes[i] applied to the value otherwise |
| `CtypeCast.UncastRoundTrip` | engine/utils.py:159-160 | the data list passed on unchanged reads back element by element as the original data |
| `CtypeCast.CastToCtype` | engine/utils.py:149-160 | for "cuda" the loop yields min(len(data), len(argtypes)) elements, each a pointer cast for a tensor or a scalar conversion otherwise, with argtypes[i]; for any other language the data unchanged |
| `CtypeCast.SliceTo` | engine/utils.py:237 | argtypes[:n] is the first min(n, len(argtypes)) types |
| `CtypeCast.SliceLastIsPythonSlice` | engine/utils.py:243 | argtypes[-k:] as modelled equals Python's general slice-from-start rule at start -k (a negative start counts from the end, clamped to the list), so the k = 0 and long-k cases follow from the rule |
| `CtypeCast.CudaCallArgs` | engine/utils.py:234-244 | the CUDA call list fails with IndexError(n) exactly when argtypes has no slot n; otherwise it has n + 1 + min(k, len(argtypes)) elements, input i is cast with argtypes[i], the output is a pointer cast with argtypes[n], and extra j is cast with argtypes[m - k + j] when k <= m = len(argtypes) (the last k slots) and with argtypes[j] when k > m |
| `CtypeCast.PythonCallArgs` | engine/utils.py:262 | the Python call passes inputs + [output] + extras unchanged |
| `CtypeCast.CudaCallArgsAligned` | engine/utils.py:236-260 | when argtypes has exactly n + 1 + k slots the call list fills them in order: slot i is the i-th of inputs + [output] + extras cast with argtypes[i] |
| `CtypeCast.CudaCallArgsNoArityCheck` | engine/utils.py:236-244 | with more than n but fewer than n + 1 + k argtypes this code still builds the call list, and one extra is cast with the output's type argtypes[n] |
| `CtypeCast.NoExtrasEndAtOutput` | engine/utils.py:242-244 | with no extras argtypes[-0:] is the whole list, yet the call list ends with the output |
| `Benchmark.ExitIndexFrom` | engine/utils.py:256 | the first sample count from a start at which the loop condition fails, with the condition holding at every count before it |
| `Benchmark.ExitIndex` | engine/utils.py:248-256 | the loop takes at least 3 samples, stops only once elapsed >= 1, and the condition elapsed < 1 or count < 3 held at every smaller count |
| `Benchmark.Samples` | engine/utils.py:256-268 | one sample per iteration, in order, each the event time divided by 1000, at least 3 of them |
| `Benchmark.Best` | engine/utils.py:270 | min(runtimes) is no larger than any sample and equal to one of them |
| `Benchmark.RunDynamicBenchmark` | engine/utils.py:211-280 | "cuda" with no argtype slot after the inputs raises IndexError(n) before the loop; otherwise the call list is the adapter's (or the raw arguments for "python", none for other languages), the loop collects exactly the samples of the stopping rule, a zero best time raises ZeroDivisionError, and the record holds name, test id, (flops / min) / 1e9 and the sample count in "runtime_ms" |
| `Benchmark.SlowKernelRunsMinIters` | engine/utils.py:249-256 | when the clock covers the calls and every call takes at least one second, the loop takes exactly 3 samples |
| `Benchmark.ConstantKernelThroughput` | engine/utils.py:268-271 | a kernel that always takes t ms has best time t / 1000 s, whatever the number of samples |
| `Subproc.SubprocWrapper` | engine/utils.py:292-298 | the queue receives the generator's events in order, then exactly one None, whether or not the generator raised |
| `Subproc.Stream` | engine/utils.py:305-318 | the caller yields at most one element per receive |
| `Subproc.FirstEnd` | engine/utils.py:307-311 | the index of the first receive that is None or a timeout, every earlier receive being an event |
| `Subproc.Wrapper` | engine/utils.py:300-318 | the receive loop yields exactly the stream of its receive outcomes |
| `Subproc.StreamShape` | engine/utils.py:305-318 | the yielded sequence is the items received before the first None or timeout, in order, then exactly one terminal element (None, or for a timeout the record with status "TIME_LIMIT_EXCEEDED" and message "Time Limit Exceeded"), and nothing after it |
| `Subproc.NormalRunDeliversAll` | engine/utils.py:295-310 | when every receive gets the next queued item in time, the caller yields the worker's events in order followed by None |
| `Subproc.TimeoutEndsStream` | engine/utils.py:311-318 | a timeout after a prefix of events yields that prefix then exactly one record with status "TIME_LIMIT_EXCEEDED" and message "Time Limit Exceeded" |
| `Subproc.FirstEndWithinQueue` | engine/utils.py:305-311 | with receives that agree with the queue, the stream ends no later than the receive after the last queued item |
| `Subproc.CrashLooksLikeTimeout` | engine/utils.py:292-318 | a worker that stops before putting None is seen as a timeout: the stream ends with the time-limit record and never yields None |
| `Subproc.ProducedNoneEndsStream` | engine/utils.py:295-310 | a None yielded by the wrapped generator ends the stream there, and later events are lost |
| `Subproc.RunToCompletion` | engine/utils.py:292-318 | end to end, worker then caller with timely receives yields exactly the events and then None, whether or not the generator raised |

## Left out

- `run_nvcc_and_return_bytes` (engine/utils.py:86-127): it runs nvcc as a subprocess and works with temporary files and directories. It is I/O and is not modelled.
- The compile cache (`functools.lru_cache(maxsize=512)`) is library code. Its eviction order is not modelled. It stores nothing for a call that raises, so compile failures are not cached; the model makes no caching claim.
- `hash_dict`: the `HDict.__hash__` method and the wrapped call are not modelled; only the argument rewriting is.
- `read_bytes_as_cuda_lib` and `load_problem_module` rely on `ctypes.CDLL` loading, file cleanup and `exec`. These are foreign calls and are not modelled.
- `prepare_gpu`, `get_nvidia_smi` and `DTYPE_MAP` are device calls and are not modelled.
- `NVCCError` is raised only by the compile path above and is not modelled.
- The real clock and the CUDA events: `time.time()`, `Event.record`, `synchronize` and `elapsed_time` become the `clock` and `elapsedMs` inputs. The kernel call itself is the call list the model returns; its effect on the device is not modelled.
- Benchmark.RunDynamicBenchmark: requires that the clock readings reach the one-second budget after at least 3 samples. A run whose clock never does so would loop forever and is not modelled.
- Benchmark.RunDynamicBenchmark: the throughput is computed over reals, so floating-point rounding is not modelled. Float division by zero is modelled as ZeroDivisionError.
- CtypeCast.CastToCtype: the conversions `argtype(value)` and `ctypes.cast(address, argtype)` are recorded, not performed. The TypeError that ctypes raises for a mismatched type is not modelled.
- Benchmark.RunDynamicBenchmark: the kernel call's own failures are not modelled: ctypes' argument-count and conversion checks and a fault in the kernel. A Success result assumes every call returns.
- HashDict.HashDictKwargs: keyword arguments are a map, so their order, which the dict comprehension keeps and the cache key depends on, is not modelled. This matters only to the cache, which is left out.
- The default arguments `language="cuda"` and `timeout=None` are not modelled: callers pass the language explicitly, and the timeout is a number. A `None` timeout means a receive never times out; with it no `Empty` outcome occurs.
- The lookups `solution_func.argtypes` and `test_case["name"]` are taken as given inputs, and their failures are not modelled.
- Subproc.TleRecord: the record carries the timeout as a number; the `details` text formatted with `{timeout:.2f}` is not modelled.
- Subproc.Wrapper: process start, `terminate`, `join` and `close` are OS plumbing and are not modelled. Each `my_queue.get(timeout=...)` is given as its outcome. When the outcomes run out before the stream ends, the consumer has stopped pulling the lazy generator.
