/** The nvcc command line built for a device and a list of sources
    (engine/utils.py:25-32 and 45-64). */
module Nvcc {
  import opened Wrappers

  /** Device name to compute-capability code. */
  const GpuComputeCapabilities: map<string, string> :=
    map["T4" := "75", "H100" := "90", "A100-80GB" := "80",
        "A10G" := "86", "L40S" := "89", "L4" := "89"]

  /** The devices a command can be built for, listed independently of the table. */
  const SupportedGpus: set<string> := {"T4", "H100", "A100-80GB", "A10G", "L40S", "L4"}

  const BaseFlags: seq<string> := ["nvcc", "-std=c++20", "-O2", "-Xcompiler", "-fPIC"]
  const ArchPrefix: string := "-arch=compute_"
  const CodePrefix: string := "-code=sm_"
  const SharedFlag: string := "-shared"
  const SharedSuffix: string := ".so"

  predicate StartsWith(s: string, prefix: string) {
    |prefix| <= |s| && s[..|prefix|] == prefix
  }

  /** Python's str.endswith. */
  predicate EndsWith(s: string, suffix: string) {
    |suffix| <= |s| && s[|s| - |suffix|..] == suffix
  }

  /** The table lookup GPU_COMPUTE_CAPABILITIES[gpu]; a missing key raises KeyError. */
  function ComputeCapability(gpu: string): (r: Result<string, PyException>)
    ensures r.Success? <==> gpu in SupportedGpus
    ensures r.Failure? ==> r.error == KeyError(gpu)
    ensures gpu == "L40S" || gpu == "L4" ==> r == Success("89")
    ensures r.Success? ==> |r.value| == 2 && r.value in {"75", "90", "80", "86", "89"}
  {
    if gpu in GpuComputeCapabilities then Success(GpuComputeCapabilities[gpu])
    else Failure(KeyError(gpu))
  }

  /** What an nvcc command line says: the target code, whether a shared
      library is requested, the output path and the sources. */
  datatype NvccInvocation = NvccInvocation(sm: string, shared: bool, out: string, srcs: seq<string>)

  /** Reads a command line back into the invocation it requests; None when
      it does not have the shape nvcc_command produces. */
  function ParseNvccCommand(cmd: seq<string>): (r: Option<NvccInvocation>)
    ensures r.Some? ==> |cmd| >= 9 && cmd[..5] == BaseFlags
  {
    if |cmd| < 9 || cmd[..5] != BaseFlags || !StartsWith(cmd[5], ArchPrefix) then None
    else
      var sm := cmd[5][|ArchPrefix|..];
      if cmd[6] != CodePrefix + sm then None
      else
        var shared := cmd[7] == SharedFlag;
        var rest := if shared then cmd[8..] else cmd[7..];
        if |rest| < 2 || rest[0] != "-o" then None
        else Some(NvccInvocation(sm, shared, rest[1], rest[2..]))
  }

  /** The command for code `sm`: the fixed flags, "-shared" when requested,
      then "-o", the output and the sources. */
  ghost predicate IsCommandFor(cmd: seq<string>, sm: string, shared: bool, out: string, srcs: seq<string>) {
    && |cmd| == 9 + (if shared then 1 else 0) + |srcs|
    && cmd[..7] == BaseFlags + ["-arch=compute_" + sm, "-code=sm_" + sm]
    && (cmd[7] == "-shared" <==> shared)
    && cmd[|cmd| - |srcs| - 2..] == ["-o", out] + srcs
    && multiset(cmd[..|cmd| - |srcs| - 2])["-shared"] == (if shared then 1 else 0)
    && ParseNvccCommand(cmd) == Some(NvccInvocation(sm, shared, out, srcs))
  }

  /** nvcc_command: the command is assembled by appending, exactly as the
      source does; an unsupported device fails at the lookup. */
  method NvccCommand(gpu: string, srcs: seq<string>, out: string)
    returns (r: Result<seq<string>, PyException>)
    ensures r.Failure? <==> gpu !in SupportedGpus
    ensures r.Failure? ==> r.error == KeyError(gpu)
    ensures r.Success? ==> IsCommandFor(r.value, ComputeCapability(gpu).value, EndsWith(out, ".so"), out, srcs)
  {
    var lookup := ComputeCapability(gpu);
    if lookup.Failure? {
      return Failure(lookup.error);
    }
    var sm := lookup.value;
    var cmd := BaseFlags;
    cmd := cmd + [ArchPrefix + sm, CodePrefix + sm];
    if EndsWith(out, SharedSuffix) {
      cmd := cmd + [SharedFlag];
    }
    cmd := cmd + (["-o", out] + srcs);
    AssembledCommandShape(sm, EndsWith(out, SharedSuffix), out, srcs, cmd);
    return Success(cmd);
  }

  /** Any command assembled in the order nvcc_command uses has the promised
      shape, and parsing it recovers every input. */
  lemma AssembledCommandShape(sm: string, shared: bool, out: string, srcs: seq<string>, cmd: seq<string>)
    requires cmd == BaseFlags + [ArchPrefix + sm, CodePrefix + sm] + (if shared then [SharedFlag] else []) + (["-o", out] + srcs)
    ensures IsCommandFor(cmd, sm, shared, out, srcs)
  {
    var flags := BaseFlags + [ArchPrefix + sm, CodePrefix + sm] + (if shared then [SharedFlag] else []);
    assert cmd[..|cmd| - |srcs| - 2] == flags;
    assert cmd[|cmd| - |srcs| - 2..] == ["-o", out] + srcs;
    FlagsHoldSharedOnce(sm, shared, flags);
    assert cmd[5] == ArchPrefix + sm && (ArchPrefix + sm)[|ArchPrefix|..] == sm;
    assert StartsWith(cmd[5], ArchPrefix);
    var rest := if shared then cmd[8..] else cmd[7..];
    assert rest == ["-o", out] + srcs;
  }

  /** The flags ahead of "-o" hold "-shared" once when requested and never otherwise. */
  lemma FlagsHoldSharedOnce(sm: string, shared: bool, flags: seq<string>)
    requires flags == BaseFlags + [ArchPrefix + sm, CodePrefix + sm] + (if shared then [SharedFlag] else [])
    ensures multiset(flags)[SharedFlag] == if shared then 1 else 0
  {
  }
}
