/**
 * The GEMM TOPS harness (src/host_hal.cpp): one run of an int8 GEMM
 * sequence, after which the per-core cycle counts are read back from a
 * 4 KiB result buffer and summed.
 */
module HostHal {
  import opened Outcomes
  import opened HexWord
  import opened NameMatch
  import opened SequenceText

  /**
   * `get_instr_size`: the number of data lines.  A file that cannot be opened
   * gives 0 rather than an error; an empty line still throws from `line.at(0)`.
   */
  method GetInstrSize(file: Option<seq<string>>) returns (r: Result<nat, LoadError>)
    ensures file.None? ==> r == Success(0)
    ensures file.Some? && HasEmptyLine(file.value) ==> r == Failure(EmptyLine)
    ensures file.Some? && !HasEmptyLine(file.value) ==> r == Success(|DataLines(file.value)|)
  {
    if file.None? {
      return Success(0);
    }
    r := CountDataLines(file.value);
  }

  /**
   * `init_hex_buf`: writes the decoded data lines to consecutive words of
   * `buff`.  No line length is checked and `bytesize` is not used; a file
   * that cannot be opened aborts the process.
   */
  method InitHexBuf(buff: array<Word>, bytesize: nat, file: Option<seq<string>>) returns (error: Option<LoadError>)
    requires file.Some? ==> |DataLines(file.value)| <= buff.Length
    modifies buff
    ensures file.None? ==> error == Some(CannotOpen) && buff[..] == old(buff[..])
    ensures file.Some? ==>
              var pass := Load(file.value, None);
              && error == pass.error
              && |pass.words| <= buff.Length
              && buff[..|pass.words|] == pass.words
              && buff[|pass.words|..] == old(buff[|pass.words|..])
  {
    if file.None? {
      return Some(CannotOpen);
    }
    error := LoadWords(file.value, buff, None);
  }

  /**
   * The instruction buffer as `main` prepares it: count, reject a count of
   * zero, allocate, load.  A file that cannot be opened is reported as a
   * zero-length program, since the count comes back 0 before the loader
   * could abort.  Any line length is accepted; the program is the decoded
   * data lines in file order.
   */
  method PrepareInstructions(file: Option<seq<string>>) returns (r: Result<seq<Word>, LoadError>)
    ensures r.Success? <==> file.Some? && !HasEmptyLine(file.value) && |DataLines(file.value)| > 0
    ensures r.Success? ==>
              |r.value| == |DataLines(file.value)| &&
              forall k :: 0 <= k < |r.value| ==> r.value[k] == ExtractHex(DataLines(file.value)[k])
    ensures file.None? ==> r == Failure(NoInstructions)
    ensures file.Some? && HasEmptyLine(file.value) ==> r == Failure(EmptyLine)
    ensures file.Some? && !HasEmptyLine(file.value) && |DataLines(file.value)| == 0 ==> r == Failure(NoInstructions)
  {
    var size := GetInstrSize(file);
    if size.Failure? {
      return Failure(size.error);
    }
    if size.value == 0 {
      return Failure(NoInstructions);
    }
    var instr := new Word[size.value];
    var error := InitHexBuf(instr, size.value, file);
    LoadErrors(file.value, None);
    LoadDecodes(file.value, None);
    assert error == None;
    return Success(instr[..]);
  }

  /** The kernel predicate of `main`: the name starts with "DPU" or with "dpu". */
  predicate IsDpuKernel(name: string) {
    StartsWith(name, "DPU") || StartsWith(name, "dpu")
  }

  /** Only the two spellings match: a name starting "Dpu" is not a DPU kernel. */
  lemma MixedCaseIsNotDpu(name: string)
    requires StartsWith(name, "Dpu")
    ensures !IsDpuKernel(name)
  {
  }

  datatype KernelError = NoValidKernel

  /**
   * The kernel `main` binds: the first name in discovery order that starts
   * with "DPU" or "dpu"; "xclbin does not have a valid kernel" when none does.
   */
  function SelectKernel(names: seq<string>): (r: Result<string, KernelError>)
    ensures r.Failure? <==> forall i :: 0 <= i < |names| ==> !IsDpuKernel(names[i])
    ensures r.Success? ==>
              IsDpuKernel(r.value) &&
              exists i :: 0 <= i < |names| && names[i] == r.value && forall j :: 0 <= j < i ==> !IsDpuKernel(names[j])
  {
    assert forall n :: IsDpuKernel(n) <==> StartsWithAny(n, ["DPU", "dpu"]) by {
      forall n ensures IsDpuKernel(n) <==> StartsWithAny(n, ["DPU", "dpu"]) {
        if StartsWith(n, "DPU") {
          assert "DPU" in ["DPU", "dpu"];
        }
        if StartsWith(n, "dpu") {
          assert "dpu" in ["DPU", "dpu"];
        }
      }
    }
    match FindFirst(names, ["DPU", "dpu"])
    case None => Failure(NoValidKernel)
    case Some(i) => Success(names[i])
  }

  /** `size_4K`: bytes in the result buffer. */
  const Size4K: nat := 0x1000
  /** `offset_3K`: the byte offset at which the cycle counts are read. */
  const Offset3K: nat := 0x0C00
  const WordBytes: nat := 4
  /** `max_count_in_size_3K`: record timer entries of two 32-bit words that fit in 3 KiB, less the count word. */
  const MaxCountIn3K: int := Offset3K / (2 * WordBytes) - 1
  /** `NumofCores`: the number of per-core cycle counts read. */
  const NumOfCores: nat := 32
  /** The result buffer and the read offset in 32-bit words. */
  const BufferWords: nat := Size4K / WordBytes
  const OffsetWords: nat := Offset3K / WordBytes

  /** The guard of `main`'s cycle-count loop, as written. */
  predicate CapacityGuard(numCores: nat)
    ensures CapacityGuard(numCores) <==> numCores <= 383
  {
    numCores <= MaxCountIn3K
  }

  /** The reads start at `offset_3K`: `numCores` of them stay inside the 4 KiB buffer. */
  predicate ReadsInBuffer(numCores: nat) {
    OffsetWords + numCores <= BufferWords
  }

  /**
   * The guard bounds the count by the 3 KiB below `offset_3K`, but the reads
   * start at `offset_3K`, where only 1 KiB is left: every count from 257 to
   * 383 passes the guard and reads past the end of the buffer.
   */
  lemma GuardAdmitsOverrun()
    ensures MaxCountIn3K == 383 && BufferWords - OffsetWords == 256
    ensures forall n: nat :: CapacityGuard(n) && !ReadsInBuffer(n) <==> 257 <= n <= 383
  {
  }

  /** With the shipped 32 cores both bounds hold and the words read are 768 to 799 of 1024. */
  lemma TelemetryWindow()
    ensures CapacityGuard(NumOfCores) && ReadsInBuffer(NumOfCores)
    ensures BufferWords == 1024 && OffsetWords == 768 && OffsetWords + NumOfCores - 1 == 799
  {
  }

  /** The sum of the cycle counts read, `Total_cycle_count`. */
  function Sum(counts: seq<Word>): nat {
    if counts == [] then 0 else Sum(counts[..|counts| - 1]) + counts[|counts| - 1]
  }

  /**
   * `Total_cycle_count` is accumulated in a double; the sum of at most 383
   * 32-bit counts stays below 2^53, so the double holds it exactly and the
   * integer sum is the value the harness prints.
   */
  lemma {:induction false} SumIsExactInDouble(counts: seq<Word>)
    ensures Sum(counts) <= |counts| * (WordLimit - 1)
    ensures |counts| <= MaxCountIn3K ==> Sum(counts) < 0x20_0000_0000_0000
  {
    if counts != [] {
      SumIsExactInDouble(counts[..|counts| - 1]);
    }
  }

  /**
   * The cycle-count loop of `main`: reads `numCores` consecutive words from
   * word `OffsetWords` of the result buffer and sums them.  The loop runs
   * only under the guard; here the guard also requires the reads to stay in
   * the buffer (see GuardAdmitsOverrun), which changes nothing for the
   * shipped 32 cores.
   */
  method TotalCycleCount(result: array<Word>, numCores: nat) returns (ran: bool, total: nat)
    requires result.Length == BufferWords
    ensures ran <==> CapacityGuard(numCores) && ReadsInBuffer(numCores)
    ensures ran ==> total == Sum(result[OffsetWords..OffsetWords + numCores])
    ensures !ran ==> total == 0
  {
    total := 0;
    ran := CapacityGuard(numCores) && ReadsInBuffer(numCores);
    if !ran {
      return;
    }
    var core := OffsetWords;  // core_ptr, as a word index
    for i := 0 to numCores
      invariant core == OffsetWords + i
      invariant total == Sum(result[OffsetWords..core])
    {
      assert result[OffsetWords..core + 1][..i] == result[OffsetWords..core];
      total := total + result[core];
      core := core + 1;
    }
  }

  /** The GEMM workload: 8x8x8 MACs of 2 operations, 2*2*12*4 loop iterations. */
  const NumberMacs: nat := 8 * 8 * 8
  const NumberOps: nat := NumberMacs * 2
  const TotalInnerOuterLoopCount: nat := 2 * 2 * 12 * 4
  const TotalOps: nat := NumberOps * TotalInnerOuterLoopCount

  /** `Total_OPs` is 192 K operations: 1024 per 8x8x8 matmul, 192 of them. */
  lemma WorkloadOps()
    ensures NumberMacs == 512 && NumberOps == 1024 && TotalInnerOuterLoopCount == 192
    ensures TotalOps == 192 * 1024 == 196608
  {
  }
}
