/**
 * The DF bandwidth harness (src/df_bw.cpp): loops 1 GiB through one shim DMA
 * channel pair, `it_max` times, then checks that the output buffer equals the
 * input buffer word for word.
 */
module DfBw {
  import opened Outcomes
  import opened HexWord
  import opened NameMatch
  import opened SequenceText
  import opened Loopback

  /** `dpu_instr_str_len`: the required length of a data line. */
  const InstrStrLen: nat := 8
  const TnxLenGb: nat := 1
  /** `tnx_len`: bytes moved per iteration. */
  const TnxLen: nat := TnxLenGb * 1024 * 1024 * 1024
  /** `tnx_word_count`: 32-bit words in the input and output buffers. */
  const TnxWordCount: nat := TnxLen / 4
  /** The iteration count used when none is given on the command line. */
  const DefaultIterations: int := 600

  /** One transaction is 1 GiB, that is 2^28 words of 4 bytes. */
  lemma TransferSize()
    ensures TnxLen == 0x4000_0000
    ensures TnxWordCount == 0x1000_0000 && TnxWordCount * 4 == TnxLen
  {
  }

  /**
   * `get_instr_size`: the number of data lines of the sequence file.  Fails
   * when the file cannot be opened, on an empty line, and when there is no
   * data line.
   */
  method GetInstrSize(file: Option<seq<string>>) returns (r: Result<nat, LoadError>)
    ensures file.None? ==> r == Failure(CannotOpen)
    ensures file.Some? && HasEmptyLine(file.value) ==> r == Failure(EmptyLine)
    ensures file.Some? && !HasEmptyLine(file.value) ==>
              if |DataLines(file.value)| == 0 then r == Failure(NoInstructions)
              else r == Success(|DataLines(file.value)|)
    ensures r.Success? ==> r.value > 0
  {
    if file.None? {
      return Failure(CannotOpen);
    }
    var size := CountDataLines(file.value);
    if size.Failure? {
      return size;
    }
    if size.value == 0 {
      return Failure(NoInstructions);
    }
    return size;
  }

  /**
   * `init_instr_buf`: writes the decoded data lines to consecutive words of
   * the instruction buffer, rejecting a data line whose length is not 8.
   * Words of earlier data lines stay written when a later line is rejected.
   */
  method InitInstrBuf(file: Option<seq<string>>, instr: array<Word>) returns (error: Option<LoadError>)
    requires file.Some? ==> |DataLines(file.value)| <= instr.Length
    modifies instr
    ensures file.None? ==> error == Some(CannotOpen) && instr[..] == old(instr[..])
    ensures file.Some? ==>
              var pass := Load(file.value, Some(InstrStrLen));
              && error == pass.error
              && |pass.words| <= instr.Length
              && instr[..|pass.words|] == pass.words
              && instr[|pass.words|..] == old(instr[|pass.words|..])
  {
    if file.None? {
      return Some(CannotOpen);
    }
    error := LoadWords(file.value, instr, Some(InstrStrLen));
  }

  /**
   * The instruction buffer as `run_test_iterations` prepares it: count the
   * data lines, allocate that many words, load them.  Both passes read the
   * same file.  The result is the program exactly when the file opens, has no
   * empty line, has a data line, and every data line is 8 characters long;
   * the program is then the decoded data lines in file order.
   */
  method PrepareInstructions(file: Option<seq<string>>) returns (r: Result<seq<Word>, LoadError>)
    ensures r.Success? <==> file.Some? && |DataLines(file.value)| > 0 && LoadSucceeds(file.value, Some(InstrStrLen))
    ensures r.Success? ==>
              |r.value| == |DataLines(file.value)| &&
              forall k :: 0 <= k < |r.value| ==> r.value[k] == ExtractHex(DataLines(file.value)[k])
    ensures file.None? ==> r == Failure(CannotOpen)
    ensures file.Some? && HasEmptyLine(file.value) ==> r == Failure(EmptyLine)
    ensures file.Some? && !HasEmptyLine(file.value) && |DataLines(file.value)| == 0 ==> r == Failure(NoInstructions)
    ensures (file.Some? && !HasEmptyLine(file.value) && |DataLines(file.value)| > 0 &&
             !DataLinesOfLength(file.value, InstrStrLen)) ==> r == Failure(InvalidSize)
  {
    var size := GetInstrSize(file);
    if size.Failure? {
      return Failure(size.error);
    }
    var instr := new Word[size.value];
    var error := InitInstrBuf(file, instr);
    LoadErrors(file.value, Some(InstrStrLen));
    LoadDecodes(file.value, Some(InstrStrLen));
    if error.Some? {
      return Failure(error.value);
    }
    return Success(instr[..]);
  }

  /** The kernel predicate of `run_test_iterations`: the name starts with "DPU". */
  predicate IsDpuKernel(name: string) {
    StartsWith(name, "DPU")
  }

  /**
   * The kernel `run_test_iterations` binds: the first name in discovery order
   * that starts with "DPU".  The source dereferences the `find_if` result
   * before checking it, so a kernel list without such a name is undefined
   * behaviour and is excluded here.
   */
  function SelectKernel(names: seq<string>): (name: string)
    requires exists i :: 0 <= i < |names| && IsDpuKernel(names[i])
    ensures IsDpuKernel(name)
    ensures exists i :: 0 <= i < |names| && names[i] == name && forall j :: 0 <= j < i ==> !IsDpuKernel(names[j])
  {
    var found := FindFirst(names, ["DPU"]);
    assert forall n :: IsDpuKernel(n) <==> StartsWithAny(n, ["DPU"]) by {
      forall n ensures IsDpuKernel(n) <==> StartsWithAny(n, ["DPU"]) {
        if IsDpuKernel(n) {
          assert "DPU" in ["DPU"];
        }
      }
    }
    names[found.value]
  }

  /**
   * The result check of `run_test_iterations` over `wordCount` words (the
   * harness passes `tnx_word_count`): passes exactly when every output word
   * equals its input word, and otherwise stops at the first differing index
   * and reports it with both values.
   */
  method CheckResults(input: array<Word>, output: array<Word>, wordCount: nat) returns (r: Outcome<Mismatch>)
    requires wordCount <= input.Length && wordCount <= output.Length
    ensures r.Pass? <==> Matches(input[..], output[..], wordCount)
    ensures r.Fail? ==> IsFirstMismatch(r.error, input[..], output[..], wordCount)
  {
    for i := 0 to wordCount
      invariant Matches(input[..], output[..], i)
    {
      if output[i] == input[i] {
        continue;
      }
      return Fail(Mismatch(i, input[i], output[i]));
    }
    return Pass;
  }

  /** What `run` takes from the command line. */
  datatype Config = Config(xclbin: string, threads: nat, iterations: int)

  datatype UsageError = Usage(program: string)

  /**
   * `run`'s argument rule: with the xclbin alone (argc = 2) 600 iterations,
   * with an iteration count as well (argc = 3) that count, as `atoi` reads it;
   * anything else is a usage error.  One worker thread in every case.
   */
  function RunConfig(argv: seq<string>, atoi: string -> int): (r: Result<Config, UsageError>)
    requires |argv| >= 1
    ensures r.Success? <==> |argv| == 2 || |argv| == 3
    ensures r.Success? ==> r.value.threads == 1 && r.value.xclbin == argv[1]
    ensures |argv| == 2 ==> r.Success? && r.value.iterations == DefaultIterations
    ensures |argv| == 3 ==> r.Success? && r.value.iterations == atoi(argv[2])
    ensures r.Failure? ==> r.error.program == argv[0]
  {
    if |argv| == 2 then Success(Config(argv[1], 1, DefaultIterations))
    else if |argv| == 3 then Success(Config(argv[1], 1, atoi(argv[2])))
    else Failure(Usage(argv[0]))
  }
}
