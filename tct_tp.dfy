/**
 * The TCT latency and throughput harness (src/tct_tp.cpp): one run whose
 * device-side sequence loops a single word back and signals each transfer
 * with a task-completion token; the host times `samples` tokens.
 */
module TctTp {
  import opened Outcomes
  import opened HexWord
  import opened NameMatch
  import opened SequenceText
  import opened Loopback

  /** `dpu_instr_str_len`: the required length of a data line. */
  const InstrStrLen: nat := 8
  /** `tnx_len`: bytes in the input buffer. */
  const TnxLen: nat := 4
  /** `tnx_word_count`: words compared after the run. */
  const TnxWordCount: nat := TnxLen / 4
  /** The initial value of the global `samples`. */
  const DefaultSamples: nat := 10000
  /** `samples` for a four-column sequence file. */
  const FourColumnSamples: nat := 20000

  /** The loopback moves one 4-byte word. */
  lemma TransferSize()
    ensures TnxWordCount == 1 && TnxWordCount * 4 == TnxLen
  {
  }

  /**
   * `get_instr_size`: the number of data lines of the sequence file.  Fails
   * when the file cannot be opened, on an empty line, and when there is no
   * data line.
   */
  method GetInstrSize(file: Option<seq<string>>) returns (r: Result<nat, LoadError>)
    ensures file.None? ==> r == Failure(CannotOpen)
    ensures file.Some? && HasEmptyLine(file.value) ==> r == Failure(EmptyLine)
    ensures file.Some? && !HasEmptyLine(file.value) ==>
              if |DataLines(file.value)| == 0 then r == Failure(NoInstructions)
              else r == Success(|DataLines(file.value)|)
    ensures r.Success? ==> r.value > 0
  {
    if file.None? {
      return Failure(CannotOpen);
    }
    var size := CountDataLines(file.value);
    if size.Failure? {
      return size;
    }
    if size.value == 0 {
      return Failure(NoInstructions);
    }
    return size;
  }

  /**
   * `init_instr_buf`: writes the decoded data lines of the named file to
   * consecutive words of the instruction buffer, rejecting a data line whose
   * length is not 8.  Words of earlier data lines stay written when a later
   * line is rejected.
   */
  method InitInstrBuf(file: Option<seq<string>>, instr: array<Word>) returns (error: Option<LoadError>)
    requires file.Some? ==> |DataLines(file.value)| <= instr.Length
    modifies instr
    ensures file.None? ==> error == Some(CannotOpen) && instr[..] == old(instr[..])
    ensures file.Some? ==>
              var pass := Load(file.value, Some(InstrStrLen));
              && error == pass.error
              && |pass.words| <= instr.Length
              && instr[..|pass.words|] == pass.words
              && instr[|pass.words|..] == old(instr[|pass.words|..])
  {
    if file.None? {
      return Some(CannotOpen);
    }
    error := LoadWords(file.value, instr, Some(InstrStrLen));
  }

  /**
   * The instruction buffer as `run_test_iterations` prepares it from the
   * sequence file named on the command line: count, allocate, load.  The
   * result is the program exactly when the file opens, has no empty line, has
   * a data line, and every data line is 8 characters long.
   */
  method PrepareInstructions(file: Option<seq<string>>) returns (r: Result<seq<Word>, LoadError>)
    ensures r.Success? <==> file.Some? && |DataLines(file.value)| > 0 && LoadSucceeds(file.value, Some(InstrStrLen))
    ensures r.Success? ==>
              |r.value| == |DataLines(file.value)| &&
              forall k :: 0 <= k < |r.value| ==> r.value[k] == ExtractHex(DataLines(file.value)[k])
    ensures file.None? ==> r == Failure(CannotOpen)
    ensures file.Some? && HasEmptyLine(file.value) ==> r == Failure(EmptyLine)
    ensures file.Some? && !HasEmptyLine(file.value) && |DataLines(file.value)| == 0 ==> r == Failure(NoInstructions)
    ensures (file.Some? && !HasEmptyLine(file.value) && |DataLines(file.value)| > 0 &&
             !DataLinesOfLength(file.value, InstrStrLen)) ==> r == Failure(InvalidSize)
  {
    var size := GetInstrSize(file);
    if size.Failure? {
      return Failure(size.error);
    }
    var instr := new Word[size.value];
    var error := InitInstrBuf(file, instr);
    LoadErrors(file.value, Some(InstrStrLen));
    LoadDecodes(file.value, Some(InstrStrLen));
    if error.Some? {
      return Failure(error.value);
    }
    return Success(instr[..]);
  }

  /** The kernel predicate: the name starts with "DPU", case-sensitive. */
  predicate IsDpuKernel(name: string) {
    StartsWith(name, "DPU")
  }

  /**
   * The kernel `run_test_iterations` binds: the first name in discovery order
   * that starts with "DPU".  As in df_bw.cpp the `find_if` result is
   * dereferenced before it is checked, so a list without such a name is
   * undefined behaviour and is excluded here.
   */
  function SelectKernel(names: seq<string>): (name: string)
    requires exists i :: 0 <= i < |names| && IsDpuKernel(names[i])
    ensures IsDpuKernel(name)
    ensures exists i :: 0 <= i < |names| && names[i] == name && forall j :: 0 <= j < i ==> !IsDpuKernel(names[j])
  {
    var found := FindFirst(names, ["DPU"]);
    assert forall n :: IsDpuKernel(n) <==> StartsWithAny(n, ["DPU"]) by {
      forall n ensures IsDpuKernel(n) <==> StartsWithAny(n, ["DPU"]) {
        if IsDpuKernel(n) {
          assert "DPU" in ["DPU"];
        }
      }
    }
    names[found.value]
  }

  /**
   * The output check of `run_test_iterations`, as written: on a differing
   * word it constructs the mismatch error but never throws it, so the check
   * passes whatever the buffers hold.
   */
  method CheckOutput(input: array<Word>, output: array<Word>, wordCount: nat) returns (r: Outcome<Mismatch>)
    requires wordCount <= input.Length && wordCount <= output.Length
    ensures r == Pass
  {
    for i := 0 to wordCount {
      if output[i] == input[i] {
        continue;
      }
      var discarded := Mismatch(i, input[i], output[i]);  // built, not thrown
    }
    return Pass;
  }

  /** A loopback whose output word differs from its input word still passes CheckOutput. */
  method MismatchGoesUnreported() returns (input: seq<Word>, output: seq<Word>, r: Outcome<Mismatch>)
    ensures |input| == |output| == TnxWordCount
    ensures !Matches(input, output, TnxWordCount) && r == Pass
  {
    var inBuf := new Word[TnxWordCount];
    var outBuf := new Word[TnxWordCount];
    inBuf[0], outBuf[0] := 7, 0;
    r := CheckOutput(inBuf, outBuf, TnxWordCount);
    input, output := inBuf[..], outBuf[..];
  }

  /**
   * The `samples` rule of `run`: 20000 tokens when the sequence-file argument
   * contains "4col" (as `strstr` finds it), 10000 otherwise.
   */
  function Samples(sequenceFile: string): (n: nat)
    ensures n == FourColumnSamples <==> exists i: nat :: OccursAt(sequenceFile, "4col", i)
    ensures n == DefaultSamples <==> !exists i: nat :: OccursAt(sequenceFile, "4col", i)
  {
    if Contains(sequenceFile, "4col") then FourColumnSamples else DefaultSamples
  }

  /** What `run` takes from the command line. */
  datatype Config = Config(xclbin: string, sequenceFile: string, deviceBdf: string, threads: nat, samples: nat)

  datatype UsageError = Usage(program: string)

  /**
   * `run`'s argument rule: exactly three user arguments (argc = 4): the
   * xclbin, the sequence file and the device BDF; anything else is a usage
   * error.  One worker thread.
   */
  function RunConfig(argv: seq<string>): (r: Result<Config, UsageError>)
    requires |argv| >= 1
    ensures r.Success? <==> |argv| == 4
    ensures r.Success? ==>
              r.value == Config(argv[1], argv[2], argv[3], 1, Samples(argv[2]))
    ensures r.Failure? ==> r.error.program == argv[0]
  {
    if |argv| == 4 then Success(Config(argv[1], argv[2], argv[3], 1, Samples(argv[2])))
    else Failure(Usage(argv[0]))
  }
}
