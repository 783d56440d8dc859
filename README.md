# Host-side bookkeeping of the AIE benchmark harnesses

This project models the host code of three XRT benchmark programs for the AMD
NPU (AIE array) and proves properties about that model. The programs are:

- **df_bw** (`src/df_bw.cpp`) measures DF bandwidth. It loops 1 GiB of words through one shim DMA channel pair, then checks that the output equals the input.
- **tct_tp** (`src/tct_tp.cpp`) measures TCT latency and throughput. It loops one word back and times a number of tokens.
- **host_hal** (`src/host_hal.cpp`) runs a GEMM sequence. It then sums the per-core cycle counts the device writes into a 4 KiB result buffer.

Each program first binds the first kernel of the xclbin whose name starts
with "DPU"; host_hal also accepts a name that starts with "dpu". So a missing
kernel is met before any file error. Only then does the program count and load
an *instruction sequence*. This is a text file with one 32-bit hexadecimal word
per line, and `#` lines are comments.

The model is split into these modules:

- `HexWord` covers 32-bit words and `>> std::hex` decoding. It also has the eight-digit spelling the sequence files use, with a round trip.
- `NameMatch` covers the prefix test (`rfind(prefix, 0) == 0`), `strstr`, and `find_if` over a kernel list.
- `SequenceText` covers what the sequence file means. `DataLines` gives the data lines and `Load` is the loading pass as a function. It also holds the two loops every harness shares:
  - the counting loop of `get_instr_size`;
  - the loading loop of `init_instr_buf` / `init_hex_buf`, which writes a word `array` through an advancing index.
- `Loopback` covers the output-equals-input check and its first mismatch.
- `DfBw`, `TctTp` and `HostHal` model what each harness does around the shared loops. That covers:
  - whether the file opens;
  - the zero-count check;
  - the line-length check;
  - kernel selection;
  - command-line rules;
  - result checking;
  - constants.

`src/tct_tp.cpp` repeats the counter, the loader and the kernel search of
`src/df_bw.cpp` line for line. The `TctTp` module repeats the matching
`DfBw` members, so that each module stands for one program.

A file is an `Option<seq<string>>`. `None` is a file that cannot be opened, and
`Some(lines)` holds the lines `getline` yields. Both passes call `line.at(0)`,
which throws on an empty line, so an empty line is always an error.

## Model

| member | source | states |
|---|---|---|
| HexWord.ExtractHex | src/host_hal.cpp:62-65 | On a line of hex digits whose value fits in 32 bits, the word stored is that value, most significant digit first, whatever the line's length. The unchecked host_hal loader accepts such lines, for example "000000012" stores 0x12. A hex line whose value does not fit stores 0xFFFFFFFF. |
| HexWord.EightDigitsDecodeExactly | src/df_bw.cpp:54-58 | A line of at most 8 hex digits, which is what the 8-character check admits, always decodes to its exact value. |
| HexWord.HexValueIgnoresCase | src/host_hal.cpp:64 | Decoding ignores letter case: lines that differ only in the case of a-f decode to the same value. |
| HexWord.HexValueBound | src/df_bw.cpp:58 | n hex digits always spell a value below 16^n. |
| HexWord.FormatWord | src/df_bw.cpp:33-35 | The spelling of a word as a sequence-file line has exactly 8 hex digits. |
| HexWord.WordRoundTrip | src/df_bw.cpp:33-35 | Decoding the eight-digit spelling of a word gives back the word. |
| HexWord.HexPrefix | src/host_hal.cpp:63-64 | What the extraction consumes is the longest prefix made of hex digits; the character after it is not a hex digit. |
| NameMatch.Contains | src/tct_tp.cpp:154 | `strstr(s, p) != NULL` holds exactly when some position of s starts a copy of p. |
| NameMatch.StartsWith | src/host_hal.cpp:93-94 | `name.rfind(prefix, 0) == 0` holds exactly when the name is at least as long as the prefix and agrees with it character by character from position 0. Case matters. The same test is at src/df_bw.cpp:96 and src/tct_tp.cpp:94. |
| NameMatch.FindFirst | src/host_hal.cpp:90-96 | `find_if` returns the index of the first name that starts with one of the prefixes, and none exactly when no name does. |
| SequenceText.DataLines | src/df_bw.cpp:73-78 | The data lines of a file are at most as many as its lines. |
| SequenceText.DataLinesAppend | src/df_bw.cpp:75-78 | The data lines of two consecutive parts of a file are the data lines of the first part followed by those of the second. |
| SequenceText.DataLinesCount | src/df_bw.cpp:75-78 | The number of data lines equals the number of lines whose first character is not `#`. |
| SequenceText.CountDataLines | src/df_bw.cpp:75-78 | The counting loop fails exactly when some line is empty, and the failure is the `line.at(0)` exception. Otherwise it returns the number of data lines. |
| SequenceText.Load | src/df_bw.cpp:47-60 | The loading pass of `init_instr_buf` / `init_hex_buf` as a function. It can stop only with the `line.at(0)` error or, when lengths are checked, "Invalid DPU instruction size"; without the check only the first. It writes at most one word per line. What it writes and where it stops are stated by LoadDecodes, LoadErrors and LoadStopsAtFirstBadLine. |
| SequenceText.HasEmptyLineHead | src/df_bw.cpp:47-48 | A file has an empty line exactly when its first line is empty or the rest has one. |
| SequenceText.LoadErrors | src/df_bw.cpp:47-60 | The loading pass runs to the end of the file exactly when no line is empty and, when lengths are checked, every data line has the required length. With no empty line, the only error is `InvalidSize`. With no length check, an empty line gives the `line.at(0)` error. |
| SequenceText.LoadDecodes | src/df_bw.cpp:47-59 | The k-th word written is the decoded k-th data line. A pass that completes writes exactly one word per data line. |
| SequenceText.LoadSucceedsCons | src/df_bw.cpp:47-49 | Putting a line that passes on its own in front of a file does not change whether the pass over the file completes. |
| SequenceText.LoadStopsAtFirstBadLine | src/df_bw.cpp:54-59 | A pass that fails stops at the first line that fails on its own: an empty line, or a data line of the wrong length when lengths are checked. The error is that line's error. Exactly the decoded data lines before it have been written, one word each. |
| SequenceText.LoadSkipsComments | src/df_bw.cpp:48-49 | Comment lines write nothing: with no empty line, loading a file is the same as loading its data lines. |
| SequenceText.Encode | src/df_bw.cpp:33-35 | The file that spells a word sequence has one line per word, and that line is the word's eight-digit spelling. |
| SequenceText.EncodedLinesAreData | src/df_bw.cpp:73-74 | Every line of an encoded file is a non-empty data line. |
| SequenceText.LoadEncoded | src/df_bw.cpp:46-59 | An encoded file loads back to its words without error, with or without the 8-character check. |
| SequenceText.LoadRoundTrip | src/host_hal.cpp:49-68 | A file whose data lines spell the words, with comment lines anywhere among them, loads back to exactly those words. |
| SequenceText.LoadWords | src/df_bw.cpp:47-60 | The loading loop writes the words of the loading pass to the first slots of the buffer and leaves every later slot unchanged. It stops with the pass's error: an empty line, or a data line of the wrong length when lengths are checked. |
| Loopback.FirstMismatchIsLocal | src/df_bw.cpp:153-159 | The first mismatch depends only on the words up to it, so the check examines nothing beyond it. |
| Loopback.FirstMismatchIsUnique | src/df_bw.cpp:153-159 | At most one report is the first mismatch. |
| Loopback.MatchOrFirstMismatch | src/df_bw.cpp:153-159 | The buffers match exactly when there is no first mismatch, so every non-matching pair has one. |
| DfBw.TransferSize | src/df_bw.cpp:27-29 | One transaction is 1 GiB (0x4000_0000 bytes), which is 2^28 words. |
| DfBw.GetInstrSize | src/df_bw.cpp:63-84 | The file cannot be opened: `CannotOpen`. An empty line: the `line.at(0)` error. No data lines: "Invalid DPU instruction length". Otherwise the count of data lines, which is positive. |
| DfBw.InitInstrBuf | src/df_bw.cpp:36-61 | The file cannot be opened: an error, with the buffer unchanged. Otherwise the buffer's first slots hold the decoded data lines, up to the first empty or non-8-character line, and the other slots are unchanged. |
| DfBw.PrepareInstructions | src/df_bw.cpp:109-115 | The loaded program exists exactly when the file opens, has a data line, has no empty line, and every data line is 8 characters. The program is then the decoded data lines in file order. Each failure is named. |
| DfBw.SelectKernel | src/df_bw.cpp:91-100 | The bound kernel is the first name in discovery order that starts with "DPU". |
| DfBw.CheckResults | src/df_bw.cpp:153-159 | The check passes exactly when every output word equals its input word. Otherwise it fails with the first differing index and both values. |
| DfBw.RunConfig | src/df_bw.cpp:169-186 | argc = 2 gives 600 iterations and argc = 3 gives `atoi(argv[2])` iterations, both with one thread and xclbin `argv[1]`. Any other argc is a usage error that names `argv[0]`. |
| TctTp.TransferSize | src/tct_tp.cpp:23-26 | A transaction is 4 bytes, so one word is compared. |
| TctTp.GetInstrSize | src/tct_tp.cpp:62-83 | Cannot open, empty line and zero data lines are errors; otherwise the count of data lines, which is positive. |
| TctTp.InitInstrBuf | src/tct_tp.cpp:35-60 | The same as the df_bw loader: the decoded data lines go to the first slots, an empty or non-8-character line stops the pass, and later slots are unchanged. |
| TctTp.PrepareInstructions | src/tct_tp.cpp:105-111 | The program exists exactly when the file opens, has a data line, has no empty line, and every data line is 8 characters; it is then the decoded data lines. |
| TctTp.SelectKernel | src/tct_tp.cpp:89-98 | The first name in discovery order that starts with "DPU" (case-sensitive). |
| TctTp.CheckOutput | src/tct_tp.cpp:124-130 | As written, the output check passes whatever the buffers hold. |
| TctTp.MismatchGoesUnreported | src/tct_tp.cpp:126-130 | Input and output buffers of `tnx_word_count` words that differ still pass the check. |
| TctTp.Samples | src/tct_tp.cpp:29 | 20000 samples exactly when the sequence-file argument contains "4col", and 10000 exactly when it does not (the rule is at lines 154-156). |
| TctTp.RunConfig | src/tct_tp.cpp:145-156 | Exactly argc = 4 is accepted. The configuration is then xclbin `argv[1]`, sequence `argv[2]`, device `argv[3]`, one thread, and the "4col" sample rule. Otherwise it is a usage error naming `argv[0]`. |
| HostHal.GetInstrSize | src/host_hal.cpp:31-47 | A file that cannot be opened counts 0 and is not an error. An empty line throws. Otherwise the count of data lines. |
| HostHal.InitHexBuf | src/host_hal.cpp:50-68 | A file that cannot be opened aborts, with the buffer unchanged. Otherwise the buffer's first slots hold the decoded data lines, with no length check, up to the first empty line. `bytesize` plays no part. |
| HostHal.PrepareInstructions | src/host_hal.cpp:118-127 | The program exists exactly when the file opens, has no empty line and has a data line, at any line length. A file that cannot be opened or has no data lines fails with "zero length". |
| HostHal.MixedCaseIsNotDpu | src/host_hal.cpp:93-94 | A name starting "Dpu" is not a DPU kernel: only "DPU" and "dpu" match. |
| HostHal.CapacityGuard | src/host_hal.cpp:177 | The guard of the cycle-count loop, as written, admits exactly the counts up to 383 (`max_count_in_size_3K`, line 143). |
| HostHal.SelectKernel | src/host_hal.cpp:90-99 | The first name in discovery order that starts with "DPU" or "dpu". It fails exactly when no name does. |
| HostHal.GuardAdmitsOverrun | src/host_hal.cpp:143 | The capacity is 383 but only 256 words follow offset 0x0C00. Every count from 257 to 383 passes the guard and reads past the 4 KiB buffer (the guard is at line 177). |
| HostHal.TelemetryWindow | src/host_hal.cpp:171-172 | With 32 cores, both bounds hold and the words read are 768 to 799 of the 1024-word buffer. |
| HostHal.SumIsExactInDouble | src/host_hal.cpp:181 | n cycle counts sum to at most n·(2^32−1). For at most 383 counts the sum is below 2^53, so the `double` accumulator holds it exactly. |
| HostHal.TotalCycleCount | src/host_hal.cpp:171-184 | The loop runs exactly when the count passes the capacity guard and the reads stay in the buffer. It then returns the sum of the `numCores` words from word 768; otherwise 0. |
| HostHal.WorkloadOps | src/host_hal.cpp:155-158 | 512 MACs give 1024 operations per matmul, over 192 loop iterations, for 196608 = 192·1024 operations in total. |

## Left out

- All XRT runtime calls are not modelled: devices, xclbin loading, hw_context, kernels, buffer objects, `sync`, `map`, `run`/`wait2`. They are calls into a library whose behaviour is not visible here. Kernel lookup is modelled as a search over the list of kernel names.
- Worker threads are not modelled. df_bw and tct_tp start exactly one thread in `run`. host_hal starts none, and `main` does all the work itself.
- How a failure ends the process is not modelled. In df_bw and tct_tp, `run_test_iterations` runs on a `std::thread` (src/df_bw.cpp:189-194, src/tct_tp.cpp:160-165). Any exception it throws leaves the thread function and calls `std::terminate`. That covers an unopenable file, `line.at(0)`, an invalid size, a zero length and a mismatch. `main`'s catch (src/df_bw.cpp:204-206, src/tct_tp.cpp:175-177) sees only the usage error and errors raised before the thread starts. The `Failure` and `Fail` values of `DfBw` and `TctTp` stand for that abnormal end of the process. In host_hal, `main`'s catch (src/host_hal.cpp:201-204) does report them as "TEST FAILED!", except for the `abort()` in `init_hex_buf`.
- `std::chrono` timing and every floating-point figure derived from it are not modelled: bandwidth, TCT time and rate, TOPS, and the clock period. Neither are `rand()` input filling, `sleep_for`, or console output.
- `atoi` is a parameter of `DfBw.RunConfig`; its parse of the argument is not modelled.
- src/preempt.cpp and archive/build_archives.py are not part of this model. They are shell and build plumbing with no self-contained logic.
- HexWord.ExtractHex: decodes only leading hex digits. It does not model `>> std::hex` skipping leading whitespace, accepting a sign or a `0x` prefix, or its failbit. A line made of hex digits, the sequence files' format, decodes exactly when its value fits in 32 bits and to 0xFFFFFFFF otherwise.
- Line splitting is not modelled: a file is the list of lines `getline` yields. The count and the load are assumed to read the same contents. A file that changed between the two reads could overrun the buffer, which the model does not capture.
- DfBw.SelectKernel: requires that some kernel name starts with "DPU". The source dereferences `find_if`'s result before testing it, which is undefined behaviour when nothing matches, so its later "Failure to find DPU kernel" check is not modelled.
- TctTp.SelectKernel: requires a "DPU" kernel name, for the same reason.
- The comment in src/df_bw.cpp says the default is one iteration, but the code uses 600; the model follows the code.
- HostHal.TotalCycleCount: the byte order of the result buffer and the pointer cast are not modelled. The buffer is taken as 1024 words. The per-core TOPS sum (floating point) is left out.
- HostHal.InitHexBuf: the `abort()` on an unopenable file is a returned `CannotOpen`. In `main` it cannot be reached, because the count is already 0 and `main` stops first.

## Findings

| source | as written | input that shows it | evidently intended | confidence | as-written member | corrected member |
|---|---|---|---|---|---|---|
| src/tct_tp.cpp:126-130 | On a differing word, the loop constructs a `std::runtime_error` and discards it without `throw`, so the output check can never fail. | input word 7, output word 0 | throw on the first differing word, as the df_bw harness does | high, not executed | TctTp.MismatchGoesUnreported | DfBw.CheckResults |
| src/host_hal.cpp:143 | `max_count_in_size_3K` bounds the count by the 3 KiB below offset 0x0C00, but the words are read starting at 0x0C00, where only 1 KiB (256 words) of the 4 KiB buffer remains. | NumofCores = 300 passes the guard at line 177 and reads words 768 to 1067 of a 1024-word buffer | a guard that also keeps the reads inside the buffer (at most 256 cores) | low: the shipped count is 32; not executed | HostHal.GuardAdmitsOverrun | HostHal.TotalCycleCount |
