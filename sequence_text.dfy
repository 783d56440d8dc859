/**
 * Instruction-sequence text files, as the three harnesses read them.
 *
 * A file is the list of lines `getline` yields.  A line whose first character
 * is `#` is a comment; every other line is a data line that spells one 32-bit
 * word.  Both passes over the file call `line.at(0)`, which throws
 * `std::out_of_range` on an empty line, so an empty line is always an error.
 *
 * The counting pass (`get_instr_size`) and the loading pass (`init_instr_buf`,
 * `init_hex_buf`) are the same loops in all three harnesses; they differ only
 * in what happens around the loop and in whether a data line's length is
 * checked, so the loops are here and the harness modules wrap them.
 */
module SequenceText {
  import opened Outcomes
  import opened HexWord

  /** The failures of the two passes, named after the harnesses' messages. */
  datatype LoadError =
    | CannotOpen       // "Failure opening file ... for reading!!" (host_hal: abort())
    | EmptyLine        // std::out_of_range thrown by line.at(0)
    | InvalidSize      // "Invalid DPU instruction size": a data line of the wrong length
    | NoInstructions   // "Invalid DPU instruction length" / "Why do instructions have zero length?"

  predicate IsComment(line: string) {
    |line| > 0 && line[0] == '#'
  }

  predicate HasEmptyLine(lines: seq<string>) {
    exists i :: 0 <= i < |lines| && lines[i] == ""
  }

  /** Every data line is `len` characters long. */
  predicate DataLinesOfLength(lines: seq<string>, len: nat) {
    forall i :: 0 <= i < |lines| && !IsComment(lines[i]) ==> |lines[i]| == len
  }

  /** The data lines of a file, in file order. */
  function DataLines(lines: seq<string>): (data: seq<string>)
    ensures |data| <= |lines|
  {
    if lines == [] then []
    else if IsComment(lines[0]) then DataLines(lines[1..])
    else [lines[0]] + DataLines(lines[1..])
  }

  lemma {:induction false} DataLinesAppend(a: seq<string>, b: seq<string>)
    ensures DataLines(a + b) == DataLines(a) + DataLines(b)
  {
    if a != [] {
      assert (a + b)[1..] == a[1..] + b;
      DataLinesAppend(a[1..], b);
    } else {
      assert a + b == b;
    }
  }

  /** The indices of the data lines: an independent way to say what is counted. */
  function DataIndices(lines: seq<string>): set<nat> {
    set i: nat | i < |lines| && !IsComment(lines[i])
  }

  /** The number of data lines is the number of lines whose first character is not `#`. */
  lemma {:induction false} DataLinesCount(lines: seq<string>)
    ensures |DataLines(lines)| == |DataIndices(lines)|
  {
    if lines != [] {
      var n := |lines| - 1;
      var init := lines[..n];
      DataLinesCount(init);
      assert lines == init + [lines[n]];
      DataLinesAppend(init, [lines[n]]);
      assert DataLines([lines[n]]) == if IsComment(lines[n]) then [] else [lines[n]];
      if IsComment(lines[n]) {
        assert DataIndices(lines) == DataIndices(init);
      } else {
        assert DataIndices(lines) == DataIndices(init) + {n};
      }
    }
  }

  /**
   * The counting loop of `get_instr_size`: one step per line, counting the
   * lines whose first character is not `#`; the first empty line throws.
   */
  method CountDataLines(lines: seq<string>) returns (r: Result<nat, LoadError>)
    ensures r.Failure? <==> HasEmptyLine(lines)
    ensures r.Failure? ==> r.error == EmptyLine
    ensures r.Success? ==> r.value == |DataLines(lines)|
  {
    var size := 0;
    var i := 0;
    while i < |lines|
      invariant 0 <= i <= |lines|
      invariant size == |DataLines(lines[..i])|
      invariant forall j :: 0 <= j < i ==> lines[j] != ""
    {
      if lines[i] == "" {
        return Failure(EmptyLine);
      }
      if lines[i][0] != '#' {
        size := size + 1;
      }
      assert lines[..i + 1] == lines[..i] + [lines[i]];
      DataLinesAppend(lines[..i], [lines[i]]);
      i := i + 1;
    }
    assert lines[..i] == lines;
    return Success(size);
  }

  /** What a loading pass produces: the words it wrote, in order, and the error that stopped it. */
  datatype LoadPass = LoadPass(words: seq<Word>, error: Option<LoadError>)

  /**
   * The loading pass as a function of the file's lines.  `lengthCheck` is
   * `Some(8)` for the harnesses that reject a data line whose length is not
   * `dpu_instr_str_len`, and None for the one that does not check.
   */
  function Load(lines: seq<string>, lengthCheck: Option<nat>): (p: LoadPass)
    ensures p.error.None? || p.error == Some(EmptyLine) || p.error == Some(InvalidSize)
    ensures lengthCheck.None? ==> p.error != Some(InvalidSize)
    ensures |p.words| <= |lines|
  {
    if lines == [] then LoadPass([], None)
    else if lines[0] == "" then LoadPass([], Some(EmptyLine))
    else if lines[0][0] == '#' then Load(lines[1..], lengthCheck)
    else if lengthCheck.Some? && |lines[0]| != lengthCheck.value then LoadPass([], Some(InvalidSize))
    else
      var rest := Load(lines[1..], lengthCheck);
      LoadPass([ExtractHex(lines[0])] + rest.words, rest.error)
  }

  /** True when the loading pass runs to the end of the file. */
  predicate LoadSucceeds(lines: seq<string>, lengthCheck: Option<nat>) {
    !HasEmptyLine(lines) && (lengthCheck.Some? ==> DataLinesOfLength(lines, lengthCheck.value))
  }

  lemma HasEmptyLineHead(lines: seq<string>)
    requires lines != []
    ensures HasEmptyLine(lines) <==> lines[0] == "" || HasEmptyLine(lines[1..])
  {
  }

  /**
   * The pass runs to the end of the file exactly when no line is empty and,
   * when lengths are checked, every data line has the required length.
   * Otherwise it stops on an empty line or, when no line is empty, on a data
   * line of the wrong length.
   */
  lemma {:induction false} LoadErrors(lines: seq<string>, lengthCheck: Option<nat>)
    ensures Load(lines, lengthCheck).error.None? <==> LoadSucceeds(lines, lengthCheck)
    ensures !HasEmptyLine(lines) && Load(lines, lengthCheck).error.Some? ==>
              lengthCheck.Some? && Load(lines, lengthCheck).error == Some(InvalidSize)
    ensures HasEmptyLine(lines) && lengthCheck.None? ==> Load(lines, lengthCheck).error == Some(EmptyLine)
  {
    if lines != [] {
      HasEmptyLineHead(lines);
      LoadErrors(lines[1..], lengthCheck);
      if lengthCheck.Some? {
        var len := lengthCheck.value;
        assert DataLinesOfLength(lines, len) <==>
               (!IsComment(lines[0]) ==> |lines[0]| == len) && DataLinesOfLength(lines[1..], len) by {
          if DataLinesOfLength(lines, len) {
            forall i | 0 <= i < |lines[1..]| && !IsComment(lines[1..][i])
              ensures |lines[1..][i]| == len
            {
              assert lines[1..][i] == lines[i + 1];
            }
          }
          if (!IsComment(lines[0]) ==> |lines[0]| == len) && DataLinesOfLength(lines[1..], len) {
            forall i | 0 <= i < |lines| && !IsComment(lines[i])
              ensures |lines[i]| == len
            {
              if i > 0 {
                assert lines[i] == lines[1..][i - 1];
              }
            }
          }
        }
      }
    }
  }

  /**
   * The k-th word written is the decoded k-th data line, so the words written
   * before a failure are those of the earlier data lines; a pass that runs to
   * the end writes one word per data line.
   */
  lemma {:induction false} LoadDecodes(lines: seq<string>, lengthCheck: Option<nat>)
    ensures |Load(lines, lengthCheck).words| <= |DataLines(lines)|
    ensures forall k :: 0 <= k < |Load(lines, lengthCheck).words| ==>
              Load(lines, lengthCheck).words[k] == ExtractHex(DataLines(lines)[k])
    ensures Load(lines, lengthCheck).error.None? ==> |Load(lines, lengthCheck).words| == |DataLines(lines)|
  {
    if lines != [] && lines[0] != "" {
      LoadDecodes(lines[1..], lengthCheck);
    }
  }

  /** Prepending a line that passes to a file does not change whether the pass over the file completes. */
  lemma LoadSucceedsCons(line: string, rest: seq<string>, lengthCheck: Option<nat>)
    requires LoadSucceeds([line], lengthCheck)
    ensures LoadSucceeds([line] + rest, lengthCheck) <==> LoadSucceeds(rest, lengthCheck)
  {
    LoadErrors([line], lengthCheck);
    LoadErrors(rest, lengthCheck);
    LoadErrors([line] + rest, lengthCheck);
    assert ([line] + rest)[1..] == rest;
    assert [line][1..] == [];
  }

  /**
   * The pass stops at line `i`: every line before it passes, line `i` fails
   * on its own and its error is the pass's error, and the words written are
   * exactly the decoded data lines before it.
   */
  predicate StopsAt(lines: seq<string>, lengthCheck: Option<nat>, i: nat) {
    var p := Load(lines, lengthCheck);
    && i < |lines|
    && LoadSucceeds(lines[..i], lengthCheck)
    && !LoadSucceeds([lines[i]], lengthCheck)
    && p.error == Load([lines[i]], lengthCheck).error
    && |p.words| == |DataLines(lines[..i])|
    && forall k :: 0 <= k < |p.words| ==> p.words[k] == ExtractHex(DataLines(lines[..i])[k])
  }

  /** Words decoded from data lines stay so when one more line and its word are put in front. */
  lemma DecodedCons(line: string, words: seq<Word>, data: seq<string>)
    requires |words| == |data| && forall k :: 0 <= k < |words| ==> words[k] == ExtractHex(data[k])
    ensures forall k :: 0 <= k < |words| + 1 ==> ([ExtractHex(line)] + words)[k] == ExtractHex(([line] + data)[k])
  {
  }

  /** A first line that passes moves the stopping line one further on. */
  lemma StopsAtNext(lines: seq<string>, lengthCheck: Option<nat>, j: nat)
    requires lines != [] && LoadSucceeds([lines[0]], lengthCheck)
    requires StopsAt(lines[1..], lengthCheck, j)
    ensures StopsAt(lines, lengthCheck, j + 1)
  {
    var rest := lines[1..];
    var before := lines[..j + 1];
    assert before == [lines[0]] + rest[..j];
    LoadSucceedsCons(lines[0], rest[..j], lengthCheck);
    assert before[1..] == rest[..j];
    assert lines[j + 1] == rest[j];
    assert [lines[0]][0] == lines[0];
    assert lines[0] != "";
    var p := Load(lines, lengthCheck);
    var q := Load(rest, lengthCheck);
    if IsComment(lines[0]) {
      assert p == q && DataLines(before) == DataLines(rest[..j]);
    } else {
      assert lengthCheck.Some? ==> |lines[0]| == lengthCheck.value;
      assert p.words == [ExtractHex(lines[0])] + q.words;
      assert DataLines(before) == [lines[0]] + DataLines(rest[..j]);
      DecodedCons(lines[0], q.words, DataLines(rest[..j]));
    }
  }

  /**
   * A pass that fails stops at the first line that fails on its own (an
   * empty line, or a data line of the wrong length when lengths are
   * checked), with that line's error, after writing exactly one word for
   * each data line before it.
   */
  lemma {:induction false} LoadStopsAtFirstBadLine(lines: seq<string>, lengthCheck: Option<nat>)
    ensures Load(lines, lengthCheck).error.Some? ==> exists i: nat :: StopsAt(lines, lengthCheck, i)
  {
    if Load(lines, lengthCheck).error.Some? {
      assert lines != [];
      LoadErrors([lines[0]], lengthCheck);
      assert [lines[0]][1..] == [];
      if !LoadSucceeds([lines[0]], lengthCheck) {
        assert lines[..0] == [];
        assert StopsAt(lines, lengthCheck, 0);
      } else {
        LoadStopsAtFirstBadLine(lines[1..], lengthCheck);
        var j: nat :| StopsAt(lines[1..], lengthCheck, j);
        StopsAtNext(lines, lengthCheck, j);
      }
    }
  }

  /** Comment lines write nothing: without empty lines, the pass over a file is the pass over its data lines. */
  lemma {:induction false} LoadSkipsComments(lines: seq<string>, lengthCheck: Option<nat>)
    requires !HasEmptyLine(lines)
    ensures Load(lines, lengthCheck) == Load(DataLines(lines), lengthCheck)
  {
    if lines != [] {
      HasEmptyLineHead(lines);
      LoadSkipsComments(lines[1..], lengthCheck);
      if !IsComment(lines[0]) {
        var data := DataLines(lines);
        assert data[0] == lines[0] && data[1..] == DataLines(lines[1..]);
      }
    }
  }

  /** The lines of a sequence file that spells `words`, one eight-digit line per word. */
  function Encode(words: seq<Word>): (lines: seq<string>)
    ensures |lines| == |words|
    ensures forall k :: 0 <= k < |words| ==> lines[k] == FormatWord(words[k])
  {
    seq(|words|, k requires 0 <= k < |words| => FormatWord(words[k]))
  }

  lemma {:induction false} EncodedLinesAreData(words: seq<Word>)
    ensures DataLines(Encode(words)) == Encode(words)
    ensures !HasEmptyLine(Encode(words))
  {
    if words != [] {
      var lines := Encode(words);
      assert lines[1..] == Encode(words[1..]);
      EncodedLinesAreData(words[1..]);
      assert !IsComment(lines[0]) && lines[0] != "";
      HasEmptyLineHead(lines);
    }
  }

  lemma {:induction false} LoadEncoded(words: seq<Word>, lengthCheck: Option<nat>)
    requires lengthCheck == None || lengthCheck == Some(8)
    ensures Load(Encode(words), lengthCheck) == LoadPass(words, None)
  {
    if words != [] {
      var lines := Encode(words);
      assert lines[1..] == Encode(words[1..]);
      LoadEncoded(words[1..], lengthCheck);
      WordRoundTrip(words[0]);
      assert words == [words[0]] + words[1..];
    }
  }

  /**
   * Round trip: a file whose data lines spell `words` as eight-digit
   * hexadecimal lines, with any comment lines between them, loads back to
   * exactly `words`, with or without the length check.
   */
  lemma LoadRoundTrip(lines: seq<string>, words: seq<Word>, lengthCheck: Option<nat>)
    requires !HasEmptyLine(lines) && DataLines(lines) == Encode(words)
    requires lengthCheck == None || lengthCheck == Some(8)
    ensures Load(lines, lengthCheck) == LoadPass(words, None)
    ensures |DataLines(lines)| == |words|
  {
    LoadSkipsComments(lines, lengthCheck);
    LoadEncoded(words, lengthCheck);
  }

  /**
   * The loading loop: for each line in file order, skip comments, check the
   * length when asked to, and write the decoded word through the advancing
   * buffer pointer.  The caller sized the buffer by counting the data lines.
   */
  method LoadWords(lines: seq<string>, buffer: array<Word>, lengthCheck: Option<nat>)
    returns (error: Option<LoadError>)
    requires |DataLines(lines)| <= buffer.Length
    modifies buffer
    ensures error == Load(lines, lengthCheck).error
    ensures |Load(lines, lengthCheck).words| <= buffer.Length
    ensures buffer[..|Load(lines, lengthCheck).words|] == Load(lines, lengthCheck).words
    ensures buffer[|Load(lines, lengthCheck).words|..] == old(buffer[|Load(lines, lengthCheck).words|..])
  {
    ghost var total := Load(lines, lengthCheck);
    LoadDecodes(lines, lengthCheck);
    var stream := lines;  // the lines getline has not read yet
    var next := 0;        // the offset of the instruction pointer in the buffer
    while stream != []
      invariant next + |Load(stream, lengthCheck).words| == |total.words| <= buffer.Length
      invariant total.words[next..] == Load(stream, lengthCheck).words
      invariant total.error == Load(stream, lengthCheck).error
      invariant forall j :: 0 <= j < next ==> buffer[j] == total.words[j]
      invariant forall j :: next <= j < buffer.Length ==> buffer[j] == old(buffer[j])
    {
      var line := stream[0];
      if line == "" {
        return Some(EmptyLine);
      }
      if line[0] == '#' {
        stream := stream[1..];
        continue;
      }
      if lengthCheck.Some? && |line| != lengthCheck.value {
        return Some(InvalidSize);
      }
      var word := ExtractHex(line);
      ghost var after := Load(stream[1..], lengthCheck).words;
      assert Load(stream, lengthCheck).words == [word] + after;
      assert total.words[next + 1..] == total.words[next..][1..];
      buffer[next] := word;
      next := next + 1;
      stream := stream[1..];
    }
    return None;
  }
}
