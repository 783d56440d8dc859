/**
 * The loopback result check: after the DMA round trip the output buffer
 * should hold the input buffer's words, bit for bit.
 */
module Loopback {
  import opened HexWord

  /** The first differing word: its index and the input and output values there. */
  datatype Mismatch = Mismatch(index: nat, input: Word, output: Word)

  /** The first `wordCount` output words equal the input words. */
  predicate Matches(input: seq<Word>, output: seq<Word>, wordCount: nat)
    requires wordCount <= |input| && wordCount <= |output|
  {
    forall i :: 0 <= i < wordCount ==> output[i] == input[i]
  }

  /** `m` reports the first index below `wordCount` where the buffers differ. */
  predicate IsFirstMismatch(m: Mismatch, input: seq<Word>, output: seq<Word>, wordCount: nat)
    requires wordCount <= |input| && wordCount <= |output|
  {
    && m.index < wordCount
    && m.input == input[m.index] && m.output == output[m.index]
    && m.input != m.output
    && Matches(input, output, m.index)
  }

  /**
   * The first mismatch is determined by the words up to it: two pairs of
   * buffers that agree up to index `m.index` have the same first mismatch,
   * whatever follows it.
   */
  lemma FirstMismatchIsLocal(m: Mismatch, input: seq<Word>, output: seq<Word>, wordCount: nat,
                             input': seq<Word>, output': seq<Word>, wordCount': nat)
    requires wordCount <= |input| && wordCount <= |output|
    requires wordCount' <= |input'| && wordCount' <= |output'|
    requires IsFirstMismatch(m, input, output, wordCount)
    requires m.index < wordCount'
    requires input'[..m.index + 1] == input[..m.index + 1] && output'[..m.index + 1] == output[..m.index + 1]
    ensures IsFirstMismatch(m, input', output', wordCount')
  {
  }

  /** A mismatch report is unique: no two different reports are both the first. */
  lemma FirstMismatchIsUnique(m: Mismatch, m': Mismatch, input: seq<Word>, output: seq<Word>, wordCount: nat)
    requires wordCount <= |input| && wordCount <= |output|
    requires IsFirstMismatch(m, input, output, wordCount) && IsFirstMismatch(m', input, output, wordCount)
    ensures m == m'
  {
  }

  /** The buffers either match or have a first mismatch, never both. */
  lemma MatchOrFirstMismatch(input: seq<Word>, output: seq<Word>, wordCount: nat)
    requires wordCount <= |input| && wordCount <= |output|
    ensures Matches(input, output, wordCount) <==>
            !exists i :: 0 <= i < wordCount && IsFirstMismatch(Mismatch(i, input[i], output[i]), input, output, wordCount)
  {
    if !Matches(input, output, wordCount) {
      var k :| 0 <= k < wordCount && output[k] != input[k];
      var i := k;
      while i > 0 && !Matches(input, output, i)
        invariant 0 <= i <= k && output[i] != input[i]
        decreases i
      {
        var j :| 0 <= j < i && output[j] != input[j];
        i := j;
      }
      assert IsFirstMismatch(Mismatch(i, input[i], output[i]), input, output, wordCount);
    }
  }
}
