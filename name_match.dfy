/**
 * The string searches the harnesses rely on: `name.rfind(prefix, 0) == 0`
 * (a name starts with a prefix), `strstr` (a string contains another) and
 * `std::find_if` over the kernel list of an xclbin (the first name in
 * discovery order that satisfies a predicate).
 */
module NameMatch {
  import opened Outcomes

  /** `name.rfind(prefix, 0) == 0`: the only place rfind may look is position 0. */
  predicate StartsWith(name: string, prefix: string)
    ensures StartsWith(name, prefix) <==>
              |prefix| <= |name| && forall i :: 0 <= i < |prefix| ==> name[i] == prefix[i]
  {
    |prefix| <= |name| && name[..|prefix|] == prefix
  }

  /** A name that starts with one of the given prefixes (case-sensitive). */
  predicate StartsWithAny(name: string, prefixes: seq<string>) {
    exists p :: p in prefixes && StartsWith(name, p)
  }

  /** `pattern` spelled by `s` from position `i` on. */
  predicate OccursAt(s: string, pattern: string, i: nat) {
    i + |pattern| <= |s| && s[i..i + |pattern|] == pattern
  }

  /** `strstr(s, pattern) != NULL`: some window of `s` spells `pattern`. */
  function Contains(s: string, pattern: string): (r: bool)
    ensures r <==> exists i: nat :: OccursAt(s, pattern, i)
  {
    if StartsWith(s, pattern) then
      assert OccursAt(s, pattern, 0);
      true
    else if s == [] then
      assert forall i: nat :: !OccursAt(s, pattern, i);
      false
    else
      var r := Contains(s[1..], pattern);
      assert forall i: nat :: OccursAt(s[1..], pattern, i) <==> OccursAt(s, pattern, i + 1) by {
        forall i: nat
          ensures OccursAt(s[1..], pattern, i) <==> OccursAt(s, pattern, i + 1)
        {
          if i + |pattern| <= |s[1..]| {
            assert s[1..][i..i + |pattern|] == s[i + 1..i + 1 + |pattern|];
          }
        }
      }
      assert !OccursAt(s, pattern, 0);
      assert (exists i: nat :: OccursAt(s, pattern, i)) ==> r by {
        if i: nat :| OccursAt(s, pattern, i) {
          assert OccursAt(s[1..], pattern, i - 1);
        }
      }
      r
  }

  /**
   * `std::find_if` over the names with the prefix predicate: the index of the
   * first name that starts with one of `prefixes`, or None when no name does.
   */
  function FindFirst(names: seq<string>, prefixes: seq<string>): (r: Option<nat>)
    ensures r.Some? ==> r.value < |names| && StartsWithAny(names[r.value], prefixes)
    ensures r.Some? ==> forall j :: 0 <= j < r.value ==> !StartsWithAny(names[j], prefixes)
    ensures r.None? <==> forall j :: 0 <= j < |names| ==> !StartsWithAny(names[j], prefixes)
  {
    if names == [] then None
    else if StartsWithAny(names[0], prefixes) then Some(0)
    else
      match FindFirst(names[1..], prefixes)
      case None =>
        assert forall j :: 1 <= j < |names| ==> names[j] == names[1..][j - 1];
        None
      case Some(i) => Some(i + 1)
  }
}
