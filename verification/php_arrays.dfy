/**
 * The few PHP string and array primitives the core relies on, written out
 * because their edge cases decide behaviour: `$a[$k] ?? ...` on an
 * associative array of strings, and `str_replace($search, '', $subject)`.
 */
module PhpArrays {
  import opened Wrappers

  /**
   * `$a[$k]` read through `??`: a key that is absent (or holds null, which
   * a map of strings cannot hold) gives None. An empty string is a value
   * and does NOT trigger the fallback.
   */
  function Lookup(a: map<string, string>, k: string): Option<string>
  {
    if k in a then Some(a[k]) else None
  }

  /** `pat` occurs in `s` starting at index `i`. */
  ghost predicate OccursAt(s: string, pat: string, i: int)
  {
    0 <= i <= |s| && pat <= s[i..]
  }

  /** `pat` occurs somewhere in `s`. */
  ghost predicate Occurs(s: string, pat: string)
  {
    exists i :: OccursAt(s, pat, i)
  }

  /**
   * `str_replace($pat, '', $s)`: one left-to-right scan that deletes every
   * non-overlapping occurrence of `pat` and does not rescan what remains.
   */
  function RemoveAll(s: string, pat: string): (r: string)
    requires |pat| > 0
    ensures |r| <= |s|
    decreases |s|
  {
    if |s| < |pat| then s
    else if pat <= s then RemoveAll(s[|pat|..], pat)
    else [s[0]] + RemoveAll(s[1..], pat)
  }

  /** A subject in which `pat` never occurs comes back unchanged. */
  lemma {:induction false} RemoveAllNoOccurrence(s: string, pat: string)
    requires |pat| > 0
    requires !Occurs(s, pat)
    ensures RemoveAll(s, pat) == s
    decreases |s|
  {
    if |s| >= |pat| {
      assert s[0..] == s;
      assert !OccursAt(s, pat, 0);
      forall i | OccursAt(s[1..], pat, i)
        ensures OccursAt(s, pat, i + 1)
      {
        assert s[1..][i..] == s[i + 1..];
      }
      RemoveAllNoOccurrence(s[1..], pat);
    }
  }

  /** A leading occurrence is deleted and the scan continues after it. */
  lemma RemoveAllLeading(pat: string, k: string)
    requires |pat| > 0
    ensures RemoveAll(pat + k, pat) == RemoveAll(k, pat)
  {
    assert pat <= pat + k;
    assert (pat + k)[|pat|..] == k;
  }

  /**
   * Every occurrence is deleted, not only a leading one: an occurrence
   * preceded by text in which no match starts is removed from the middle.
   */
  lemma {:induction false} RemoveAllMiddle(a: string, pat: string, b: string)
    requires |pat| > 0
    requires forall i | 0 <= i < |a| :: !(pat <= a[i..] + pat + b)
    ensures RemoveAll(a + pat + b, pat) == a + RemoveAll(b, pat)
    decreases |a|
  {
    if a == [] {
      assert a + pat + b == pat + b;
      RemoveAllLeading(pat, b);
    } else {
      var s := a + pat + b;
      assert a[0..] == a;
      assert !(pat <= s);
      assert s[1..] == a[1..] + pat + b;
      forall i | 0 <= i < |a[1..]|
        ensures !(pat <= a[1..][i..] + pat + b)
      {
        assert a[1..][i..] == a[i + 1..];
      }
      RemoveAllMiddle(a[1..], pat, b);
      assert [s[0]] + a[1..] == a;
    }
  }

  /** The subject of `RemoveAllIsSinglePass` does not start with the pattern. */
  lemma ShiftedNoLeadingMatch(pat: string)
    requires |pat| >= 2
    requires exists i | 0 < i < |pat| :: pat[i] != pat[i - 1]
    ensures !(pat <= pat[..1] + pat + pat[1..])
  {
  }

  /** Where no match starts, the first character is kept and the scan moves on by one. */
  lemma RemoveAllKeepsFirst(s: string, pat: string)
    requires |pat| > 0 && |s| >= |pat| && !(pat <= s)
    ensures RemoveAll(s, pat) == [s[0]] + RemoveAll(s[1..], pat)
  {
  }

  /**
   * After a first character where no match starts, an occurrence is
   * deleted and a tail too short to hold another one is kept.
   */
  lemma RemoveAllAfterFirst(c: char, pat: string, tail: string)
    requires |pat| > 0 && |tail| < |pat| && !(pat <= [c] + pat + tail)
    ensures RemoveAll([c] + pat + tail, pat) == [c] + tail
  {
    var s := [c] + pat + tail;
    RemoveAllKeepsFirst(s, pat);
    assert s[1..] == pat + tail;
    RemoveAllLeading(pat, tail);
  }

  /** The subject of `RemoveAllIsSinglePass` loses only its inner occurrence. */
  lemma RemoveAllShifted(pat: string)
    requires |pat| >= 2
    requires exists i | 0 < i < |pat| :: pat[i] != pat[i - 1]
    ensures RemoveAll(pat[..1] + pat + pat[1..], pat) == pat
  {
    ShiftedNoLeadingMatch(pat);
    assert pat[..1] == [pat[0]];
    RemoveAllAfterFirst(pat[0], pat, pat[1..]);
    assert [pat[0]] + pat[1..] == pat;
  }

  /**
   * The scan is single-pass: deleting an occurrence can join the text
   * around it into a new occurrence, which stays. For every pattern of two
   * or more characters that is not one character repeated, the subject
   * made of its first character, the pattern and its tail loses the inner
   * occurrence and leaves exactly the pattern ("GG__" without "G_" is "G_").
   */
  lemma RemoveAllIsSinglePass(pat: string)
    requires |pat| >= 2
    requires exists i | 0 < i < |pat| :: pat[i] != pat[i - 1]
    ensures RemoveAll(pat[..1] + pat + pat[1..], pat) == pat
    ensures Occurs(RemoveAll(pat[..1] + pat + pat[1..], pat), pat)
  {
    RemoveAllShifted(pat);
    assert pat[0..] == pat;
    assert OccursAt(pat, pat, 0);
  }
}
