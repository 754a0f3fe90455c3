/**
 The two library string operations that the migration runner's `contains`
 helper is built from: `strings.ToLower`, restricted to ASCII letters, and
 `strings.Contains`. `Contains` is a recursive search; `Occurs` is the
 independent reference definition (some offset at which the needle sits in
 the haystack), and `ContainsIffOccurs` connects the two.
 */
module Text {

  /** ASCII lower-casing of one character; every other character is kept. */
  function LowerChar(c: char): (r: char)
    ensures 'A' <= c <= 'Z' ==> 'a' <= r <= 'z' && r as int - c as int == 'a' as int - 'A' as int
    ensures !('A' <= c <= 'Z') ==> r == c
    ensures !('A' <= r <= 'Z')
  {
    if 'A' <= c <= 'Z' then (c as int - 'A' as int + 'a' as int) as char else c
  }

  /** `strings.ToLower` on an ASCII string: the same length, each character lowered. */
  function Lower(s: string): string
  {
    seq(|s|, i requires 0 <= i < |s| => LowerChar(s[i]))
  }

  /** The needle `t` sits in `s` starting at offset `i`. */
  predicate OccursAt(s: string, t: string, i: nat)
  {
    i + |t| <= |s| && s[i..i + |t|] == t
  }

  /** Reference definition of "t is a substring of s". */
  ghost predicate Occurs(s: string, t: string)
  {
    exists i: nat :: OccursAt(s, t, i)
  }

  /** `s` begins with `t`, compared character by character. */
  predicate StartsWith(s: string, t: string)
  {
    |t| <= |s| && (t == [] || (s[0] == t[0] && StartsWith(s[1..], t[1..])))
  }

  /** `strings.Contains(s, t)`: try every start offset from the left. */
  function Contains(s: string, t: string): bool
  {
    |t| <= |s| && (StartsWith(s, t) || Contains(s[1..], t))
  }

  lemma {:induction false} StartsWithIffPrefix(s: string, t: string)
    ensures StartsWith(s, t) <==> |t| <= |s| && s[..|t|] == t
  {
    if t != [] && |t| <= |s| {
      StartsWithIffPrefix(s[1..], t[1..]);
      assert s[..|t|] == [s[0]] + s[1..][..|t| - 1];
      assert t == [t[0]] + t[1..];
    }
  }

  lemma {:induction false} ContainsIffOccurs(s: string, t: string)
    ensures Contains(s, t) <==> Occurs(s, t)
  {
    StartsWithIffPrefix(s, t);
    if |t| <= |s| {
      if s[..|t|] == t {
        assert OccursAt(s, t, 0);
      } else {
        ContainsIffOccurs(s[1..], t);
        if Contains(s[1..], t) {
          var i: nat :| OccursAt(s[1..], t, i);
          assert s[i + 1..i + 1 + |t|] == s[1..][i..i + |t|];
          assert OccursAt(s, t, i + 1);
        }
        if Occurs(s, t) {
          var i: nat :| OccursAt(s, t, i);
          assert i != 0;
          assert s[1..][i - 1..i - 1 + |t|] == s[i..i + |t|];
          assert OccursAt(s[1..], t, i - 1);
        }
      }
    } else {
      assert forall i: nat :: !OccursAt(s, t, i);
    }
  }

  /** Lower-casing twice is lower-casing once. */
  lemma LowerIdempotent(s: string)
    ensures Lower(Lower(s)) == Lower(s)
  {
    assert forall i :: 0 <= i < |s| ==> Lower(Lower(s))[i] == Lower(s)[i];
  }

  /** A string without upper-case ASCII letters is its own lower case. */
  lemma LowerUnchanged(s: string)
    requires forall i :: 0 <= i < |s| ==> !('A' <= s[i] <= 'Z')
    ensures Lower(s) == s
  {
  }

  /** Lower-casing works character by character, so it distributes over concatenation. */
  lemma LowerConcat(a: string, b: string)
    ensures Lower(a + b) == Lower(a) + Lower(b)
  {
    assert forall i :: 0 <= i < |a + b| ==> Lower(a + b)[i] == (Lower(a) + Lower(b))[i];
  }

  /** Every character of a contained needle appears in the haystack. */
  lemma ContainsHasChars(s: string, t: string, j: nat)
    requires Contains(s, t) && j < |t|
    ensures t[j] in s
  {
    ContainsIffOccurs(s, t);
    var i: nat :| OccursAt(s, t, i);
    assert s[i + j] == t[j];
  }

  /** Every string contains the empty needle. */
  lemma ContainsEmpty(s: string)
    ensures Contains(s, "")
  {
  }

  /** A substring stays a substring when text is added on either side. */
  lemma {:induction false} ContainsExtend(a: string, s: string, b: string, t: string)
    requires Contains(s, t)
    ensures Contains(a + s + b, t)
  {
    ContainsIffOccurs(s, t);
    var i: nat :| OccursAt(s, t, i);
    assert (a + s + b)[|a| + i..|a| + i + |t|] == s[i..i + |t|];
    assert OccursAt(a + s + b, t, |a| + i);
    ContainsIffOccurs(a + s + b, t);
  }
}
