/**
 * The two string primitives the keyword router relies on: `str.lower()` and
 * the substring test `k in s`.
 *
 * Lowercasing is modelled on ASCII: 'A'..'Z' become 'a'..'z' and every other
 * character is left as it is.
 */
module Text {

  predicate IsUpper(c: char) {
    'A' <= c <= 'Z'
  }

  function LowerChar(c: char): (r: char)
    ensures !IsUpper(r)
    ensures !IsUpper(c) ==> r == c
    ensures IsUpper(c) ==> 'a' <= r <= 'z' && r as int - c as int == 32
  {
    if IsUpper(c) then (c as int + 32) as char else c
  }

  /** `s.lower()`: every character lowered, nothing added or removed. */
  function Lower(s: string): (r: string)
    ensures |r| == |s|
    ensures forall i :: 0 <= i < |s| ==> r[i] == LowerChar(s[i])
  {
    if s == [] then [] else [LowerChar(s[0])] + Lower(s[1..])
  }

  /** `"\n".join(lines)`. */
  function JoinLines(lines: seq<string>): string {
    if lines == [] then []
    else if |lines| == 1 then lines[0]
    else lines[0] + "\n" + JoinLines(lines[1..])
  }

  /** A string with no upper-case letter. */
  predicate IsLowerCase(s: string) {
    forall i :: 0 <= i < |s| ==> !IsUpper(s[i])
  }

  /** `k in s` for Python strings: `k` is a prefix of `s` or of one of its suffixes. */
  predicate Contains(s: string, k: string)
    decreases |s|
  {
    k <= s || (s != [] && Contains(s[1..], k))
  }

  /** `k` occurs in `s` starting at index `i`. */
  predicate OccursAt(s: string, k: string, i: int) {
    0 <= i && i + |k| <= |s| && s[i..i + |k|] == k
  }

  /** `any(k in s for k in words)`. */
  predicate AnyOccurs(words: seq<string>, s: string) {
    exists i :: 0 <= i < |words| && Contains(s, words[i])
  }

  lemma {:induction false} LowerIsLowerCase(s: string)
    ensures IsLowerCase(Lower(s))
  {
    if s != [] {
      LowerIsLowerCase(s[1..]);
    }
  }

  /** Lowercasing a string with no upper-case letter changes nothing. */
  lemma {:induction false} LowerOfLowerCase(s: string)
    requires IsLowerCase(s)
    ensures Lower(s) == s
  {
    if s != [] {
      LowerOfLowerCase(s[1..]);
    }
  }

  /** `s.lower().lower() == s.lower()`. */
  lemma LowerIdempotent(s: string)
    ensures Lower(Lower(s)) == Lower(s)
  {
    LowerIsLowerCase(s);
    LowerOfLowerCase(Lower(s));
  }

  /** `Contains` is substring containment: `k in s` holds exactly when `k` occurs at some index. */
  lemma {:induction false} ContainsIffOccurs(s: string, k: string)
    ensures Contains(s, k) <==> exists i :: OccursAt(s, k, i)
  {
    if k <= s {
      assert s[0..|k|] == k;
      assert OccursAt(s, k, 0);
    } else if s == [] {
      assert forall i :: !OccursAt(s, k, i);
    } else {
      ContainsIffOccurs(s[1..], k);
      if exists i :: OccursAt(s[1..], k, i) {
        var i :| OccursAt(s[1..], k, i);
        forall j | 0 <= j < |k| ensures s[i + 1..i + 1 + |k|][j] == k[j] {
          assert s[1..][i..i + |k|][j] == k[j];
        }
        assert OccursAt(s, k, i + 1);
      }
      if exists i :: OccursAt(s, k, i) {
        var i :| OccursAt(s, k, i);
        assert !OccursAt(s, k, 0);
        forall j | 0 <= j < |k| ensures s[1..][i - 1..i - 1 + |k|][j] == k[j] {
          assert s[i..i + |k|][j] == k[j];
        }
        assert OccursAt(s[1..], k, i - 1);
      }
    }
  }

  /** An occurrence of `k` at index `i` of `s` witnesses `k in s`. */
  lemma ContainsAt(s: string, k: string, i: nat)
    requires OccursAt(s, k, i)
    ensures Contains(s, k)
  {
    ContainsIffOccurs(s, k);
  }

  /** Containment is plain substring containment: it survives any text around it. */
  lemma ContainsInContext(a: string, s: string, b: string, k: string)
    requires Contains(s, k)
    ensures Contains(a + s + b, k)
  {
    ContainsIffOccurs(s, k);
    var i :| OccursAt(s, k, i);
    var t := a + s + b;
    assert t[|a| + i..|a| + i + |k|] == s[i..i + |k|];
    ContainsAt(t, k, |a| + i);
  }

  /** A keyword longer than the text cannot occur in it. */
  lemma TooLongNotContained(s: string, k: string)
    requires |s| < |k|
    ensures !Contains(s, k)
  {
    ContainsIffOccurs(s, k);
  }

  /** Lowercasing keeps every occurrence, lowered: a key written in capitals is still found. */
  lemma LowerKeepsOccurrence(s: string, k: string)
    requires Contains(s, k)
    ensures Contains(Lower(s), Lower(k))
  {
    ContainsIffOccurs(s, k);
    var i :| OccursAt(s, k, i);
    var ls, lk := Lower(s), Lower(k);
    forall j | 0 <= j < |lk| ensures ls[i..i + |lk|][j] == lk[j] {
      assert s[i..i + |k|][j] == k[j];
    }
    assert ls[i..i + |lk|] == lk;
    ContainsAt(ls, lk, i);
  }
}
