/**
  The string primitives the validators rely on: finding the first
  occurrence of a literal pattern (`String.prototype.indexOf`), replacing
  it (`String.prototype.replace` with a string pattern, which replaces the
  first occurrence only), and JavaScript's `length`.
 */
module Strings {
  import opened Options

  /** `p` occurs in `s` starting at index `i`. */
  predicate OccursAt(s: string, p: string, i: nat)
  {
    i + |p| <= |s| && s[i..i + |p|] == p
  }

  /** The first index at or after `from` where `p` occurs in `s`. */
  function FindFrom(s: string, p: string, from: nat): (r: Option<nat>)
    ensures r.Some? ==> from <= r.value && OccursAt(s, p, r.value)
    ensures r.Some? ==> forall j: nat :: from <= j < r.value ==> !OccursAt(s, p, j)
    ensures r.None? ==> forall j: nat :: from <= j ==> !OccursAt(s, p, j)
    decreases |s| - from
  {
    if from + |p| > |s| then None
    else if s[from..from + |p|] == p then Some(from)
    else FindFrom(s, p, from + 1)
  }

  /** `s.replace(p, rep)`: the first occurrence of `p`, and only that one, becomes `rep`. */
  function ReplaceFirst(s: string, p: string, rep: string): (r: string)
    ensures (forall j: nat :: !OccursAt(s, p, j)) ==> r == s
    ensures forall i: nat {:trigger OccursAt(s, p, i)} ::
              OccursAt(s, p, i) && (forall j: nat :: j < i ==> !OccursAt(s, p, j)) ==>
                r == s[..i] + rep + s[i + |p|..]
    ensures s != "" && rep != "" ==> r != ""
  {
    match FindFrom(s, p, 0)
    case None => s
    case Some(i) => s[..i] + rep + s[i + |p|..]
  }

  /**
    Only the first occurrence is replaced: an occurrence of `p` that lies
    after the first one survives, shifted by the change in length.
   */
  lemma ReplaceFirstKeepsLaterOccurrence(s: string, p: string, rep: string, i: nat, j: nat)
    requires OccursAt(s, p, i) && forall k: nat :: k < i ==> !OccursAt(s, p, k)
    requires OccursAt(s, p, j) && i + |p| <= j
    ensures OccursAt(ReplaceFirst(s, p, rep), p, j - |p| + |rep|)
  {
    var r := ReplaceFirst(s, p, rep);
    assert r == s[..i] + rep + s[i + |p|..];
    var j' := j - |p| + |rep|;
    assert r[i + |rep|..] == s[i + |p|..];
    assert r[j'..] == s[j..] by {
      assert r[j'..] == r[i + |rep|..][j - i - |p|..];
      assert s[j..] == s[i + |p|..][j - i - |p|..];
    }
    assert r[j'..j' + |p|] == r[j'..][..|p|];
    assert s[j..j + |p|] == s[j..][..|p|];
  }

  /** A pattern at the very start of the string is the one replaced. */
  lemma ReplaceAtStart(s: string, p: string, rep: string)
    requires |p| <= |s| && s[..|p|] == p
    ensures ReplaceFirst(s, p, rep) == rep + s[|p|..]
  {
    assert OccursAt(s, p, 0);
  }

  /** The first code point outside the Basic Multilingual Plane. */
  const SupplementaryStart := 0x1_0000

  /**
    `s.length`: JavaScript counts UTF-16 code units, so a character outside
    the Basic Multilingual Plane (a surrogate pair) counts twice.
   */
  function Utf16Length(s: string): (n: nat)
    ensures |s| <= n <= 2 * |s|
    ensures n == |s| <==> forall i :: 0 <= i < |s| ==> (s[i] as int) < SupplementaryStart
  {
    if s == [] then 0
    else (if (s[0] as int) < SupplementaryStart then 1 else 2) + Utf16Length(s[1..])
  }

  /** One emoji (U+1F600) is a single character but two code units. */
  lemma Utf16LengthOfEmoji()
    ensures |"\U{1F600}"| == 1 && Utf16Length("\U{1F600}") == 2
  {
    assert ("\U{1F600}"[0] as int) == 0x1F600;
  }
}
