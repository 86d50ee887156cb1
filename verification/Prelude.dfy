/** Types and sequence helpers shared by the models. */
module Prelude {

  datatype Option<+T> = None | Some(value: T)

  datatype Result<+T, +E> = Ok(value: T) | Err(error: E)

  type byte = b: int | 0 <= b < 256

  /** The elements of `s` that satisfy `keep`, in order (Rust's `retain`). */
  function Filter<T(!new)>(s: seq<T>, keep: T -> bool): (r: seq<T>)
    ensures |r| <= |s|
    ensures forall x :: x in r <==> x in s && keep(x)
  {
    if s == [] then [] else
    var rest := Filter(s[..|s| - 1], keep);
    var last := s[|s| - 1];
    assert s == s[..|s| - 1] + [last];
    if keep(last) then rest + [last] else rest
  }

  /** Filtering drops nothing exactly when every element passes. */
  lemma {:induction false} FilterKeepsAll<T(!new)>(s: seq<T>, keep: T -> bool)
    ensures |Filter(s, keep)| == |s| <==> forall x :: x in s ==> keep(x)
    ensures (forall x :: x in s ==> keep(x)) ==> Filter(s, keep) == s
  {
    if s != [] {
      var front, last := s[..|s| - 1], s[|s| - 1];
      assert s == front + [last];
      FilterKeepsAll(front, keep);
    }
  }

  /** Filtering keeps pairwise distinct projections distinct. */
  lemma {:induction false} FilterKeepsDistinct<T(!new), K>(s: seq<T>, keep: T -> bool, key: T -> K)
    requires forall i, j :: 0 <= i < j < |s| ==> key(s[i]) != key(s[j])
    ensures forall i, j :: 0 <= i < j < |Filter(s, keep)| ==> key(Filter(s, keep)[i]) != key(Filter(s, keep)[j])
  {
    if s != [] {
      var front, last := s[..|s| - 1], s[|s| - 1];
      FilterKeepsDistinct(front, keep, key);
      var r := Filter(front, keep);
      forall i | 0 <= i < |r| ensures key(r[i]) != key(last) {
        assert r[i] in front;
      }
    }
  }

  function AsciiLower(c: char): char {
    if 'A' <= c <= 'Z' then (c as int + 32) as char else c
  }

  function Lowercase(s: string): (r: string)
    ensures |r| == |s| && forall i :: 0 <= i < |s| ==> r[i] == AsciiLower(s[i])
  {
    if s == "" then "" else Lowercase(s[..|s| - 1]) + [AsciiLower(s[|s| - 1])]
  }

  /** One letter in its two cases. */
  predicate OtherCase(a: char, b: char) {
    ('A' <= a <= 'Z' && b as int == a as int + 32) || ('A' <= b <= 'Z' && a as int == b as int + 32)
  }

  lemma LowerSame(a: char, b: char)
    ensures AsciiLower(a) == AsciiLower(b) <==> a == b || OtherCase(a, b)
    ensures !('A' <= AsciiLower(a) <= 'Z')
  {
  }

  /** `eq_ignore_ascii_case`: the same characters up to the case of ASCII
      letters; and nothing is left in upper case. */
  lemma LowercaseIgnoresCase(a: string, b: string)
    ensures Lowercase(a) == Lowercase(b) <==> |a| == |b| && forall i :: 0 <= i < |a| ==> a[i] == b[i] || OtherCase(a[i], b[i])
    ensures forall i :: 0 <= i < |a| ==> !('A' <= Lowercase(a)[i] <= 'Z')
  {
    hide AsciiLower, OtherCase;
    var la, lb := Lowercase(a), Lowercase(b);
    hide Lowercase;
    assert |a| == |b| ==> (la == lb <==> forall i :: 0 <= i < |a| ==> la[i] == lb[i]);
    forall i | 0 <= i < |a| ensures !('A' <= la[i] <= 'Z')
      ensures |a| == |b| ==> (la[i] == lb[i] <==> a[i] == b[i] || OtherCase(a[i], b[i]))
    {
      LowerSame(a[i], if i < |b| then b[i] else a[i]);
    }
  }
}
