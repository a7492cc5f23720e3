/** Models of the JavaScript string and array built-ins that the snippet
    generator calls: `String.prototype.indexOf`, `String.prototype.replace`
    with a string pattern, and `Array.prototype.join` on strings. */
module JsBuiltins {

  /** `pat` occurs in `s` starting at index `i`. */
  predicate OccursAt(s: string, pat: string, i: nat)
  {
    i + |pat| <= |s| && s[i..i + |pat|] == pat
  }

  /** `i` is the first index at which `pat` occurs in `s`. */
  predicate IsFirstOccurrence(s: string, pat: string, i: nat)
  {
    OccursAt(s, pat, i) && forall j: nat :: j < i ==> !OccursAt(s, pat, j)
  }

  /** Occurrences in the tail of a string are the occurrences in the string, shifted by one. */
  lemma OccursInTail(s: string, pat: string)
    requires |s| > 0
    ensures forall j: nat :: OccursAt(s[1..], pat, j) <==> OccursAt(s, pat, j + 1)
  {
    forall j: nat
      ensures OccursAt(s[1..], pat, j) <==> OccursAt(s, pat, j + 1)
    {
      if j + |pat| <= |s| - 1 {
        assert s[1..][j..j + |pat|] == s[j + 1..j + 1 + |pat|];
      }
    }
  }

  /** `s.indexOf(pat)`: the first index at which `pat` occurs in `s`, or -1
      (IndexOfFinds states that it is the first occurrence). */
  function IndexOf(s: string, pat: string): (r: int)
    ensures -1 <= r <= |s|
    decreases |s|
  {
    if |s| < |pat| then -1
    else if s[..|pat|] == pat then 0
    else
      var r := IndexOf(s[1..], pat);
      if r < 0 then -1 else r + 1
  }

  /** IndexOf is -1 exactly when `pat` occurs nowhere, and otherwise the first occurrence. */
  lemma {:induction false} IndexOfFinds(s: string, pat: string)
    ensures IndexOf(s, pat) == -1 <==> forall i: nat :: !OccursAt(s, pat, i)
    ensures IndexOf(s, pat) >= 0 ==> IsFirstOccurrence(s, pat, IndexOf(s, pat))
    decreases |s|
  {
    if |s| < |pat| {
    } else if s[..|pat|] == pat {
      assert OccursAt(s, pat, 0);
    } else {
      var r := IndexOf(s[1..], pat);
      IndexOfFinds(s[1..], pat);
      OccursInTail(s, pat);
      assert !OccursAt(s, pat, 0);
      if r < 0 {
        forall i: nat ensures !OccursAt(s, pat, i) {
          if i > 0 { assert !OccursAt(s[1..], pat, i - 1); }
        }
      } else {
        assert OccursAt(s, pat, r + 1);
        forall j: nat | j < r + 1 ensures !OccursAt(s, pat, j) {
          if j > 0 { assert !OccursAt(s[1..], pat, j - 1); }
        }
      }
    }
  }

  /** `s.replace(pat, rep)` with a string pattern: only the first occurrence of
      `pat` is replaced, and `s` is returned unchanged when `pat` does not occur. */
  function Replace(s: string, pat: string, rep: string): (r: string)
    ensures (forall i: nat :: !OccursAt(s, pat, i)) ==> r == s
    ensures forall i: nat :: IsFirstOccurrence(s, pat, i) ==> r == s[..i] + rep + s[i + |pat|..]
  {
    var i := IndexOf(s, pat);
    IndexOfFinds(s, pat);
    if i < 0 then s else s[..i] + rep + s[i + |pat|..]
  }

  /** `xs.join(sep)`: the elements of `xs` with `sep` between neighbours. */
  function Join(xs: seq<string>, sep: string): string
  {
    if |xs| == 0 then ""
    else if |xs| == 1 then xs[0]
    else Join(xs[..|xs| - 1], sep) + sep + xs[|xs| - 1]
  }

  /** The total length of the strings in `xs`. */
  function TotalLength(xs: seq<string>): nat
  {
    if |xs| == 0 then 0 else TotalLength(xs[..|xs| - 1]) + |xs[|xs| - 1]|
  }

  /** A joined string holds every element and one separator between each pair of neighbours. */
  lemma {:induction false} JoinLength(xs: seq<string>, sep: string)
    requires |xs| > 0
    ensures |Join(xs, sep)| == TotalLength(xs) + (|xs| - 1) * |sep|
  {
    if |xs| > 1 {
      JoinLength(xs[..|xs| - 1], sep);
      var ys := xs[..|xs| - 1];
      if |ys| == 1 {
        assert TotalLength(ys) == |ys[0]| by {
          assert ys[..0] == [];
        }
      }
    } else {
      assert xs[..0] == [];
    }
  }

  /** Joining one element gives that element; joining two puts the separator between them. */
  lemma JoinSmall(a: string, b: string, sep: string)
    ensures Join([a], sep) == a
    ensures Join([a, b], sep) == a + sep + b
  {
    assert [a, b][..1] == [a];
  }
}
