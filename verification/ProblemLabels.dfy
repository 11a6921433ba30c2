/** Problem labels: A, B, ..., Z, AA, AB, ... */
module ProblemLabels {
  ghost predicate IsLabel(s: string) {
    forall i :: 0 <= i < |s| ==> 'A' <= s[i] <= 'Z'
  }

  function Letter(d: nat): char
    requires d < 26
  {
    (d + 65) as char
  }

  // Bijective base 26: the digits are 1..26, and 0 is the empty word.
  function Write(n: nat): (s: string)
    ensures IsLabel(s)
  {
    if n == 0 then "" else Write((n - 1) / 26) + [Letter((n - 1) % 26)]
  }

  function Read(s: string): nat
    requires IsLabel(s)
  {
    if s == "" then 0 else 26 * Read(s[..|s| - 1]) + (s[|s| - 1] as int - 64)
  }

  /** `get_label_for_problem`: the letters come out last first. */
  method GetLabelForProblem(index: nat) returns (word: string)
    ensures word == Write(index + 1) && word != ""
  {
    var n, ret := index + 1, "";
    while n > 0
      invariant n >= 0 && Write(index + 1) == Write(n) + Reversed(ret)
    {
      ReversedNext(ret, Letter((n - 1) % 26));
      ret := ret + [Letter((n - 1) % 26)];
      n := (n - 1) / 26;
    }
    word := Reversed(ret);
  }

  function Reversed(s: string): (r: string)
    ensures |r| == |s| && forall i :: 0 <= i < |s| ==> r[i] == s[|s| - 1 - i]
  {
    if s == "" then "" else [s[|s| - 1]] + Reversed(s[..|s| - 1])
  }

  lemma ReversedNext(s: string, c: char)
    ensures Reversed(s + [c]) == [c] + Reversed(s)
  {
    assert (s + [c])[..|s|] == s;
  }

  /** No two problems share a label: reading a label gives back its number ... */
  lemma {:induction false} ReadWritten(n: nat)
    ensures Read(Write(n)) == n
  {
    if n > 0 {
      ReadWritten((n - 1) / 26);
      var s := Write(n);
      assert s[..|s| - 1] == Write((n - 1) / 26);
    }
  }

  /** ... and every word over A-Z is the label of exactly the problem that it reads as. */
  lemma {:induction false} WriteRead(s: string)
    requires IsLabel(s)
    ensures Write(Read(s)) == s
  {
    if s != "" {
      var front, d := s[..|s| - 1], s[|s| - 1] as int - 65;
      WriteRead(front);
      assert 0 <= d < 26;
      assert Read(s) - 1 == 26 * Read(front) + d;
      assert (Read(s) - 1) / 26 == Read(front) && (Read(s) - 1) % 26 == d;
      assert front + [Letter(d)] == s;
    }
  }

  // ----- Order -----

  ghost predicate Alphabetic(a: string, b: string)
    requires |a| == |b|
  {
    exists k :: 0 <= k < |a| && a[..k] == b[..k] && a[k] < b[k]
  }

  // The number of words of fewer than k letters.
  function Shorter(k: nat): nat {
    if k == 0 then 0 else 26 * Shorter(k - 1) + 1
  }

  lemma {:induction false} ReadBounds(s: string)
    requires IsLabel(s)
    ensures Shorter(|s|) <= Read(s) < Shorter(|s| + 1)
  {
    if s != "" {
      ReadBounds(s[..|s| - 1]);
    }
  }

  lemma {:induction false} ShorterGrows(j: nat, k: nat)
    requires j <= k
    ensures Shorter(j) <= Shorter(k)
  {
    if j < k {
      ShorterGrows(j, k - 1);
    }
  }

  lemma {:induction false} SameLengthOrder(a: string, b: string)
    requires IsLabel(a) && IsLabel(b) && |a| == |b|
    ensures Read(a) < Read(b) <==> Alphabetic(a, b)
  {
    if a != "" {
      var n := |a| - 1;
      var fa, fb := a[..n], b[..n];
      SameLengthOrder(fa, fb);
      AlphabeticLast(a, b);
      WriteRead(fa);
      WriteRead(fb);
      DigitsCompare(Read(fa), a[n] as int - 64, Read(fb), b[n] as int - 64);
    }
  }

  lemma DigitsCompare(x: nat, d: int, y: nat, e: int)
    requires 1 <= d <= 26 && 1 <= e <= 26
    ensures 26 * x + d < 26 * y + e <==> x < y || (x == y && d < e)
  {
  }

  lemma AlphabeticLast(a: string, b: string)
    requires |a| == |b| > 0
    ensures var n := |a| - 1; Alphabetic(a, b) <==> Alphabetic(a[..n], b[..n]) || (a[..n] == b[..n] && a[n] < b[n])
  {
    var n := |a| - 1;
    var fa, fb := a[..n], b[..n];
    if Alphabetic(a, b) {
      var k :| 0 <= k < |a| && a[..k] == b[..k] && a[k] < b[k];
      if k < n {
        assert fa[..k] == a[..k] == b[..k] == fb[..k] && fa[k] < fb[k];
      }
    }
    if Alphabetic(fa, fb) {
      var k :| 0 <= k < n && fa[..k] == fb[..k] && fa[k] < fb[k];
      assert a[..k] == fa[..k] == fb[..k] == b[..k] && a[k] < b[k];
    }
  }

  /** Problems are in the order of their labels: by length, then alphabetically. */
  lemma LabelOrder(i: nat, j: nat)
    ensures var a, b := Write(i + 1), Write(j + 1);
            i < j <==> |a| < |b| || (|a| == |b| && Alphabetic(a, b))
  {
    var a, b := Write(i + 1), Write(j + 1);
    ReadWritten(i + 1);
    ReadWritten(j + 1);
    ReadBounds(a);
    ReadBounds(b);
    if |a| < |b| {
      ShorterGrows(|a| + 1, |b|);
    } else if |b| < |a| {
      ShorterGrows(|b| + 1, |a|);
    } else {
      SameLengthOrder(a, b);
    }
  }
}
