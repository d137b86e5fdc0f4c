/** Sums of sequences of reals and the prefix-sum facts the layout rests on. */
module PrefixSums {

  /** The sum of `s`, peeled from the end so that a prefix sum grows by one
      element at a time, as the source's running totals do. */
  function Sum(s: seq<real>): real
  {
    if |s| == 0 then 0.0 else Sum(s[..|s| - 1]) + s[|s| - 1]
  }

  predicate NonNegative(s: seq<real>)
  {
    forall i :: 0 <= i < |s| ==> 0.0 <= s[i]
  }

  lemma {:induction false} SumAppend(a: seq<real>, b: seq<real>)
    ensures Sum(a + b) == Sum(a) + Sum(b)
    decreases |b|
  {
    if |b| > 0 {
      var b' := b[..|b| - 1];
      assert (a + b)[..|a + b| - 1] == a + b';
      SumAppend(a, b');
    } else {
      assert a + b == a;
    }
  }

  lemma SumPrefixStep(s: seq<real>, i: nat)
    requires i < |s|
    ensures Sum(s[..i + 1]) == Sum(s[..i]) + s[i]
  {
    assert s[..i + 1][..i] == s[..i];
  }

  /** A prefix sum splits at any inner index. */
  lemma SumSplit(s: seq<real>, i: nat, j: nat)
    requires i <= j <= |s|
    ensures Sum(s[..j]) == Sum(s[..i]) + Sum(s[i..j])
  {
    assert s[..j] == s[..i] + s[i..j];
    SumAppend(s[..i], s[i..j]);
  }

  lemma {:induction false} SumNonNegative(s: seq<real>)
    requires NonNegative(s)
    ensures 0.0 <= Sum(s)
  {
    if |s| > 0 {
      SumNonNegative(s[..|s| - 1]);
    }
  }

  /** With no negative entries, a longer prefix never sums to less. */
  lemma PrefixMonotone(s: seq<real>, i: nat, j: nat)
    requires NonNegative(s)
    requires i <= j <= |s|
    ensures Sum(s[..i]) <= Sum(s[..j])
  {
    SumSplit(s, i, j);
    SumNonNegative(s[i..j]);
  }

  /** Every entry divided by `total` and multiplied by `scale`. */
  function Scaled(s: seq<real>, total: real, scale: real): (r: seq<real>)
    requires total != 0.0 || |s| == 0
    ensures |r| == |s|
  {
    seq(|s|, i requires 0 <= i < |s| => s[i] / total * scale)
  }

  lemma DivideDistributes(a: real, b: real, total: real, scale: real)
    requires total != 0.0
    ensures a / total * scale + b / total * scale == (a + b) / total * scale
  {
    assert a / total + b / total == (a + b) / total;
  }

  /** Scaling every entry scales the sum the same way. */
  lemma {:induction false} SumScaled(s: seq<real>, total: real, scale: real)
    requires total != 0.0
    ensures Sum(Scaled(s, total, scale)) == Sum(s) / total * scale
  {
    if |s| > 0 {
      var p := s[..|s| - 1];
      var whole, part := Scaled(s, total, scale), Scaled(p, total, scale);
      assert whole[..|s| - 1] == part by {
        forall i | 0 <= i < |p|
          ensures whole[i] == part[i]
        {
          assert p[i] == s[i];
        }
      }
      SumScaled(p, total, scale);
      DivideDistributes(Sum(p), s[|s| - 1], total, scale);
    }
  }
}
