/** `Math.random()` enters the model as a parameter: a real number in [0, 1). */
module Random {
  predicate IsDraw(r: real) {
    0.0 <= r < 1.0
  }

  predicate AllDraws(rs: seq<real>) {
    forall i :: 0 <= i < |rs| ==> IsDraw(rs[i])
  }

  /** `Math.floor(r * n)`: a uniform index into something of length `n`. */
  function ScaledIndex(r: real, n: nat): (k: nat)
    requires IsDraw(r) && n >= 1
    ensures k < n
  {
    ScaledBelow(r, n);
    (r * n as real).Floor
  }

  lemma ScaledBelow(r: real, n: nat)
    requires IsDraw(r) && n >= 1
    ensures 0.0 <= r * n as real < n as real
  {
  }

  /** Every index is drawn by some `r`, so no outcome is unreachable. */
  lemma ScaledIndexReaches(k: nat, n: nat)
    requires k < n
    ensures IsDraw(k as real / n as real) && ScaledIndex(k as real / n as real, n) == k
  {
    var r := k as real / n as real;
    assert r * n as real == k as real;
  }

  /** The Fisher-Yates loop of `createDeck`: for `i` from the last index down
      to 1, swap `a[i]` with `a[floor(r * (i + 1))]`, where `r` is the next
      draw. The array ends up a permutation of what it held. */
  method Shuffle<T>(a: array<T>, draws: seq<real>)
    requires |draws| >= a.Length - 1 && AllDraws(draws)
    modifies a
    ensures multiset(a[..]) == multiset(old(a[..]))
  {
    var i := a.Length - 1;
    while i > 0
      invariant -1 <= i < a.Length
      invariant multiset(a[..]) == multiset(old(a[..]))
      decreases i
    {
      var j := ScaledIndex(draws[a.Length - 1 - i], i + 1);
      a[i], a[j] := a[j], a[i];
      i := i - 1;
    }
  }
}
