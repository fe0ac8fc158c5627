/** What several modules say about sequences and remainders. */
module Basics {
  ghost predicate Distinct<T>(l: seq<T>) {
    forall i, j | 0 <= i < j < |l| :: l[i] != l[j]
  }

  lemma DistinctTail<T>(l: seq<T>)
    requires l != [] && Distinct(l)
    ensures Distinct(l[1..]) && l[0] !in l[1..]
    ensures forall x :: x in l <==> x == l[0] || x in l[1..]
  {}

  // The entry that index `x` reaches in a ring of `n`, when it is in the first or the second round.
  function Ring(x: nat, n: nat): nat
    requires x < 2 * n
  {
    if x < n then x else x - n
  }

  lemma ModIsRing(x: nat, n: nat)
    requires x < 2 * n
    ensures x % n == Ring(x, n)
  {
    if x >= n {
      Remainder(x, 1, x - n, n);
    } else {
      Remainder(x, 0, x, n);
    }
  }

  // The queue of the `i`-th task, when `n` queues are gone round.
  function QueueFor(i: nat, n: nat): (q: nat)
    requires n > 0
    ensures q < n && (i < n ==> q == i)
  {
    if i < n then ModIsRing(i, n); i % n else i % n
  }

  // Quotient and remainder are unique.
  lemma Remainder(x: nat, q: nat, r: nat, n: nat)
    requires r < n && x == q * n + r
    ensures x % n == r
  {
    var d := q - x / n;
    assert d * n == x % n - r by { assert x == (x / n) * n + x % n; }
    if d != 0 { Multiple(d, n); }
  }

  lemma Multiple(d: int, n: nat)
    requires d != 0
    ensures d * n >= n || d * n + n <= 0
  {
    if d > 0 { assert (d - 1) * n >= 0; } else { assert (-d - 1) * n >= 0; }
  }
}
