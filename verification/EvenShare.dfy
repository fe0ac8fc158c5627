/**
 `even_share`: the range of `[0, n)` that falls to one of `size` ranks. The pool, the older pool and the
 distributed solver each have a copy of it. Every operation is done modulo 2^64, as `std::size_t` does.
 */
module EvenShare {
  const TWO64: nat := 0x1_0000_0000_0000_0000

  function U64(x: nat): nat { x % TWO64 }

  function Share(n: nat, rank: nat, size: nat): (nat, nat)
    requires size > 0
  {
    ShareOf(n / size, n % size, rank)
  }

  // With `avg` items per thread and `bigShares` of them one larger.
  function ShareOf(avg: nat, bigShares: nat, rank: nat): (nat, nat) {
    var bigShare := U64(avg + 1);
    var begin := if rank < bigShares then U64(bigShare * rank)
                 else U64(U64(bigShare * bigShares) + U64((rank - bigShares) * avg));
    (begin, U64(begin + if rank < bigShares then bigShare else avg))
  }

  // What the shares should be: rank `r` begins after `r` average shares and one extra for each big one.
  function Begin(n: nat, r: nat, size: nat): nat
    requires size > 0
  {
    BeginOf(n / size, n % size, r)
  }

  function BeginOf(avg: nat, bigShares: nat, r: nat): nat { avg * r + if r < bigShares then r else bigShares }

  lemma MulMono(a: nat, b: nat, c: nat)
    requires b <= c
    ensures a * b <= a * c
  {
    assert a * (c - b) >= 0;
  }

  lemma BeginBounds(n: nat, r: nat, size: nat)
    requires size > 0 && r <= size
    ensures Begin(n, r, size) <= n && Begin(n, 0, size) == 0 && Begin(n, size, size) == n
  {
    var q := n / size;
    assert n == q * size + n % size;
    MulMono(q, r, size);
  }

  lemma NoWrap(x: nat)
    requires x < TWO64
    ensures U64(x) == x
  {}

  // Both branches over the quotient `q` and the remainder `b`, in steps the solver finds at once.
  lemma BigShare(q: nat, rank: nat, total: nat)
    requires q * rank + rank + q + 1 <= total < TWO64
    ensures U64(U64(q + 1) * rank) == q * rank + rank
    ensures U64(q * rank + rank + U64(q + 1)) == q * (rank + 1) + (rank + 1)
  {
    assert q * rank >= 0;
    NoWrap(q + 1);
    assert (q + 1) * rank == q * rank + rank;
    NoWrap(q * rank + rank);
    assert q * (rank + 1) == q * rank + q;
    NoWrap(q * rank + rank + (q + 1));
  }

  lemma Difference(q: nat, b: nat, rank: nat)
    requires b <= rank
    ensures (rank - b) * q == q * rank - q * b && q * b >= 0 && (rank - b) * q >= 0
  {}

  lemma SmallShareBegin(q: nat, b: nat, rank: nat)
    requires b <= rank && q * rank + b < TWO64
    requires b > 0 ==> q + 1 < TWO64
    ensures U64(U64(U64(q + 1) * b) + U64((rank - b) * q)) == q * rank + b
  {
    assert U64(q + 1) * b == q * b + b by {
      if b > 0 { NoWrap(q + 1); }
    }
    Difference(q, b, rank);
    NoWrap(q * b + b);
    NoWrap((rank - b) * q);
    NoWrap(q * rank + b);
  }

  lemma SmallShareEnd(q: nat, b: nat, rank: nat)
    requires b <= rank && q * rank + b + q < TWO64
    ensures U64(q * rank + b + q) == q * (rank + 1) + b
  {
    assert q * rank >= 0;
    NoWrap(q * rank + b + q);
    assert q * (rank + 1) == q * rank + q;
  }

  lemma ShareOfIsExact(avg: nat, bigShares: nat, rank: nat, total: nat)
    requires BeginOf(avg, bigShares, rank + 1) <= total < TWO64
    requires bigShares > 0 ==> avg + 1 <= total
    ensures ShareOf(avg, bigShares, rank) == (BeginOf(avg, bigShares, rank), BeginOf(avg, bigShares, rank + 1))
  {
    assert avg * (rank + 1) == avg * rank + avg;
    if rank < bigShares { BigShare(avg, rank, total); } else {
      SmallShareBegin(avg, bigShares, rank);
      SmallShareEnd(avg, bigShares, rank);
    }
  }

  /** Nothing wraps: for every 64-bit `n` and `size` the computed range is the intended one. */
  lemma ShareIsExact(n: nat, rank: nat, size: nat)
    requires n < TWO64 && rank < size < TWO64
    ensures Share(n, rank, size) == (Begin(n, rank, size), Begin(n, rank + 1, size))
  {
    BeginBounds(n, rank + 1, size);
    MulMono(n / size, 1, size);
    ShareOfIsExact(n / size, n % size, rank, n);
  }

  /** Sizes differ by at most one, and the big shares come first. */
  lemma ShareSizes(n: nat, rank: nat, size: nat)
    requires rank < size
    ensures Begin(n, rank + 1, size) - Begin(n, rank, size) == n / size + if rank < n % size then 1 else 0
  {
    assert (n / size) * (rank + 1) == (n / size) * rank + n / size;
  }

  predicate InShare(x: nat, n: nat, rank: nat, size: nat)
    requires size > 0
  {
    Begin(n, rank, size) <= x < Begin(n, rank + 1, size)
  }

  lemma BeginMonotone(n: nat, r: nat, r': nat, size: nat)
    requires size > 0 && r <= r' <= size
    ensures Begin(n, r, size) <= Begin(n, r', size)
  {
    MulMono(n / size, r, r');
  }

  lemma {:induction false} OwnerBelow(x: nat, n: nat, r: nat, size: nat) returns (rank: nat)
    requires size > 0 && r <= size && x < Begin(n, r, size)
    ensures rank < r && InShare(x, n, rank, size)
  {
    if Begin(n, r - 1, size) <= x { rank := r - 1; } else { rank := OwnerBelow(x, n, r - 1, size); }
  }

  /** The shares tile `[0, n)`: every element has one rank, and only one. */
  lemma Tiles(x: nat, n: nat, size: nat) returns (rank: nat)
    requires size > 0 && x < n
    ensures rank < size && InShare(x, n, rank, size)
    ensures forall r | 0 <= r < size :: InShare(x, n, r, size) ==> r == rank
  {
    BeginBounds(n, size, size);
    rank := OwnerBelow(x, n, size, size);
    forall r | 0 <= r < size && InShare(x, n, r, size) ensures r == rank {
      if r < rank { BeginMonotone(n, r + 1, rank, size); }
      if rank < r { BeginMonotone(n, rank + 1, r, size); }
    }
  }
}
