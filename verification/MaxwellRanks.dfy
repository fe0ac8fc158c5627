/**
 All ranks of the distributed Maxwell solver together, against one periodic grid.

 The message passing is taken as its effect: after `exchange_hx` a rank's lower halo row holds the last row of
 the previous rank, after `exchange_ez` its upper halo row holds the first row of the next.
 */
module MaxwellRanks {
  import opened Basics
  import opened EvenShare
  import opened Maxwell

  // ---------------------------------------------------------------- one periodic grid

  datatype Grid = Grid(
    n: nat, er: seq<Float>, mh: seq<Float>, hx: seq<Float>, hy: seq<Float>, ez: seq<Float>, dz: seq<Float>, time: Float)

  predicate GridOk(g: Grid) {
    g.n > 0 && |g.er| == |g.mh| == |g.hx| == |g.hy| == |g.ez| == |g.dz| == g.n * g.n
  }

  function Get(g: Grid, f: Field): seq<Float>
    requires f != Hr
  {
    match f case Er => g.er case Mh => g.mh case Hx => g.hx case Hy => g.hy case Ez => g.ez case Dz => g.dz
  }

  // The four neighbours on the torus, by row and column, which wrap around.
  function Node(row: nat, column: nat, n: nat): (id: nat)
    requires row < 2 * n && column < 2 * n
  {
    Ring(row, n) * n + Ring(column, n)
  }

  function Top(id: nat, n: nat): (t: nat)
    requires id < n * n
    ensures t < n * n && t == if id + n >= n * n then id + n - n * n else id + n
  {
    RowInGrid(id, n);
    TopOf(id, id / n, id % n, n);
    Node(id / n + 1, id % n, n)
  }

  function Bottom(id: nat, n: nat): (b: nat)
    requires id < n * n
    ensures b < n * n && b == if id >= n then id - n else id + n * n - n
  {
    RowInGrid(id, n);
    BottomOf(id, id / n, id % n, n);
    Node(id / n + n - 1, id % n, n)
  }

  function Right(id: nat, n: nat): (r: nat)
    requires id < n * n
    ensures r < n * n && r == if id % n == n - 1 then id - (n - 1) else id + 1
  {
    RowInGrid(id, n);
    RightOf(id, id / n, id % n, n);
    Node(id / n, id % n + 1, n)
  }

  function Left(id: nat, n: nat): (l: nat)
    requires id < n * n
    ensures l < n * n && l == if id % n == 0 then id + n - 1 else id - 1
  {
    RowInGrid(id, n);
    LeftOf(id, id / n, id % n, n);
    Node(id / n, id % n + n - 1, n)
  }

  // The source is in the middle row and column.
  predicate IsSource(id: nat, n: nat)
    requires n > 0
  {
    id / n == n / 2 && id % n == n / 2
  }

  lemma QuotientIs(x: nat, q: nat, r: nat, n: nat)
    requires r < n && x == q * n + r
    ensures x / n == q && x % n == r
  {
    Remainder(x, q, r, n);
    DivMod(x, n);
    assert (x / n) * n == q * n;
    if x / n != q { Multiple(x / n - q, n); }
  }

  lemma SourceIs(id: nat, n: nat)
    requires n > 0
    ensures IsSource(id, n) <==> id == SourcePosition(n)
  {
    DivMod(id, n);
    QuotientIs(SourcePosition(n), n / 2, n / 2, n);
  }

  lemma RowInGrid(id: nat, n: nat)
    requires id < n * n
    ensures n > 0 && id / n < n && id % n < n && id == (id / n) * n + id % n
    ensures 0 <= id / n + 1 < 2 * n && 0 <= id / n + n - 1 < 2 * n && 0 <= id % n + n - 1 < 2 * n
  {
    DivMod(id, n);
    if id / n >= n { MulMono(n, n, id / n); }
  }

  lemma LastRow(q: nat, r: nat, n: nat)
    requires q < n && r < n
    ensures q + 1 == n <==> q * n + r + n >= n * n
    ensures q == 0 <==> q * n + r < n
  {
    if q + 1 < n { MulMono(n, q + 2, n); }
    Rows(-1, q, n);
    Rows(-2, q, n);
    if q > 0 { MulMono(n, 1, q); }
  }

  lemma RowUp(q: nat, n: nat)
    requires q < n
    ensures Ring(q + 1, n) * n == if q + 1 < n then q * n + n else 0
  {
    Rows(-1, q, n);
  }

  lemma RowDown(q: nat, n: nat)
    requires q < n
    ensures Ring(q + n - 1, n) * n == if q == 0 then n * n - n else q * n - n
  {
    Rows(1, q, n);
    Rows(1, n, n);
  }

  lemma RowFits(q: nat, n: nat)
    requires q < n
    ensures q * n + n <= n * n
  {
    MulMono(n, q + 1, n);
    Rows(-1, q, n);
  }

  // The neighbours of row `q`, column `r`.
  lemma TopOf(id: nat, q: nat, r: nat, n: nat)
    requires q < n && r < n && id == q * n + r
    ensures var t := Node(q + 1, r, n); 0 <= t < n * n && t == if id + n >= n * n then id + n - n * n else id + n
  {
    LastRow(q, r, n);
    RowUp(q, n);
    RowFits(q, n);
    if q + 1 == n { Rows(1, n, n); }
  }

  lemma BottomOf(id: nat, q: nat, r: nat, n: nat)
    requires q < n && r < n && id == q * n + r
    ensures var b := Node(q + n - 1, r, n); 0 <= b < n * n && b == if id >= n then id - n else id + n * n - n
  {
    LastRow(q, r, n);
    RowDown(q, n);
    RowFits(q, n);
  }

  lemma RightOf(id: nat, q: nat, r: nat, n: nat)
    requires q < n && r < n && id == q * n + r
    ensures var t := Node(q, r + 1, n); 0 <= t < n * n && t == if r == n - 1 then id - (n - 1) else id + 1
  {
    RowFits(q, n);
  }

  lemma LeftOf(id: nat, q: nat, r: nat, n: nat)
    requires q < n && r < n && id == q * n + r
    ensures var t := Node(q, r + n - 1, n); 0 <= t < n * n && t == if r == 0 then id + n - 1 else id - 1
  {
    RowFits(q, n);
  }

  lemma InRow(id: nat, n: nat)
    requires id < n * n
    ensures n > 0 && 0 <= id - id % n && id - id % n + n <= n * n
  {
    if n > 0 {
      assert id == (id / n) * n + id % n;
      WholeRows(id / n, id % n, n, n);
    }
  }

  lemma InGrid(id: nat, n: nat)
    requires id < n * n
    ensures Top(id, n) < n * n && Bottom(id, n) < n * n
  {
    InRow(id, n);
  }

  function GridH(p: Physics, g: Grid): (g': Grid)
    requires GridOk(g)
    ensures GridOk(g') && g'.n == g.n
  {
    var n := g.n;
    g.(hx := seq(n * n, id requires 0 <= id < n * n => InGrid(id, n);
                p.hx(g.hx[id], g.mh[id], g.ez[id], g.ez[Top(id, n)])),
       hy := seq(n * n, id requires 0 <= id < n * n => p.hy(g.hy[id], g.mh[id], g.ez[id], g.ez[Right(id, n)])))
  }

  function GridDz(p: Physics, g: Grid, id: nat): Float
    requires GridOk(g) && id < g.n * g.n
  {
    InGrid(id, g.n);
    var d := p.dz(g.dz[id], g.hy[id], g.hy[Left(id, g.n)], g.hx[id], g.hx[Bottom(id, g.n)]);
    if IsSource(id, g.n) then p.pulse(d, g.time) else d
  }

  function GridE(p: Physics, g: Grid): (g': Grid)
    requires GridOk(g)
    ensures GridOk(g') && g'.n == g.n
  {
    var n := g.n;
    g.(dz := seq(n * n, id requires 0 <= id < n * n => GridDz(p, g, id)),
       ez := seq(n * n, id requires 0 <= id < n * n => p.ez(GridDz(p, g, id), g.er[id])),
       time := p.tick(g.time))
  }

  lemma GridHAt(p: Physics, g: Grid, f: Field, id: nat)
    requires GridOk(g) && f != Hr && id < g.n * g.n
    ensures Top(id, g.n) < g.n * g.n
    ensures Get(GridH(p, g), f)[id] ==
            if f == Hx then p.hx(g.hx[id], g.mh[id], g.ez[id], g.ez[Top(id, g.n)])
            else if f == Hy then p.hy(g.hy[id], g.mh[id], g.ez[id], g.ez[Right(id, g.n)])
            else Get(g, f)[id]
  {
    InGrid(id, g.n);
  }

  lemma GridEAt(p: Physics, g: Grid, f: Field, id: nat)
    requires GridOk(g) && f != Hr && id < g.n * g.n
    ensures Get(GridE(p, g), f)[id] ==
            if f == Dz then GridDz(p, g, id)
            else if f == Ez then p.ez(GridDz(p, g, id), g.er[id])
            else Get(g, f)[id]
  {}

  function GridSteps(p: Physics, g: Grid, steps: nat): (g': Grid)
    requires GridOk(g)
    ensures GridOk(g') && g'.n == g.n
  {
    if steps == 0 then g else GridE(p, GridH(p, GridSteps(p, g, steps - 1)))
  }

  // ---------------------------------------------------------------- the ranks

  predicate Split(n: nat, size: nat) { 0 < size <= n && n * n < TWO64 }

  // The accessor of a rank: its rows by `even_share`, times the row length.
  function Band(n: nat, size: nat, r: nat): Accessor
    requires Split(n, size) && r < size
  {
    Accessor(n, Share(n, r, size).0 * n, Share(n, r, size).1 * n)
  }

  lemma RowsOf(b: nat, e: nat, n: nat)
    requires n > 0 && b < e <= n
    ensures (b * n) % n == 0 && (e * n) % n == 0 && b * n + n <= e * n <= n * n
  {
    ModAdd(b, n, 0);
    ModAdd(e, n, 0);
    WholeRows(b, 0, e, n);
    MulMono(n, e, n);
  }

  lemma QuotientPositive(n: nat, size: nat)
    requires 0 < size <= n
    ensures n / size >= 1
  {
    var q := n / size;
    assert n == q * size + n % size;
    assert q <= 0 ==> q * size <= 0;
  }

  lemma RowsFacts(n: nat, size: nat, r: nat)
    requires Split(n, size) && r < size
    ensures Share(n, r, size) == (Begin(n, r, size), Begin(n, r + 1, size))
    ensures Begin(n, r, size) < Begin(n, r + 1, size) <= n
  {
    MulMono(n, 1, n);
    ShareIsExact(n, r, size);
    BeginBounds(n, r + 1, size);
    ShareSizes(n, r, size);
    QuotientPositive(n, size);
  }

  lemma BandFacts(n: nat, size: nat, r: nat)
    requires Split(n, size) && r < size
    ensures Band(n, size, r).Valid() && Band(n, size, r).Own() >= n && Band(n, size, r).end <= n * n
    ensures r == 0 ==> Band(n, size, r).begin == 0
    ensures r == size - 1 ==> Band(n, size, r).end == n * n
    ensures r + 1 < size ==> Band(n, size, r + 1).begin == Band(n, size, r).end
  {
    RowsFacts(n, size, r);
    if r + 1 < size { RowsFacts(n, size, r + 1); }
    RowsOf(Begin(n, r, size), Begin(n, r + 1, size), n);
    BeginBounds(n, r, size);
  }

  // Rank `r` has rows of its own; by `ShareIsExact` this is the range that `even_share` computes.
  predicate HasRow(n: nat, size: nat, r: nat)
    requires size > 0
  {
    Begin(n, r, size) < Begin(n, r + 1, size)
  }

  lemma HasRowIff(n: nat, size: nat, r: nat)
    requires r < size
    ensures HasRow(n, size, r) <==> n / size > 0 || r < n % size
  {
    ShareSizes(n, r, size);
  }

  lemma NoWholeShare(n: nat, size: nat)
    requires n < size
    ensures n / size == 0 && n % size == n
  {}

  /** Every rank has a border row to send exactly if there are no more ranks than rows. */
  lemma RowForEachIff(n: nat, size: nat)
    requires 0 < size < TWO64 && n < TWO64
    ensures (forall r: nat | r < size :: HasRow(n, size, r)) <==> size <= n
  {
    if size <= n {
      QuotientPositive(n, size);
      forall r: nat | r < size ensures HasRow(n, size, r) { HasRowIff(n, size, r); }
    } else {
      NoWholeShare(n, size);
      HasRowIff(n, size, size - 1);
      assert !HasRow(n, size, size - 1);
    }
  }

  function Prev(r: nat, size: nat): nat
    requires r < size
  {
    if r == 0 then size - 1 else r - 1
  }

  function Next(r: nat, size: nat): nat
    requires r < size
  {
    if r == size - 1 then 0 else r + 1
  }

  ghost predicate MemOk(n: nat, size: nat, ms: seq<seq<Float>>) {
    Split(n, size) && |ms| == size && forall r | 0 <= r < size :: Fits(Band(n, size, r), ms[r])
  }

  ghost predicate HxReceived(n: nat, size: nat, ms: seq<seq<Float>>, m': seq<Float>, r: nat)
    requires MemOk(n, size, ms) && r < size && Fits(Band(n, size, r), m')
  {
    var a, b := Band(n, size, r), Band(n, size, Prev(r, size));
    BandFacts(n, size, Prev(r, size));
    forall f, i | InSlice(a, i) ::
      At(a, m', f, i) == if f == Hx && i < 0 then At(b, ms[Prev(r, size)], Hx, b.Own() + i) else At(a, ms[r], f, i)
  }

  ghost predicate EzReceived(n: nat, size: nat, ms: seq<seq<Float>>, m': seq<Float>, r: nat)
    requires MemOk(n, size, ms) && r < size && Fits(Band(n, size, r), m')
  {
    var a, b := Band(n, size, r), Band(n, size, Next(r, size));
    BandFacts(n, size, Next(r, size));
    forall f, i | InSlice(a, i) ::
      At(a, m', f, i) ==
      if f == Ez && i >= a.Own() then At(b, ms[Next(r, size)], Ez, i - a.Own()) else At(a, ms[r], f, i)
  }

  // ---------------------------------------------------------------- agreement with the grid

  ghost predicate OwnAgrees(a: Accessor, m: seq<Float>, g: Grid) {
    && Fits(a, m) && GridOk(g) && a.n == g.n && a.end <= g.n * g.n && a.Own() >= a.n
    && forall f, i | f != Hr && 0 <= i < a.Own() :: At(a, m, f, i) == Get(g, f)[a.begin + i]
  }

  ghost predicate HxHaloAgrees(a: Accessor, m: seq<Float>, g: Grid)
    requires OwnAgrees(a, m, g)
  {
    forall c | 0 <= c < a.n :: At(a, m, Hx, c - a.n) == g.hx[Below(a, c)]
  }

  ghost predicate EzHaloAgrees(a: Accessor, m: seq<Float>, g: Grid)
    requires OwnAgrees(a, m, g)
  {
    forall c | 0 <= c < a.n :: At(a, m, Ez, a.Own() + c) == g.ez[Above(a, c)]
  }

  lemma OwnAt(a: Accessor, m: seq<Float>, g: Grid, f: Field, i: nat)
    requires OwnAgrees(a, m, g) && f != Hr && i < a.Own()
    ensures a.begin + i < g.n * g.n && At(a, m, f, i) == Get(g, f)[a.begin + i]
  {}

  // The cells below the first and above the last row of a band, on the torus.
  function Below(a: Accessor, c: nat): (id: nat)
    requires a.Valid() && c < a.n && a.Own() >= a.n && a.end <= a.n * a.n
    ensures id < a.n * a.n
  {
    InGrid(a.begin + c, a.n);
    Bottom(a.begin + c, a.n)
  }

  function Above(a: Accessor, c: nat): (id: nat)
    requires a.Valid() && c < a.n && a.Own() >= a.n && a.end <= a.n * a.n
    ensures id < a.n * a.n
  {
    InGrid(a.end - a.n + c, a.n);
    Top(a.end - a.n + c, a.n)
  }

  // The neighbour functions of the local code, seen from the grid.
  lemma SameNeighbours(a: Accessor, i: nat)
    requires a.Valid() && i < a.Own() && a.end <= a.n * a.n
    ensures a.begin + RightNid(i, Column(a, i), a.n) == Right(a.begin + i, a.n)
    ensures a.begin + LeftNid(i, Column(a, i), a.n) == Left(a.begin + i, a.n)
  {}

  lemma HRefines(p: Physics, a: Accessor, m: seq<Float>, m': seq<Float>, g: Grid)
    requires OwnAgrees(a, m, g) && EzHaloAgrees(a, m, g) && HDone(p, a, m, m')
    ensures OwnAgrees(a, m', GridH(p, g)) && EzHaloAgrees(a, m', GridH(p, g))
  {
    var g' := GridH(p, g);
    forall f, i | f != Hr && 0 <= i < a.Own() ensures At(a, m', f, i) == Get(g', f)[a.begin + i] {
      HCellRefines(p, a, m, g, f, i);
      assert At(a, m', f, i) == HCell(p, a, m, f, i);
    }
    forall c | 0 <= c < a.n ensures At(a, m', Ez, a.Own() + c) == g'.ez[Above(a, c)] {
      assert At(a, m', Ez, a.Own() + c) == HCell(p, a, m, Ez, a.Own() + c);
    }
  }

  lemma AboveAgrees(a: Accessor, m: seq<Float>, g: Grid, i: nat)
    requires OwnAgrees(a, m, g) && EzHaloAgrees(a, m, g) && i < a.Own()
    ensures a.begin + i < a.n * a.n && Top(a.begin + i, a.n) < a.n * a.n
    ensures At(a, m, Ez, i + a.n) == g.ez[Top(a.begin + i, a.n)]
  {
    InGrid(a.begin + i, a.n);
    if i + a.n >= a.Own() {
      assert At(a, m, Ez, a.Own() + (i + a.n - a.Own())) == g.ez[Above(a, i + a.n - a.Own())];
    } else {
      assert At(a, m, Ez, i + a.n) == Get(g, Ez)[a.begin + (i + a.n)];
    }
  }

  lemma BelowAgrees(a: Accessor, m: seq<Float>, g: Grid, i: nat)
    requires OwnAgrees(a, m, g) && HxHaloAgrees(a, m, g) && i < a.Own()
    ensures a.begin + i < a.n * a.n && Bottom(a.begin + i, a.n) < a.n * a.n
    ensures At(a, m, Hx, i - a.n) == g.hx[Bottom(a.begin + i, a.n)]
  {
    InGrid(a.begin + i, a.n);
    if i < a.n {
      assert At(a, m, Hx, i - a.n) == g.hx[Below(a, i)];
    } else {
      assert At(a, m, Hx, i - a.n) == Get(g, Hx)[a.begin + (i - a.n)];
    }
  }

  lemma HxRefines(p: Physics, a: Accessor, m: seq<Float>, g: Grid, i: nat)
    requires OwnAgrees(a, m, g) && EzHaloAgrees(a, m, g) && i < a.Own()
    ensures a.begin + i < g.n * g.n && HCell(p, a, m, Hx, i) == Get(GridH(p, g), Hx)[a.begin + i]
  {
    OwnAt(a, m, g, Hx, i);
    OwnAt(a, m, g, Mh, i);
    OwnAt(a, m, g, Ez, i);
    AboveAgrees(a, m, g, i);
    GridHAt(p, g, Hx, a.begin + i);
  }

  lemma HyRefines(p: Physics, a: Accessor, m: seq<Float>, g: Grid, i: nat)
    requires OwnAgrees(a, m, g) && i < a.Own()
    ensures a.begin + i < g.n * g.n && HCell(p, a, m, Hy, i) == Get(GridH(p, g), Hy)[a.begin + i]
  {
    OwnAt(a, m, g, Hy, i);
    OwnAt(a, m, g, Mh, i);
    OwnAt(a, m, g, Ez, i);
    NeighboursInSlice(a, i);
    SameNeighbours(a, i);
    OwnAt(a, m, g, Ez, RightNid(i, Column(a, i), a.n));
    GridHAt(p, g, Hy, a.begin + i);
  }

  lemma HCellRefines(p: Physics, a: Accessor, m: seq<Float>, g: Grid, f: Field, i: nat)
    requires OwnAgrees(a, m, g) && EzHaloAgrees(a, m, g) && f != Hr && i < a.Own()
    ensures HCell(p, a, m, f, i) == Get(GridH(p, g), f)[a.begin + i]
  {
    if f == Hx {
      HxRefines(p, a, m, g, i);
    } else if f == Hy {
      HyRefines(p, a, m, g, i);
    } else {
      OwnAt(a, m, g, f, i);
      GridHAt(p, g, f, a.begin + i);
    }
  }

  lemma NewDzRefines(p: Physics, a: Accessor, m: seq<Float>, time: Float, g: Grid, i: nat)
    requires OwnAgrees(a, m, g) && HxHaloAgrees(a, m, g) && i < a.Own()
    requires Owns(a, SourcePosition(a.n)) ==> time == g.time
    ensures a.begin + i < g.n * g.n && NewDz(p, a, m, time, i) == GridDz(p, g, a.begin + i)
  {
    NeighboursInSlice(a, i);
    SameNeighbours(a, i);
    BelowAgrees(a, m, g, i);
    OwnAt(a, m, g, Hy, LeftNid(i, Column(a, i), a.n));
    OwnAt(a, m, g, Dz, i);
    OwnAt(a, m, g, Hy, i);
    OwnAt(a, m, g, Hx, i);
    SourceIs(a.begin + i, a.n);
  }

  lemma ECellRefines(p: Physics, a: Accessor, m: seq<Float>, time: Float, g: Grid, f: Field, i: nat)
    requires OwnAgrees(a, m, g) && HxHaloAgrees(a, m, g) && f != Hr && i < a.Own()
    requires Owns(a, SourcePosition(a.n)) ==> time == g.time
    ensures ECell(p, a, m, time, f, i) == Get(GridE(p, g), f)[a.begin + i]
  {
    GridEAt(p, g, f, a.begin + i);
    if f == Dz || f == Ez {
      NewDzRefines(p, a, m, time, g, i);
      OwnAt(a, m, g, Er, i);
    } else {
      OwnAt(a, m, g, f, i);
    }
  }

  lemma ERefines(p: Physics, a: Accessor, m: seq<Float>, time: Float, m': seq<Float>, g: Grid)
    requires OwnAgrees(a, m, g) && HxHaloAgrees(a, m, g) && EDone(p, a, m, time, m')
    requires Owns(a, SourcePosition(a.n)) ==> time == g.time
    ensures OwnAgrees(a, m', GridE(p, g)) && HxHaloAgrees(a, m', GridE(p, g))
  {
    var g' := GridE(p, g);
    forall f, i | f != Hr && 0 <= i < a.Own() ensures At(a, m', f, i) == Get(g', f)[a.begin + i] {
      ECellRefines(p, a, m, time, g, f, i);
      assert At(a, m', f, i) == ECell(p, a, m, time, f, i);
    }
    forall c | 0 <= c < a.n ensures At(a, m', Hx, c - a.n) == g'.hx[Below(a, c)] {
      assert At(a, m', Hx, c - a.n) == ECell(p, a, m, time, Hx, c - a.n);
    }
  }

  ghost predicate AllOwnAgree(n: nat, size: nat, ms: seq<seq<Float>>, g: Grid)
    requires MemOk(n, size, ms)
  {
    forall r | 0 <= r < size :: OwnAgrees(Band(n, size, r), ms[r], g)
  }

  // A received halo row is the sender's border row, which is where the torus says.
  lemma RowBelow(n: nat, size: nat, r: nat, c: nat)
    requires Split(n, size) && r < size && c < n
    ensures var (a, b) := (Band(n, size, r), Band(n, size, Prev(r, size)));
            && a.Valid() && a.Own() >= n && a.end <= n * n && b.Valid() && b.Own() >= n
            && Below(a, c) == b.begin + (b.Own() + (c - n))
  {
    BandFacts(n, size, r);
    BandFacts(n, size, Prev(r, size));
  }

  lemma RowAbove(n: nat, size: nat, r: nat, c: nat)
    requires Split(n, size) && r < size && c < n
    ensures var (a, b) := (Band(n, size, r), Band(n, size, Next(r, size)));
            && a.Valid() && a.Own() >= n && a.end <= n * n && b.Valid() && b.Own() >= n
            && Above(a, c) == b.begin + c
  {
    BandFacts(n, size, r);
    BandFacts(n, size, Next(r, size));
  }

  lemma HxHaloReceived(n: nat, size: nat, ms: seq<seq<Float>>, m': seq<Float>, g: Grid, r: nat, c: nat)
    requires MemOk(n, size, ms) && r < size && Fits(Band(n, size, r), m') && HxReceived(n, size, ms, m', r) && c < n
    requires OwnAgrees(Band(n, size, Prev(r, size)), ms[Prev(r, size)], g) && OwnAgrees(Band(n, size, r), m', g)
    ensures At(Band(n, size, r), m', Hx, c - n) == g.hx[Below(Band(n, size, r), c)]
  {
    var b := Band(n, size, Prev(r, size));
    RowBelow(n, size, r, c);
    OwnAt(b, ms[Prev(r, size)], g, Hx, b.Own() + (c - n));
  }

  lemma EzHaloReceived(n: nat, size: nat, ms: seq<seq<Float>>, m': seq<Float>, g: Grid, r: nat, c: nat)
    requires MemOk(n, size, ms) && r < size && Fits(Band(n, size, r), m') && EzReceived(n, size, ms, m', r) && c < n
    requires OwnAgrees(Band(n, size, Next(r, size)), ms[Next(r, size)], g) && OwnAgrees(Band(n, size, r), m', g)
    ensures At(Band(n, size, r), m', Ez, Band(n, size, r).Own() + c) == g.ez[Above(Band(n, size, r), c)]
  {
    RowAbove(n, size, r, c);
    OwnAt(Band(n, size, Next(r, size)), ms[Next(r, size)], g, Ez, c);
  }

  lemma HxExchangeRefines(n: nat, size: nat, ms: seq<seq<Float>>, m': seq<Float>, g: Grid, r: nat)
    requires MemOk(n, size, ms) && AllOwnAgree(n, size, ms, g) && r < size
    requires Fits(Band(n, size, r), m') && HxReceived(n, size, ms, m', r)
    ensures OwnAgrees(Band(n, size, r), m', g) && HxHaloAgrees(Band(n, size, r), m', g)
    ensures EzHaloAgrees(Band(n, size, r), ms[r], g) ==> EzHaloAgrees(Band(n, size, r), m', g)
  {
    assert OwnAgrees(Band(n, size, Prev(r, size)), ms[Prev(r, size)], g) && OwnAgrees(Band(n, size, r), ms[r], g);
    assert OwnAgrees(Band(n, size, r), m', g);
    forall c | 0 <= c < n ensures At(Band(n, size, r), m', Hx, c - n) == g.hx[Below(Band(n, size, r), c)] {
      HxHaloReceived(n, size, ms, m', g, r, c);
    }
  }

  lemma EzExchangeRefines(n: nat, size: nat, ms: seq<seq<Float>>, m': seq<Float>, g: Grid, r: nat)
    requires MemOk(n, size, ms) && AllOwnAgree(n, size, ms, g) && r < size
    requires Fits(Band(n, size, r), m') && EzReceived(n, size, ms, m', r)
    ensures OwnAgrees(Band(n, size, r), m', g) && EzHaloAgrees(Band(n, size, r), m', g)
    ensures HxHaloAgrees(Band(n, size, r), ms[r], g) ==> HxHaloAgrees(Band(n, size, r), m', g)
  {
    assert OwnAgrees(Band(n, size, Next(r, size)), ms[Next(r, size)], g) && OwnAgrees(Band(n, size, r), ms[r], g);
    assert OwnAgrees(Band(n, size, r), m', g);
    forall c | 0 <= c < n
      ensures At(Band(n, size, r), m', Ez, Band(n, size, r).Own() + c) == g.ez[Above(Band(n, size, r), c)]
    {
      EzHaloReceived(n, size, ms, m', g, r, c);
    }
  }

  // ---------------------------------------------------------------- all ranks, in place

  ghost function Contents(mems: seq<array<Float>>): (ms: seq<seq<Float>>)
    reads mems
    ensures |ms| == |mems| && forall r | 0 <= r < |mems| :: ms[r] == mems[r][..]
  {
    seq(|mems|, r requires 0 <= r < |mems| reads mems => mems[r][..])
  }

  ghost predicate Apart(mems: seq<array<Float>>) {
    forall i, j | 0 <= i < j < |mems| :: mems[i] != mems[j]
  }

  // `k` elements of `s` have been copied over those of `m`, which gives `m'`.
  ghost predicate Copied(a: Accessor, m: seq<Float>, to: int, b: Accessor, s: seq<Float>, from: int, f: Field,
                         k: nat, m': seq<Float>)
    requires Fits(a, m) && Fits(b, s) && Fits(a, m') && (k == 0 || (InSlice(b, from) && InSlice(b, from + k - 1)))
  {
    forall g, i | InSlice(a, i) ::
      At(a, m', g, i) == if g == f && to <= i < to + k then At(b, s, f, from + (i - to)) else At(a, m, g, i)
  }

  lemma OneMore(a: Accessor, m: seq<Float>, to: int, b: Accessor, s: seq<Float>, from: int, f: Field,
                k: nat, m0: seq<Float>, m1: seq<Float>)
    requires Fits(a, m) && Fits(b, s) && Fits(a, m0) && Fits(a, m1) && InSlice(b, from) && InSlice(b, from + k)
    requires Copied(a, m, to, b, s, from, f, k, m0)
    requires forall g, i | InSlice(a, i) ::
               At(a, m1, g, i) == if g == f && i == to + k then At(b, s, f, from + k) else At(a, m0, g, i)
    ensures Copied(a, m, to, b, s, from, f, k + 1, m1)
  {}

  // One element of a message.
  method CopyOne(a: Accessor, mem: array<Float>, to: int, b: Accessor, source: array<Float>, from: int, f: Field)
    requires Fits(a, mem[..]) && Fits(b, source[..]) && InSlice(a, to) && InSlice(b, from)
    modifies mem
    ensures Fits(a, mem[..])
    ensures forall g, i | InSlice(a, i) ::
              At(a, mem[..], g, i) ==
              if g == f && i == to then At(b, old(source[..]), f, from) else At(a, old(mem[..]), g, i)
  {
    ghost var m := mem[..];
    var v := source[Slot(b, f, from)];
    mem[Slot(a, f, to)] := v;
    assert mem[..] == m[Slot(a, f, to) := v];
    WriteOne(a, m, f, to, v);
  }

  // One message: `n` elements of field `f` from `source` (band `b`, from index `from`) to index `to`.
  method Transfer(a: Accessor, mem: array<Float>, to: int, b: Accessor, source: array<Float>, from: int, f: Field)
    requires Fits(a, mem[..]) && Fits(b, source[..]) && a.n == b.n
    requires InSlice(a, to) && InSlice(a, to + a.n - 1) && InSlice(b, from) && InSlice(b, from + a.n - 1)
    requires mem == source ==> a == b && (to + a.n <= from || from + a.n <= to)
    modifies mem
    ensures Fits(a, mem[..])
    ensures forall g, i | InSlice(a, i) ::
              At(a, mem[..], g, i) ==
              if g == f && to <= i < to + a.n then At(b, old(source[..]), f, from + (i - to))
              else At(a, old(mem[..]), g, i)
  {
    ghost var m, s := mem[..], source[..];
    for c := 0 to a.n
      invariant Fits(a, mem[..]) && Copied(a, m, to, b, s, from, f, c, mem[..])
      invariant mem != source ==> source[..] == s
    {
      ghost var m0 := mem[..];
      assert At(b, source[..], f, from + c) == At(b, s, f, from + c);
      CopyOne(a, mem, to + c, b, source, from + c, f);
      OneMore(a, m, to, b, s, from, f, c, m0, mem[..]);
    }
  }

  // Rank `r` receives its lower halo from the last rows of its predecessor, its upper halo from the first
  // rows of its successor. The sender's own cells are still as they were.
  method ReceiveHx(n: nat, size: nat, ghost ms: seq<seq<Float>>, r: nat, mem: array<Float>, source: array<Float>)
    requires MemOk(n, size, ms) && r < size && mem[..] == ms[r] && Fits(Band(n, size, Prev(r, size)), source[..])
    requires mem == source ==> Prev(r, size) == r
    requires OwnSame(Band(n, size, Prev(r, size)), ms[Prev(r, size)], source[..], Hx)
    modifies mem
    ensures Fits(Band(n, size, r), mem[..]) && HxReceived(n, size, ms, mem[..], r)
  {
    var a, b := Band(n, size, r), Band(n, size, Prev(r, size));
    BandFacts(n, size, r);
    BandFacts(n, size, Prev(r, size));
    Transfer(a, mem, -(n as int), b, source, b.Own() - n, Hx);
  }

  method ReceiveEz(n: nat, size: nat, ghost ms: seq<seq<Float>>, r: nat, mem: array<Float>, source: array<Float>)
    requires MemOk(n, size, ms) && r < size && mem[..] == ms[r] && Fits(Band(n, size, Next(r, size)), source[..])
    requires mem == source ==> Next(r, size) == r
    requires OwnSame(Band(n, size, Next(r, size)), ms[Next(r, size)], source[..], Ez)
    modifies mem
    ensures Fits(Band(n, size, r), mem[..]) && EzReceived(n, size, ms, mem[..], r)
  {
    var a, b := Band(n, size, r), Band(n, size, Next(r, size));
    BandFacts(n, size, r);
    BandFacts(n, size, Next(r, size));
    Transfer(a, mem, a.Own(), b, source, 0, Ez);
  }

  ghost predicate OwnSame(b: Accessor, m: seq<Float>, m': seq<Float>, f: Field)
    requires Fits(b, m) && Fits(b, m')
  {
    forall i | 0 <= i < b.Own() :: At(b, m', f, i) == At(b, m, f, i)
  }

  method ExchangeHx(n: nat, size: nat, mems: seq<array<Float>>)
    requires MemOk(n, size, Contents(mems)) && Apart(mems)
    modifies mems
    ensures MemOk(n, size, Contents(mems))
    ensures forall r | 0 <= r < size :: HxReceived(n, size, old(Contents(mems)), mems[r][..], r)
  {
    ghost var ms := Contents(mems);
    for r := 0 to size
      invariant MemOk(n, size, Contents(mems))
      invariant forall k | 0 <= k < r :: HxReceived(n, size, ms, mems[k][..], k)
      invariant forall k | r <= k < size :: mems[k][..] == ms[k]
    {
      var q := Prev(r, size);
      assert OwnSame(Band(n, size, q), ms[q], mems[q][..], Hx);
      ReceiveHx(n, size, ms, r, mems[r], mems[q]);
      assert forall k | 0 <= k < size && k != r :: mems[k] != mems[r];
    }
  }

  method ExchangeEz(n: nat, size: nat, mems: seq<array<Float>>)
    requires MemOk(n, size, Contents(mems)) && Apart(mems)
    modifies mems
    ensures MemOk(n, size, Contents(mems))
    ensures forall r | 0 <= r < size :: EzReceived(n, size, old(Contents(mems)), mems[r][..], r)
  {
    ghost var ms := Contents(mems);
    for r := 0 to size
      invariant MemOk(n, size, Contents(mems))
      invariant forall k | 0 <= k < r :: EzReceived(n, size, ms, mems[k][..], k)
      invariant forall k | r <= k < size :: mems[k][..] == ms[k]
    {
      var q := Next(r, size);
      assert OwnSame(Band(n, size, q), ms[q], mems[q][..], Ez);
      ReceiveEz(n, size, ms, r, mems[r], mems[q]);
      assert forall k | 0 <= k < size && k != r :: mems[k] != mems[r];
    }
  }

  ghost predicate AllOrders(n: nat, size: nat, orders: seq<seq<nat>>)
    requires Split(n, size)
  {
    |orders| == size && forall r | 0 <= r < size :: IsOrder(orders[r], Band(n, size, r).Own())
  }

  method AllH(p: Physics, n: nat, size: nat, mems: seq<array<Float>>, orders: seq<seq<nat>>)
    requires MemOk(n, size, Contents(mems)) && Apart(mems) && AllOrders(n, size, orders)
    modifies mems
    ensures MemOk(n, size, Contents(mems))
    ensures forall r | 0 <= r < size :: HDone(p, Band(n, size, r), old(Contents(mems))[r], mems[r][..])
  {
    ghost var ms := Contents(mems);
    for r := 0 to size
      invariant MemOk(n, size, Contents(mems))
      invariant forall k | 0 <= k < r :: HDone(p, Band(n, size, k), ms[k], mems[k][..])
      invariant forall k | r <= k < size :: mems[k][..] == ms[k]
    {
      UpdateH(p, Band(n, size, r), mems[r], orders[r]);
      assert forall k | 0 <= k < size && k != r :: mems[k] != mems[r];
    }
  }

  method AllE(p: Physics, n: nat, size: nat, mems: seq<array<Float>>,
                orders: seq<seq<nat>>, times: seq<Float>) returns (times': seq<Float>)
    requires MemOk(n, size, Contents(mems)) && Apart(mems) && AllOrders(n, size, orders) && |times| == size
    modifies mems
    ensures MemOk(n, size, Contents(mems)) && |times'| == size
    ensures forall r | 0 <= r < size :: EDone(p, Band(n, size, r), old(Contents(mems))[r], times[r], mems[r][..])
    ensures forall r | 0 <= r < size ::
              times'[r] == if Owns(Band(n, size, r), SourcePosition(n)) then p.tick(times[r]) else times[r]
  {
    ghost var ms := Contents(mems);
    times' := [];
    for r := 0 to size
      invariant MemOk(n, size, Contents(mems)) && |times'| == r
      invariant forall k | 0 <= k < r :: EDone(p, Band(n, size, k), ms[k], times[k], mems[k][..])
      invariant forall k | 0 <= k < r ::
                  times'[k] == if Owns(Band(n, size, k), SourcePosition(n)) then p.tick(times[k]) else times[k]
      invariant forall k | r <= k < size :: mems[k][..] == ms[k]
    {
      var time := UpdateE(p, Band(n, size, r), mems[r], orders[r], times[r]);
      times' := times' + [time];
      assert forall k | 0 <= k < size && k != r :: mems[k] != mems[r];
    }
  }

  // Between half steps: own cells, both halo rows and the clock of the source's owner agree with the grid.
  ghost predicate Synced(n: nat, size: nat, ms: seq<seq<Float>>, times: seq<Float>, g: Grid) {
    && MemOk(n, size, ms) && |times| == size && GridOk(g) && g.n == n
    && forall r | 0 <= r < size :: RankSynced(Band(n, size, r), ms[r], times[r], g)
  }

  ghost predicate RankSynced(a: Accessor, m: seq<Float>, time: Float, g: Grid) {
    && OwnAgrees(a, m, g) && HxHaloAgrees(a, m, g) && EzHaloAgrees(a, m, g)
    && (Owns(a, SourcePosition(a.n)) ==> time == g.time)
  }

  lemma AllHRefines(p: Physics, n: nat, size: nat, ms: seq<seq<Float>>, ms': seq<seq<Float>>,
                      times: seq<Float>, g: Grid)
    requires Synced(n, size, ms, times, g) && MemOk(n, size, ms')
    requires forall r | 0 <= r < size :: HDone(p, Band(n, size, r), ms[r], ms'[r])
    ensures AllOwnAgree(n, size, ms', GridH(p, g))
    ensures forall r | 0 <= r < size :: EzHaloAgrees(Band(n, size, r), ms'[r], GridH(p, g))
  {
    forall r | 0 <= r < size
      ensures OwnAgrees(Band(n, size, r), ms'[r], GridH(p, g)) && EzHaloAgrees(Band(n, size, r), ms'[r], GridH(p, g))
    {
      assert RankSynced(Band(n, size, r), ms[r], times[r], g);
      HRefines(p, Band(n, size, r), ms[r], ms'[r], g);
    }
  }

  lemma AllERefines(p: Physics, n: nat, size: nat, ms: seq<seq<Float>>, ms': seq<seq<Float>>,
                      times: seq<Float>, g: Grid)
    requires Synced(n, size, ms, times, g) && MemOk(n, size, ms')
    requires forall r | 0 <= r < size :: EDone(p, Band(n, size, r), ms[r], times[r], ms'[r])
    ensures AllOwnAgree(n, size, ms', GridE(p, g))
    ensures forall r | 0 <= r < size :: HxHaloAgrees(Band(n, size, r), ms'[r], GridE(p, g))
  {
    forall r | 0 <= r < size
      ensures OwnAgrees(Band(n, size, r), ms'[r], GridE(p, g)) && HxHaloAgrees(Band(n, size, r), ms'[r], GridE(p, g))
    {
      assert RankSynced(Band(n, size, r), ms[r], times[r], g);
      ERefines(p, Band(n, size, r), ms[r], times[r], ms'[r], g);
    }
  }

  /** One turn of the time loop on all ranks, in place, is one step of the periodic grid. */
  method TimeStep(p: Physics, n: nat, size: nat, mems: seq<array<Float>>, times: seq<Float>,
                  hOrders: seq<seq<nat>>, eOrders: seq<seq<nat>>, ghost g: Grid) returns (times': seq<Float>)
    requires Synced(n, size, Contents(mems), times, g) && Apart(mems) && GridOk(g)
    requires AllOrders(n, size, hOrders) && AllOrders(n, size, eOrders)
    modifies mems
    ensures Synced(n, size, Contents(mems), times', GridE(p, GridH(p, g)))
  {
    ghost var h, m0 := GridH(p, g), Contents(mems);
    AllH(p, n, size, mems, hOrders);
    ghost var m1 := Contents(mems);
    AllHRefines(p, n, size, m0, m1, times, g);
    ExchangeHx(n, size, mems);
    ghost var m2 := Contents(mems);
    forall r | 0 <= r < size ensures RankSynced(Band(n, size, r), m2[r], times[r], h) {
      HxExchangeRefines(n, size, m1, m2[r], h, r);
      assert RankSynced(Band(n, size, r), m0[r], times[r], g);
    }
    times' := AllE(p, n, size, mems, eOrders, times);
    ghost var e, m3 := GridE(p, h), Contents(mems);
    AllERefines(p, n, size, m2, m3, times, h);
    ExchangeEz(n, size, mems);
    ghost var m4 := Contents(mems);
    forall r | 0 <= r < size ensures RankSynced(Band(n, size, r), m4[r], times'[r], e) {
      EzExchangeRefines(n, size, m3, m4[r], e, r);
      assert RankSynced(Band(n, size, r), m2[r], times[r], h);
    }
  }

  /** The whole program: initial exchanges and `steps` turns, on any number of ranks up to one a row, with
      the cells of every launch in any order. The ranks end with the slices of the grid that one process
      with periodic boundaries computes. */
  method Simulate(p: Physics, n: nat, size: nat, mems: seq<array<Float>>, times: seq<Float>,
                  orders: (nat, bool) -> seq<seq<nat>>, steps: nat, ghost g: Grid) returns (times': seq<Float>)
    requires MemOk(n, size, Contents(mems)) && Apart(mems) && |times| == size && GridOk(g) && g.n == n
    requires AllOwnAgree(n, size, Contents(mems), g) && forall r | 0 <= r < size :: times[r] == g.time
    requires forall s, e :: AllOrders(n, size, orders(s, e))
    modifies mems
    ensures Synced(n, size, Contents(mems), times', GridSteps(p, g, steps))
  {
    ghost var m0 := Contents(mems);
    ExchangeHx(n, size, mems);
    ghost var m1 := Contents(mems);
    forall r | 0 <= r < size
      ensures OwnAgrees(Band(n, size, r), m1[r], g) && HxHaloAgrees(Band(n, size, r), m1[r], g)
    {
      HxExchangeRefines(n, size, m0, m1[r], g, r);
    }
    ExchangeEz(n, size, mems);
    forall r | 0 <= r < size ensures RankSynced(Band(n, size, r), mems[r][..], times[r], g) {
      EzExchangeRefines(n, size, m1, mems[r][..], g, r);
    }
    times' := times;
    for s := 0 to steps
      invariant Synced(n, size, Contents(mems), times', GridSteps(p, g, s))
    {
      times' := TimeStep(p, n, size, mems, times', orders(s, false), orders(s, true), GridSteps(p, g, s));
    }
  }
}
