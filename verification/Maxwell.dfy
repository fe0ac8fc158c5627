/**
 The distributed Maxwell solver: ranks hold bands of rows of a periodic N x N grid, with one halo row below
 and above, and exchange border rows after each half step. What they compute is what one process with the
 whole grid computes.

 Floating-point arithmetic is left uninterpreted: `Physics` names the expressions of the two update
 functors, and the results hold for any meaning of them.
 */
module Maxwell {
  import opened Basics

  type Float(!new)

  datatype Physics = Physics(
    hx: (Float, Float, Float, Float) -> Float,          // hx - mh * ((ez above - ez) / dy)
    hy: (Float, Float, Float, Float) -> Float,          // hy - mh * ((ez - ez right) / dx)
    dz: (Float, Float, Float, Float, Float) -> Float,   // dz + C0 * dt * ((hy - hy left) / dx + (hx below - hx) / dy)
    pulse: (Float, Float) -> Float,                     // plus the source at a time
    ez: (Float, Float) -> Float,                        // dz / er
    tick: Float -> Float)                               // time + dt

  datatype Field = Er | Hr | Mh | Hx | Hy | Ez | Dz

  // `fields_accessor`: the grid width and the cells this rank owns.
  datatype Accessor = Accessor(n: nat, begin: nat, end: nat) {
    function Own(): int { end - begin }

    // Elements of one field: own cells and two halo rows.
    function Width(): int { Own() + 2 * n }

    predicate Valid() {
      n > 0 && begin <= end && begin % n == 0 && end % n == 0
    }
  }

  function Index(f: Field): nat {
    match f
    case Er => 0 case Hr => 1 case Mh => 2 case Hx => 3 case Hy => 4 case Ez => 5 case Dz => 6
  }

  predicate InSlice(a: Accessor, i: int) { -(a.n as int) <= i < a.Own() + a.n }

  // `get(f)[i]` as an index of the one allocation behind all fields.
  function Slot(a: Accessor, f: Field, i: int): (s: nat)
    requires a.Valid() && InSlice(a, i)
    ensures Index(f) * a.Width() <= s < (Index(f) + 1) * a.Width() <= 7 * a.Width()
  {
    Index(f) * a.Width() + a.n + i
  }

  lemma SlotDistinct(a: Accessor, f: Field, i: int, f': Field, i': int)
    requires a.Valid() && InSlice(a, i) && InSlice(a, i')
    ensures Slot(a, f, i) == Slot(a, f', i') ==> f == f' && i == i'
  {}

  // ---------------------------------------------------------------- one rank's memory

  predicate Fits(a: Accessor, m: seq<Float>) { a.Valid() && |m| == 7 * a.Width() }

  function At(a: Accessor, m: seq<Float>, f: Field, i: int): Float
    requires Fits(a, m) && InSlice(a, i)
  {
    m[Slot(a, f, i)]
  }

  lemma WriteOne(a: Accessor, m: seq<Float>, f: Field, i: int, v: Float)
    requires Fits(a, m) && InSlice(a, i)
    ensures var m' := m[Slot(a, f, i) := v];
      forall f', i' | InSlice(a, i') :: At(a, m', f', i') == if f' == f && i' == i then v else At(a, m, f', i')
  {
    forall f', i' | InSlice(a, i')
      ensures At(a, m[Slot(a, f, i) := v], f', i') == if f' == f && i' == i then v else At(a, m, f', i') {
      SlotDistinct(a, f, i, f', i');
    }
  }

  function RightNid(cell: int, column: int, n: int): int { if column == n - 1 then cell - (n - 1) else cell + 1 }

  function LeftNid(cell: int, column: int, n: int): int { if column == 0 then cell + n - 1 else cell - 1 }

  function Column(a: Accessor, cell: nat): nat
    requires a.Valid()
  {
    (a.begin + cell) % a.n
  }

  lemma ModAdd(q: nat, n: nat, i: nat)
    requires n > 0
    ensures (q * n + i) % n == i % n
  {
    DivMod(i, n);
    Rows(-(q as int), i / n, n);
    Remainder(q * n + i, q + i / n, i % n, n);
  }

  lemma Positive(k: int, n: nat)
    requires k * n > 0
    ensures k * n >= n
  {
    assert k >= 1;
  }

  lemma WholeRows(q: int, r: int, rows: int, n: nat)
    requires 0 <= r && q * n + r < rows * n
    ensures q * n + n <= rows * n
  {
    Rows(q, rows, n);
    Positive(rows - q, n);
  }

  lemma DivMod(x: nat, n: nat)
    requires n > 0
    ensures x == (x / n) * n + x % n && 0 <= x % n < n
  {}

  lemma Rows(b: int, e: int, n: nat)
    ensures (e - b) * n == e * n - b * n
  {}

  // Rows `b` to `e` are own: so is the whole row of an own cell.
  lemma OwnRow(b: nat, e: nat, n: nat, cell: nat)
    requires n > 0 && cell < e * n - b * n
    ensures (b * n + cell) % n == cell % n
    ensures 0 <= cell - cell % n && cell - cell % n + n <= e * n - b * n
  {
    ModAdd(b, n, cell);
    DivMod(cell, n);
    Rows(b, e, n);
    WholeRows(cell / n, cell % n, e - b, n);
  }

  lemma RowIsOwn(a: Accessor, cell: nat)
    requires a.Valid() && cell < a.Own()
    ensures Column(a, cell) == cell % a.n
    ensures 0 <= cell - Column(a, cell) && cell - Column(a, cell) + a.n <= a.Own()
  {
    DivMod(a.begin, a.n);
    DivMod(a.end, a.n);
    OwnRow(a.begin / a.n, a.end / a.n, a.n, cell);
  }

  lemma NeighboursInSlice(a: Accessor, cell: nat)
    requires a.Valid() && cell < a.Own()
    ensures 0 <= RightNid(cell, Column(a, cell), a.n) < a.Own()
    ensures 0 <= LeftNid(cell, Column(a, cell), a.n) < a.Own()
    ensures InSlice(a, cell + a.n) && InSlice(a, cell - a.n)
  {
    RowIsOwn(a, cell);
  }

  // The cell's own row, at column `c`.
  lemma ColumnInRow(a: Accessor, cell: nat, c: nat)
    requires a.Valid() && cell < a.Own() && c < a.n
    ensures 0 <= cell - Column(a, cell) + c < a.Own() && Column(a, cell - Column(a, cell) + c) == c
  {
    RowIsOwn(a, cell);
    DivMod(cell, a.n);
    var there := cell - Column(a, cell) + c;
    Remainder(there, cell / a.n, c, a.n);
    RowIsOwn(a, there);
  }

  /** Right and left of a cell are the next and the previous column of its row, round the end of the row. */
  lemma NeighboursMean(a: Accessor, cell: nat)
    requires a.Valid() && cell < a.Own()
    ensures var (r, c) := (RightNid(cell, Column(a, cell), a.n), Column(a, cell));
            && 0 <= r < a.Own() && Column(a, r) == (if c + 1 == a.n then 0 else c + 1)
            && r - Column(a, r) == cell - c
    ensures var (l, c) := (LeftNid(cell, Column(a, cell), a.n), Column(a, cell));
            && 0 <= l < a.Own() && Column(a, l) == (if c == 0 then a.n - 1 else c - 1)
            && l - Column(a, l) == cell - c
  {
    NeighboursInSlice(a, cell);
    var c := Column(a, cell);
    ColumnInRow(a, cell, if c + 1 == a.n then 0 else c + 1);
    ColumnInRow(a, cell, if c == 0 then a.n - 1 else c - 1);
  }

  // ---------------------------------------------------------------- the half steps of one rank

  // Element `i` of field `f` after the H half step.
  function HCell(p: Physics, a: Accessor, m: seq<Float>, f: Field, i: int): Float
    requires Fits(a, m) && InSlice(a, i)
  {
    if 0 <= i < a.Own() && (f == Hx || f == Hy) then
      NeighboursInSlice(a, i);
      var ez, mh := At(a, m, Ez, i), At(a, m, Mh, i);
      if f == Hx then p.hx(At(a, m, Hx, i), mh, ez, At(a, m, Ez, i + a.n))
      else p.hy(At(a, m, Hy, i), mh, ez, At(a, m, Ez, RightNid(i, Column(a, i), a.n)))
    else At(a, m, f, i)
  }

  function SourcePosition(n: nat): nat { n / 2 + n * (n / 2) }

  function NewDz(p: Physics, a: Accessor, m: seq<Float>, time: Float, i: nat): Float
    requires Fits(a, m) && i < a.Own()
  {
    NeighboursInSlice(a, i);
    var d := p.dz(At(a, m, Dz, i), At(a, m, Hy, i), At(a, m, Hy, LeftNid(i, Column(a, i), a.n)),
                At(a, m, Hx, i), At(a, m, Hx, i - a.n));
    if a.begin + i == SourcePosition(a.n) then p.pulse(d, time) else d
  }

  function ECell(p: Physics, a: Accessor, m: seq<Float>, time: Float, f: Field, i: int): Float
    requires Fits(a, m) && InSlice(a, i)
  {
    if 0 <= i < a.Own() && f == Dz then NewDz(p, a, m, time, i)
    else if 0 <= i < a.Own() && f == Ez then p.ez(NewDz(p, a, m, time, i), At(a, m, Er, i))
    else At(a, m, f, i)
  }

  ghost predicate HDone(p: Physics, a: Accessor, m: seq<Float>, m': seq<Float>)
    requires Fits(a, m)
  {
    Fits(a, m') && forall f, i | InSlice(a, i) :: At(a, m', f, i) == HCell(p, a, m, f, i)
  }

  ghost predicate EDone(p: Physics, a: Accessor, m: seq<Float>, time: Float, m': seq<Float>)
    requires Fits(a, m)
  {
    Fits(a, m') && forall f, i | InSlice(a, i) :: At(a, m', f, i) == ECell(p, a, m, time, f, i)
  }

  // A bulk launch visits every own cell once, in an order of its own.
  ghost predicate IsOrder(order: seq<nat>, own: int) {
    && (forall i, j | 0 <= i < j < |order| :: order[i] != order[j])
    && (forall c :: c in order <==> 0 <= c < own)
  }

  predicate Owns(a: Accessor, id: nat) { a.begin <= id < a.end }

  // The functor of `update_h` for one cell.
  method HFunctor(p: Physics, a: Accessor, mem: array<Float>, cell: nat)
    requires Fits(a, mem[..]) && cell < a.Own()
    modifies mem
    ensures Fits(a, mem[..])
    ensures forall f, i | InSlice(a, i) ::
              At(a, mem[..], f, i) == if i == cell then HCell(p, a, old(mem[..]), f, i) else At(a, old(mem[..]), f, i)
  {
    NeighboursInSlice(a, cell);
    var column := (a.begin + cell) % a.n;
    var cellEz := mem[Slot(a, Ez, cell)];
    var above := mem[Slot(a, Ez, cell + a.n)];
    var right := mem[Slot(a, Ez, RightNid(cell, column, a.n))];
    var mh := mem[Slot(a, Mh, cell)];
    var hx := p.hx(mem[Slot(a, Hx, cell)], mh, cellEz, above);
    var hy := p.hy(mem[Slot(a, Hy, cell)], mh, cellEz, right);
    ghost var m := mem[..];
    assert hx == HCell(p, a, m, Hx, cell) && hy == HCell(p, a, m, Hy, cell);
    mem[Slot(a, Hx, cell)] := hx;
    ghost var m1 := mem[..];
    assert m1 == m[Slot(a, Hx, cell) := hx];
    WriteOne(a, m, Hx, cell, hx);
    mem[Slot(a, Hy, cell)] := hy;
    assert mem[..] == m1[Slot(a, Hy, cell) := hy];
    WriteOne(a, m1, Hy, cell, hy);
  }

  // The fields the H step writes, and at which cells; it reads them nowhere else.
  lemma HCellStable(p: Physics, a: Accessor, m: seq<Float>, m': seq<Float>, f: Field, i: int)
    requires Fits(a, m) && Fits(a, m') && InSlice(a, i)
    requires forall j | InSlice(a, j) :: At(a, m', Ez, j) == At(a, m, Ez, j) && At(a, m', Mh, j) == At(a, m, Mh, j)
    requires forall g :: At(a, m', g, i) == At(a, m, g, i)
    ensures HCell(p, a, m', f, i) == HCell(p, a, m, f, i)
  {}

  /** The H half step in place: whatever the order, each own cell ends as `HCell` says, and nothing else
      changes; every index is inside its own field. */
  method UpdateH(p: Physics, a: Accessor, mem: array<Float>, order: seq<nat>)
    requires Fits(a, mem[..]) && IsOrder(order, a.Own())
    modifies mem
    ensures HDone(p, a, old(mem[..]), mem[..])
  {
    ghost var m := mem[..];
    for k := 0 to |order|
      invariant Fits(a, mem[..])
      invariant forall f, i | InSlice(a, i) ::
                At(a, mem[..], f, i) == if i in order[..k] then HCell(p, a, m, f, i) else At(a, m, f, i)
    {
      var cell := order[k];
      assert cell in order && cell !in order[..k];
      ghost var m0 := mem[..];
      HFunctor(p, a, mem, cell);
      forall f ensures HCell(p, a, m0, f, cell) == HCell(p, a, m, f, cell) { HCellStable(p, a, m, m0, f, cell); }
      assert forall i :: i in order[..k + 1] <==> i in order[..k] || i == cell;
    }
    assert order[..|order|] == order;
  }

  // The functor of `update_e` for one cell; only the owner of the source cell touches its time.
  method EFunctor(p: Physics, a: Accessor, mem: array<Float>, cell: nat, time: Float) returns (time': Float)
    requires Fits(a, mem[..]) && cell < a.Own()
    modifies mem
    ensures Fits(a, mem[..])
    ensures forall f, i | InSlice(a, i) ::
              At(a, mem[..], f, i) ==
              if i == cell then ECell(p, a, old(mem[..]), time, f, i) else At(a, old(mem[..]), f, i)
    ensures time' == if a.begin + cell == SourcePosition(a.n) then p.tick(time) else time
  {
    NeighboursInSlice(a, cell);
    var column := (a.begin + cell) % a.n;
    var er := mem[Slot(a, Er, cell)];
    var cellHy := mem[Slot(a, Hy, cell)];
    var left := mem[Slot(a, Hy, LeftNid(cell, column, a.n))];
    var cellHx := mem[Slot(a, Hx, cell)];
    var below := mem[Slot(a, Hx, cell - a.n)];
    var cellDz := p.dz(mem[Slot(a, Dz, cell)], cellHy, left, cellHx, below);
    time' := time;
    if a.begin + cell == SourcePosition(a.n) {
      cellDz := p.pulse(cellDz, time);
      time' := p.tick(time);
    }
    ghost var m := mem[..];
    assert cellDz == NewDz(p, a, m, time, cell);
    mem[Slot(a, Ez, cell)] := p.ez(cellDz, er);
    ghost var m1 := mem[..];
    assert m1 == m[Slot(a, Ez, cell) := p.ez(cellDz, er)];
    WriteOne(a, m, Ez, cell, p.ez(cellDz, er));
    mem[Slot(a, Dz, cell)] := cellDz;
    assert mem[..] == m1[Slot(a, Dz, cell) := cellDz];
    WriteOne(a, m1, Dz, cell, cellDz);
  }

  lemma ECellStable(p: Physics, a: Accessor, m: seq<Float>, m': seq<Float>, time: Float, f: Field, i: int)
    requires Fits(a, m) && Fits(a, m') && InSlice(a, i)
    requires forall j | InSlice(a, j) :: At(a, m', Hx, j) == At(a, m, Hx, j) && At(a, m', Hy, j) == At(a, m, Hy, j)
    requires forall g :: At(a, m', g, i) == At(a, m, g, i)
    ensures ECell(p, a, m', time, f, i) == ECell(p, a, m, time, f, i)
  {}

  /** The E half step in place, in any order; the time advances on the rank that owns the source cell. */
  method UpdateE(p: Physics, a: Accessor, mem: array<Float>, order: seq<nat>, time: Float) returns (time': Float)
    requires Fits(a, mem[..]) && IsOrder(order, a.Own())
    modifies mem
    ensures EDone(p, a, old(mem[..]), time, mem[..])
    ensures time' == if Owns(a, SourcePosition(a.n)) then p.tick(time) else time
  {
    ghost var m := mem[..];
    var src := SourcePosition(a.n) - a.begin;
    time' := time;
    for k := 0 to |order|
      invariant Fits(a, mem[..])
      invariant forall f, i | InSlice(a, i) ::
                At(a, mem[..], f, i) == if i in order[..k] then ECell(p, a, m, time, f, i) else At(a, m, f, i)
      invariant time' == if src in order[..k] then p.tick(time) else time
    {
      var cell := order[k];
      assert cell in order && cell !in order[..k];
      ghost var m0 := mem[..];
      time' := EFunctor(p, a, mem, cell, time');
      assert src !in order[..k] || src != cell;
      forall f ensures ECell(p, a, m0, time, f, cell) == ECell(p, a, m, time, f, cell)
        { ECellStable(p, a, m, m0, time, f, cell); }
      assert forall i :: i in order[..k + 1] <==> i in order[..k] || i == cell;
    }
    assert order[..|order|] == order;
  }
}
