/** The numeric content of the Navier-Stokes handlers in `src/hpl/runtime/effects/handlers.py`.
    Floats are reals; `_round_price`, the only rounding the handlers ask for, is modelled exactly. The
    linear step's factor `exp(-nu * dt)` is a parameter. */
module PeriodicGrid {

  datatype Cell = Cell(u: real, v: real)

  datatype PdeState = PdeState(nx: int, ny: int, dx: real, dy: real, field: seq<Cell>, t: real, dt: real, nu: real,
                               projectionGain: real, divergenceResidual: real)
  {
    /** What `_load_pde_state` lets through. */
    predicate Loaded() {
      nx >= 1 && ny >= 1 && |field| == nx * ny
    }
  }

  function Abs(x: real): real {
    if x < 0.0 then -x else x
  }

  // ----- rounding to eight decimals

  function RoundHalfEven(x: real): int {
    var below := x.Floor;
    var rest := x - below as real;
    if rest < 0.5 || (rest == 0.5 && below % 2 == 0) then below else below + 1
  }

  /** The multiple of 1e-8 with this numerator. */
  function Unit(n: int): real {
    n as real / 100000000.0
  }

  /** `_round_price`: the nearest multiple of 1e-8, ties to even. */
  function RoundPrice(x: real): real {
    Unit(RoundHalfEven(x * 100000000.0))
  }

  /** A multiple of 1e-8. */
  ghost predicate OnGrid(x: real) {
    exists n: int :: x == Unit(n)
  }

  lemma RoundHalfEvenFacts(x: real, y: real)
    ensures Abs(RoundHalfEven(x) as real - x) <= 0.5
    ensures RoundHalfEven(-x) == -RoundHalfEven(x)
    ensures x <= y ==> RoundHalfEven(x) <= RoundHalfEven(y)
  {
    var f := x.Floor;
    assert (-x).Floor == if x == f as real then -f else -f - 1;
  }

  /** Rounding is off by at most half a unit, odd, monotone, and the identity exactly on the grid. */
  lemma RoundPriceFacts(x: real, y: real)
    ensures Abs(RoundPrice(x) - x) <= 0.000000005
    ensures RoundPrice(-x) == -RoundPrice(x)
    ensures x <= y ==> RoundPrice(x) <= RoundPrice(y)
    ensures OnGrid(RoundPrice(x))
    ensures OnGrid(x) <==> RoundPrice(x) == x
  {
    RoundHalfEvenFacts(x * 100000000.0, y * 100000000.0);
    assert (-x) * 100000000.0 == -(x * 100000000.0);
    assert RoundPrice(x) == Unit(RoundHalfEven(x * 100000000.0));
    if OnGrid(x) {
      var n: int :| x == Unit(n);
      assert x * 100000000.0 == n as real;
    }
  }

  /** On the grid, and within half a unit. */
  ghost predicate Near(y: real, x: real) {
    OnGrid(y) && -0.000000005 <= y - x <= 0.000000005
  }

  lemma RoundPriceNear(x: real)
    ensures Near(RoundPrice(x), x)
  {
    RoundPriceFacts(x, x);
  }

  lemma UnitStep(n: int, m: int)
    requires Unit(n) < Unit(m) + 0.00000001
    ensures n <= m && Unit(n) <= Unit(m)
  {}

  /** Two values on the grid less than a unit apart upwards are in order. */
  lemma GridStep(y: real, x: real)
    requires OnGrid(x) && OnGrid(y) && y < x + 0.00000001
    ensures y <= x
  {
    var m: int :| x == Unit(m);
    var n: int :| y == Unit(n);
    UnitStep(n, m);
  }

  lemma ZeroOnGrid()
    ensures OnGrid(0.0)
  {
    assert 0.0 == Unit(0);
  }

  lemma NegatedOnGrid(x: real)
    requires OnGrid(x)
    ensures OnGrid(-x)
  {
    var n: int :| x == Unit(n);
    assert -x == Unit(-n);
  }

  /** Rounding keeps the order of magnitudes. */
  lemma RoundPriceKeepsOrder(y: real, x: real)
    requires Abs(y) <= Abs(x)
    ensures Abs(RoundPrice(y)) <= Abs(RoundPrice(x))
  {
    MagnitudeRounds(x);
    MagnitudeRounds(y);
    RoundPriceFacts(Abs(y), Abs(x));
  }

  lemma MagnitudeRounds(x: real)
    ensures Abs(RoundPrice(x)) == RoundPrice(Abs(x))
  {
    RoundPriceFacts(0.0, Abs(x));
    RoundPriceFacts(x, 0.0);
    assert RoundPrice(0.0) == Unit(0) by { assert RoundHalfEven(0.0) == 0; }
  }

  // ----- sums over index ranges

  function Sum(f: int -> real, lo: int, hi: int): real
    requires lo <= hi
    decreases hi - lo
  {
    if lo == hi then 0.0 else Sum(f, lo, hi - 1) + f(hi - 1)
  }

  lemma {:induction false} SumSplit(f: int -> real, lo: int, mid: int, hi: int)
    requires lo <= mid <= hi
    ensures Sum(f, lo, hi) == Sum(f, lo, mid) + Sum(f, mid, hi)
    decreases hi - mid
  {
    if mid < hi { SumSplit(f, lo, mid, hi - 1); }
  }

  lemma {:induction false} SumShift(f: int -> real, g: int -> real, lo: int, hi: int, step: int)
    requires lo <= hi && forall k :: lo <= k < hi ==> g(k) == f(k + step)
    ensures Sum(g, lo, hi) == Sum(f, lo + step, hi + step)
    decreases hi - lo
  {
    if lo < hi { SumShift(f, g, lo, hi - 1, step); }
  }

  /** The sum of a combination of two differences. */
  lemma {:induction false} SumOfDifferences(h: int -> real, a: int -> real, b: int -> real, p: int -> real,
                                            q: int -> real, c: real, d: real, n: int)
    requires n >= 0 && c != 0.0 && d != 0.0
    requires forall k :: 0 <= k < n ==> h(k) == (a(k) - b(k)) / c + (p(k) - q(k)) / d
    ensures Sum(h, 0, n)
            == (Sum(a, 0, n) - Sum(b, 0, n)) / c + (Sum(p, 0, n) - Sum(q, 0, n)) / d
  {
    if n > 0 {
      SumOfDifferences(h, a, b, p, q, c, d, n - 1);
      Quotients(Sum(a, 0, n - 1) - Sum(b, 0, n - 1), a(n - 1) - b(n - 1), c);
      Quotients(Sum(p, 0, n - 1) - Sum(q, 0, n - 1), p(n - 1) - q(n - 1), d);
    }
  }

  lemma Quotients(x: real, y: real, c: real)
    requires c != 0.0
    ensures x / c + y / c == (x + y) / c
  {}

  // ----- neighbours on the torus

  /** The neighbours of cell `k`, row-wise without division: to the right and left within its row of `nx`
      cells, and up and down by whole rows of an `n`-cell grid. */
  function Right(k: int, nx: int): int
    requires nx >= 1
  {
    if k % nx == nx - 1 then k - (nx - 1) else k + 1
  }

  function Left(k: int, nx: int): int
    requires nx >= 1
  {
    if k % nx == 0 then k + (nx - 1) else k - 1
  }

  function UpFrom(k: int, nx: int, n: int): int {
    if k < n - nx then k + nx else k - (n - nx)
  }

  function DownFrom(k: int, nx: int, n: int): int {
    if k < nx then k + (n - nx) else k - nx
  }

  lemma Times(a: int, b: int, n: int)
    requires n >= 0 && a <= b
    ensures a * n <= b * n
  {}

  lemma NextRow(j: int, nx: int)
    ensures (j + 1) * nx == j * nx + nx
  {}

  /** The column of a cell of row `j`. */
  lemma ColumnAt(i: int, j: int, nx: int)
    requires 0 <= i < nx
    ensures (j * nx + i) % nx == i
  {
    var k := j * nx + i;
    var q := k / nx;
    assert k == nx * q + k % nx;
    if q < j { Times(q + 1, j, nx); NextRow(q, nx); }
    if q > j { Times(j + 1, q, nx); NextRow(j, nx); }
  }

  lemma InGrid(i: int, j: int, nx: int, ny: int)
    requires 0 <= i < nx && 0 <= j < ny
    ensures 0 <= j * nx && j * nx + i < ny * nx
  {
    Times(0, j, nx);
    Times(j + 1, ny, nx);
    NextRow(j, nx);
  }

  /** The source's modular index arithmetic, for column `i` of row `j`: all four neighbours are cells of the
      grid, and they are the ones above. */
  lemma NeighboursInRange(i: int, j: int, nx: int, ny: int)
    requires 0 <= i < nx && 0 <= j < ny
    ensures var k, n := i + j * nx, ny * nx;
            && 0 <= k < n
            && 0 <= (i + 1) % nx + j * nx < n && (i + 1) % nx + j * nx == Right(k, nx)
            && 0 <= (i - 1) % nx + j * nx < n && (i - 1) % nx + j * nx == Left(k, nx)
            && 0 <= i + (j + 1) % ny * nx < n && i + (j + 1) % ny * nx == UpFrom(k, nx, n)
            && 0 <= i + (j - 1) % ny * nx < n && i + (j - 1) % ny * nx == DownFrom(k, nx, n)
  {
    Wraps(i, nx);
    Wraps(j, ny);
    ColumnAt(i, j, nx);
    InGrid(i, j, nx, ny);
    InGrid((i + 1) % nx, j, nx, ny);
    InGrid((i - 1) % nx, j, nx, ny);
    InGrid(i, (j + 1) % ny, nx, ny);
    InGrid(i, (j - 1) % ny, nx, ny);
    NextRow(j, nx);
    NextRow(j - 1, nx);
    NextRow(ny - 1, nx);
    if j + 1 < ny { InGrid(i, j + 1, nx, ny); Times(j + 2, ny, nx); NextRow(j + 1, nx); }
    if j > 0 { Times(1, j, nx); }
  }

  lemma Wraps(i: int, n: int)
    requires 0 <= i < n
    ensures (i + 1) % n == if i == n - 1 then 0 else i + 1
    ensures (i - 1) % n == if i == 0 then n - 1 else i - 1
  {
    if i == 0 { assert -1 == n * (-1) + (n - 1); }
  }

  // ----- divergence

  function U(field: seq<Cell>): int -> real {
    (k: int) => if 0 <= k < |field| then field[k].u else 0.0
  }

  function V(field: seq<Cell>): int -> real {
    (k: int) => if 0 <= k < |field| then field[k].v else 0.0
  }

  /** The central difference at one cell. */
  function DivergenceAt(s: PdeState, k: int): real
    requires s.nx >= 1 && s.dx != 0.0 && s.dy != 0.0
  {
    (U(s.field)(Right(k, s.nx)) - U(s.field)(Left(k, s.nx))) / (2.0 * s.dx)
    + (V(s.field)(UpFrom(k, s.nx, |s.field|)) - V(s.field)(DownFrom(k, s.nx, |s.field|))) / (2.0 * s.dy)
  }

  /** The differences of the first cells, row by row. */
  ghost predicate DivergenceSoFar(s: PdeState, divergence: seq<real>)
    requires s.nx >= 1 && s.dx != 0.0 && s.dy != 0.0
  {
    forall k :: 0 <= k < |divergence| ==> divergence[k] == DivergenceAt(s, k)
  }

  ghost predicate IsDivergence(s: PdeState, divergence: seq<real>)
    requires s.nx >= 1 && s.dx != 0.0 && s.dy != 0.0
  {
    |divergence| == |s.field| && DivergenceSoFar(s, divergence)
  }

  /** The body of the inner loop, for column `i` of row `j`. */
  method CellDivergence(s: PdeState, i: int, j: int) returns (d: real)
    requires s.Loaded() && s.dx != 0.0 && s.dy != 0.0 && 0 <= i < s.nx && 0 <= j < s.ny
    ensures d == DivergenceAt(s, i + j * s.nx)
  {
    NeighboursInRange(i, j, s.nx, s.ny);
    var left := (i - 1) % s.nx + j * s.nx;
    var right := (i + 1) % s.nx + j * s.nx;
    var down := i + (j - 1) % s.ny * s.nx;
    var up := i + (j + 1) % s.ny * s.nx;
    ghost var n := |s.field|;
    assert n == s.ny * s.nx;
    d := Difference(s.field, left, right, down, up, s.dx, s.dy);
  }

  /** The two quotients, for the neighbours of a cell. */
  function Difference(field: seq<Cell>, left: int, right: int, down: int, up: int, dx: real, dy: real): real
    requires dx != 0.0 && dy != 0.0
    requires 0 <= left < |field| && 0 <= right < |field| && 0 <= down < |field| && 0 <= up < |field|
  {
    (field[right].u - field[left].u) / (2.0 * dx) + (field[up].v - field[down].v) / (2.0 * dy)
  }

  /** `_divergence`; a zero spacing makes the source divide by zero. */
  method Divergence(s: PdeState) returns (divergence: seq<real>)
    requires s.Loaded() && s.dx != 0.0 && s.dy != 0.0
    ensures IsDivergence(s, divergence)
  {
    divergence := [];
    for j := 0 to s.ny
      invariant |divergence| == j * s.nx && DivergenceSoFar(s, divergence)
    {
      for i := 0 to s.nx
        invariant |divergence| == i + j * s.nx && DivergenceSoFar(s, divergence)
      {
        var d := CellDivergence(s, i, j);
        divergence := divergence + [d];
      }
      NextRow(j, s.nx);
    }
    assert s.ny * s.nx == s.nx * s.ny;
  }

  /** The entry for column `i` of row `j` is the central difference over its neighbours on the torus. */
  ghost predicate CentralDifference(s: PdeState, divergence: seq<real>, i: int, j: int)
    requires s.nx >= 1 && s.ny >= 1 && s.dx != 0.0 && s.dy != 0.0
  {
    var u, v, nx, ny := U(s.field), V(s.field), s.nx, s.ny;
    At(divergence)(i + j * nx)
    == (u((i + 1) % nx + j * nx) - u((i - 1) % nx + j * nx)) / (2.0 * s.dx)
       + (v(i + (j + 1) % ny * nx) - v(i + (j - 1) % ny * nx)) / (2.0 * s.dy)
  }

  lemma DivergenceMeans(s: PdeState, divergence: seq<real>, i: int, j: int)
    requires s.Loaded() && s.dx != 0.0 && s.dy != 0.0 && IsDivergence(s, divergence)
    requires 0 <= i < s.nx && 0 <= j < s.ny
    ensures |divergence| == s.nx * s.ny && CentralDifference(s, divergence, i, j)
  {
    NeighboursInRange(i, j, s.nx, s.ny);
    var k := i + j * s.nx;
    assert |s.field| == s.ny * s.nx;
    assert divergence[k] == DivergenceAt(s, k);
  }

  /** What a value with this slope grows by from one neighbour of a cell to the other. */
  function Grown(slope: real, spacing: real): real {
    2.0 * (slope * spacing)
  }

  lemma SlopesAdd(ul: real, ur: real, vd: real, vu: real, a: real, b: real, dx: real, dy: real)
    requires dx != 0.0 && dy != 0.0 && ur - ul == Grown(a, dx) && vu - vd == Grown(b, dy)
    ensures (ur - ul) / (2.0 * dx) + (vu - vd) / (2.0 * dy) == a + b
  {
    assert 2.0 * (a * dx) == a * (2.0 * dx) && 2.0 * (b * dy) == b * (2.0 * dy);
  }

  /** Away from the edges the neighbours are the next ones. */
  lemma CentralInside(s: PdeState, divergence: seq<real>, i: int, j: int)
    requires s.Loaded() && s.dx != 0.0 && s.dy != 0.0 && IsDivergence(s, divergence)
    requires 0 < i < s.nx - 1 && 0 < j < s.ny - 1
    ensures var u, v, nx := U(s.field), V(s.field), s.nx;
            At(divergence)(i + j * nx) == (u(i + 1 + j * nx) - u(i - 1 + j * nx)) / (2.0 * s.dx)
                                          + (v(i + (j + 1) * nx) - v(i + (j - 1) * nx)) / (2.0 * s.dy)
  {
    DivergenceMeans(s, divergence, i, j);
    Wraps(i, s.nx);
    Wraps(j, s.ny);
  }

  /** Where `u` grows by `a` per length along its row, and `v` by `b` along its column, the divergence is `a + b`. */
  lemma DivergenceOfSlopes(s: PdeState, divergence: seq<real>, i: int, j: int, a: real, b: real)
    requires s.Loaded() && s.dx != 0.0 && s.dy != 0.0 && IsDivergence(s, divergence)
    requires 0 < i < s.nx - 1 && 0 < j < s.ny - 1
    requires U(s.field)(i + 1 + j * s.nx) - U(s.field)(i - 1 + j * s.nx) == Grown(a, s.dx)
    requires V(s.field)(i + (j + 1) * s.nx) - V(s.field)(i + (j - 1) * s.nx) == Grown(b, s.dy)
    ensures At(divergence)(i + j * s.nx) == a + b
  {
    CentralInside(s, divergence, i, j);
    var ul, ur := U(s.field)(i - 1 + j * s.nx), U(s.field)(i + 1 + j * s.nx);
    var vd, vu := V(s.field)(i + (j - 1) * s.nx), V(s.field)(i + (j + 1) * s.nx);
    assert At(divergence)(i + j * s.nx) == (ur - ul) / (2.0 * s.dx) + (vu - vd) / (2.0 * s.dy);
    SlopesAdd(ul, ur, vd, vu, a, b, s.dx, s.dy);
  }

  function RightOf(f: int -> real, nx: int): int -> real
    requires nx >= 1
  {
    (k: int) => f(Right(k, nx))
  }

  function LeftOf(f: int -> real, nx: int): int -> real
    requires nx >= 1
  {
    (k: int) => f(Left(k, nx))
  }

  function UpOf(f: int -> real, nx: int, n: int): int -> real {
    (k: int) => f(UpFrom(k, nx, n))
  }

  function DownOf(f: int -> real, nx: int, n: int): int -> real {
    (k: int) => f(DownFrom(k, nx, n))
  }

  /** Within a row, going right and going left are rotations. */
  lemma RowSums(f: int -> real, nx: int, lo: int)
    requires nx >= 1
    requires forall k :: lo <= k < lo + nx ==> Right(k, nx) == if k == lo + nx - 1 then lo else k + 1
    requires forall k :: lo <= k < lo + nx ==> Left(k, nx) == if k == lo then lo + nx - 1 else k - 1
    ensures Sum(RightOf(f, nx), lo, lo + nx) == Sum(f, lo, lo + nx)
    ensures Sum(LeftOf(f, nx), lo, lo + nx) == Sum(f, lo, lo + nx)
  {
    var hi := lo + nx;
    var right, left := RightOf(f, nx), LeftOf(f, nx);
    SumShift(f, right, lo, hi - 1, 1);
    SumSplit(f, lo, lo + 1, hi);
    SumShift(f, left, lo + 1, hi, -1);
    SumSplit(left, lo, lo + 1, hi);
  }

  lemma {:induction false} RowShiftSums(f: int -> real, nx: int, rows: int)
    requires nx >= 1 && rows >= 0
    ensures rows * nx >= 0
    ensures Sum(RightOf(f, nx), 0, rows * nx) == Sum(f, 0, rows * nx)
    ensures Sum(LeftOf(f, nx), 0, rows * nx) == Sum(f, 0, rows * nx)
  {
    var right, left := RightOf(f, nx), LeftOf(f, nx);
    if rows > 0 {
      RowShiftSums(f, nx, rows - 1);
      var lo := (rows - 1) * nx;
      NextRow(rows - 1, nx);
      forall k | lo <= k < lo + nx
        ensures Right(k, nx) == if k == lo + nx - 1 then lo else k + 1
        ensures Left(k, nx) == if k == lo then lo + nx - 1 else k - 1
      {
        ColumnAt(k - lo, rows - 1, nx);
      }
      RowSums(f, nx, lo);
      SumSplit(f, 0, lo, lo + nx);
      SumSplit(right, 0, lo, lo + nx);
      SumSplit(left, 0, lo, lo + nx);
    }
  }

  /** Over the whole grid, going up and going down are rotations by one row. */
  lemma ColumnShiftSums(f: int -> real, nx: int, n: int)
    requires 1 <= nx <= n
    ensures Sum(UpOf(f, nx, n), 0, n) == Sum(f, 0, n)
    ensures Sum(DownOf(f, nx, n), 0, n) == Sum(f, 0, n)
  {
    var up, down := UpOf(f, nx, n), DownOf(f, nx, n);
    var last := n - nx;
    assert forall k :: 0 <= k < n ==> UpFrom(k, nx, n) == if k < last then k + nx else k - last;
    assert forall k :: 0 <= k < n ==> DownFrom(k, nx, n) == if k < nx then k + last else k - nx;
    SumShift(f, up, 0, last, nx);
    SumShift(f, up, last, n, -last);
    SumSplit(up, 0, last, n);
    SumSplit(f, 0, nx, n);
    SumShift(f, down, 0, nx, last);
    SumShift(f, down, nx, n, -nx);
    SumSplit(down, 0, nx, n);
    SumSplit(f, 0, last, n);
  }

  function At(items: seq<real>): int -> real {
    (k: int) => if 0 <= k < |items| then items[k] else 0.0
  }

  lemma NoDifferences(a: real, b: real, c: real, d: real)
    requires c != 0.0 && d != 0.0
    ensures (a - a) / c + (b - b) / d == 0.0
  {}

  /** On the periodic grid the discrete divergence of any field sums to exactly zero. */
  lemma DivergenceSumsToZero(s: PdeState, divergence: seq<real>)
    requires s.Loaded() && s.dx != 0.0 && s.dy != 0.0 && IsDivergence(s, divergence)
    ensures Sum(At(divergence), 0, |divergence|) == 0.0
  {
    var n := |s.field|;
    var dx2, dy2 := 2.0 * s.dx, 2.0 * s.dy;
    forall k | 0 <= k < n
      ensures At(divergence)(k) == (U(s.field)(Right(k, s.nx)) - U(s.field)(Left(k, s.nx))) / dx2
                                   + (V(s.field)(UpFrom(k, s.nx, n)) - V(s.field)(DownFrom(k, s.nx, n))) / dy2
    {
      assert divergence[k] == DivergenceAt(s, k);
    }
    assert s.ny * s.nx == n;
    Times(1, s.ny, s.nx);
    DifferencesSumToZero(U(s.field), V(s.field), At(divergence), s.nx, s.ny, n, dx2, dy2);
  }

  lemma DifferencesSumToZero(f: int -> real, g: int -> real, h: int -> real, nx: int, ny: int, n: int, dx2: real,
                             dy2: real)
    requires nx >= 1 && ny >= 1 && nx <= n == ny * nx && dx2 != 0.0 && dy2 != 0.0
    requires forall k :: 0 <= k < n ==> h(k) == (f(Right(k, nx)) - f(Left(k, nx))) / dx2
                                                + (g(UpFrom(k, nx, n)) - g(DownFrom(k, nx, n))) / dy2
    ensures Sum(h, 0, n) == 0.0
  {
    RowShiftSums(f, nx, ny);
    ColumnShiftSums(g, nx, n);
    var right, left := RightOf(f, nx), LeftOf(f, nx);
    var up, down := UpOf(g, nx, n), DownOf(g, nx, n);
    SumOfDifferences(h, right, left, up, down, dx2, dy2, n);
    NoDifferences(Sum(f, 0, n), Sum(g, 0, n), dx2, dy2);
  }

  // ----- the Leray step

  function MaxAbs(items: seq<real>): real
    requires items != []
  {
    var last := Abs(items[|items| - 1]);
    if |items| == 1 then last else if MaxAbs(items[..|items| - 1]) < last then last else MaxAbs(items[..|items| - 1])
  }

  lemma {:induction false} MaxAbsIsMax(items: seq<real>)
    requires items != []
    ensures forall x :: x in items ==> Abs(x) <= MaxAbs(items)
    ensures exists x :: x in items && Abs(x) == MaxAbs(items)
  {
    var front, last := items[..|items| - 1], items[|items| - 1];
    assert items == front + [last] && last in items;
    if |items| > 1 {
      MaxAbsIsMax(front);
      var x :| x in front && Abs(x) == MaxAbs(front);
      assert x in items;
    }
  }

  function Correction(gain: real, divergence: real): real {
    gain * divergence
  }

  /** One component after subtracting a correction. */
  function Corrected(x: real, correction: real): real {
    RoundPrice(x - correction)
  }

  /** Both components of every cell after subtracting the scaled divergence. */
  function Subtracted(field: seq<Cell>, gain: real, divergence: seq<real>): seq<Cell>
    requires |divergence| == |field|
  {
    seq(|field|, k requires 0 <= k < |field| =>
      var correction := Correction(gain, divergence[k]);
      Cell(Corrected(field[k].u, correction), Corrected(field[k].v, correction)))
  }

  /** The loop of `handle_ns_project_leray`. */
  method SubtractDivergence(cells: seq<Cell>, gain: real, divergence: seq<real>) returns (field: seq<Cell>)
    requires |divergence| == |cells|
    ensures field == Subtracted(cells, gain, divergence)
  {
    field := [];
    for idx := 0 to |cells|
      invariant field == Subtracted(cells, gain, divergence)[..idx]
    {
      var correction := Correction(gain, divergence[idx]);
      var cell := cells[idx];
      field := field + [Cell(RoundPrice(cell.u - correction), RoundPrice(cell.v - correction))];
      assert field[idx] == Cell(Corrected(cell.u, correction), Corrected(cell.v, correction));
      assert field[idx] == Subtracted(cells, gain, divergence)[idx];
    }
  }

  /** Every component is its old value less the scaled divergence of its cell, rounded. */
  ghost predicate Projected(before: seq<Cell>, after: seq<Cell>, gain: real, divergence: seq<real>) {
    && |after| == |before| == |divergence|
    && forall k :: 0 <= k < |after| ==>
                     && Near(after[k].u, before[k].u - gain * divergence[k])
                     && Near(after[k].v, before[k].v - gain * divergence[k])
  }

  lemma SubtractedIsProjected(cells: seq<Cell>, gain: real, divergence: seq<real>)
    requires |divergence| == |cells|
    ensures Projected(cells, Subtracted(cells, gain, divergence), gain, divergence)
  {
    forall k | 0 <= k < |cells|
      ensures Near(Subtracted(cells, gain, divergence)[k].u, cells[k].u - gain * divergence[k])
      ensures Near(Subtracted(cells, gain, divergence)[k].v, cells[k].v - gain * divergence[k])
    {
      RoundPriceNear(cells[k].u - Correction(gain, divergence[k]));
      RoundPriceNear(cells[k].v - Correction(gain, divergence[k]));
    }
  }

  /** The largest of the rounded magnitudes. */
  ghost predicate Peak(residual: real, divergence: seq<real>) {
    && (forall k :: 0 <= k < |divergence| ==> RoundPrice(Abs(divergence[k])) <= residual)
    && (exists k :: 0 <= k < |divergence| && RoundPrice(Abs(divergence[k])) == residual)
  }

  /** `handle_ns_project_leray`: the residual is the largest rounded divergence, and the field loses the
      scaled divergence in both components. */
  method ProjectLeray(s: PdeState, gain: real) returns (r: PdeState)
    requires s.Loaded() && s.dx != 0.0 && s.dy != 0.0
    ensures exists divergence ::
              && divergence != [] && IsDivergence(s, divergence)
              && r == s.(field := Subtracted(s.field, gain, divergence), projectionGain := gain,
                         divergenceResidual := RoundPrice(MaxAbs(divergence)))
              && Projected(s.field, r.field, gain, divergence) && Peak(r.divergenceResidual, divergence)
  {
    var divergence := Divergence(s);
    Times(1, s.ny, s.nx);
    assert s.ny * s.nx == s.nx * s.ny;
    var residual := RoundPrice(MaxAbs(divergence));
    var field := SubtractDivergence(s.field, gain, divergence);
    SubtractedIsProjected(s.field, gain, divergence);
    RoundedMax(divergence);
    r := s.(field := field, divergenceResidual := residual, projectionGain := gain);
  }

  /** Rounding the maximum is taking the maximum of the rounded. */
  lemma RoundedMax(items: seq<real>)
    requires items != []
    ensures forall k :: 0 <= k < |items| ==> RoundPrice(Abs(items[k])) <= RoundPrice(MaxAbs(items))
    ensures exists k :: 0 <= k < |items| && RoundPrice(Abs(items[k])) == RoundPrice(MaxAbs(items))
  {
    MaxAbsIsMax(items);
    forall k | 0 <= k < |items| ensures RoundPrice(Abs(items[k])) <= RoundPrice(MaxAbs(items)) {
      assert items[k] in items;
      RoundPriceFacts(Abs(items[k]), MaxAbs(items));
    }
  }

  /** If each term is off by at most half a unit from a sum of differences, so is the sum per term. */
  lemma {:induction false} SumRounded(f: int -> real, g: int -> real, c: int -> real, n: int)
    requires n >= 0 && forall k :: 0 <= k < n ==> Abs(g(k) - (f(k) - c(k))) <= 0.000000005
    ensures Abs(Sum(g, 0, n) - (Sum(f, 0, n) - Sum(c, 0, n))) <= n as real * 0.000000005
  {
    if n > 0 { SumRounded(f, g, c, n - 1); }
  }

  lemma {:induction false} SumScaled(d: int -> real, gain: real, n: int)
    requires n >= 0
    ensures Sum((k: int) => Correction(gain, d(k)), 0, n) == gain * Sum(d, 0, n)
  {
    if n > 0 {
      SumScaled(d, gain, n - 1);
      Distributes(gain, Sum(d, 0, n - 1), d(n - 1));
    }
  }

  lemma Distributes(a: real, x: real, y: real)
    ensures a * (x + y) == a * x + a * y
  {}

  /** The Leray step preserves the totals of u and of v, for every gain, up to half a unit of rounding per cell. */
  lemma LerayConserves(s: PdeState, gain: real, divergence: seq<real>)
    requires s.Loaded() && s.dx != 0.0 && s.dy != 0.0 && IsDivergence(s, divergence)
    ensures var field, n := Subtracted(s.field, gain, divergence), |s.field|;
            && Abs(Sum(U(field), 0, n) - Sum(U(s.field), 0, n)) <= n as real * 0.000000005
            && Abs(Sum(V(field), 0, n) - Sum(V(s.field), 0, n)) <= n as real * 0.000000005
  {
    DivergenceSumsToZero(s, divergence);
    SubtractingNothing(s.field, gain, divergence);
  }

  lemma CorrectedError(x: real, correction: real)
    ensures Abs(Corrected(x, correction) - (x - correction)) <= 0.000000005
  {
    RoundPriceFacts(x - correction, 0.0);
  }

  lemma CellCorrectedError(cells: seq<Cell>, gain: real, divergence: seq<real>, k: nat)
    requires |divergence| == |cells| && k < |cells|
    ensures var c, cell := Correction(gain, divergence[k]), Subtracted(cells, gain, divergence)[k];
            Abs(cell.u - (cells[k].u - c)) <= 0.000000005 && Abs(cell.v - (cells[k].v - c)) <= 0.000000005
  {
    CorrectedError(cells[k].u, Correction(gain, divergence[k]));
    CorrectedError(cells[k].v, Correction(gain, divergence[k]));
  }

  /** Subtracting anything that sums to zero preserves the totals up to rounding. */
  lemma SubtractingNothing(cells: seq<Cell>, gain: real, divergence: seq<real>)
    requires |divergence| == |cells| && Sum(At(divergence), 0, |divergence|) == 0.0
    ensures var field, n := Subtracted(cells, gain, divergence), |cells|;
            && Abs(Sum(U(field), 0, n) - Sum(U(cells), 0, n)) <= n as real * 0.000000005
            && Abs(Sum(V(field), 0, n) - Sum(V(cells), 0, n)) <= n as real * 0.000000005
  {
    var field, n, d := Subtracted(cells, gain, divergence), |cells|, At(divergence);
    var c := (k: int) => Correction(gain, d(k));
    assert Sum(c, 0, n) == 0.0 by { SumScaled(d, gain, n); }
    var u, u', v, v' := U(cells), U(field), V(cells), V(field);
    forall k: int | 0 <= k < n
      ensures Abs(u'(k) - (u(k) - c(k))) <= 0.000000005 && Abs(v'(k) - (v(k) - c(k))) <= 0.000000005
    {
      CellCorrectedError(cells, gain, divergence, k);
    }
    assert Abs(Sum(u', 0, n) - Sum(u, 0, n)) <= n as real * 0.000000005 by { SumRounded(u, u', c, n); }
    assert Abs(Sum(v', 0, n) - Sum(v, 0, n)) <= n as real * 0.000000005 by { SumRounded(v, v', c, n); }
  }

  // ----- the linear and the Duhamel step

  function CellEnergy(cell: Cell): real {
    0.5 * (cell.u * cell.u + cell.v * cell.v)
  }

  function Energy(field: seq<Cell>): real {
    if field == [] then 0.0 else Energy(field[..|field| - 1]) + CellEnergy(field[|field| - 1])
  }

  function Scaled(x: real, decay: real): real {
    x * decay
  }

  /** One component after the linear step. */
  function Decay(x: real, decay: real): real {
    RoundPrice(Scaled(x, decay))
  }

  function Decayed(field: seq<Cell>, decay: real): seq<Cell> {
    seq(|field|, k requires 0 <= k < |field| => Cell(Decay(field[k].u, decay), Decay(field[k].v, decay)))
  }

  /** `handle_ns_evolve_linear`, where `decay` is `exp(-nu * dt)`. */
  function EvolveLinear(s: PdeState, dt: real, nu: real, decay: real): PdeState {
    s.(field := Decayed(s.field, decay), t := s.t + dt, dt := dt, nu := nu)
  }

  /** The nonlinear term at `rate == dt * coeff`. */
  function Drag(x: real, rate: real): real {
    rate * x * Abs(x)
  }

  /** One component after the Duhamel step. */
  function Damp(x: real, rate: real): real {
    RoundPrice(x - Drag(x, rate))
  }

  function Damped(field: seq<Cell>, rate: real): seq<Cell> {
    seq(|field|, k requires 0 <= k < |field| => Cell(Damp(field[k].u, rate), Damp(field[k].v, rate)))
  }

  /** What the Duhamel step takes from a component before rounding. */
  function Friction(x: real, dt: real, coeff: real): real {
    dt * coeff * x * Abs(x)
  }

  /** Every component is its old value less its friction, rounded. */
  ghost predicate Duhameled(before: seq<Cell>, after: seq<Cell>, dt: real, coeff: real) {
    && |after| == |before|
    && forall k :: 0 <= k < |after| ==>
                     && Near(after[k].u, before[k].u - Friction(before[k].u, dt, coeff))
                     && Near(after[k].v, before[k].v - Friction(before[k].v, dt, coeff))
  }

  lemma DampNear(x: real, dt: real, coeff: real)
    ensures Near(Damp(x, dt * coeff), x - Friction(x, dt, coeff))
  {
    RoundPriceNear(x - Drag(x, dt * coeff));
    assert Drag(x, dt * coeff) == Friction(x, dt, coeff);
  }

  lemma DampedIsDuhameled(field: seq<Cell>, dt: real, coeff: real)
    ensures Duhameled(field, Damped(field, dt * coeff), dt, coeff)
  {
    forall k | 0 <= k < |field|
      ensures Near(Damped(field, dt * coeff)[k].u, field[k].u - Friction(field[k].u, dt, coeff))
      ensures Near(Damped(field, dt * coeff)[k].v, field[k].v - Friction(field[k].v, dt, coeff))
    {
      DampNear(field[k].u, dt, coeff);
      DampNear(field[k].v, dt, coeff);
    }
  }

  /** The linear step: every component is its old value times the decay, rounded, and the time is advanced. */
  lemma EvolveMeans(s: PdeState, dt: real, nu: real, decay: real)
    ensures var r := EvolveLinear(s, dt, nu, decay);
            && r == s.(field := r.field, t := s.t + dt, dt := dt, nu := nu) && |r.field| == |s.field|
            && forall k :: 0 <= k < |r.field| ==>
                             && Near(r.field[k].u, s.field[k].u * decay) && Near(r.field[k].v, s.field[k].v * decay)
  {
    var r := EvolveLinear(s, dt, nu, decay);
    forall k | 0 <= k < |r.field|
      ensures Near(r.field[k].u, s.field[k].u * decay) && Near(r.field[k].v, s.field[k].v * decay)
    {
      RoundPriceNear(Scaled(s.field[k].u, decay));
      RoundPriceNear(Scaled(s.field[k].v, decay));
    }
  }

  // ----- what follows from these relations alone

  /** A component that loses between none and twice of itself ends up no larger. */
  lemma FrictionShrinks(x: real, y: real, f: real)
    requires OnGrid(x) && Near(y, x - f) && Abs(x - f) <= Abs(x)
    ensures Abs(y) <= Abs(x)
  {
    NegatedOnGrid(x);
    NegatedOnGrid(y);
    GridStep(y, Abs(x));
    GridStep(-y, Abs(x));
  }

  /** A component that loses more than half a unit, and less than itself, becomes strictly smaller and does not
      change its sign. */
  lemma FrictionStrict(x: real, y: real, f: real)
    requires OnGrid(x) && Near(y, x - f)
    requires (x > 0.0 && 0.000000005 < f < x) || (x < 0.0 && x < f < -0.000000005)
    ensures Abs(y) < Abs(x) && (x > 0.0 ==> y >= 0.0) && (x < 0.0 ==> y <= 0.0)
  {
    ZeroOnGrid();
    if x > 0.0 { GridStep(0.0, y); } else { GridStep(y, 0.0); }
  }

  lemma FrictionIsDrag(x: real, dt: real, coeff: real)
    ensures Friction(x, dt, coeff) == Drag(x, dt * coeff)
  {}

  /** Friction shrinks a component exactly in this range. */
  lemma FrictionInRange(x: real, dt: real, coeff: real)
    requires InRange(x, dt * coeff)
    ensures Abs(x - Friction(x, dt, coeff)) <= Abs(x)
  {
    FrictionIsDrag(x, dt, coeff);
    DampingShrinksIff(x, dt * coeff);
  }

  /** The share of itself a component loses to friction. */
  function Share(x: real, dt: real, coeff: real): real {
    dt * coeff * Abs(x)
  }

  lemma FrictionIsShare(x: real, dt: real, coeff: real)
    ensures Friction(x, dt, coeff) == Share(x, dt, coeff) * x
  {
    Associates(dt * coeff, x, Abs(x));
  }

  /** The friction of this component is more than half a rounding unit, and less than the component. */
  predicate Felt(x: real, dt: real, coeff: real) {
    0.0 < Share(x, dt, coeff) < 1.0 && Abs(Friction(x, dt, coeff)) > 0.000000005
  }

  lemma PositiveShare(x: real, share: real, f: real)
    requires x > 0.0 && 0.0 < share < 1.0 && f == share * x
    ensures 0.0 < f < x
  {
    PositiveProduct(share, x);
    var rest := RestOf(x, share);
    assert rest > 0.0 && rest + f == x;
  }

  lemma RestOf(x: real, share: real) returns (rest: real)
    requires x > 0.0 && share < 1.0
    ensures rest > 0.0 && rest + share * x == x
  {
    rest := (1.0 - share) * x;
    PositiveProduct(1.0 - share, x);
  }

  /** A positive share below one of a component is less than the component, on the same side of zero. */
  lemma ShareBetween(x: real, share: real, f: real)
    requires 0.0 < share < 1.0 && f == share * x
    ensures x > 0.0 ==> 0.0 < f < x
    ensures x < 0.0 ==> x < f < 0.0
  {
    if x > 0.0 { PositiveShare(x, share, f); }
    if x < 0.0 {
      NegatedProduct(share, x);
      PositiveShare(-x, share, -f);
    }
  }

  lemma TimesZero(a: real, x: real)
    ensures x == 0.0 ==> a * x == 0.0
  {}

  lemma FeltBetween(x: real, f: real, share: real)
    requires 0.0 < share < 1.0 && f == share * x && Abs(f) > 0.000000005
    ensures (x > 0.0 && 0.000000005 < f < x) || (x < 0.0 && x < f < -0.000000005)
  {
    ShareBetween(x, share, f);
    TimesZero(share, x);
  }

  lemma FeltStrict(x: real, y: real, dt: real, coeff: real)
    requires OnGrid(x) && Near(y, x - Friction(x, dt, coeff)) && Felt(x, dt, coeff)
    ensures Abs(y) < Abs(x) && (x > 0.0 ==> y >= 0.0) && (x < 0.0 ==> y <= 0.0)
  {
    FrictionIsShare(x, dt, coeff);
    FeltBetween(x, Friction(x, dt, coeff), Share(x, dt, coeff));
    FrictionStrict(x, y, Friction(x, dt, coeff));
  }

  /** A component of the cell feels its friction. */
  predicate CellFelt(c: Cell, dt: real, coeff: real) {
    Felt(c.u, dt, coeff) || Felt(c.v, dt, coeff)
  }

  lemma FeltNotMore(x: real, y: real, dt: real, coeff: real)
    requires OnGrid(x) && Near(y, x - Friction(x, dt, coeff)) && InRange(x, dt * coeff)
    ensures Abs(y) <= Abs(x)
  {
    FrictionInRange(x, dt, coeff);
    FrictionShrinks(x, y, Friction(x, dt, coeff));
  }

  lemma DuhameledShrinks(before: seq<Cell>, after: seq<Cell>, dt: real, coeff: real)
    requires Duhameled(before, after, dt, coeff) && FieldOnGrid(before) && FieldInRange(before, dt * coeff)
    ensures Shrunk(after, before)
  {
    forall k | 0 <= k < |after| ensures Smaller(after[k], before[k]) {
      FeltNotMore(before[k].u, after[k].u, dt, coeff);
      FeltNotMore(before[k].v, after[k].v, dt, coeff);
    }
  }

  lemma StrictSquares(a: real, b: real)
    requires Abs(a) < Abs(b)
    ensures a * a < b * b
  {
    var p, q := Abs(a), Abs(b);
    PositiveProduct(q - p, q + p);
    assert (q - p) * (q + p) == q * q - p * p;
    assert a * a == p * p && b * b == q * q;
  }

  lemma CellEnergyStrict(a: Cell, b: Cell)
    requires Smaller(a, b) && (Abs(a.u) < Abs(b.u) || Abs(a.v) < Abs(b.v))
    ensures CellEnergy(a) < CellEnergy(b)
  {
    Squares(a.u, b.u);
    Squares(a.v, b.v);
    if Abs(a.u) < Abs(b.u) { StrictSquares(a.u, b.u); } else { StrictSquares(a.v, b.v); }
  }

  /** One component strictly smaller makes the energy strictly smaller. */
  lemma {:induction false} EnergyStrict(a: seq<Cell>, b: seq<Cell>, k: nat)
    requires Shrunk(a, b) && k < |a|
    requires Abs(a[k].u) < Abs(b[k].u) || Abs(a[k].v) < Abs(b[k].v)
    ensures Energy(a) < Energy(b)
  {
    var n := |a| - 1;
    if k < n {
      CellEnergyMonotone(a[n], b[n]);
      EnergyStrict(a[..n], b[..n], k);
    } else {
      EnergyMonotone(a[..n], b[..n]);
      CellEnergyStrict(a[n], b[n]);
    }
  }

  /** A component that feels its friction became strictly smaller and did not change its sign. */
  predicate Dragged(x: real, y: real, dt: real, coeff: real) {
    Felt(x, dt, coeff) ==> Abs(y) < Abs(x) && (x > 0.0 ==> y >= 0.0) && (x < 0.0 ==> y <= 0.0)
  }

  lemma ComponentsDragged(before: seq<Cell>, after: seq<Cell>, dt: real, coeff: real, k: nat)
    requires Duhameled(before, after, dt, coeff) && FieldOnGrid(before) && k < |before|
    ensures Dragged(before[k].u, after[k].u, dt, coeff) && Dragged(before[k].v, after[k].v, dt, coeff)
  {
    if Felt(before[k].u, dt, coeff) { FeltStrict(before[k].u, after[k].u, dt, coeff); }
    if Felt(before[k].v, dt, coeff) { FeltStrict(before[k].v, after[k].v, dt, coeff); }
  }

  /** The Duhamel step never raises the energy of a field on the grid, in range; a component that feels its
      friction becomes strictly smaller without changing its sign, and if there is one the energy strictly falls. */
  lemma DuhamelLowersEnergy(before: seq<Cell>, after: seq<Cell>, dt: real, coeff: real)
    requires Duhameled(before, after, dt, coeff) && FieldOnGrid(before) && FieldInRange(before, dt * coeff)
    ensures Energy(after) <= Energy(before)
    ensures forall k :: 0 <= k < |before| ==>
                          Dragged(before[k].u, after[k].u, dt, coeff) && Dragged(before[k].v, after[k].v, dt, coeff)
    ensures (exists k :: 0 <= k < |before| && CellFelt(before[k], dt, coeff)) ==> Energy(after) < Energy(before)
  {
    DuhameledShrinks(before, after, dt, coeff);
    EnergyMonotone(after, before);
    forall k | 0 <= k < |before|
      ensures Dragged(before[k].u, after[k].u, dt, coeff) && Dragged(before[k].v, after[k].v, dt, coeff)
    {
      ComponentsDragged(before, after, dt, coeff, k);
    }
    if k :| 0 <= k < |before| && CellFelt(before[k], dt, coeff) {
      ComponentsDragged(before, after, dt, coeff, k);
      EnergyStrict(after, before, k);
    }
  }

  /** The energy of a field is that of its parts, and of a cell half the sum of its squares. */
  lemma {:induction false} EnergyMeans(a: seq<Cell>, b: seq<Cell>, c: Cell)
    ensures Energy(a + b) == Energy(a) + Energy(b)
    ensures Energy([c]) == 0.5 * (c.u * c.u + c.v * c.v)
  {
    SingleCell(c);
    if b == [] {
      assert a + b == a;
    } else {
      var n := |b| - 1;
      EnergyMeans(a, b[..n], c);
      assert (a + b)[..|a + b| - 1] == a + b[..n];
    }
  }

  /** `handle_ns_apply_duhamel` */
  method ApplyDuhamel(s: PdeState, dt: real, coeff: real) returns (r: PdeState)
    ensures r == s.(field := Damped(s.field, dt * coeff), dt := dt)
    ensures Duhameled(s.field, r.field, dt, coeff)
  {
    DampedIsDuhameled(s.field, dt, coeff);
    var rate := dt * coeff;
    var field: seq<Cell> := [];
    for k := 0 to |s.field|
      invariant field == Damped(s.field, rate)[..k]
    {
      var u, v := s.field[k].u, s.field[k].v;
      var uNew := u - Drag(u, rate);
      var vNew := v - Drag(v, rate);
      field := field + [Cell(RoundPrice(uNew), RoundPrice(vNew))];
      assert field[k] == Cell(Damp(u, rate), Damp(v, rate));
      assert field[k] == Damped(s.field, rate)[k];
    }
    r := s.(field := field, dt := dt);
  }

  lemma Squares(a: real, b: real)
    requires Abs(a) <= Abs(b)
    ensures a * a <= b * b
  {
    assert a * a == Abs(a) * Abs(a) && b * b == Abs(b) * Abs(b);
    assert Abs(b) * Abs(b) - Abs(a) * Abs(a) == (Abs(b) - Abs(a)) * (Abs(b) + Abs(a));
  }

  /** No component of `a` is larger than that of `b`. */
  ghost predicate Shrunk(a: seq<Cell>, b: seq<Cell>) {
    && |a| == |b|
    && forall k :: 0 <= k < |a| ==> Smaller(a[k], b[k])
  }

  /** Neither component of `a` is larger than that of `b`. */
  predicate Smaller(a: Cell, b: Cell) {
    Abs(a.u) <= Abs(b.u) && Abs(a.v) <= Abs(b.v)
  }

  lemma CellEnergyMonotone(a: Cell, b: Cell)
    requires Smaller(a, b)
    ensures CellEnergy(a) <= CellEnergy(b)
  {
    Squares(a.u, b.u);
    Squares(a.v, b.v);
  }

  lemma {:induction false} EnergyMonotone(a: seq<Cell>, b: seq<Cell>)
    requires Shrunk(a, b)
    ensures Energy(a) <= Energy(b)
  {
    if a != [] {
      var n := |a| - 1;
      EnergyMonotone(a[..n], b[..n]);
      CellEnergyMonotone(a[n], b[n]);
    }
  }

  lemma NonNegativeProduct(a: real, b: real)
    requires a >= 0.0 && b >= 0.0
    ensures a * b >= 0.0
  {}

  lemma ScaledShrinks(x: real, decay: real)
    requires 0.0 < decay <= 1.0
    ensures Abs(Scaled(x, decay)) <= Abs(x)
  {
    NonNegativeProduct(Abs(x), decay);
    NonNegativeProduct(Abs(x), 1.0 - decay);
    Distributes(Abs(x), 1.0 - decay, decay);
    NegatedProduct(x, decay);
  }

  /** However it decays, a component becomes no larger than by rounding alone. */
  lemma DecayBelowRounded(x: real, decay: real)
    requires 0.0 < decay <= 1.0
    ensures Abs(Decay(x, decay)) <= Abs(RoundPrice(x)) && OnGrid(Decay(x, decay))
  {
    ScaledShrinks(x, decay);
    RoundPriceKeepsOrder(Scaled(x, decay), x);
    RoundPriceFacts(Scaled(x, decay), x);
  }

  lemma NoDecay(x: real)
    ensures Decay(x, 1.0) == RoundPrice(x)
  {}

  /** The linear step never enlarges a component, whatever the decay, exactly if rounding does not. */
  lemma DecayNeverGrowsIff(x: real)
    ensures (forall decay :: 0.0 < decay <= 1.0 ==> Abs(Decay(x, decay)) <= Abs(x)) <==> Abs(RoundPrice(x)) <= Abs(x)
  {
    NoDecay(x);
    forall decay | 0.0 < decay <= 1.0 ensures Abs(Decay(x, decay)) <= Abs(RoundPrice(x)) {
      DecayBelowRounded(x, decay);
    }
  }

  lemma Associates(a: real, x: real, y: real)
    ensures a * x * y == a * y * x
  {}

  lemma NegatedProduct(a: real, b: real)
    ensures (-a) * b == -(a * b) && a * (-b) == -(a * b)
  {}

  lemma PositiveProduct(a: real, b: real)
    requires a > 0.0 && b > 0.0
    ensures a * b > 0.0
  {}

  lemma PositiveScaling(p: real, s: real)
    requires p > 0.0
    ensures Abs(p - s * p) <= p <==> 0.0 <= s <= 2.0
  {
    var sp := s * p;
    if s < 0.0 {
      PositiveProduct(-s, p);
      NegatedProduct(s, p);
    } else {
      NonNegativeProduct(s, p);
    }
    assert (s - 2.0) * p == sp - 2.0 * p && (2.0 - s) * p == 2.0 * p - sp;
    if s > 2.0 { PositiveProduct(s - 2.0, p); } else { NonNegativeProduct(2.0 - s, p); }
  }

  /** `x - s * x` is no larger than `x` exactly for `s` between 0 and 2. */
  lemma ScalingShrinksIff(x: real, s: real)
    requires x != 0.0
    ensures Abs(x - s * x) <= Abs(x) <==> 0.0 <= s <= 2.0
  {
    var p := Abs(x);
    NegatedProduct(s, p);
    assert s * x == if x < 0.0 then -(s * p) else s * p;
    PositiveScaling(p, s);
  }

  /** Before rounding, damping shrinks a component exactly in this range. */
  lemma DampingShrinksIff(x: real, rate: real)
    ensures Abs(x - Drag(x, rate)) <= Abs(x) <==> x == 0.0 || 0.0 <= rate * Abs(x) <= 2.0
  {
    Associates(rate, x, Abs(x));
    if x != 0.0 { ScalingShrinksIff(x, rate * Abs(x)); }
  }

  predicate InRange(x: real, rate: real) {
    0.0 <= rate * Abs(x) <= 2.0
  }

  lemma DampShrinks(x: real, rate: real)
    requires OnGrid(x) && InRange(x, rate)
    ensures Abs(Damp(x, rate)) <= Abs(x)
  {
    DampingShrinksIff(x, rate);
    RoundPriceKeepsOrder(x - Drag(x, rate), x);
    RoundPriceFacts(x, x);
  }

  /** The damping range of a component is inherited by a smaller one. */
  lemma RangeInherited(x: real, y: real, rate: real)
    requires Abs(y) <= Abs(x) && InRange(x, rate)
    ensures InRange(y, rate)
  {
    if x == 0.0 {
      assert y == 0.0;
    } else {
      assert rate < 0.0 ==> rate * Abs(x) < 0.0;
      NonNegativeProduct(rate, Abs(y));
      NonNegativeProduct(rate, Abs(x) - Abs(y));
      Distributes(rate, Abs(y), Abs(x) - Abs(y));
    }
  }

  ghost predicate FieldOnGrid(field: seq<Cell>) {
    forall k :: 0 <= k < |field| ==> OnGrid(field[k].u) && OnGrid(field[k].v)
  }

  ghost predicate FieldInRange(field: seq<Cell>, rate: real) {
    forall k :: 0 <= k < |field| ==> InRange(field[k].u, rate) && InRange(field[k].v, rate)
  }

  lemma ShrunkInRange(a: seq<Cell>, b: seq<Cell>, rate: real)
    requires Shrunk(a, b) && FieldInRange(b, rate)
    ensures FieldInRange(a, rate)
  {
    forall k | 0 <= k < |a| ensures InRange(a[k].u, rate) && InRange(a[k].v, rate) {
      RangeInherited(b[k].u, a[k].u, rate);
      RangeInherited(b[k].v, a[k].v, rate);
    }
  }

  /** A field with every component rounded: the linear step without decay. */
  function Rounded(field: seq<Cell>): seq<Cell> {
    seq(|field|, k requires 0 <= k < |field| => Cell(RoundPrice(field[k].u), RoundPrice(field[k].v)))
  }

  /** The linear step leaves every component on the grid, and no larger than rounding alone does. */
  lemma LinearStepBelowRounded(field: seq<Cell>, decay: real)
    requires 0.0 < decay <= 1.0
    ensures Shrunk(Decayed(field, decay), Rounded(field)) && FieldOnGrid(Decayed(field, decay))
  {
    forall k | 0 <= k < |field|
      ensures Abs(Decay(field[k].u, decay)) <= Abs(RoundPrice(field[k].u)) && OnGrid(Decay(field[k].u, decay))
      ensures Abs(Decay(field[k].v, decay)) <= Abs(RoundPrice(field[k].v)) && OnGrid(Decay(field[k].v, decay))
    {
      DecayBelowRounded(field[k].u, decay);
      DecayBelowRounded(field[k].v, decay);
    }
  }

  lemma RoundedOnGrid(field: seq<Cell>)
    ensures FieldOnGrid(field) <==> Rounded(field) == field
  {
    forall k | 0 <= k < |field|
      ensures OnGrid(field[k].u) && OnGrid(field[k].v) <==> Rounded(field)[k] == field[k]
    {
      RoundPriceFacts(field[k].u, 0.0);
      RoundPriceFacts(field[k].v, 0.0);
    }
  }

  /** The linear step shrinks every component of a field on the grid, and leaves it on the grid. */
  lemma LinearStepShrinks(field: seq<Cell>, decay: real)
    requires FieldOnGrid(field) && 0.0 < decay <= 1.0
    ensures Shrunk(Decayed(field, decay), field) && FieldOnGrid(Decayed(field, decay))
  {
    LinearStepBelowRounded(field, decay);
    RoundedOnGrid(field);
  }

  lemma FieldWithoutDecay(field: seq<Cell>)
    ensures Decayed(field, 1.0) == Rounded(field)
  {
    forall k | 0 <= k < |field| ensures Decayed(field, 1.0)[k] == Rounded(field)[k] {
      NoDecay(field[k].u);
      NoDecay(field[k].v);
    }
  }

  /** The linear step never raises the energy of a field, whatever the decay, exactly if rounding the field
      does not. */
  lemma LinearStepNeverRaisesIff(field: seq<Cell>)
    ensures (forall decay :: 0.0 < decay <= 1.0 ==> Energy(Decayed(field, decay)) <= Energy(field))
            <==> Energy(Rounded(field)) <= Energy(field)
  {
    FieldWithoutDecay(field);
    forall decay | 0.0 < decay <= 1.0 ensures Energy(Decayed(field, decay)) <= Energy(Rounded(field)) {
      LinearStepBelowRounded(field, decay);
      EnergyMonotone(Decayed(field, decay), Rounded(field));
    }
  }

  lemma CellDampShrinks(c: Cell, rate: real)
    requires OnGrid(c.u) && OnGrid(c.v) && InRange(c.u, rate) && InRange(c.v, rate)
    ensures Abs(Damp(c.u, rate)) <= Abs(c.u) && Abs(Damp(c.v, rate)) <= Abs(c.v)
  {
    DampShrinks(c.u, rate);
    DampShrinks(c.v, rate);
  }

  /** So does the Duhamel step, in range. */
  lemma DuhamelStepShrinks(field: seq<Cell>, rate: real)
    requires FieldOnGrid(field) && FieldInRange(field, rate)
    ensures Shrunk(Damped(field, rate), field)
  {
    var after := Damped(field, rate);
    forall k | 0 <= k < |field| ensures Abs(after[k].u) <= Abs(field[k].u) && Abs(after[k].v) <= Abs(field[k].v) {
      CellDampShrinks(field[k], rate);
    }
  }

  /** Rounding included, the energy never rises across the linear step followed by the Duhamel step, for a
      state on the grid and a damping rate in range for every component. */
  lemma EnergyNeverRises(s: PdeState, dt: real, nu: real, decay: real, dt': real, coeff: real)
    requires FieldOnGrid(s.field) && 0.0 < decay <= 1.0 && FieldInRange(s.field, dt' * coeff)
    ensures var linear := EvolveLinear(s, dt, nu, decay);
            Energy(Damped(linear.field, dt' * coeff)) <= Energy(linear.field) <= Energy(s.field)
  {
    var linear := Decayed(s.field, decay);
    LinearStepShrinks(s.field, decay);
    EnergyMonotone(linear, s.field);
    ShrunkInRange(linear, s.field, dt' * coeff);
    DuhamelStepShrinks(linear, dt' * coeff);
    EnergyMonotone(Damped(linear, dt' * coeff), linear);
  }

  /** For an arbitrary field, with a damping rate in range for its rounded components: the energy never rises
      across the two steps, whatever the decay, exactly if rounding the field does not raise it. */
  lemma EnergyNeverRisesIff(field: seq<Cell>, rate: real)
    requires FieldInRange(Rounded(field), rate)
    ensures (forall decay :: 0.0 < decay <= 1.0 ==>
               Energy(Damped(Decayed(field, decay), rate)) <= Energy(Decayed(field, decay)) <= Energy(field))
            <==> Energy(Rounded(field)) <= Energy(field)
  {
    LinearStepNeverRaisesIff(field);
    forall decay | 0.0 < decay <= 1.0
      ensures Energy(Damped(Decayed(field, decay), rate)) <= Energy(Decayed(field, decay))
    {
      LinearStepBelowRounded(field, decay);
      ShrunkInRange(Decayed(field, decay), Rounded(field), rate);
      DuhamelStepShrinks(Decayed(field, decay), rate);
      EnergyMonotone(Damped(Decayed(field, decay), rate), Decayed(field, decay));
    }
  }

  /** A cell off the grid. */
  const OFF_GRID := Cell(0.000000006, 0.0)

  /** For this cell rounding raises the energy, and so does the linear step without decay. */
  lemma RoundingRaisesEnergyOffGrid()
    ensures Energy(Rounded([OFF_GRID])) > Energy([OFF_GRID])
    ensures Energy(Decayed([OFF_GRID], 1.0)) > Energy([OFF_GRID])
  {
    assert RoundHalfEven(0.6) == 1 && RoundHalfEven(0.0) == 0;
    assert RoundPrice(OFF_GRID.u) == Unit(1) && RoundPrice(OFF_GRID.v) == Unit(0);
    assert Rounded([OFF_GRID]) == [Cell(Unit(1), Unit(0))];
    SingleCell(OFF_GRID);
    SingleCell(Cell(Unit(1), Unit(0)));
    FieldWithoutDecay([OFF_GRID]);
  }

  lemma SingleCell(c: Cell)
    ensures Energy([c]) == 0.5 * (c.u * c.u + c.v * c.v)
  {
    assert [c][..0] == [];
  }
}
