/** The order in which a benchmark sweep visits its cells: a walk with a stride coprime to their number. */
module Schedule {
  import opened Records

  const USIZE_SPAN: nat := 0x1_0000_0000_0000_0000

  ghost predicate Divides(d: int, x: int) {
    exists q: int :: x == d * q
  }

  function GcdOf(left: nat, right: nat): (g: nat)
    decreases right
  {
    if right == 0 then left else GcdOf(right, left % right)
  }

  lemma DividesLinear(d: int, x: int, y: int, u: int, v: int)
    requires Divides(d, x) && Divides(d, y)
    ensures Divides(d, u * x + v * y)
  {
    var p :| x == d * p;
    var q :| y == d * q;
    assert u * x + v * y == d * (u * p + v * q) by {
      assert u * (d * p) == d * (u * p) && v * (d * q) == d * (v * q);
    }
  }

  lemma DividesSelf(d: int)
    ensures Divides(d, d) && Divides(d, 0)
  {
    assert d == d * 1 && 0 == d * 0;
  }

  lemma BezoutStep(right: int, q: int, r: int, s: int, t: int)
    ensures t * (right * q + r) + (s - t * q) * right == s * right + t * r
  {
    assert t * (right * q + r) == t * (right * q) + t * r;
    assert t * (right * q) == (t * q) * right;
    assert (s - t * q) * right == s * right - (t * q) * right;
  }

  /** The gcd is a combination of the two numbers, and divides both. */
  lemma {:induction false} GcdBezout(left: nat, right: nat) returns (u: int, v: int)
    ensures u * left + v * right == GcdOf(left, right)
    ensures Divides(GcdOf(left, right), left) && Divides(GcdOf(left, right), right)
    decreases right
  {
    if right == 0 {
      u, v := 1, 0;
      DividesSelf(left);
    } else {
      var q, r := left / right, left % right;
      var s, t := GcdBezout(right, r);
      u, v := t, s - t * q;
      var g := GcdOf(right, r);
      assert left == right * q + r;
      BezoutStep(right, q, r, s, t);
      DividesLinear(g, right, r, q, 1);
      assert q * right + 1 * r == left;
    }
  }

  /** Every common divisor divides the gcd. */
  lemma GcdGreatest(left: nat, right: nat, d: int)
    requires Divides(d, left) && Divides(d, right)
    ensures Divides(d, GcdOf(left, right))
  {
    var u, v := GcdBezout(left, right);
    DividesLinear(d, left, right, u, v);
  }

  /** Euclid's loop. */
  method Gcd(left: nat, right: nat) returns (g: nat)
    ensures g == GcdOf(left, right)
  {
    var a, b := left, right;
    while b != 0
      invariant GcdOf(a, b) == GcdOf(left, right)
      decreases b
    {
      a, b := b, a % b;
    }
    return a;
  }

  /** A stride that may be used: below the number of cells and coprime to it. */
  ghost predicate Coprime(stride: nat, cells: nat) {
    0 < stride < cells && GcdOf(stride, cells) == 1
  }

  /** The usable strides below a bound, in order. */
  ghost function Strides(bound: nat, cells: nat): seq<nat> {
    if bound <= 1 then []
    else Strides(bound - 1, cells) + (if GcdOf(bound - 1, cells) == 1 then [bound - 1] else [])
  }

  lemma OneIsCoprime(cells: nat)
    requires cells > 1
    ensures Coprime(1, cells)
  {
    assert GcdOf(1, cells) == GcdOf(cells, 1 % cells) == GcdOf(cells, 1);
    assert GcdOf(cells, 1) == GcdOf(1, cells % 1) == GcdOf(1, 0) == 1;
  }

  /** A number that divides a product and is coprime to one factor divides the other. */
  lemma EuclidLemma(stride: nat, cells: nat, x: int)
    requires GcdOf(stride, cells) == 1 && Divides(cells, x * stride)
    ensures Divides(cells, x)
  {
    var u, v := GcdBezout(stride, cells);
    DividesSelf(cells);
    DividesLinear(cells, x * stride, cells, u, x * v);
    Combine(x, u, stride, v, cells);
  }

  lemma Combine(x: int, u: int, a: int, v: int, b: int)
    requires u * a + v * b == 1
    ensures u * (x * a) + (x * v) * b == x
  {
    assert u * (x * a) == x * (u * a);
    assert (x * v) * b == x * (v * b);
    assert x * (u * a) + x * (v * b) == x * (u * a + v * b);
  }

  function CellAt(position: nat, stride: nat, offset: nat, cells: nat): nat
    requires cells > 0
  {
    (position * stride + offset) % cells
  }

  lemma Grows(a: nat, b: nat, c: nat)
    requires a <= b
    ensures a * c <= b * c && c * a <= c * b
  {
  }

  /** No product of the walk overflows a machine word. */
  lemma FitsWord(position: nat, stride: nat, offset: nat, cells: nat)
    requires position < cells && stride < cells && offset < cells && cells * (cells - 1) < USIZE_SPAN
    ensures position * stride + offset < USIZE_SPAN
  {
    Grows(position, cells - 1, stride);
    Grows(stride, cells - 1, cells - 1);
    assert (cells - 1) * (cells - 1) + (cells - 1) == cells * (cells - 1);
  }

  lemma SameRemainder(a: int, b: int, n: nat)
    requires n > 0 && a % n == b % n
    ensures Divides(n, a - b)
  {
    assert a == n * (a / n) + a % n && b == n * (b / n) + b % n;
    assert a - b == n * (a / n - b / n);
  }

  lemma SmallMultiple(n: int, x: int)
    requires Divides(n, x) && -n < x < n
    ensures x == 0
  {
    var q :| x == n * q;
  }

  /** Two positions never land on one cell. */
  lemma CellInjective(x: nat, y: nat, stride: nat, offset: nat, cells: nat)
    requires Coprime(stride, cells) && x < cells && y < cells
    requires CellAt(x, stride, offset, cells) == CellAt(y, stride, offset, cells)
    ensures x == y
  {
    SameRemainder(x * stride + offset, y * stride + offset, cells);
    assert x * stride + offset - (y * stride + offset) == (x - y) * stride;
    EuclidLemma(stride, cells, x - y);
    SmallMultiple(cells, x - y);
  }

  ghost predicate Injective(order: seq<nat>) {
    forall i, j | 0 <= i < j < |order| :: order[i] != order[j]
  }

  /** The order visits every cell exactly once. */
  ghost predicate IsPermutation(order: seq<nat>, cells: nat) {
    && |order| == cells && (forall i | 0 <= i < cells :: order[i] < cells) && Injective(order)
    && forall c: nat | c < cells :: c in order
  }

  function Elements(order: seq<nat>): set<nat> {
    set c | c in order
  }

  lemma {:induction false} ElementCount(order: seq<nat>)
    requires Injective(order)
    ensures |Elements(order)| == |order|
  {
    if order != [] {
      var n := |order| - 1;
      var front := order[..n];
      ElementCount(front);
      assert order == front + [order[n]] && order[n] !in front;
      assert Elements(order) == Elements(front) + {order[n]};
    }
  }

  /** The numbers below a bound. */
  function Below(cells: nat): set<nat> {
    if cells == 0 then {} else Below(cells - 1) + {cells - 1}
  }

  lemma {:induction false} BelowCount(cells: nat)
    ensures |Below(cells)| == cells && forall c: nat :: c in Below(cells) <==> c < cells
  {
    if cells > 0 { BelowCount(cells - 1); }
  }

  lemma SubsetFull(a: set<nat>, b: set<nat>)
    requires a <= b && |a| == |b|
    ensures a == b
  {
    forall x | x in b ensures x in a {
      if x !in a { SubsetSize(a, b - {x}); }
    }
  }

  /** Distinct cells, as many as there are, are all of them. */
  lemma Pigeonhole(order: seq<nat>, cells: nat)
    requires |order| == cells && Injective(order) && forall i | 0 <= i < cells :: order[i] < cells
    ensures IsPermutation(order, cells)
  {
    ElementCount(order);
    BelowCount(cells);
    SubsetFull(Elements(order), Below(cells));
    forall c: nat | c < cells ensures c in order {
      assert c in Below(cells);
    }
  }

  /** The order of one sweep, a permutation of the cells. */
  method BalancedCellOrder(cells: nat, sweep: nat) returns (order: seq<nat>)
    requires cells * (cells - 1) < USIZE_SPAN && sweep < USIZE_SPAN
    ensures IsPermutation(order, cells)
    ensures cells > 1 ==> Strides(cells, cells) != []
    ensures cells > 1 ==>
              var stride := Strides(cells, cells)[sweep % |Strides(cells, cells)|];
              && Coprime(stride, cells)
              && forall p | 0 <= p < cells ::
                   && p * stride + sweep * 5 % USIZE_SPAN % cells < USIZE_SPAN
                   && order[p] == CellAt(p, stride, sweep * 5 % USIZE_SPAN % cells, cells)
  {
    if cells <= 1 {
      order := seq(cells, i => i);
      Pigeonhole(order, cells);
      return;
    }
    var strides: seq<nat> := [];
    OneIsCoprime(cells);
    for stride := 1 to cells
      invariant strides == Strides(stride, cells) && forall s | s in strides :: Coprime(s, cells)
      invariant stride > 1 ==> strides != []
    {
      var g := Gcd(stride, cells);
      if g == 1 {
        strides := strides + [stride];
      }
    }
    var stride := strides[sweep % |strides|];
    assert stride in strides;
    var offset := sweep * 5 % USIZE_SPAN % cells;
    order := seq(cells, p requires 0 <= p < cells => CellAt(p, stride, offset, cells));
    forall p | 0 <= p < cells ensures p * stride + offset < USIZE_SPAN { FitsWord(p, stride, offset, cells); }
    forall i, j | 0 <= i < j < cells ensures order[i] != order[j] {
      if order[i] == order[j] { CellInjective(i, j, stride, offset, cells); }
    }
    Pigeonhole(order, cells);
  }
}
