/** TVolume::Mapping: a fixed-size row-major 3D grid of versors, and the
    arithmetic of its linear index i * resV * resW + j * resW + k. */
module Grid {
  import opened Kernel

  /** The linear index `at(i, j, k)` reads and writes. */
  function Index(i: int, j: int, k: int, resV: int, resW: int): int
  {
    i * resV * resW + j * resW + k
  }

  lemma MulLe(a: nat, b: nat, c: nat)
    requires a <= b
    ensures a * c <= b * c
  {
  }

  /** Row-major indexing nests: the index is (i * resV + j) * resW + k. */
  lemma IndexNested(i: nat, j: nat, k: nat, resV: nat, resW: nat)
    ensures Index(i, j, k, resV, resW) == (i * resV + j) * resW + k
  {
    assert (i * resV + j) * resW == i * resV * resW + j * resW;
  }

  /** x * w + c with c < w determines x and c. */
  lemma Unmix(x: nat, c: nat, y: nat, d: nat, w: nat)
    requires c < w && d < w
    requires x * w + c == y * w + d
    ensures x == y && c == d
  {
    if x < y {
      MulLe(x + 1, y, w);
      assert false;
    } else if y < x {
      MulLe(y + 1, x, w);
      assert false;
    }
  }

  /** Every in-bounds triple lands inside the grid the constructor allocates. */
  lemma {:induction false} IndexInRange(i: nat, j: nat, k: nat, resU: nat, resV: nat, resW: nat)
    requires i < resU && j < resV && k < resW
    ensures 0 <= Index(i, j, k, resV, resW) < resU * resV * resW
  {
    IndexNested(i, j, k, resV, resW);
    var x := i * resV + j;
    MulLe(i + 1, resU, resV);
    assert (i + 1) * resV == i * resV + resV;
    assert x + 1 <= resU * resV;
    MulLe(x + 1, resU * resV, resW);
    assert (x + 1) * resW == x * resW + resW;
  }

  /** The index of an in-bounds triple, known to lie inside the grid. */
  function Slot(i: nat, j: nat, k: nat, resU: nat, resV: nat, resW: nat): (n: nat)
    requires i < resU && j < resV && k < resW
    ensures n < resU * resV * resW
    ensures n == Index(i, j, k, resV, resW)
  {
    IndexInRange(i, j, k, resU, resV, resW);
    Index(i, j, k, resV, resW)
  }

  /** Distinct in-bounds triples have distinct indices. */
  lemma {:induction false} IndexInjective(i: nat, j: nat, k: nat, i2: nat, j2: nat, k2: nat,
                                          resV: nat, resW: nat)
    requires j < resV && k < resW && j2 < resV && k2 < resW
    requires Index(i, j, k, resV, resW) == Index(i2, j2, k2, resV, resW)
    ensures i == i2 && j == j2 && k == k2
  {
    IndexNested(i, j, k, resV, resW);
    IndexNested(i2, j2, k2, resV, resW);
    Unmix(i * resV + j, k, i2 * resV + j2, k2, resW);
    Unmix(i, j, i2, j2, resV);
  }

  /** Every index of the grid is the index of some in-bounds triple. */
  lemma {:induction false} Decode(n: nat, resU: nat, resV: nat, resW: nat) returns (i: nat, j: nat, k: nat)
    requires n < resU * resV * resW
    ensures i < resU && j < resV && k < resW
    ensures Index(i, j, k, resV, resW) == n
  {
    var vw := resV * resW;
    Assoc(resU, resV, resW);
    PositiveFactors(n, resU, vw);
    PositiveFactors(0, resV, resW);
    i := n / vw;
    var r := n % vw;
    DivMod(n, vw);
    QuotientBound(n, vw, resU);
    j := r / resW;
    k := r % resW;
    DivMod(r, resW);
    QuotientBound(r, resW, resV);
    Assoc(i, resV, resW);
  }

  lemma Assoc(a: int, b: int, c: int)
    ensures a * b * c == a * (b * c)
  {
  }

  lemma PositiveFactors(n: nat, a: nat, b: nat)
    requires n < a * b
    ensures a > 0 && b > 0
  {
  }

  lemma DivMod(n: nat, d: nat)
    requires d > 0
    ensures n == (n / d) * d + n % d && n % d < d && n / d >= 0
  {
  }

  lemma QuotientBound(n: nat, d: nat, m: nat)
    requires d > 0 && n < m * d
    ensures n / d < m
  {
    DivMod(n, d);
    if n / d >= m {
      MulLe(m, n / d, d);
      assert false;
    }
  }

  class Mapping {
    const resU: nat
    const resV: nat
    const resW: nat
    const cells: array<Versor>

    ghost predicate Valid()
      reads this
    {
      cells.Length == resU * resV * resW
    }

    /** Mapping(resU, resV, resW): a grid of resU * resV * resW default versors. */
    constructor (resU: nat, resV: nat, resW: nat, blank: Versor)
      ensures Valid() && fresh(cells)
      ensures this.resU == resU && this.resV == resV && this.resW == resW
      ensures forall n :: 0 <= n < cells.Length ==> cells[n] == blank
    {
      this.resU, this.resV, this.resW := resU, resV, resW;
      cells := new Versor[resU * resV * resW](_ => blank);
    }

    /** at(i, j, k), read: the cell at row-major position (i * resV + j) * resW + k. */
    function At(i: nat, j: nat, k: nat): (c: Versor)
      reads this, cells
      requires Valid() && i < resU && j < resV && k < resW
      ensures (i * resV + j) * resW + k < cells.Length && c == cells[(i * resV + j) * resW + k]
    {
      IndexInRange(i, j, k, resU, resV, resW);
      IndexNested(i, j, k, resV, resW);
      cells[Index(i, j, k, resV, resW)]
    }

    /** at(i, j, k) = c: the cell at (i, j, k) becomes c and no other cell changes. */
    method Put(i: nat, j: nat, k: nat, c: Versor)
      requires Valid() && i < resU && j < resV && k < resW
      modifies cells
      ensures At(i, j, k) == c
      ensures forall a: nat, b: nat, d: nat :: a < resU && b < resV && d < resW && (a, b, d) != (i, j, k) ==>
                At(a, b, d) == old(At(a, b, d))
    {
      IndexInRange(i, j, k, resU, resV, resW);
      cells[Index(i, j, k, resV, resW)] := c;
      forall a: nat, b: nat, d: nat | a < resU && b < resV && d < resW && (a, b, d) != (i, j, k)
        ensures At(a, b, d) == old(At(a, b, d))
      {
        IndexInRange(a, b, d, resU, resV, resW);
        if Index(a, b, d, resV, resW) == Index(i, j, k, resV, resW) {
          IndexInjective(a, b, d, i, j, k, resV, resW);
        }
      }
    }
  }
}
