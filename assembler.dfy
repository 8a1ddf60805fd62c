/** The pixel-assembly loop of renderImage: sample t of the flat array is
    written to column t % size, row t // size of a size-by-size raster. */
module Assembler {
  import opened ColourMap
  import opened Normaliser
  import opened Integrity

  /** The flat, row-major index of raster cell (x, y): x is the column and y
      the row. */
  function Index(x: nat, y: nat, size: nat): (t: nat)
    requires x < size && y < size
    ensures t < size * size
  {
    assert y * size <= (size - 1) * size;
    y * size + x
  }

  /** Multiplying by a natural number keeps the order. */
  lemma MulMonotone(a: nat, b: nat, n: nat)
    requires a <= b
    ensures a * n <= b * n
  {
  }

  /** Quotient and remainder are unique: (q * n + r) // n == q and
      (q * n + r) % n == r when 0 <= r < n. */
  lemma {:induction false} DivModUnique(q: nat, r: nat, n: nat)
    requires r < n
    ensures (q * n + r) / n == q && (q * n + r) % n == r
  {
    var t := q * n + r;
    var q', r' := t / n, t % n;
    assert t == q' * n + r';
    if q' > q {
      MulMonotone(q + 1, q', n);
      assert false;
    } else if q' < q {
      MulMonotone(q' + 1, q, n);
      assert false;
    }
    assert q' == q;
  }

  /** The cell the loop writes at step t: column t % size, row t // size. */
  function Coord(t: nat, size: nat): (c: (nat, nat))
    requires t < size * size
    ensures c.0 < size && c.1 < size
  {
    (t % size, t / size)
  }

  /** The cell written at step t has flat index t again. */
  lemma IndexOfCoord(t: nat, size: nat)
    requires t < size * size
    ensures Index(Coord(t, size).0, Coord(t, size).1, size) == t
  {
  }

  /** The loop reaches cell (x, y) at step y * size + x. */
  lemma CoordOfIndex(x: nat, y: nat, size: nat)
    requires x < size && y < size
    ensures Coord(Index(x, y, size), size) == (x, y)
  {
    DivModUnique(y, x, size);
  }

  /** The cells written by the first n steps of the loop, in order. */
  ghost function WriteOrder(n: nat, size: nat): (w: seq<(nat, nat)>)
    requires n <= size * size
    ensures |w| == n
    ensures forall i :: 0 <= i < n ==>
      w[i].0 < size && w[i].1 < size && Index(w[i].0, w[i].1, size) == i
  {
    seq(n, i requires 0 <= i < n => Coord(i, size))
  }

  /** The loop's write order is a bijection between steps and cells: every
      step writes a cell of the raster, no cell is written twice, and every
      cell is written (at step y * size + x). */
  lemma WriteOrderBijective(size: nat)
    ensures forall t :: 0 <= t < size * size ==>
      WriteOrder(size * size, size)[t].0 < size && WriteOrder(size * size, size)[t].1 < size
    ensures forall i, j :: 0 <= i < j < size * size ==>
      WriteOrder(size * size, size)[i] != WriteOrder(size * size, size)[j]
    ensures forall x: nat, y: nat :: x < size && y < size ==>
      WriteOrder(size * size, size)[Index(x, y, size)] == (x, y)
  {
    var w := WriteOrder(size * size, size);
    forall i, j | 0 <= i < j < size * size ensures w[i] != w[j] {
      IndexOfCoord(i, size);
      IndexOfCoord(j, size);
    }
    forall x: nat, y: nat | x < size && y < size
      ensures w[Index(x, y, size)] == (x, y)
    {
      CoordOfIndex(x, y, size);
    }
  }

  /** One loop step writes exactly one cell: the cell with flat index t. */
  lemma StepHitsOneCell(t: nat, x: nat, y: nat, size: nat)
    requires t < size * size && x < size && y < size
    ensures Index(x, y, size) == t <==> (x, y) == Coord(t, size)
  {
    CoordOfIndex(x, y, size);
  }

  /** renderImage without its I/O: the checksum warning, the normalisation
      by the maximum and the fill of a fresh black size-by-size raster,
      indexed px[column, row]. The ghost sequence `written` records the cell
      written at each step of the loop; WriteOrderBijective shows that it
      visits every cell exactly once. */
  method RenderImage(ary: seq<real>, size: nat, argc: nat, palette: Palette)
    returns (px: array2<Rgb>, warning: Option<Mismatch>, ghost written: seq<(nat, nat)>)
    requires size > 0 && |ary| == size * size
    ensures fresh(px) && px.Length0 == size && px.Length1 == size
    ensures warning == CheckSum(argc, ary)
    ensures forall x: nat, y: nat :: x < size && y < size ==>
      px[x, y] == Render(palette, Index(x, y, size), ary, Max(ary))
    ensures written == WriteOrder(size * size, size)
  {
    px := new Rgb[size, size]((x, y) => Black);
    warning := CheckSum(argc, ary);
    var mm := Max(ary);
    written := [];
    var t := 0;
    while t < size * size
      invariant 0 <= t <= size * size
      invariant written == WriteOrder(t, size)
      invariant forall x: nat, y: nat :: x < size && y < size ==>
        px[x, y] == if Index(x, y, size) < t
                    then Render(palette, Index(x, y, size), ary, mm) else Black
    {
      var (x, y) := Coord(t, size);
      px[x, y] := Render(palette, t, ary, mm);
      written := written + [(x, y)];
      forall x': nat, y': nat | x' < size && y' < size
        ensures Index(x', y', size) == t <==> (x', y') == (x, y)
      {
        StepHitsOneCell(t, x', y', size);
      }
      t := t + 1;
    }
  }

  /** The checksum is advisory: two renders of the same plate that differ
      only in the argument count produce the same pixels. */
  method ChecksumDoesNotAffectPixels(ary: seq<real>, size: nat, argc1: nat,
                                     argc2: nat, palette: Palette)
    returns (px1: array2<Rgb>, px2: array2<Rgb>)
    requires size > 0 && |ary| == size * size
    ensures px1.Length0 == px2.Length0 == size && px1.Length1 == px2.Length1 == size
    ensures forall x: nat, y: nat :: x < size && y < size ==> px1[x, y] == px2[x, y]
  {
    var warning1, warning2;
    ghost var written1, written2;
    px1, warning1, written1 := RenderImage(ary, size, argc1, palette);
    px2, warning2, written2 := RenderImage(ary, size, argc2, palette);
  }
}
