// Sources/Sphere.cpp: the UV sphere mesh. Its (p+1) x (p+1) grid of vertices and the
// uint16_t index list that stitches them, either as one triangle strip or as a
// triangle list. The positions and texture coordinates are sin/cos float math, so they
// are parameters of the model; the integer index generation is modelled exactly.
module Spheres {
  import opened Common
  import opened LoaderFbx
  import opened Buffers
  import opened Meshes

  /** The uint16_t value a pushed index is stored as. */
  function Truncated(xs: seq<nat>): (r: seq<nat>)
    ensures |r| == |xs|
    ensures forall k :: 0 <= k < |xs| ==> r[k] == Wrap16(xs[k]) && r[k] < U16Modulus
  {
    seq(|xs|, k requires 0 <= k < |xs| => Wrap16(xs[k]))
  }

  lemma TruncatedAppend(a: seq<nat>, b: seq<nat>)
    ensures Truncated(a + b) == Truncated(a) + Truncated(b)
  {
  }

  /** Every entry is below `bound`. */
  predicate AllBelow(xs: seq<nat>, bound: nat)
  {
    forall k :: 0 <= k < |xs| ==> xs[k] < bound
  }

  /** Values below 2^16 are stored unchanged. */
  lemma TruncatedIsIdentity(xs: seq<nat>)
    requires AllBelow(xs, U16Modulus)
    ensures Truncated(xs) == xs
  {
  }

  // ---------------------------------------------------------------- vertices

  /** The vertex at column x of row y: the surface point (also its normal, as the sphere
      is a unit sphere), its texture coordinate, and a zero colour. */
  function SphereVertex(surface: (nat, nat) -> Vec3, texCoordAt: (nat, nat) -> Vec2, x: nat, y: nat): VertexData
  {
    VertexData(surface(x, y), texCoordAt(x, y), surface(x, y), Some(Vec4(0.0, 0.0, 0.0, 0.0)))
  }

  /** Vertex k of a grid whose rows hold w vertices is the one of column k mod w and
      row k div w. */
  ghost predicate GridPrefix(vertices: seq<VertexData>, w: nat, surface: (nat, nat) -> Vec3, texCoordAt: (nat, nat) -> Vec2)
    requires w >= 1
  {
    forall k :: 0 <= k < |vertices| ==> vertices[k] == SphereVertex(surface, texCoordAt, k % w, k / w)
  }

  /** Both vertex loops: rows 0..p outside, columns 0..p inside, so vertex k is the one
      of column k mod (p+1) and row k div (p+1). */
  method GridVertices(precision: nat, surface: (nat, nat) -> Vec3, texCoordAt: (nat, nat) -> Vec2)
    returns (vertices: seq<VertexData>)
    ensures |vertices| == (precision + 1) * (precision + 1)
    ensures forall k :: 0 <= k < |vertices| ==>
              vertices[k] == SphereVertex(surface, texCoordAt, k % (precision + 1), k / (precision + 1))
  {
    var w := precision + 1;
    vertices := [];
    var y := 0;
    while y <= precision
      invariant 0 <= y <= w && |vertices| == y * w
      invariant GridPrefix(vertices, w, surface, texCoordAt)
    {
      vertices := GridRow(vertices, precision, y, surface, texCoordAt);
      assert y * w + w == (y + 1) * w;
      y := y + 1;
    }
  }

  /** The inner loop: row y's p+1 vertices, columns 0..p, appended. */
  method GridRow(vertices: seq<VertexData>, precision: nat, y: nat,
                 surface: (nat, nat) -> Vec3, texCoordAt: (nat, nat) -> Vec2)
    returns (extended: seq<VertexData>)
    requires |vertices| == y * (precision + 1) && GridPrefix(vertices, precision + 1, surface, texCoordAt)
    ensures |extended| == y * (precision + 1) + (precision + 1)
    ensures GridPrefix(extended, precision + 1, surface, texCoordAt)
  {
    var w := precision + 1;
    extended := vertices;
    var x := 0;
    while x <= precision
      invariant 0 <= x <= w && |extended| == |vertices| + x
      invariant GridPrefix(extended, w, surface, texCoordAt)
    {
      QuotientRemainder(y, w, x);
      extended := extended + [SphereVertex(surface, texCoordAt, x, y)];
      x := x + 1;
    }
  }

  /** Vertex y(p+1)+x is the one of column x and row y. */
  lemma GridVertexAt(vertices: seq<VertexData>, precision: nat, surface: (nat, nat) -> Vec3, texCoordAt: (nat, nat) -> Vec2,
                     x: nat, y: nat)
    requires |vertices| == (precision + 1) * (precision + 1)
    requires forall k :: 0 <= k < |vertices| ==>
               vertices[k] == SphereVertex(surface, texCoordAt, k % (precision + 1), k / (precision + 1))
    requires x <= precision && y <= precision
    ensures y * (precision + 1) + x < |vertices|
    ensures vertices[y * (precision + 1) + x] == SphereVertex(surface, texCoordAt, x, y)
  {
    QuotientRemainder(y, precision + 1, x);
    MulMonotone(y, precision, precision + 1);
  }

  // ---------------------------------------------------------------- triangle strip

  /** The first n column pairs of an even row, x ascending: the vertex of the row below
      (which starts at vertex `lower`), then the one of the row itself (from `upper`). */
  function EvenRowPrefix(lower: nat, upper: nat, n: nat): (r: seq<nat>)
    ensures |r| == 2 * n
  {
    if n == 0 then [] else EvenRowPrefix(lower, upper, n - 1) + [lower + (n - 1), upper + (n - 1)]
  }

  /** The first n column pairs of an odd row, x descending from p: the row's own vertex,
      then the one below. */
  function OddRowPrefix(upper: nat, lower: nat, precision: nat, n: nat): (r: seq<nat>)
    requires n <= precision + 1
    ensures |r| == 2 * n
  {
    if n == 0 then []
    else OddRowPrefix(upper, lower, precision, n - 1) + [upper + (precision - (n - 1)), lower + (precision - (n - 1))]
  }

  /** Row y of the strip, between grid rows y and y+1. The odd-row counter is an int32_t
      started at p; from p = 2^31 on that start is negative and the row adds nothing. */
  function StripRow(precision: nat, y: nat): seq<nat>
  {
    var w := precision + 1;
    if y % 2 == 0 then EvenRowPrefix((y + 1) * w, y * w, w)
    else if precision < 0x8000_0000 then OddRowPrefix(y * w, (y + 1) * w, precision, w)
    else []
  }

  /** The strip's first n rows. */
  function StripRows(precision: nat, n: nat): seq<nat>
  {
    if n == 0 then [] else StripRows(precision, n - 1) + StripRow(precision, n - 1)
  }

  /** The int32_t a uint32_t converts to. */
  function Int32Of(x: nat): (r: int)
    requires x < U32Modulus
    ensures x < 0x8000_0000 ==> r == x
    ensures x >= 0x8000_0000 ==> r < 0
  {
    if x < 0x8000_0000 then x else x - U32Modulus
  }

  lemma TruncatedPair(xs: seq<nat>, a: nat, b: nat)
    ensures Truncated(xs + [a, b]) == Truncated(xs) + [Wrap16(a), Wrap16(b)]
  {
    TruncatedAppend(xs, [a, b]);
  }

  /** The even-row inner loop: x ascending from 0 to p. */
  method EvenRowIndices(lower: nat, upper: nat, precision: nat) returns (row: seq<nat>)
    requires precision + 1 < U32Modulus
    ensures row == Truncated(EvenRowPrefix(lower, upper, precision + 1))
  {
    row := [];
    var x := 0;
    while x <= precision
      invariant 0 <= x <= precision + 1
      invariant row == Truncated(EvenRowPrefix(lower, upper, x))
    {
      TruncatedPair(EvenRowPrefix(lower, upper, x), lower + x, upper + x);
      row := row + [Wrap16(lower + x), Wrap16(upper + x)];
      x := x + 1;
    }
  }

  /** The odd-row inner loop: an int32_t counter from p down to 0. From p = 2^31 on it
      starts negative and the row is empty. */
  method OddRowIndices(upper: nat, lower: nat, precision: nat) returns (row: seq<nat>)
    requires precision < U32Modulus
    ensures precision < 0x8000_0000 ==> row == Truncated(OddRowPrefix(upper, lower, precision, precision + 1))
    ensures precision >= 0x8000_0000 ==> row == []
  {
    row := [];
    var x: int := Int32Of(precision);
    while x >= 0
      invariant x <= precision
      invariant precision < 0x8000_0000 ==> -1 <= x
      invariant precision >= 0x8000_0000 ==> x < 0 && row == []
      invariant precision < 0x8000_0000 ==> row == Truncated(OddRowPrefix(upper, lower, precision, precision - x))
    {
      TruncatedPair(OddRowPrefix(upper, lower, precision, precision - x), upper + x, lower + x);
      row := row + [Wrap16(upper + x), Wrap16(lower + x)];
      x := x - 1;
    }
  }

  /** Row y of the strip between the grid rows starting at `upper` and `lower`. */
  lemma StripRowAt(precision: nat, y: nat, upper: nat, lower: nat)
    requires upper == y * (precision + 1) && lower == upper + precision + 1
    ensures StripRow(precision, y) ==
              if y % 2 == 0 then EvenRowPrefix(lower, upper, precision + 1)
              else if precision < 0x8000_0000 then OddRowPrefix(upper, lower, precision, precision + 1)
              else []
  {
    assert lower == (y + 1) * (precision + 1);
  }

  /** The strip index loop: rows 0..p-1 with the oddRow flag flipped after each row. The
      unsigned column counter of even rows needs p + 1 to fit in uint32_t, or it never
      exceeds p. */
  method StripIndices(precision: nat) returns (generated: seq<nat>)
    requires precision + 1 < U32Modulus
    ensures generated == Truncated(StripRows(precision, precision))
  {
    generated := [];
    var oddRow := false;
    var y := 0;
    while y < precision
      invariant 0 <= y <= precision
      invariant oddRow <==> y % 2 == 1
      invariant generated == Truncated(StripRows(precision, y))
    {
      var row := StripRowIndices(precision, y, oddRow);
      TruncatedAppend(StripRows(precision, y), StripRow(precision, y));
      generated := generated + row;
      oddRow := !oddRow;
      y := y + 1;
    }
  }

  /** One row of the strip loop, between grid rows y and y+1, in the direction the oddRow
      flag gives. */
  method StripRowIndices(precision: nat, y: nat, oddRow: bool) returns (row: seq<nat>)
    requires precision + 1 < U32Modulus && (oddRow <==> y % 2 == 1)
    ensures row == Truncated(StripRow(precision, y))
  {
    var w := precision + 1;
    var upper := y * w;
    var lower := upper + w;
    StripRowAt(precision, y, upper, lower);
    if !oddRow {
      row := EvenRowIndices(lower, upper, precision);
    } else {
      row := OddRowIndices(upper, lower, precision);
    }
  }

  lemma {:induction false} EvenRowPair(lower: nat, upper: nat, n: nat, k: nat)
    requires k < n
    ensures EvenRowPrefix(lower, upper, n)[2 * k] == lower + k
    ensures EvenRowPrefix(lower, upper, n)[2 * k + 1] == upper + k
  {
    if k < n - 1 {
      EvenRowPair(lower, upper, n - 1, k);
    }
  }

  lemma {:induction false} OddRowPair(upper: nat, lower: nat, precision: nat, n: nat, k: nat)
    requires k < n <= precision + 1
    ensures OddRowPrefix(upper, lower, precision, n)[2 * k] == upper + (precision - k)
    ensures OddRowPrefix(upper, lower, precision, n)[2 * k + 1] == lower + (precision - k)
  {
    if k < n - 1 {
      OddRowPair(upper, lower, precision, n - 1, k);
    }
  }

  /** The strip order: every row has p+1 pairs (below p = 2^31); pair k joins a vertex to
      the one straight below or above it, in column k on even rows (left to right) and in
      column p-k on odd rows (right to left). Row 0 is even, so the strip starts left to
      right. */
  lemma StripRowOrder(precision: nat, y: nat, k: nat)
    requires precision < 0x8000_0000 && k <= precision
    ensures |StripRow(precision, y)| == 2 * (precision + 1)
    ensures var w := precision + 1;
      var column := if y % 2 == 0 then k else precision - k;
      && StripRow(precision, y)[2 * k] == (if y % 2 == 0 then y + 1 else y) * w + column
      && StripRow(precision, y)[2 * k + 1] == (if y % 2 == 0 then y else y + 1) * w + column
  {
    var w := precision + 1;
    if y % 2 == 0 {
      EvenRowPair((y + 1) * w, y * w, w, k);
    } else {
      OddRowPair(y * w, (y + 1) * w, precision, w, k);
    }
  }

  /** Where one row ends the next begins in the same column, one grid row further down:
      the strip turns around without a jump. */
  lemma StripTurnsInPlace(precision: nat, y: nat)
    requires precision < 0x8000_0000
    ensures |StripRow(precision, y)| == |StripRow(precision, y + 1)| == 2 * (precision + 1)
    ensures StripRow(precision, y + 1)[0] == StripRow(precision, y)[2 * precision + 1] + (precision + 1)
  {
    StripRowOrder(precision, y, precision);
    StripRowOrder(precision, y + 1, 0);
    var w := precision + 1;
    assert (y + 2) * w == (y + 1) * w + w;
  }

  /** The strip has 2(p+1) indices per row, 2p(p+1) in all. */
  lemma {:induction false} StripLength(precision: nat, n: nat)
    requires precision < 0x8000_0000
    ensures |StripRows(precision, n)| == 2 * n * (precision + 1)
  {
    if n > 0 {
      StripLength(precision, n - 1);
      StripLengthStep(precision, n, |StripRows(precision, n - 1)|, |StripRow(precision, n - 1)|);
    }
  }

  /** The arithmetic of one more row. */
  lemma StripLengthStep(precision: nat, n: nat, before: nat, row: nat)
    requires 1 <= n && before == 2 * (n - 1) * (precision + 1) && row == 2 * (precision + 1)
    ensures before + row == 2 * n * (precision + 1)
  {
    assert 2 * n * (precision + 1) == 2 * (n - 1) * (precision + 1) + 2 * (precision + 1);
  }

  lemma StripIndexCount(precision: nat)
    requires precision < 0x8000_0000
    ensures |StripRows(precision, precision)| == 2 * precision * (precision + 1)
  {
    StripLength(precision, precision);
  }

  lemma {:induction false} EvenRowBelow(lower: nat, upper: nat, n: nat, bound: nat)
    requires upper <= lower && lower + n <= bound
    ensures AllBelow(EvenRowPrefix(lower, upper, n), bound)
  {
    if n > 0 {
      EvenRowBelow(lower, upper, n - 1, bound);
    }
  }

  lemma {:induction false} OddRowBelow(upper: nat, lower: nat, precision: nat, n: nat, bound: nat)
    requires n <= precision + 1 && upper <= lower && lower + precision < bound
    ensures AllBelow(OddRowPrefix(upper, lower, precision, n), bound)
  {
    if n > 0 {
      OddRowBelow(upper, lower, precision, n - 1, bound);
    }
  }

  /** Row y < p ends before vertex (p+1)^2: its lower row starts at (y+1)(p+1). */
  lemma LowerRowInGrid(precision: nat, y: nat)
    requires y < precision
    ensures y * (precision + 1) <= (y + 1) * (precision + 1)
    ensures (y + 1) * (precision + 1) + precision + 1 <= (precision + 1) * (precision + 1)
  {
    var w := precision + 1;
    MulMonotone(y + 2, w, w);
    assert (y + 1) * w + w == (y + 2) * w;
  }

  /** Every index of row y < p names one of the (p+1)^2 vertices. */
  lemma StripRowInRange(precision: nat, y: nat)
    requires y < precision
    ensures AllBelow(StripRow(precision, y), (precision + 1) * (precision + 1))
  {
    var w := precision + 1;
    var upper, lower, bound := y * w, (y + 1) * w, w * w;
    LowerRowInGrid(precision, y);
    if y % 2 == 0 {
      EvenRowBelow(lower, upper, w, bound);
    } else if precision < 0x8000_0000 {
      OddRowBelow(upper, lower, precision, w, bound);
    }
  }

  /** Every strip index names one of the (p+1)^2 vertices. */
  lemma {:induction false} StripIndicesInRange(precision: nat, n: nat)
    requires n <= precision
    ensures AllBelow(StripRows(precision, n), (precision + 1) * (precision + 1))
  {
    if n > 0 {
      StripIndicesInRange(precision, n - 1);
      StripRowInRange(precision, n - 1);
    }
  }

  // ---------------------------------------------------------------- triangle list

  /** The triangles of the quad whose top-left vertex is k1 on stack i, with k2 = k1+p+1
      the vertex below it: (k1, k2, k1+1) except on the first stack, and
      (k1+1, k2, k2+1) except on the last. */
  function ListQuad(precision: nat, i: nat, k1: nat): (r: seq<nat>)
    ensures |r| == (if i != 0 then 3 else 0) + (if i != precision - 1 then 3 else 0)
  {
    var k2 := k1 + precision + 1;
    (if i != 0 then [k1, k2, k1 + 1] else []) + (if i != precision - 1 then [k1 + 1, k2, k2 + 1] else [])
  }

  /** The first n quads of stack i, whose first vertex is `base`. */
  function ListRowFrom(precision: nat, i: nat, base: nat, n: nat): seq<nat>
  {
    if n == 0 then [] else ListRowFrom(precision, i, base, n - 1) + ListQuad(precision, i, base + (n - 1))
  }

  /** Each quad adds six indices, three fewer on the first stack and three fewer on the
      last. */
  lemma {:induction false} ListRowLength(precision: nat, i: nat, base: nat, n: nat)
    ensures |ListRowFrom(precision, i, base, n)| == 6 * n - (if i == 0 then 3 * n else 0) - (if i == precision - 1 then 3 * n else 0)
  {
    if n > 0 {
      ListRowLength(precision, i, base, n - 1);
    }
  }

  /** The first n stacks. */
  function ListRows(precision: nat, n: nat): seq<nat>
  {
    if n == 0 then [] else ListRows(precision, n - 1) + ListRowFrom(precision, n - 1, (n - 1) * (precision + 1), precision)
  }

  /** The inner loop of one stack, with k1 and k2 advanced alongside j. */
  method ListRowIndices(precision: nat, i: nat, base: nat) returns (row: seq<nat>)
    ensures row == Truncated(ListRowFrom(precision, i, base, precision))
  {
    row := [];
    var k1 := base;
    var k2 := k1 + precision + 1;
    var j := 0;
    while j < precision
      invariant 0 <= j <= precision
      invariant k1 == base + j && k2 == k1 + precision + 1
      invariant row == Truncated(ListRowFrom(precision, i, base, j))
    {
      var quad := ListQuadIndices(precision, i, k1, k2);
      TruncatedAppend(ListRowFrom(precision, i, base, j), ListQuad(precision, i, k1));
      row := row + quad;
      j, k1, k2 := j + 1, k1 + 1, k2 + 1;
    }
  }

  /** One quad of the inner loop: the upper triangle except on the first stack, the lower
      one except on the last. */
  method ListQuadIndices(precision: nat, i: nat, k1: nat, k2: nat) returns (quad: seq<nat>)
    requires k2 == k1 + precision + 1
    ensures quad == Truncated(ListQuad(precision, i, k1))
  {
    quad := [];
    if i != 0 {
      quad := quad + Truncated([k1, k2, k1 + 1]);
    }
    if i != precision - 1 {
      quad := quad + Truncated([k1 + 1, k2, k2 + 1]);
    }
    TruncatedAppend(if i != 0 then [k1, k2, k1 + 1] else [], if i != precision - 1 then [k1 + 1, k2, k2 + 1] else []);
  }

  /** The triangle-list index loop. The counters are int, so every index value up to
      (p+1)^2 - 1 must fit in int32_t. */
  method ListIndices(precision: nat) returns (generated: seq<nat>)
    requires (precision + 1) * (precision + 1) <= 0x8000_0000
    ensures generated == Truncated(ListRows(precision, precision))
  {
    generated := [];
    var i := 0;
    while i < precision
      invariant 0 <= i <= precision
      invariant generated == Truncated(ListRows(precision, i))
    {
      var row := ListRowIndices(precision, i, i * (precision + 1));
      TruncatedAppend(ListRows(precision, i), ListRowFrom(precision, i, i * (precision + 1), precision));
      generated := generated + row;
      i := i + 1;
    }
  }

  /** The corners of quad (i, j) are those of grid cell (i, j): rows i and i+1, columns j
      and j+1. The two triangles of a quad on a middle stack share the diagonal k1+1, k2. */
  lemma ListQuadInCell(precision: nat, i: nat, j: nat, k: nat)
    requires i < precision && j < precision && k < |ListQuad(precision, i, i * (precision + 1) + j)|
    ensures var w := precision + 1;
      var e := ListQuad(precision, i, i * w + j)[k];
      e / w in {i, i + 1} && e % w in {j, j + 1}
    ensures 0 < i < precision - 1 ==>
      var q := ListQuad(precision, i, i * (precision + 1) + j);
      q[2] == q[3] && q[1] == q[4]
  {
    var w := precision + 1;
    var k1 := i * w + j;
    var e := ListQuad(precision, i, k1)[k];
    assert e in {k1, k1 + 1, k1 + w, k1 + w + 1};
    assert (i + 1) * w == i * w + w;
    if e == k1 {
      QuotientRemainder(i, w, j);
    } else if e == k1 + 1 {
      QuotientRemainder(i, w, j + 1);
    } else if e == k1 + w {
      QuotientRemainder(i + 1, w, j);
    } else {
      QuotientRemainder(i + 1, w, j + 1);
    }
  }

  lemma {:induction false} ListRowBelow(precision: nat, i: nat, base: nat, n: nat, bound: nat)
    requires base + n + precision + 1 < bound
    ensures AllBelow(ListRowFrom(precision, i, base, n), bound)
  {
    if n > 0 {
      ListRowBelow(precision, i, base, n - 1, bound);
    }
  }

  /** Stack i < p starts far enough from the end of the grid for its quads' lower-right
      corners: i(p+1) + 2p + 1 < (p+1)^2. */
  lemma StackInGrid(precision: nat, i: nat)
    requires i < precision
    ensures i * (precision + 1) + precision + precision + 1 < (precision + 1) * (precision + 1)
  {
    var w := precision + 1;
    MulMonotone(i + 1, precision, w);
    assert (i + 1) * w == i * w + w;
  }

  /** Every list index names one of the (p+1)^2 vertices. */
  lemma {:induction false} ListIndicesInRange(precision: nat, n: nat)
    requires n <= precision
    ensures AllBelow(ListRows(precision, n), (precision + 1) * (precision + 1))
  {
    if n > 0 {
      ListIndicesInRange(precision, n - 1);
      StackInGrid(precision, n - 1);
      ListRowBelow(precision, n - 1, (n - 1) * (precision + 1), precision, (precision + 1) * (precision + 1));
    }
  }

  /** Stacks 0 and p-1 hold one triangle per quad, the others two: 6p(p-1) indices in all
      (the first n stacks, n >= 1, hold 6pn - 3p, less 3p more once the last is in). */
  lemma {:induction false} ListLength(precision: nat, n: nat)
    requires 1 <= n <= precision
    ensures |ListRows(precision, n)| == 6 * precision * n - 3 * precision - (if n == precision then 3 * precision else 0)
  {
    var base := (n - 1) * (precision + 1);
    ListRowLength(precision, n - 1, base, precision);
    if n == 1 {
      assert |ListRows(precision, 0)| == 0;
    } else {
      ListLength(precision, n - 1);
      ListLengthStep(precision, n, |ListRows(precision, n - 1)|, |ListRowFrom(precision, n - 1, base, precision)|);
    }
  }

  /** The arithmetic of one more stack. */
  lemma ListLengthStep(precision: nat, n: nat, before: nat, row: nat)
    requires 2 <= n <= precision
    requires before == 6 * precision * (n - 1) - 3 * precision
    requires row == 6 * precision - (if n - 1 == precision - 1 then 3 * precision else 0)
    ensures before + row == 6 * precision * n - 3 * precision - (if n == precision then 3 * precision else 0)
  {
    assert 6 * precision * n == 6 * precision * (n - 1) + 6 * precision;
  }

  lemma ListIndexCount(precision: nat)
    ensures |ListRows(precision, precision)| == 6 * precision * (precision - 1)
  {
    if precision >= 1 {
      ListLength(precision, precision);
      assert 6 * precision * (precision - 1) == 6 * precision * precision - 6 * precision;
    }
  }

  // ---------------------------------------------------------------- the sphere

  /** The body of Sphere(device, precision, path, name, strip), run on the Mesh its base
      initialiser built: the grid's vertices, the generated indices appended to the mesh's
      own, and two new buffers of exactly those counts, both filled. The
      buffers the base may have created are dropped without release. The strip needs p+1
      to fit in uint32_t; the list needs every index to fit in int32_t. */
  method BuildSphere(mesh: Mesh, precision: nat, triangleStrip: bool,
                     surface: (nat, nat) -> Vec3, texCoordAt: (nat, nat) -> Vec2,
                     vertexHandles: (Handle, Handle), indexHandles: (Handle, Handle))
    requires mesh.Valid()
    requires if triangleStrip then precision + 1 < U32Modulus else (precision + 1) * (precision + 1) <= 0x8000_0000
    modifies mesh`vertices, mesh`indices, mesh`vertexBuffer, mesh`indexBuffer
    ensures |mesh.vertices| == (precision + 1) * (precision + 1)
    ensures GridPrefix(mesh.vertices, precision + 1, surface, texCoordAt)
    ensures mesh.indices ==
              old(mesh.indices) + Truncated(if triangleStrip then StripRows(precision, precision) else ListRows(precision, precision))
    ensures mesh.Valid() && mesh.Loaded() && fresh(mesh.vertexBuffer) && fresh(mesh.indexBuffer)
    ensures mesh.vertexBuffer.buffer == vertexHandles.0 && mesh.indexBuffer.buffer == indexHandles.0
  {
    var vertices := GridVertices(precision, surface, texCoordAt);
    var generated;
    if triangleStrip {
      generated := StripIndices(precision);
    } else {
      generated := ListIndices(precision);
    }
    var indices := mesh.indices + generated;
    var vb := NewVertexBuffer(vertices, mesh.vertexLayout, vertexHandles);
    var ib := NewIndexBuffer(indices, indexHandles);
    mesh.vertices := vertices;
    mesh.indices := indices;
    mesh.vertexBuffer := vb;
    mesh.indexBuffer := ib;
  }

  /** A sphere of precision p >= 1 whose (p+1)^2 vertices all have uint16_t indices uses
      the list without any index changed by the uint16_t store. */
  lemma ListFits(precision: nat)
    requires 1 <= precision && (precision + 1) * (precision + 1) <= U16Modulus
    ensures |ListRows(precision, precision)| == 6 * precision * (precision - 1)
    ensures Truncated(ListRows(precision, precision)) == ListRows(precision, precision)
  {
    ListIndexCount(precision);
    ListIndicesInRange(precision, precision);
    TruncatedIsIdentity(ListRows(precision, precision));
  }

  /** The scene's sphere, p = 64, meets ListFits: 4225 vertices and 24192 indices, all
      below 2^16, so no index is changed by the uint16_t store. */
  lemma SceneSphereFits()
    ensures 1 <= 64 && (64 + 1) * (64 + 1) == 4225 <= U16Modulus
    ensures 6 * 64 * (64 - 1) == 24192
  {
  }
}
