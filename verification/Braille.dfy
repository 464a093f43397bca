// From a picture of coverage to lines of braille: a box filter onto a grid of dots, the hole for the
// eye, eight dots to a character, and the blank columns cut off. Floating point is exact here.

module Braille {
  import opened Arithmetic

  datatype Dots = Dots(width: nat, height: nat)

  // ----- the geometry of the glyph in the grid -----

  // Python's round(): a half goes to the even neighbour.
  function Round(v: real): int {
    var low := v.Floor;
    if v - low as real < 0.5 then low
    else if v - low as real > 0.5 then low + 1
    else if low % 2 == 0 then low else low + 1
  }

  function Scale(source: Dots, dots: Dots): real
    requires source.width > 0 && source.height > 0
  {
    var sx, sy := dots.width as real / source.width as real, dots.height as real / source.height as real;
    if sy < sx then sy else sx
  }

  function Side(size: nat, scale: real): nat {
    var rounded := Round(size as real * scale);
    if rounded < 1 then 1 else rounded
  }

  function Glyph(source: Dots, dots: Dots): Dots
    requires source.width > 0 && source.height > 0
  {
    var scale := Scale(source, dots);
    Dots(Side(source.width, scale), Side(source.height, scale))
  }

  function Offset(dots: nat, glyph: nat): int {
    (dots - glyph) / 2
  }

  lemma ScaleKeepsOrder(size: real, scale: real, most: real)
    requires size >= 0.0 && scale <= most
    ensures size * scale <= size * most
  {
    assert size * (most - scale) >= 0.0;
  }

  lemma RoundFits(v: real, n: int)
    requires v <= n as real
    ensures Round(v) <= n
  {
  }

  lemma SideFits(size: nat, scale: real, limit: nat)
    requires size > 0 && limit > 0 && scale <= limit as real / size as real
    ensures 1 <= Side(size, scale) <= limit
  {
    ScaleKeepsOrder(size as real, scale, limit as real / size as real);
    Quotient(limit as real, size as real);
    RoundFits(size as real * scale, limit);
  }

  lemma Quotient(a: real, b: real)
    requires b > 0.0
    ensures b * (a / b) == a && (a / b) * b == a
  {
  }

  // The glyph is never larger than the grid, so every write of the filter is inside.
  lemma GlyphFits(source: Dots, dots: Dots)
    requires source.width > 0 && source.height > 0 && dots.width > 0 && dots.height > 0
    ensures var g := Glyph(source, dots);
      && 1 <= g.width <= dots.width && 1 <= g.height <= dots.height
      && 0 <= Offset(dots.width, g.width) && Offset(dots.width, g.width) + g.width <= dots.width
      && 0 <= Offset(dots.height, g.height) && Offset(dots.height, g.height) + g.height <= dots.height
  {
    SideFits(source.width, Scale(source, dots), dots.width);
    SideFits(source.height, Scale(source, dots), dots.height);
  }

  // A whole number next to v, or 1 where v is smaller than a half.
  predicate Rounds(n: nat, v: real) {
    n >= 1 && (v - 0.5 <= n as real <= v + 0.5 || (n == 1 && v < 0.5))
  }

  lemma SideRounds(size: nat, scale: real)
    ensures Rounds(Side(size, scale), size as real * scale)
  {
  }

  lemma WholeSide(size: nat, scale: real, n: nat)
    requires n > 0 && size as real * scale == n as real
    ensures Side(size, scale) == n
  {
  }

  lemma ScaleIsLeast(source: Dots, dots: Dots)
    requires source.width > 0 && source.height > 0
    ensures var scale, x, y := Scale(source, dots), dots.width as real / source.width as real,
                               dots.height as real / source.height as real;
      scale <= x && scale <= y && (scale == x || scale == y)
  {
  }

  // The glyph keeps the shape of the picture: one scale, rounded on each side.
  lemma GlyphKeepsTheShape(source: Dots, dots: Dots)
    requires source.width > 0 && source.height > 0
    ensures Rounds(Glyph(source, dots).width, source.width as real * Scale(source, dots))
    ensures Rounds(Glyph(source, dots).height, source.height as real * Scale(source, dots))
  {
    SideRounds(source.width, Scale(source, dots));
    SideRounds(source.height, Scale(source, dots));
  }

  // It is as large as the grid allows.
  lemma GlyphFillsTheGrid(source: Dots, dots: Dots)
    requires source.width > 0 && source.height > 0 && dots.width > 0 && dots.height > 0
    ensures Glyph(source, dots).width == dots.width || Glyph(source, dots).height == dots.height
  {
    var scale := Scale(source, dots);
    ScaleIsLeast(source, dots);
    FitsAlong(source.width, dots.width, scale);
    FitsAlong(source.height, dots.height, scale);
  }

  // It stands in the middle, up to one dot.
  lemma OffsetIsMiddle(dots: nat, glyph: nat)
    requires glyph <= dots
    ensures 0 <= dots - glyph - 2 * Offset(dots, glyph) <= 1
  {
  }

  lemma FitsAlong(size: nat, limit: nat, scale: real)
    requires size > 0 && limit > 0 && scale <= limit as real / size as real
    ensures size as real * scale <= limit as real
    ensures scale == limit as real / size as real ==> Side(size, scale) == limit
  {
    Quotient(limit as real, size as real);
    ScaleKeepsOrder(size as real, scale, limit as real / size as real);
    if scale == limit as real / size as real {
      WholeSide(size, scale, limit);
    }
  }

  // ----- boxes -----

  // Where box g begins, of n boxes over the given size.
  function Edge(g: nat, size: nat, n: nat): nat
    requires n > 0
  {
    g * size / n
  }

  // Where box g ends: at the next edge, but one pixel wide at least.
  function End(g: nat, size: nat, n: nat): nat
    requires n > 0
  {
    var edge, next := Edge(g, size, n), Edge(g + 1, size, n);
    if next < edge + 1 then edge + 1 else next
  }

  lemma EdgeIs(g: nat, size: nat, n: nat)
    requires n > 0
    ensures Edge(g, size, n) * n <= g * size < Edge(g, size, n) * n + n
  {
    QuotientIs(g * size, n);
  }

  lemma EdgesAtTheEnds(size: nat, n: nat)
    requires n > 0
    ensures Edge(0, size, n) == 0 && Edge(n, size, n) == size
  {
    SmallMod(0, n);
    DivModUnique(n * size, n, size, 0);
  }

  lemma EdgesAscend(g: nat, h: nat, size: nat, n: nat)
    requires n > 0 && g <= h
    ensures Edge(g, size, n) <= Edge(h, size, n)
  {
    var e, f := Edge(g, size, n), Edge(h, size, n);
    EdgeIs(g, size, n);
    EdgeIs(h, size, n);
    SumTimes(h, g, h - g, size);
    ProductIsNatural(h - g, size);
    SumTimes(f + 1, f, 1, n);
    LessByFactor(e, f + 1, n);
  }

  // With no more boxes than pixels every box has a pixel of its own, so it ends at the next edge.
  lemma BoxesAreProper(g: nat, size: nat, n: nat)
    requires 0 < n <= size
    ensures Edge(g, size, n) < Edge(g + 1, size, n) == End(g, size, n)
  {
    var e, f := Edge(g, size, n), Edge(g + 1, size, n);
    EdgeIs(g, size, n);
    EdgeIs(g + 1, size, n);
    SumTimes(g + 1, g, 1, size);
    SumTimes(f + 1, f, 1, n);
    SumTimes(e + 1, e, 1, n);
    LessByFactor(e + 1, f + 1, n);
  }

  lemma LastEdge(g: nat, size: nat, n: nat)
    requires g < n && size > 0
    ensures Edge(g, size, n) < size
  {
    EdgeIs(g, size, n);
    FactorKeepsOrder(n, g, size);
    LessByFactor(Edge(g, size, n), size, n);
  }

  // Boxes never read beyond the picture.
  lemma BoxIsInside(g: nat, size: nat, n: nat)
    requires g < n && size > 0
    ensures Edge(g, size, n) < End(g, size, n) <= size
  {
    LastEdge(g, size, n);
    EdgeIsInside(g + 1, size, n);
  }

  lemma EdgeIsInside(g: nat, size: nat, n: nat)
    requires 0 < n && g <= n
    ensures Edge(g, size, n) <= size
  {
    EdgesAscend(g, n, size, n);
    EdgesAtTheEnds(size, n);
  }

  // Pixel p is one of those that box g reads.
  predicate InBox(p: nat, g: nat, size: nat, n: nat)
    requires n > 0
  {
    Edge(g, size, n) <= p < End(g, size, n)
  }

  // Box g is the only one of the n boxes that reads pixel p.
  ghost predicate OnlyBox(p: nat, g: nat, size: nat, n: nat)
    requires n > 0
  {
    g < n && InBox(p, g, size, n) && forall h: nat :: h < n && InBox(p, h, size, n) ==> h == g
  }

  lemma {:induction false} FindBox(p: nat, k: nat, size: nat, n: nat) returns (g: nat)
    requires 0 < n <= size && p < Edge(k, size, n)
    ensures g < k && InBox(p, g, size, n)
  {
    EdgesAtTheEnds(size, n);
    if Edge(k - 1, size, n) <= p {
      g := k - 1;
      BoxesAreProper(g, size, n);
    } else {
      g := FindBox(p, k - 1, size, n);
    }
  }

  lemma BoxIsOnly(p: nat, g: nat, size: nat, n: nat)
    requires 0 < n <= size && g < n && InBox(p, g, size, n)
    ensures OnlyBox(p, g, size, n)
  {
    BoxesAreProper(g, size, n);
    forall h: nat | h < n && InBox(p, h, size, n)
      ensures h == g
    {
      BoxesAreProper(h, size, n);
      if h < g {
        EdgesAscend(h + 1, g, size, n);
      } else if g < h {
        EdgesAscend(g + 1, h, size, n);
      }
    }
  }

  // Fewer pixels than boxes before edge k: two neighbouring boxes begin at the same pixel.
  lemma {:induction false} SharedEdge(k: nat, size: nat, n: nat) returns (g: nat)
    requires n > 0 && Edge(k, size, n) < k
    ensures g < k && Edge(g, size, n) == Edge(g + 1, size, n)
  {
    EdgesAscend(k - 1, k, size, n);
    if Edge(k - 1, size, n) == Edge(k, size, n) {
      g := k - 1;
    } else {
      g := SharedEdge(k - 1, size, n);
    }
  }

  ghost predicate ReadOnce(p: nat, size: nat, n: nat)
    requires n > 0
  {
    exists g: nat :: OnlyBox(p, g, size, n)
  }

  ghost predicate ReadTwice(p: nat, size: nat, n: nat)
    requires n > 0
  {
    exists g: nat, h: nat :: g < h < n && InBox(p, g, size, n) && InBox(p, h, size, n)
  }

  lemma PixelIsReadOnce(p: nat, size: nat, n: nat)
    requires 0 < n <= size && p < size
    ensures ReadOnce(p, size, n) && !ReadTwice(p, size, n)
  {
    EdgesAtTheEnds(size, n);
    var g := FindBox(p, n, size, n);
    BoxIsOnly(p, g, size, n);
    assert OnlyBox(p, g, size, n);
  }

  lemma SomePixelIsReadTwice(size: nat, n: nat) returns (p: nat)
    requires 0 < size < n
    ensures p < size && ReadTwice(p, size, n) && !ReadOnce(p, size, n)
  {
    LastEdge(n - 1, size, n);
    var g := SharedEdge(n - 1, size, n);
    p := Edge(g, size, n);
    LastEdge(g, size, n);
    assert InBox(p, g, size, n) && InBox(p, g + 1, size, n);
  }

  // Every pixel is read by exactly one box if and only if there are no more boxes than pixels. A
  // glyph larger than its source reads some pixel twice.
  lemma BoxesTileIff(size: nat, n: nat)
    requires n > 0 && size > 0
    ensures (forall p: nat :: p < size ==> ReadOnce(p, size, n)) <==> n <= size
    ensures (exists p: nat :: p < size && ReadTwice(p, size, n)) <==> n > size
  {
    if n <= size {
      forall p: nat | p < size
        ensures ReadOnce(p, size, n) && !ReadTwice(p, size, n)
      {
        PixelIsReadOnce(p, size, n);
      }
    } else {
      var p := SomePixelIsReadTwice(size, n);
    }
  }

  // ----- coverage -----

  predicate Picture(coverage: seq<seq<real>>, source: Dots) {
    |coverage| == source.height && forall y :: 0 <= y < |coverage| ==> |coverage[y]| == source.width
  }

  function RowSum(row: seq<real>, x0: nat, x1: nat): real
    requires x0 <= x1 <= |row|
  {
    if x0 == x1 then 0.0 else RowSum(row, x0, x1 - 1) + row[x1 - 1]
  }

  function BoxSum(coverage: seq<seq<real>>, source: Dots, x0: nat, x1: nat, y0: nat, y1: nat): real
    requires Picture(coverage, source) && x0 <= x1 <= source.width && y0 <= y1 <= source.height
  {
    if y0 == y1 then 0.0
    else BoxSum(coverage, source, x0, x1, y0, y1 - 1) + RowSum(coverage[y1 - 1], x0, x1)
  }

  lemma {:induction false} RowSumJoins(row: seq<real>, x0: nat, x1: nat, x2: nat)
    requires x0 <= x1 <= x2 <= |row|
    ensures RowSum(row, x0, x1) + RowSum(row, x1, x2) == RowSum(row, x0, x2)
  {
    if x1 < x2 {
      RowSumJoins(row, x0, x1, x2 - 1);
    }
  }

  lemma {:induction false} BoxSumJoinsAcross(coverage: seq<seq<real>>, source: Dots, x0: nat, x1: nat, x2: nat,
      y0: nat, y1: nat)
    requires Picture(coverage, source) && x0 <= x1 <= x2 <= source.width && y0 <= y1 <= source.height
    ensures BoxSum(coverage, source, x0, x1, y0, y1) + BoxSum(coverage, source, x1, x2, y0, y1)
         == BoxSum(coverage, source, x0, x2, y0, y1)
  {
    if y0 < y1 {
      BoxSumJoinsAcross(coverage, source, x0, x1, x2, y0, y1 - 1);
      RowSumJoins(coverage[y1 - 1], x0, x1, x2);
    }
  }

  lemma {:induction false} BoxSumJoinsDown(coverage: seq<seq<real>>, source: Dots, x0: nat, x1: nat, y0: nat, y1: nat,
      y2: nat)
    requires Picture(coverage, source) && x0 <= x1 <= source.width && y0 <= y1 <= y2 <= source.height
    ensures BoxSum(coverage, source, x0, x1, y0, y1) + BoxSum(coverage, source, x0, x1, y1, y2)
         == BoxSum(coverage, source, x0, x1, y0, y2)
  {
    if y1 < y2 {
      BoxSumJoinsDown(coverage, source, x0, x1, y0, y1, y2 - 1);
    }
  }

  // Everything that cell (gx, gy) reads, and how many pixels that is.
  function CellSum(coverage: seq<seq<real>>, source: Dots, glyph: Dots, gx: nat, gy: nat): real
    requires Picture(coverage, source) && gx < glyph.width && gy < glyph.height
    requires source.width > 0 && source.height > 0
  {
    BoxIsInside(gx, source.width, glyph.width);
    BoxIsInside(gy, source.height, glyph.height);
    BoxSum(coverage, source, Edge(gx, source.width, glyph.width), End(gx, source.width, glyph.width),
           Edge(gy, source.height, glyph.height), End(gy, source.height, glyph.height))
  }

  function Area(source: Dots, glyph: Dots, gx: nat, gy: nat): int
    requires glyph.width > 0 && glyph.height > 0
  {
    (End(gy, source.height, glyph.height) - Edge(gy, source.height, glyph.height))
    * (End(gx, source.width, glyph.width) - Edge(gx, source.width, glyph.width))
  }

  lemma AreaIsPositive(source: Dots, glyph: Dots, gx: nat, gy: nat)
    requires glyph.width > 0 && glyph.height > 0
    ensures Area(source, glyph, gx, gy) > 0
  {
    var h := End(gy, source.height, glyph.height) - Edge(gy, source.height, glyph.height);
    var w := End(gx, source.width, glyph.width) - Edge(gx, source.width, glyph.width);
    SumTimes(h, h - 1, 1, w);
    ProductIsNatural(h - 1, w);
  }

  function CellValue(coverage: seq<seq<real>>, source: Dots, glyph: Dots, gx: nat, gy: nat): real
    requires Picture(coverage, source) && gx < glyph.width && gy < glyph.height
    requires source.width > 0 && source.height > 0
  {
    AreaIsPositive(source, glyph, gx, gy);
    CellSum(coverage, source, glyph, gx, gy) / Area(source, glyph, gx, gy) as real
  }

  function CellWeight(coverage: seq<seq<real>>, source: Dots, glyph: Dots, gx: nat, gy: nat): real
    requires Picture(coverage, source) && gx < glyph.width && gy < glyph.height
    requires source.width > 0 && source.height > 0
  {
    CellValue(coverage, source, glyph, gx, gy) * Area(source, glyph, gx, gy) as real
  }

  // Cell values times box areas, over the first k cells of row gy.
  function RowWeight(coverage: seq<seq<real>>, source: Dots, glyph: Dots, gy: nat, k: nat): real
    requires Picture(coverage, source) && k <= glyph.width && gy < glyph.height
    requires source.width > 0 && source.height > 0
  {
    if k == 0 then 0.0
    else RowWeight(coverage, source, glyph, gy, k - 1) + CellWeight(coverage, source, glyph, k - 1, gy)
  }

  function Weight(coverage: seq<seq<real>>, source: Dots, glyph: Dots, rows: nat): real
    requires Picture(coverage, source) && rows <= glyph.height
    requires source.width > 0 && source.height > 0
  {
    if rows == 0 then 0.0
    else Weight(coverage, source, glyph, rows - 1) + RowWeight(coverage, source, glyph, rows - 1, glyph.width)
  }

  lemma CellWeightIs(coverage: seq<seq<real>>, source: Dots, glyph: Dots, gx: nat, gy: nat)
    requires Picture(coverage, source) && gx < glyph.width && gy < glyph.height
    requires source.width > 0 && source.height > 0
    ensures CellWeight(coverage, source, glyph, gx, gy) == CellSum(coverage, source, glyph, gx, gy)
  {
    AreaIsPositive(source, glyph, gx, gy);
    Quotient(CellSum(coverage, source, glyph, gx, gy), Area(source, glyph, gx, gy) as real);
  }

  ghost predicate Shrinks(source: Dots, glyph: Dots) {
    0 < glyph.width <= source.width && 0 < glyph.height <= source.height
  }

  lemma {:induction false} RowWeightIs(coverage: seq<seq<real>>, source: Dots, glyph: Dots, gy: nat, k: nat)
    requires Picture(coverage, source) && Shrinks(source, glyph) && k <= glyph.width && gy < glyph.height
    ensures Edge(k, source.width, glyph.width) <= source.width && End(gy, source.height, glyph.height) <= source.height
    ensures RowWeight(coverage, source, glyph, gy, k)
         == BoxSum(coverage, source, 0, Edge(k, source.width, glyph.width),
                   Edge(gy, source.height, glyph.height), End(gy, source.height, glyph.height))
    decreases k
  {
    BoxIsInside(gy, source.height, glyph.height);
    EdgeIsInside(k, source.width, glyph.width);
    var y0, y1 := Edge(gy, source.height, glyph.height), End(gy, source.height, glyph.height);
    if k == 0 {
      EdgesAtTheEnds(source.width, glyph.width);
      NoColumns(coverage, source, y0, y1);
    } else {
      RowWeightIs(coverage, source, glyph, gy, k - 1);
      CellWeightIs(coverage, source, glyph, k - 1, gy);
      BoxesAreProper(k - 1, source.width, glyph.width);
      BoxSumJoinsAcross(coverage, source, 0, Edge(k - 1, source.width, glyph.width),
          Edge(k, source.width, glyph.width), y0, y1);
    }
  }

  lemma {:induction false} NoColumns(coverage: seq<seq<real>>, source: Dots, y0: nat, y1: nat)
    requires Picture(coverage, source) && y0 <= y1 <= source.height
    ensures BoxSum(coverage, source, 0, 0, y0, y1) == 0.0
  {
    if y0 < y1 {
      NoColumns(coverage, source, y0, y1 - 1);
    }
  }

  lemma {:induction false} WeightIs(coverage: seq<seq<real>>, source: Dots, glyph: Dots, rows: nat)
    requires Picture(coverage, source) && Shrinks(source, glyph) && rows <= glyph.height
    ensures Edge(rows, source.height, glyph.height) <= source.height
    ensures Weight(coverage, source, glyph, rows)
         == BoxSum(coverage, source, 0, source.width, 0, Edge(rows, source.height, glyph.height))
  {
    EdgeIsInside(rows, source.height, glyph.height);
    if rows == 0 {
      EdgesAtTheEnds(source.height, glyph.height);
    } else {
      WeightIs(coverage, source, glyph, rows - 1);
      RowWeightIs(coverage, source, glyph, rows - 1, glyph.width);
      EdgesAtTheEnds(source.width, glyph.width);
      BoxesAreProper(rows - 1, source.height, glyph.height);
      BoxSumJoinsDown(coverage, source, 0, source.width, 0,
                      Edge(rows - 1, source.height, glyph.height), Edge(rows, source.height, glyph.height));
    }
  }

  // When the glyph is no larger than its source, no coverage is lost and none is counted twice.
  lemma CoverageIsConserved(coverage: seq<seq<real>>, source: Dots, glyph: Dots)
    requires Picture(coverage, source) && Shrinks(source, glyph)
    ensures Weight(coverage, source, glyph, glyph.height)
         == BoxSum(coverage, source, 0, source.width, 0, source.height)
  {
    WeightIs(coverage, source, glyph, glyph.height);
    EdgesAtTheEnds(source.height, glyph.height);
  }

  // ----- the filter -----

  predicate InGlyph(dots: Dots, glyph: Dots, x: int, y: int) {
    && Offset(dots.width, glyph.width) <= x < Offset(dots.width, glyph.width) + glyph.width
    && Offset(dots.height, glyph.height) <= y < Offset(dots.height, glyph.height) + glyph.height
  }

  // What the finished grid holds at column x of row y.
  function DotValue(coverage: seq<seq<real>>, source: Dots, dots: Dots, glyph: Dots, x: int, y: int): real
    requires Picture(coverage, source) && source.width > 0 && source.height > 0
  {
    if InGlyph(dots, glyph, x, y) then
      CellValue(coverage, source, glyph, x - Offset(dots.width, glyph.width), y - Offset(dots.height, glyph.height))
    else 0.0
  }

  method AddBox(coverage: seq<seq<real>>, source: Dots, x0: nat, x1: nat, y0: nat, y1: nat) returns (total: real)
    requires Picture(coverage, source) && x0 <= x1 <= source.width && y0 <= y1 <= source.height
    ensures total == BoxSum(coverage, source, x0, x1, y0, y1)
  {
    total := 0.0;
    for y := y0 to y1
      invariant total == BoxSum(coverage, source, x0, x1, y0, y)
    {
      var row := coverage[y];
      ghost var before := total;
      for x := x0 to x1
        invariant total == before + RowSum(row, x0, x)
      {
        total := total + row[x];
      }
    }
  }

  method Downsample(coverage: seq<seq<real>>, source: Dots, dots: Dots) returns (grid: array2<real>)
    requires Picture(coverage, source) && source.width > 0 && source.height > 0 && dots.width > 0 && dots.height > 0
    ensures fresh(grid) && grid.Length0 == dots.height && grid.Length1 == dots.width
    ensures forall x, y :: 0 <= x < dots.width && 0 <= y < dots.height ==>
      grid[y, x] == DotValue(coverage, source, dots, Glyph(source, dots), x, y)
  {
    var glyph := Glyph(source, dots);
    GlyphFits(source, dots);
    var left, top := Offset(dots.width, glyph.width), Offset(dots.height, glyph.height);
    grid := new real[dots.height, dots.width]((_, _) => 0.0);
    for gy := 0 to glyph.height
      invariant forall x, y :: 0 <= x < dots.width && 0 <= y < dots.height ==>
        grid[y, x] == if y < top + gy then DotValue(coverage, source, dots, glyph, x, y) else 0.0
    {
      for gx := 0 to glyph.width
        invariant forall x, y :: 0 <= x < dots.width && 0 <= y < dots.height ==>
          grid[y, x] == if y < top + gy || (y == top + gy && x < left + gx)
                          then DotValue(coverage, source, dots, glyph, x, y) else 0.0
      {
        BoxIsInside(gx, source.width, glyph.width);
        BoxIsInside(gy, source.height, glyph.height);
        AreaIsPositive(source, glyph, gx, gy);
        var total := AddBox(coverage, source, Edge(gx, source.width, glyph.width), End(gx, source.width, glyph.width),
                            Edge(gy, source.height, glyph.height), End(gy, source.height, glyph.height));
        grid[top + gy, left + gx] := total / Area(source, glyph, gx, gy) as real;
        assert InGlyph(dots, glyph, left + gx, top + gy);
      }
    }
  }

  // ----- the eye -----

  // The dot under a point that lies at the given fraction of the glyph.
  function EyeDot(dots: nat, glyph: nat, fraction: real): int {
    var dot := Offset(dots, glyph) + (fraction * glyph as real).Floor;
    if dots - 1 < dot then dots - 1 else dot
  }

  // The dot belongs to the glyph, and the point lies within the width of that dot.
  lemma EyeIsUnderItsDot(dots: nat, glyph: nat, fraction: real)
    requires 1 <= glyph <= dots && 0.0 <= fraction < 1.0
    ensures var g := EyeDot(dots, glyph, fraction) - Offset(dots, glyph);
      0 <= g < glyph && g as real <= fraction * glyph as real < (g + 1) as real
  {
    FloorIsBelow(fraction * glyph as real, glyph);
  }

  lemma FloorIsBelow(v: real, n: int)
    requires 0.0 <= v < n as real
    ensures 0 <= v.Floor < n && v.Floor as real <= v < (v.Floor + 1) as real
  {
  }

  // The eye lies strictly inside the picture, as fractions of its sides. One dot changes.
  method CarveEye(grid: array2<real>, source: Dots, dots: Dots, eyeX: real, eyeY: real)
    requires source.width > 0 && source.height > 0 && dots.width > 0 && dots.height > 0
    requires grid.Length0 == dots.height && grid.Length1 == dots.width
    requires 0.0 <= eyeX < 1.0 && 0.0 <= eyeY < 1.0
    modifies grid
    ensures var glyph := Glyph(source, dots);
      forall y, x :: 0 <= y < dots.height && 0 <= x < dots.width ==>
        grid[y, x] == if y == EyeDot(dots.height, glyph.height, eyeY) && x == EyeDot(dots.width, glyph.width, eyeX)
                        then 0.0 else old(grid[y, x])
  {
    var glyph := Glyph(source, dots);
    GlyphFits(source, dots);
    EyeIsUnderItsDot(dots.width, glyph.width, eyeX);
    EyeIsUnderItsDot(dots.height, glyph.height, eyeY);
    grid[EyeDot(dots.height, glyph.height, eyeY), EyeDot(dots.width, glyph.width, eyeX)] := 0.0;
  }

  // ----- packing -----

  // Entry k of the table of dots: the row and the column within a character, and the bit.
  datatype Entry = Entry(dy: nat, dx: nat, bit: bv8)

  function Table(k: nat): (e: Entry)
    requires k < 8
    ensures e.dy < 4 && e.dx < 2
  {
    match k
    case 0 => Entry(0, 0, 0x01)
    case 1 => Entry(1, 0, 0x02)
    case 2 => Entry(2, 0, 0x04)
    case 3 => Entry(0, 1, 0x08)
    case 4 => Entry(1, 1, 0x10)
    case 5 => Entry(2, 1, 0x20)
    case 6 => Entry(3, 0, 0x40)
    case _ => Entry(3, 1, 0x80)
  }

  // The place of a dot in the table.
  function EntryOf(dy: nat, dx: nat): (k: nat)
    requires dy < 4 && dx < 2
    ensures k < 8 && Table(k).dy == dy && Table(k).dx == dx
  {
    if dy == 3 then 6 + dx else dy + 3 * dx
  }

  // The numbering of braille dots: 1, 2, 3 down the left column, 4, 5, 6 down the right one, 7 and 8 below;
  // dot n + 1 is bit n.
  lemma TableIsBraille(dy: nat, dx: nat)
    requires dy < 4 && dx < 2
    ensures EntryOf(dy, dx) == if dy < 3 then 3 * dx + dy else 6 + dx
    ensures Table(EntryOf(dy, dx)) == Entry(dy, dx, PowerOf2(EntryOf(dy, dx)))
  {
  }

  function PowerOf2(k: nat): bv8
    requires k < 8
  {
    if k == 0 then 1 else PowerOf2(k - 1) * 2
  }

  function Glyphed(bits: bv8): char {
    if bits == 0 then ' ' else (0x2800 + bits as int) as char
  }

  function BitsOf(c: char): bv8 {
    if 0x2800 <= c as int < 0x2900 then (c as int - 0x2800) as bv8 else 0
  }

  predicate HasDot(bits: bv8, k: nat)
    requires k < 8
  {
    bits & Table(k).bit != 0
  }

  // Whether a character shows the dot in row dy and column dx.
  predicate Shows(c: char, dy: nat, dx: nat)
    requires dy < 4 && dx < 2
  {
    HasDot(BitsOf(c), EntryOf(dy, dx))
  }

  lemma BitsReadBack(bits: bv8)
    ensures BitsOf(Glyphed(bits)) == bits
  {
  }

  predicate IsLit(grid: array2<real>, y: nat, x: nat, threshold: real)
    requires y < grid.Length0 && x < grid.Length1
    reads grid
  {
    grid[y, x] >= threshold
  }

  // The bits of the first k dots of the table.
  function Packed(grid: array2<real>, cy: nat, cx: nat, threshold: real, k: nat): bv8
    requires 4 * cy + 4 <= grid.Length0 && 2 * cx + 2 <= grid.Length1 && k <= 8
    reads grid
  {
    if k == 0 then 0
    else
      var e := Table(k - 1);
      var bits := Packed(grid, cy, cx, threshold, k - 1);
      if IsLit(grid, 4 * cy + e.dy, 2 * cx + e.dx, threshold) then bits | e.bit else bits
  }

  lemma SettingABit(bits: bv8, k: nat, j: nat)
    requires k < 8 && j < 8
    ensures HasDot(bits | Table(k).bit, j) <==> k == j || HasDot(bits, j)
  {
    assert (bits | Table(k).bit) & Table(j).bit == (bits & Table(j).bit) | (Table(k).bit & Table(j).bit);
    assert k != j ==> Table(k).bit & Table(j).bit == 0;
  }

  lemma AddingADot(bits: bv8, more: bv8, k: nat, j: nat, lit: bool)
    requires k < 8 && j < 8 && more == if lit then bits | Table(k).bit else bits
    ensures HasDot(more, j) <==> HasDot(bits, j) || (lit && k == j)
  {
    SettingABit(bits, k, j);
  }

  lemma {:induction false} PackedShows(grid: array2<real>, cy: nat, cx: nat, threshold: real, k: nat, j: nat)
    requires 4 * cy + 4 <= grid.Length0 && 2 * cx + 2 <= grid.Length1 && k <= 8 && j < 8
    ensures HasDot(Packed(grid, cy, cx, threshold, k), j)
       <==> j < k && IsLit(grid, 4 * cy + Table(j).dy, 2 * cx + Table(j).dx, threshold)
  {
    if k > 0 {
      var e := Table(k - 1);
      PackedShows(grid, cy, cx, threshold, k - 1, j);
      AddingADot(Packed(grid, cy, cx, threshold, k - 1), Packed(grid, cy, cx, threshold, k), k - 1, j,
                 IsLit(grid, 4 * cy + e.dy, 2 * cx + e.dx, threshold));
    }
  }

  function CellText(grid: array2<real>, cy: nat, cx: nat, threshold: real): char
    requires 4 * cy + 4 <= grid.Length0 && 2 * cx + 2 <= grid.Length1
    reads grid
  {
    Glyphed(Packed(grid, cy, cx, threshold, 8))
  }

  // Reading the dots of a character gives back which dots of the grid reach the threshold.
  lemma CellReadsBack(grid: array2<real>, cy: nat, cx: nat, threshold: real, dy: nat, dx: nat)
    requires 4 * cy + 4 <= grid.Length0 && 2 * cx + 2 <= grid.Length1 && dy < 4 && dx < 2
    ensures Shows(CellText(grid, cy, cx, threshold), dy, dx) <==> IsLit(grid, 4 * cy + dy, 2 * cx + dx, threshold)
  {
    BitsReadBack(Packed(grid, cy, cx, threshold, 8));
    PackedShows(grid, cy, cx, threshold, 8, EntryOf(dy, dx));
  }

  method ToBraille(grid: array2<real>, cols: nat, rows: nat, threshold: real) returns (lines: seq<string>)
    requires 4 * rows <= grid.Length0 && 2 * cols <= grid.Length1
    ensures |lines| == rows && Rectangle(lines, cols)
    ensures forall cy, cx :: 0 <= cy < rows && 0 <= cx < cols ==> lines[cy][cx] == CellText(grid, cy, cx, threshold)
  {
    lines := [];
    for cy := 0 to rows
      invariant |lines| == cy && Rectangle(lines, cols)
      invariant forall i, cx :: 0 <= i < cy && 0 <= cx < cols ==> lines[i][cx] == CellText(grid, i, cx, threshold)
    {
      var line := "";
      for cx := 0 to cols
        invariant |line| == cx
        invariant forall j :: 0 <= j < cx ==> line[j] == CellText(grid, cy, j, threshold)
      {
        var bits: bv8 := 0;
        for k := 0 to 8
          invariant bits == Packed(grid, cy, cx, threshold, k)
        {
          var e := Table(k);
          if grid[4 * cy + e.dy, 2 * cx + e.dx] >= threshold {
            bits := bits | e.bit;
          }
        }
        line := line + [Glyphed(bits)];
      }
      lines := lines + [line];
    }
  }

  // A character with one dot stands at the place of that dot in the braille block.
  lemma OneDot(c: char, dy: nat, dx: nat)
    requires dy < 4 && dx < 2 && c == Glyphed(BitsOf(c))
    requires forall y: nat, x: nat :: y < 4 && x < 2 ==> (Shows(c, y, x) <==> y == dy && x == dx)
    ensures c as int == 0x2800 + PowerOf2(if dy < 3 then 3 * dx + dy else 6 + dx) as int
  {
    var k := EntryOf(dy, dx);
    TableIsBraille(dy, dx);
    forall j: nat | j < 8 ensures HasDot(BitsOf(c), j) <==> HasDot(Table(k).bit, j) {
      assert Shows(c, Table(j).dy, Table(j).dx) <==> Table(j).dy == dy && Table(j).dx == dx;
      DotIsEntry(j);
      SettingABit(0, k, j);
      assert 0 | Table(k).bit == Table(k).bit;
      NoDot(j);
    }
    EightBits(BitsOf(c), Table(k).bit);
  }

  lemma NoDot(j: nat)
    requires j < 8
    ensures !HasDot(0, j)
  {
    assert 0 & Table(j).bit == 0;
  }

  // The eight dots determine the character.
  lemma DotsDetermineTheCharacter(c: char, d: char)
    requires c == Glyphed(BitsOf(c)) && d == Glyphed(BitsOf(d))
    requires forall dy: nat, dx: nat :: dy < 4 && dx < 2 ==> (Shows(c, dy, dx) <==> Shows(d, dy, dx))
    ensures c == d
  {
    forall k: nat | k < 8
      ensures HasDot(BitsOf(c), k) <==> HasDot(BitsOf(d), k)
    {
      assert Shows(c, Table(k).dy, Table(k).dx) <==> Shows(d, Table(k).dy, Table(k).dx);
      DotIsEntry(k);
    }
    EightBits(BitsOf(c), BitsOf(d));
  }

  lemma DotIsEntry(k: nat)
    requires k < 8
    ensures EntryOf(Table(k).dy, Table(k).dx) == k
  {
  }

  lemma EightBits(x: bv8, y: bv8)
    requires forall k: nat :: k < 8 ==> (HasDot(x, k) <==> HasDot(y, k))
    ensures x == y
  {
    assert HasDot(x, 0) <==> HasDot(y, 0);
    assert HasDot(x, 1) <==> HasDot(y, 1);
    assert HasDot(x, 2) <==> HasDot(y, 2);
    assert HasDot(x, 3) <==> HasDot(y, 3);
    assert HasDot(x, 4) <==> HasDot(y, 4);
    assert HasDot(x, 5) <==> HasDot(y, 5);
    assert HasDot(x, 6) <==> HasDot(y, 6);
    assert HasDot(x, 7) <==> HasDot(y, 7);
  }

  // ----- trimming -----

  function Padded(line: string, width: nat): (padded: string)
    requires |line| <= width
    ensures |padded| == width
  {
    line + seq(width - |line|, _ => ' ')
  }

  predicate Rectangle(lines: seq<string>, width: nat) {
    forall i :: 0 <= i < |lines| ==> |lines[i]| == width
  }

  predicate BlankColumn(lines: seq<string>, width: nat, x: nat)
    requires Rectangle(lines, width) && x < width
  {
    forall i :: 0 <= i < |lines| ==> lines[i][x] == ' '
  }

  // The columns that stay: none but blank ones are cut off, and the cut is as deep as it can be
  // unless the whole picture is blank, which stays as it is.
  ghost predicate TightCut(lines: seq<string>, width: nat, first: nat, last: int)
    requires Rectangle(lines, width)
  {
    && last < width && first <= last + 1
    && (forall x :: 0 <= x < width && (x < first || last < x) ==> BlankColumn(lines, width, x))
    && (if forall x :: 0 <= x < width ==> BlankColumn(lines, width, x) then first == 0 && last == width - 1
        else first <= last && !BlankColumn(lines, width, first) && !BlankColumn(lines, width, last))
  }

  method TrimColumns(lines: seq<string>)
      returns (trimmed: seq<string>, ghost width: nat, ghost first: nat, ghost last: int)
    requires lines != []
    ensures forall i :: 0 <= i < |lines| ==> |lines[i]| <= width
    ensures exists i :: 0 <= i < |lines| && |lines[i]| == width
    ensures |trimmed| == |lines|
    ensures Rectangle(AllPadded(lines, width), width) && TightCut(AllPadded(lines, width), width, first, last)
    ensures forall i :: 0 <= i < |lines| ==> trimmed[i] == AllPadded(lines, width)[i][first..last + 1]
  {
    var w := |lines[0]|;
    for i := 1 to |lines|
      invariant forall k :: 0 <= k < i ==> |lines[k]| <= w
      invariant exists k :: 0 <= k < i && |lines[k]| == w
    {
      w := if |lines[i]| > w then |lines[i]| else w;
    }
    width := w;
    var padded := AllPadded(lines, w);
    var lo := 0;
    while lo < w && BlankColumn(padded, w, lo)
      invariant 0 <= lo <= w && forall x :: 0 <= x < lo ==> BlankColumn(padded, w, x)
    {
      lo := lo + 1;
    }
    var hi := w - 1;
    while 0 <= hi && BlankColumn(padded, w, hi)
      invariant -1 <= hi < w && forall x :: hi < x < w ==> BlankColumn(padded, w, x)
    {
      hi := hi - 1;
    }
    if lo == w {
      lo, hi := 0, w - 1;
    }
    first, last := lo, hi;
    trimmed := seq(|lines|, i requires 0 <= i < |lines| => padded[i][lo..hi + 1]);
  }

  function AllPadded(lines: seq<string>, width: nat): (padded: seq<string>)
    requires forall i :: 0 <= i < |lines| ==> |lines[i]| <= width
    ensures |padded| == |lines| && Rectangle(padded, width)
  {
    seq(|lines|, i requires 0 <= i < |lines| => Padded(lines[i], width))
  }
}
