/**
 * The flat grid of line segments drawn under the bodies: `divisions` segments
 * along x on each of divisions + 1 lines of constant z, then `divisions`
 * segments along z on each of divisions + 1 lines of constant x, every
 * segment stored as its two endpoints of three floats each.
 */
module Lattices {
  import opened Vectors
  import opened Buffers

  /** One line segment of the grid, as the two vertices GL_LINES draws. */
  datatype Segment = Segment(start: Vec3, end: Vec3)

  /** Distance between neighbouring grid lines: size / divisions. */
  function Step(size: real, divisions: int): real
    requires divisions != 0
  {
    size / divisions as real
  }

  function HalfSize(size: real): real
  {
    size / 2.0
  }

  /** The height of every grid vertex: the y of the only yStep, 3. */
  function Level(size: real, divisions: int): real
    requires divisions != 0
  {
    -HalfSize(size) * 0.3 + 3.0 * Step(size, divisions)
  }

  /** Segments per direction: divisions on each of divisions + 1 lines; none when divisions <= 0. */
  function SegmentCount(divisions: int): nat
  {
    if divisions > 0 then divisions * (divisions + 1) else 0
  }

  /** The x-direction segment at line zStep, position xStep. */
  function XSegment(size: real, divisions: int, zStep: int, xStep: int): Segment
    requires divisions > 0
  {
    var step, halfSize := Step(size, divisions), HalfSize(size);
    var y := -halfSize * 0.3 + 3.0 * step;
    var z := -halfSize + zStep as real * step;
    var xStart := -halfSize + xStep as real * step;
    Segment(Vec3(xStart, y, z), Vec3(xStart + step, y, z))
  }

  /** The z-direction segment at line xStep, position zStep. */
  function ZSegment(size: real, divisions: int, xStep: int, zStep: int): Segment
    requires divisions > 0
  {
    var step, halfSize := Step(size, divisions), HalfSize(size);
    var y := -halfSize * 0.3 + 3.0 * step;
    var x := -halfSize + xStep as real * step;
    var zStart := -halfSize + zStep as real * step;
    Segment(Vec3(x, y, zStart), Vec3(x, y, zStart + step))
  }

  /** The six floats pushed for one segment. */
  function SegmentFloats(s: Segment): seq<real>
  {
    [s.start.x, s.start.y, s.start.z, s.end.x, s.end.y, s.end.z]
  }

  /** Segment k of the floats stored from index base on. */
  function SegmentAt(buffer: seq<real>, base: nat, k: nat): Segment
    requires base + 6 * k + 6 <= |buffer|
  {
    var i := base + 6 * k;
    Segment(Vec3(buffer[i], buffer[i + 1], buffer[i + 2]), Vec3(buffer[i + 3], buffer[i + 4], buffer[i + 5]))
  }

  /** The first n x-direction segments, in loop order (zStep outer, xStep inner), start at base. */
  predicate XRows(buffer: seq<real>, base: nat, size: real, divisions: int, n: nat)
    requires base + 6 * n <= |buffer|
  {
    forall k :: 0 <= k < n ==>
      divisions > 0 && SegmentAt(buffer, base, k) == XSegment(size, divisions, k / divisions, k % divisions)
  }

  /** The first n z-direction segments, in loop order (xStep outer, zStep inner), start at base. */
  predicate ZRows(buffer: seq<real>, base: nat, size: real, divisions: int, n: nat)
    requires base + 6 * n <= |buffer|
  {
    forall k :: 0 <= k < n ==>
      divisions > 0 && SegmentAt(buffer, base, k) == ZSegment(size, divisions, k / divisions, k % divisions)
  }

  /**
   * From index base on, the buffer holds exactly the grid Init produces for
   * size and divisions: every x-direction segment, then every z-direction one.
   */
  predicate Lattice(buffer: seq<real>, base: nat, size: real, divisions: int)
  {
    var n := SegmentCount(divisions);
    && |buffer| == base + 12 * n
    && XRows(buffer, base, size, divisions, n)
    && ZRows(buffer, base + 6 * n, size, divisions, n)
  }

  /** Appending floats keeps every segment already stored. */
  lemma SegmentsKept(buffer: seq<real>, extra: seq<real>, base: nat, n: nat)
    requires base + 6 * n <= |buffer|
    ensures forall k :: 0 <= k < n ==> SegmentAt(buffer + extra, base, k) == SegmentAt(buffer, base, k)
  {
  }

  /** The segment just appended is the last one stored. */
  lemma SegmentAppended(buffer: seq<real>, base: nat, n: nat, s: Segment)
    requires |buffer| == base + 6 * n
    ensures SegmentAt(buffer + SegmentFloats(s), base, n) == s
  {
  }

  /** Appending x-direction segment (zStep, xStep) extends the rows by one. */
  lemma XRowsPush(buffer: seq<real>, base: nat, size: real, divisions: int, zStep: nat, xStep: nat, n: nat)
    requires 0 <= xStep < divisions && n == divisions * zStep + xStep
    requires |buffer| == base + 6 * n && XRows(buffer, base, size, divisions, n)
    ensures XRows(buffer + SegmentFloats(XSegment(size, divisions, zStep, xStep)), base, size, divisions, n + 1)
  {
    var s := XSegment(size, divisions, zStep, xStep);
    SegmentsKept(buffer, SegmentFloats(s), base, n);
    SegmentAppended(buffer, base, n, s);
    DivMod(n, divisions, zStep, xStep);
  }

  /** Appending z-direction segment (xStep, zStep) extends the rows by one. */
  lemma ZRowsPush(buffer: seq<real>, base: nat, size: real, divisions: int, xStep: nat, zStep: nat, n: nat)
    requires 0 <= zStep < divisions && n == divisions * xStep + zStep
    requires |buffer| == base + 6 * n && ZRows(buffer, base, size, divisions, n)
    ensures ZRows(buffer + SegmentFloats(ZSegment(size, divisions, xStep, zStep)), base, size, divisions, n + 1)
  {
    var s := ZSegment(size, divisions, xStep, zStep);
    SegmentsKept(buffer, SegmentFloats(s), base, n);
    SegmentAppended(buffer, base, n, s);
    DivMod(n, divisions, xStep, zStep);
  }

  /** Appending floats after the rows keeps the rows. */
  lemma XRowsKept(buffer: seq<real>, extra: seq<real>, base: nat, size: real, divisions: int, n: nat)
    requires base + 6 * n <= |buffer| && XRows(buffer, base, size, divisions, n)
    ensures XRows(buffer + extra, base, size, divisions, n)
  {
    var b := buffer + extra;
    forall k | 0 <= k < n
      ensures divisions > 0 && SegmentAt(b, base, k) == XSegment(size, divisions, k / divisions, k % divisions)
    {
      assert SegmentAt(b, base, k) == SegmentAt(buffer, base, k);
    }
    assert XRows(b, base, size, divisions, n);
  }

  /**
   * Init emits 12 * divisions * (divisions + 1) floats: divisions * (divisions + 1)
   * segments in each direction, two vertices of three floats per segment;
   * nothing at all when divisions <= 0.
   */
  lemma LatticeLength(buffer: seq<real>, size: real, divisions: int)
    requires Lattice(buffer, 0, size, divisions)
    ensures divisions > 0 ==> |buffer| == 12 * divisions * (divisions + 1)
    ensures divisions <= 0 ==> buffer == []
    ensures |buffer| % 3 == 0
  {
    var n := SegmentCount(divisions);
    DivMod(|buffer|, 3, 4 * n, 0);
  }

  /**
   * Every grid vertex lies at height Level; x-direction segments are one step
   * long along x at constant y and z, z-direction ones one step long along z
   * at constant x and y.
   */
  lemma LatticeSegments(buffer: seq<real>, base: nat, size: real, divisions: int)
    requires Lattice(buffer, base, size, divisions)
    ensures forall k :: 0 <= k < SegmentCount(divisions) ==>
              var s := SegmentAt(buffer, base, k);
              && s.start.y == s.end.y == Level(size, divisions)
              && s.end.x == s.start.x + Step(size, divisions)
              && s.end.z == s.start.z
    ensures forall k :: SegmentCount(divisions) <= k < 2 * SegmentCount(divisions) ==>
              var s := SegmentAt(buffer, base, k);
              && s.start.y == s.end.y == Level(size, divisions)
              && s.end.z == s.start.z + Step(size, divisions)
              && s.end.x == s.start.x
  {
    var n := SegmentCount(divisions);
    forall k | n <= k < 2 * n
      ensures SegmentAt(buffer, base, k) == SegmentAt(buffer, base + 6 * n, k - n)
    {
    }
  }

  /** The x and z of a point lie within half a grid size of the origin. */
  predicate InSquare(p: Vec3, halfSize: real)
  {
    -halfSize <= p.x <= halfSize && -halfSize <= p.z <= halfSize
  }

  /** For 0 <= a <= d and a non-negative step, -h <= -h + a * step <= -h + d * step. */
  lemma GridLineInside(size: real, d: int, a: int)
    requires d > 0 && size >= 0.0 && 0 <= a <= d
    ensures -HalfSize(size) <= -HalfSize(size) + a as real * Step(size, d) <= HalfSize(size)
  {
    var step := Step(size, d);
    assert step * d as real == size;
    assert step >= 0.0;
    MulMonotone(a as real, d as real, step);
  }

  /** Multiplying by a non-negative factor keeps order. */
  lemma MulMonotone(a: real, b: real, c: real)
    requires 0.0 <= a <= b && 0.0 <= c
    ensures 0.0 <= a * c <= b * c
  {
    assert b * c - a * c == (b - a) * c;
  }

  /** An x-direction segment of a grid with divisions > 0 lies inside the square. */
  lemma XSegmentInside(size: real, d: int, zStep: int, xStep: int)
    requires d > 0 && size >= 0.0 && 0 <= zStep <= d && 0 <= xStep < d
    ensures InSquare(XSegment(size, d, zStep, xStep).start, HalfSize(size))
    ensures InSquare(XSegment(size, d, zStep, xStep).end, HalfSize(size))
  {
    GridLineInside(size, d, zStep);
    GridLineInside(size, d, xStep);
    GridLineInside(size, d, xStep + 1);
    assert (xStep + 1) as real * Step(size, d) == xStep as real * Step(size, d) + Step(size, d);
  }

  /** A z-direction segment of a grid with divisions > 0 lies inside the square. */
  lemma ZSegmentInside(size: real, d: int, xStep: int, zStep: int)
    requires d > 0 && size >= 0.0 && 0 <= xStep <= d && 0 <= zStep < d
    ensures InSquare(ZSegment(size, d, xStep, zStep).start, HalfSize(size))
    ensures InSquare(ZSegment(size, d, xStep, zStep).end, HalfSize(size))
  {
    GridLineInside(size, d, xStep);
    GridLineInside(size, d, zStep);
    GridLineInside(size, d, zStep + 1);
    assert (zStep + 1) as real * Step(size, d) == zStep as real * Step(size, d) + Step(size, d);
  }

  /**
   * For divisions > 0 and size >= 0, every x and every z Init emits lies in
   * [-size / 2, size / 2].
   */
  lemma LatticeBounds(buffer: seq<real>, base: nat, size: real, divisions: int)
    requires Lattice(buffer, base, size, divisions) && divisions > 0 && size >= 0.0
    ensures forall k :: 0 <= k < 2 * SegmentCount(divisions) ==>
              && InSquare(SegmentAt(buffer, base, k).start, HalfSize(size))
              && InSquare(SegmentAt(buffer, base, k).end, HalfSize(size))
  {
    var n := SegmentCount(divisions);
    forall k | 0 <= k < 2 * n
      ensures InSquare(SegmentAt(buffer, base, k).start, HalfSize(size))
      ensures InSquare(SegmentAt(buffer, base, k).end, HalfSize(size))
    {
      if k < n {
        DivBound(k, divisions, divisions);
        XSegmentInside(size, divisions, k / divisions, k % divisions);
      } else {
        assert SegmentAt(buffer, base, k) == SegmentAt(buffer, base + 6 * n, k - n);
        DivBound(k - n, divisions, divisions);
        ZSegmentInside(size, divisions, (k - n) / divisions, (k - n) % divisions);
      }
    }
  }

  /** Size and divisions determine the grid completely. */
  lemma LatticeUnique(a: seq<real>, b: seq<real>, size: real, divisions: int)
    requires Lattice(a, 0, size, divisions) && Lattice(b, 0, size, divisions)
    ensures a == b
  {
    var n := SegmentCount(divisions);
    forall i | 0 <= i < |a|
      ensures a[i] == b[i]
    {
      var k := i / 6;
      if k < n {
        assert SegmentAt(a, 0, k) == SegmentAt(b, 0, k);
      } else {
        assert SegmentAt(a, 6 * n, k - n) == SegmentAt(b, 6 * n, k - n);
      }
    }
  }
}
