/**
 * The grid object: the lattice as built (OgVerts) and the working copy drawn
 * each frame (Vertices), which the bodies bend downwards.
 */
module Grids {
  import opened Vectors
  import opened Lattices
  import opened Bodies

  /**
   * The depression one body of the given position and mass causes at a grid
   * vertex. The formula itself (a square root of Schwarzschild-radius terms)
   * is left to the caller.
   */
  type Displacement = (Vec3, real, Vec3) -> real

  /** Coordinates of vertex v of a buffer of three floats per vertex. */
  function XAt(buffer: seq<real>, v: nat): real
    requires 3 * v + 3 <= |buffer|
  {
    buffer[3 * v]
  }

  function YAt(buffer: seq<real>, v: nat): real
    requires 3 * v + 3 <= |buffer|
  {
    buffer[3 * v + 1]
  }

  function ZAt(buffer: seq<real>, v: nat): real
    requires 3 * v + 3 <= |buffer|
  {
    buffer[3 * v + 2]
  }

  /** The sum of every body's displacement at a point, accumulated in list order. */
  function TotalDisplacement(bodies: seq<Body>, dz: Displacement, at: Vec3): real
    reads bodies
  {
    if |bodies| == 0 then 0.0
    else TotalDisplacement(bodies[..|bodies| - 1], dz, at) + dz(bodies[|bodies| - 1].Position, bodies[|bodies| - 1].Mass, at)
  }

  /** One more body adds its own displacement to the total. */
  lemma TotalDisplacementPush(bodies: seq<Body>, k: nat, dz: Displacement, at: Vec3)
    requires k < |bodies|
    ensures TotalDisplacement(bodies[..k + 1], dz, at)
            == TotalDisplacement(bodies[..k], dz, at) + dz(bodies[k].Position, bodies[k].Mass, at)
  {
    assert bodies[..k + 1][..k] == bodies[..k];
  }

  /**
   * The point whose displacement vertex v gets: its x and z moved by the
   * camera's x and z, its y the grid's own.
   */
  function Translated(og: seq<real>, camPos: Vec3, v: nat): Vec3
    requires 3 * v + 3 <= |og|
  {
    Vec3(XAt(og, v) + camPos.x, YAt(og, v), ZAt(og, v) + camPos.z)
  }

  /** The height of vertex v before the grid is lowered. */
  function Height(og: seq<real>, bodies: seq<Body>, camPos: Vec3, dz: Displacement, v: nat): real
    requires 3 * v + 3 <= |og|
    reads bodies
  {
    TotalDisplacement(bodies, dz, Translated(og, camPos, v))
  }

  /** The heights of the first n vertices. */
  function Heights(og: seq<real>, bodies: seq<Body>, camPos: Vec3, dz: Displacement, n: nat): (h: seq<real>)
    requires 3 * n <= |og|
    reads bodies
    ensures |h| == n
    ensures forall v :: 0 <= v < n ==> h[v] == Height(og, bodies, camPos, dz, v)
  {
    if n == 0 then [] else Heights(og, bodies, camPos, dz, n - 1) + [Height(og, bodies, camPos, dz, n - 1)]
  }

  function Max(a: real, b: real): real
  {
    if b > a then b else a
  }

  /** The running maximum of the values, started at 0: `highest` after the scan. */
  function Highest(s: seq<real>): real
  {
    if |s| == 0 then 0.0 else Max(Highest(s[..|s| - 1]), s[|s| - 1])
  }

  /** Highest is at least 0 and every value, and it is 0 or one of the values. */
  lemma {:induction false} HighestBounds(s: seq<real>)
    ensures Highest(s) >= 0.0
    ensures forall k :: 0 <= k < |s| ==> s[k] <= Highest(s)
    ensures Highest(s) == 0.0 || exists k :: 0 <= k < |s| && s[k] == Highest(s)
  {
    if |s| > 0 {
      var init := s[..|s| - 1];
      HighestBounds(init);
      assert forall k :: 0 <= k < |init| ==> s[k] == init[k];
      if Highest(init) != 0.0 && s[|s| - 1] <= Highest(init) {
        var k :| 0 <= k < |init| && init[k] == Highest(init);
        assert s[k] == Highest(s);
      }
    }
  }

  /** When one value is non-negative, Highest is the largest value. */
  lemma HighestIsMaximum(s: seq<real>, j: nat)
    requires j < |s| && s[j] >= 0.0
    ensures exists k :: 0 <= k < |s| && s[k] == Highest(s)
  {
    HighestBounds(s);
    if Highest(s) == 0.0 {
      assert s[j] == Highest(s);
    }
  }

  /** The heights after the last pass: every height minus the highest one. */
  function Lowered(s: seq<real>): (r: seq<real>)
    ensures |r| == |s|
  {
    var top := Highest(s);
    seq(|s|, k requires 0 <= k < |s| => s[k] - top)
  }

  /**
   * Lowering leaves every height at most 0, keeps the differences between
   * heights, and leaves the values unchanged when they are all negative.
   */
  lemma LoweredCeiling(s: seq<real>)
    ensures forall k :: 0 <= k < |s| ==> Lowered(s)[k] <= 0.0
    ensures forall a, b :: 0 <= a < |s| && 0 <= b < |s| ==> Lowered(s)[a] - Lowered(s)[b] == s[a] - s[b]
    ensures (forall k :: 0 <= k < |s| ==> s[k] < 0.0) ==> Lowered(s) == s
  {
    HighestBounds(s);
  }

  /** If some height is at least 0, the highest lowered height is exactly 0. */
  lemma LoweredPeak(s: seq<real>, j: nat)
    requires j < |s| && s[j] >= 0.0
    ensures exists k :: 0 <= k < |s| && Lowered(s)[k] == 0.0
  {
    HighestIsMaximum(s, j);
    var k :| 0 <= k < |s| && s[k] == Highest(s);
    assert Lowered(s)[k] == 0.0;
  }

  /** Lowering an already lowered grid changes nothing. */
  lemma LoweredIdempotent(s: seq<real>)
    ensures Lowered(Lowered(s)) == Lowered(s)
  {
    var r := Lowered(s);
    LoweredCeiling(s);
    HighestBounds(r);
  }

  /** All-zero heights stay zero. */
  lemma LoweredFlat(s: seq<real>)
    requires forall k :: 0 <= k < |s| ==> s[k] == 0.0
    ensures forall k :: 0 <= k < |s| ==> Lowered(s)[k] == 0.0
  {
    HighestBounds(s);
  }

  /** With no bodies every height, and hence every lowered height, is 0. */
  lemma NoBodiesFlat(og: seq<real>, camPos: Vec3, dz: Displacement)
    requires |og| % 3 == 0
    ensures forall v :: 0 <= v < |og| / 3 ==> Lowered(Heights(og, [], camPos, dz, |og| / 3))[v] == 0.0
  {
    LoweredFlat(Heights(og, [], camPos, dz, |og| / 3));
  }

  /** The camera's height plays no part in the heights. */
  lemma HeightsIgnoreCameraHeight(og: seq<real>, bodies: seq<Body>, a: Vec3, b: Vec3, dz: Displacement, n: nat)
    requires 3 * n <= |og| && a.x == b.x && a.z == b.z
    ensures Heights(og, bodies, a, dz, n) == Heights(og, bodies, b, dz, n)
  {
    forall v | 0 <= v < n
      ensures Translated(og, a, v) == Translated(og, b, v)
    {
    }
  }

  /**
   * The buffer the deformation pass leaves: x and z of every vertex moved by
   * the camera's x and z, y the lowered height.
   */
  predicate Deformed(buffer: seq<real>, og: seq<real>, bodies: seq<Body>, camPos: Vec3, dz: Displacement)
    requires |og| % 3 == 0
    reads bodies
  {
    var n := |og| / 3;
    && |buffer| == |og|
    && (forall v :: 0 <= v < n ==> XAt(buffer, v) == XAt(og, v) + camPos.x && ZAt(buffer, v) == ZAt(og, v) + camPos.z)
    && (forall v :: 0 <= v < n ==> YAt(buffer, v) == Lowered(Heights(og, bodies, camPos, dz, n))[v])
  }

  /**
   * A deformed grid has every y at most 0, some y exactly 0 as soon as one
   * height is non-negative, and the same differences between heights.
   */
  lemma DeformedShape(buffer: seq<real>, og: seq<real>, bodies: seq<Body>, camPos: Vec3, dz: Displacement)
    requires |og| % 3 == 0 && Deformed(buffer, og, bodies, camPos, dz)
    ensures forall v :: 0 <= v < |og| / 3 ==> YAt(buffer, v) <= 0.0
    ensures forall a, b :: 0 <= a < |og| / 3 && 0 <= b < |og| / 3 ==>
              YAt(buffer, a) - YAt(buffer, b) == Height(og, bodies, camPos, dz, a) - Height(og, bodies, camPos, dz, b)
    ensures (exists j :: 0 <= j < |og| / 3 && Height(og, bodies, camPos, dz, j) >= 0.0) ==>
              exists v :: 0 <= v < |og| / 3 && YAt(buffer, v) == 0.0
  {
    var n := |og| / 3;
    var h := Heights(og, bodies, camPos, dz, n);
    LoweredCeiling(h);
    if j :| 0 <= j < n && Height(og, bodies, camPos, dz, j) >= 0.0 {
      LoweredPeak(h, j);
      var v :| 0 <= v < n && Lowered(h)[v] == 0.0;
      assert YAt(buffer, v) == 0.0;
    }
  }

  /** With a displacement that is never negative (as 2 * sqrt(...) is not), neither is the total. */
  lemma {:induction false} TotalDisplacementNonNegative(bodies: seq<Body>, dz: Displacement, at: Vec3)
    requires forall p, m, q :: dz(p, m, q) >= 0.0
    ensures TotalDisplacement(bodies, dz, at) >= 0.0
    decreases |bodies|
  {
    if |bodies| > 0 {
      TotalDisplacementNonNegative(bodies[..|bodies| - 1], dz, at);
    }
  }

  /**
   * With a displacement that is never negative, a deformed grid of at least
   * one vertex has its highest point exactly at 0.
   */
  lemma DeformedPeak(buffer: seq<real>, og: seq<real>, bodies: seq<Body>, camPos: Vec3, dz: Displacement)
    requires |og| % 3 == 0 && |og| > 0 && Deformed(buffer, og, bodies, camPos, dz)
    requires forall p, m, q :: dz(p, m, q) >= 0.0
    ensures exists v :: 0 <= v < |og| / 3 && YAt(buffer, v) == 0.0
  {
    TotalDisplacementNonNegative(bodies, dz, Translated(og, camPos, 0));
    assert Height(og, bodies, camPos, dz, 0) >= 0.0;
    DeformedShape(buffer, og, bodies, camPos, dz);
  }

  /** The grid: the lattice as built and the working copy that is drawn. */
  class Grid {
    var OgVerts: seq<real>
    var Vertices: seq<real>

    /**
     * The class invariant: OgVerts is the lattice for some size and divisions,
     * and so holds whole vertices of three floats each.
     */
    ghost predicate Valid()
      reads this`OgVerts
    {
      && |OgVerts| % 3 == 0
      && exists size: real, divisions: int :: Lattice(OgVerts, 0, size, divisions)
    }

    /** Grid(size, divisions): builds the lattice and draws it undeformed. */
    constructor (size: real, divisions: int)
      ensures Lattice(OgVerts, 0, size, divisions)
      ensures Vertices == OgVerts
      ensures Valid()
    {
      OgVerts, Vertices := [], [];
      new;
      Init(size, divisions);
      Vertices := OgVerts;
      LatticeLength(OgVerts, size, divisions);
    }

    /**
     * Appends the lattice for size and divisions to OgVerts: first the
     * x-direction segments, then the z-direction ones.
     */
    method Init(size: real, divisions: int)
      modifies this`OgVerts
      ensures |old(OgVerts)| <= |OgVerts| && OgVerts[..|old(OgVerts)|] == old(OgVerts)
      ensures Lattice(OgVerts, |old(OgVerts)|, size, divisions)
    {
      ghost var prefix := OgVerts;
      // For divisions == 0 the source's quotient is not finite; no segment uses it then.
      var step := if divisions != 0 then size / divisions as real else 0.0;
      var halfSize := size / 2.0;
      AddXLines(size, divisions, step, halfSize);
      ghost var xRows := OgVerts;
      AddZLines(size, divisions, step, halfSize);
      ghost var n := SegmentCount(divisions);
      XRowsKept(xRows, OgVerts[|xRows|..], |prefix|, size, divisions, n);
      assert xRows + OgVerts[|xRows|..] == OgVerts;
    }

    /** The x-axis loops of Init: divisions + 1 lines of constant z. */
    method AddXLines(size: real, divisions: int, step: real, halfSize: real)
      requires divisions != 0 ==> step == Step(size, divisions)
      requires halfSize == HalfSize(size)
      modifies this`OgVerts
      ensures old(OgVerts) <= OgVerts
      ensures |OgVerts| == |old(OgVerts)| + 6 * SegmentCount(divisions)
      ensures XRows(OgVerts, |old(OgVerts)|, size, divisions, SegmentCount(divisions))
    {
      ghost var base := |OgVerts|;
      var yStep := 3;
      while yStep <= 3
        invariant 3 <= yStep <= 4
        invariant old(OgVerts) <= OgVerts
        invariant yStep == 3 ==> OgVerts == old(OgVerts)
        invariant yStep == 4 ==> |OgVerts| == base + 6 * SegmentCount(divisions)
        invariant yStep == 4 ==> XRows(OgVerts, base, size, divisions, SegmentCount(divisions))
      {
        var y := -halfSize * 0.3 + yStep as real * step;
        var zStep := 0;
        while zStep <= divisions
          invariant 0 <= zStep && (divisions >= 0 ==> zStep <= divisions + 1) && (divisions < 0 ==> zStep == 0)
          invariant old(OgVerts) <= OgVerts
          invariant |OgVerts| == base + 6 * (divisions * zStep)
          invariant XRows(OgVerts, base, size, divisions, divisions * zStep)
        {
          var z := -halfSize + zStep as real * step;
          PushXLine(size, divisions, step, halfSize, y, z, zStep, base, divisions * zStep);
          assert divisions * zStep + divisions == divisions * (zStep + 1);
          zStep := zStep + 1;
        }
        yStep := yStep + 1;
      }
    }

    /** The innermost x-axis loop: the divisions segments of the line at zStep. */
    method PushXLine(size: real, divisions: int, step: real, halfSize: real, y: real, z: real, zStep: nat,
                     ghost base: nat, ghost n: nat)
      requires 0 <= divisions && n == divisions * zStep
      requires divisions != 0 ==> step == Step(size, divisions)
      requires halfSize == HalfSize(size) && y == -halfSize * 0.3 + 3.0 * step
      requires z == -halfSize + zStep as real * step
      requires |OgVerts| == base + 6 * n && XRows(OgVerts, base, size, divisions, n)
      modifies this`OgVerts
      ensures old(OgVerts) <= OgVerts
      ensures |OgVerts| == base + 6 * (n + divisions) && XRows(OgVerts, base, size, divisions, n + divisions)
    {
      var xStep := 0;
      while xStep < divisions
        invariant 0 <= xStep <= divisions
        invariant old(OgVerts) <= OgVerts
        invariant |OgVerts| == base + 6 * (n + xStep)
        invariant XRows(OgVerts, base, size, divisions, n + xStep)
      {
        var xStart := -halfSize + xStep as real * step;
        var xEnd := xStart + step;
        XRowsPush(OgVerts, base, size, divisions, zStep, xStep, n + xStep);
        ghost var s := XSegment(size, divisions, zStep, xStep);
        assert s.start == Vec3(xStart, y, z);
        assert s.end == Vec3(xEnd, y, z);
        OgVerts := OgVerts + [xStart, y, z, xEnd, y, z];
        xStep := xStep + 1;
      }
    }

    /** The z-axis loops of Init: divisions + 1 lines of constant x. */
    method AddZLines(size: real, divisions: int, step: real, halfSize: real)
      requires divisions != 0 ==> step == Step(size, divisions)
      requires halfSize == HalfSize(size)
      modifies this`OgVerts
      ensures old(OgVerts) <= OgVerts
      ensures |OgVerts| == |old(OgVerts)| + 6 * SegmentCount(divisions)
      ensures ZRows(OgVerts, |old(OgVerts)|, size, divisions, SegmentCount(divisions))
    {
      ghost var base := |OgVerts|;
      var xStep := 0;
      while xStep <= divisions
        invariant 0 <= xStep && (divisions >= 0 ==> xStep <= divisions + 1) && (divisions < 0 ==> xStep == 0)
        invariant old(OgVerts) <= OgVerts
        invariant |OgVerts| == base + 6 * (divisions * xStep)
        invariant ZRows(OgVerts, base, size, divisions, divisions * xStep)
      {
        var x := -halfSize + xStep as real * step;
        var yStep := 3;
        while yStep <= 3
          invariant 3 <= yStep <= 4
          invariant old(OgVerts) <= OgVerts
          invariant yStep == 3 ==> |OgVerts| == base + 6 * (divisions * xStep)
          invariant yStep == 3 ==> ZRows(OgVerts, base, size, divisions, divisions * xStep)
          invariant yStep == 4 ==> |OgVerts| == base + 6 * (divisions * xStep + divisions)
          invariant yStep == 4 ==> ZRows(OgVerts, base, size, divisions, divisions * xStep + divisions)
        {
          var y := -halfSize * 0.3 + yStep as real * step;
          PushZLine(size, divisions, step, halfSize, x, y, xStep, base, divisions * xStep);
          yStep := yStep + 1;
        }
        assert divisions * xStep + divisions == divisions * (xStep + 1);
        xStep := xStep + 1;
      }
    }

    /** The innermost z-axis loop: the divisions segments of the line at xStep. */
    method PushZLine(size: real, divisions: int, step: real, halfSize: real, x: real, y: real, xStep: nat,
                     ghost base: nat, ghost n: nat)
      requires 0 <= divisions && n == divisions * xStep
      requires divisions != 0 ==> step == Step(size, divisions)
      requires halfSize == HalfSize(size) && y == -halfSize * 0.3 + 3.0 * step
      requires x == -halfSize + xStep as real * step
      requires |OgVerts| == base + 6 * n && ZRows(OgVerts, base, size, divisions, n)
      modifies this`OgVerts
      ensures old(OgVerts) <= OgVerts
      ensures |OgVerts| == base + 6 * (n + divisions) && ZRows(OgVerts, base, size, divisions, n + divisions)
    {
      var zStep := 0;
      while zStep < divisions
        invariant 0 <= zStep <= divisions
        invariant old(OgVerts) <= OgVerts
        invariant |OgVerts| == base + 6 * (n + zStep)
        invariant ZRows(OgVerts, base, size, divisions, n + zStep)
      {
        var zStart := -halfSize + zStep as real * step;
        var zEnd := zStart + step;
        ZRowsPush(OgVerts, base, size, divisions, xStep, zStep, n + zStep);
        ghost var s := ZSegment(size, divisions, xStep, zStep);
        assert s.start == Vec3(x, y, zStart);
        assert s.end == Vec3(x, y, zEnd);
        OgVerts := OgVerts + [x, y, zStart, x, y, zEnd];
        zStep := zStep + 1;
      }
    }

    /**
     * Update(size, divisions): clears both buffers, builds the lattice afresh
     * and draws it undeformed, whatever the buffers held before.
     */
    method UpdateLattice(size: real, divisions: int)
      modifies this`OgVerts, this`Vertices
      ensures Lattice(OgVerts, 0, size, divisions)
      ensures Vertices == OgVerts
      ensures Valid()
    {
      OgVerts := [];
      Vertices := [];
      Init(size, divisions);
      Vertices := OgVerts;
      LatticeLength(OgVerts, size, divisions);
    }

    /**
     * Update(bodies, camPos): restarts from the lattice, moves it under the
     * camera in x and z, sets each height to the bodies' total displacement
     * there, then lowers the grid so that its highest point is at most 0.
     */
    method UpdateDeformation(bodies: seq<Body>, camPos: Vec3, dz: Displacement)
      requires Valid()
      modifies this`Vertices
      ensures Valid()
      ensures Deformed(Vertices, OgVerts, bodies, camPos, dz)
    {
      Vertices := OgVerts;
      RaiseVertices(bodies, camPos, dz);
      ghost var n := |OgVerts| / 3;
      ghost var heights := Heights(OgVerts, bodies, camPos, dz, n);
      assert Ys(Vertices) == heights;
      var highest := MaxHeight(Vertices);
      ghost var raised := Vertices;
      LowerHeights(highest);
      assert |Vertices| / 3 == n;
      forall v | 0 <= v < n
        ensures YAt(Vertices, v) == Lowered(heights)[v]
      {
        assert YAt(raised, v) == Ys(raised)[v];
      }
    }

    /**
     * The first loop of the deformation pass: x and z of every vertex moved by
     * the camera's x and z, y set to the bodies' total displacement there.
     */
    method RaiseVertices(bodies: seq<Body>, camPos: Vec3, dz: Displacement)
      requires |Vertices| % 3 == 0
      modifies this`Vertices
      ensures |Vertices| == |old(Vertices)|
      ensures forall v :: 0 <= v < |Vertices| / 3 ==>
                && XAt(Vertices, v) == XAt(old(Vertices), v) + camPos.x
                && ZAt(Vertices, v) == ZAt(old(Vertices), v) + camPos.z
                && YAt(Vertices, v) == Height(old(Vertices), bodies, camPos, dz, v)
    {
      var cPos := Vec3(camPos.x, 0.0, camPos.z);
      ghost var m := 0;  // vertices done
      var i := 0;
      while i < |Vertices|
        invariant i == 3 * m && 0 <= i <= |Vertices| == |old(Vertices)|
        invariant forall v :: 0 <= v < m ==>
                    && XAt(Vertices, v) == XAt(old(Vertices), v) + camPos.x
                    && ZAt(Vertices, v) == ZAt(old(Vertices), v) + camPos.z
                    && YAt(Vertices, v) == Height(old(Vertices), bodies, camPos, dz, v)
        invariant forall k :: i <= k < |Vertices| ==> Vertices[k] == old(Vertices)[k]
      {
        Vertices := Vertices[i := Vertices[i] + cPos.x];
        Vertices := Vertices[i + 2 := Vertices[i + 2] + cPos.z];
        var vertexPos := Vec3(Vertices[i], Vertices[i + 1], Vertices[i + 2]);
        assert vertexPos == Translated(old(Vertices), camPos, m);
        var totalDisplacement := SumDisplacement(bodies, dz, vertexPos);
        Vertices := Vertices[i + 1 := totalDisplacement];
        i, m := i + 3, m + 1;
      }
    }

    /** The last loop of the deformation pass: every y lowered by highest, x and z kept. */
    method LowerHeights(highest: real)
      requires |Vertices| % 3 == 0
      modifies this`Vertices
      ensures |Vertices| == |old(Vertices)|
      ensures forall v :: 0 <= v < |Vertices| / 3 ==>
                && XAt(Vertices, v) == XAt(old(Vertices), v)
                && YAt(Vertices, v) == YAt(old(Vertices), v) - highest
                && ZAt(Vertices, v) == ZAt(old(Vertices), v)
    {
      var i := 1;
      while i < |Vertices|
        invariant i % 3 == 1 && 1 <= i <= |Vertices| + 1 && |Vertices| == |old(Vertices)|
        invariant forall v :: 0 <= v < |Vertices| / 3 ==>
                    && XAt(Vertices, v) == XAt(old(Vertices), v)
                    && ZAt(Vertices, v) == ZAt(old(Vertices), v)
        invariant forall v :: 0 <= v < i / 3 ==> YAt(Vertices, v) == YAt(old(Vertices), v) - highest
        invariant forall v :: i / 3 <= v < |Vertices| / 3 ==> YAt(Vertices, v) == YAt(old(Vertices), v)
      {
        Vertices := Vertices[i := Vertices[i] - highest];
        i := i + 3;
      }
    }
  }

  /** The y of every vertex, in order. */
  function Ys(buffer: seq<real>): (ys: seq<real>)
    requires |buffer| % 3 == 0
  {
    seq(|buffer| / 3, v requires 0 <= v < |buffer| / 3 => YAt(buffer, v))
  }

  /** The inner loop of the deformation pass: every body's displacement at one point, summed in list order. */
  method SumDisplacement(bodies: seq<Body>, dz: Displacement, at: Vec3) returns (total: real)
    ensures total == TotalDisplacement(bodies, dz, at)
  {
    total := 0.0;
    var b := 0;
    while b < |bodies|
      invariant 0 <= b <= |bodies|
      invariant total == TotalDisplacement(bodies[..b], dz, at)
    {
      var body := bodies[b];
      var displacement := dz(body.Position, body.Mass, at);
      TotalDisplacementPush(bodies, b, dz, at);
      total := total + displacement;
      b := b + 1;
    }
    assert bodies[..b] == bodies;
  }

  /** The second loop of the deformation pass: the running maximum of the y values, from 0. */
  method MaxHeight(buffer: seq<real>) returns (highest: real)
    requires |buffer| % 3 == 0
    ensures highest == Highest(Ys(buffer))
  {
    highest := 0.0;
    var i := 1;
    while i < |buffer|
      invariant i % 3 == 1 && 1 <= i <= |buffer| + 1
      invariant highest == Highest(Ys(buffer)[..i / 3])
    {
      assert Ys(buffer)[..i / 3 + 1][..i / 3] == Ys(buffer)[..i / 3];
      if buffer[i] > highest {
        highest := buffer[i];
      }
      i := i + 3;
    }
    assert Ys(buffer)[..i / 3] == Ys(buffer);
  }
}
