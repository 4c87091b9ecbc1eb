/**
 * A simulated body: its physical state, the in-place updates the simulation
 * applies to it, its value equality, and the sphere mesh it uploads for drawing.
 */
module Bodies {
  import opened Vectors
  import opened Buffers

  /** The sphere is tessellated into this many stacks (latitude bands)... */
  const Stacks: nat := 10
  /** ...and this many sectors (longitude slices). */
  const Sectors: nat := 10
  /**
   * Number of vertices, and of indices, in a sphere mesh: Stacks * Sectors
   * quads of two triangles of three vertices each. Index arithmetic below
   * writes the factors 10 (Sectors) and 6 (vertices per quad) as numerals.
   */
  const VertexCount: nat := 600

  /**
   * The point on a sphere of the given radius at stack boundary i and sector
   * boundary j: sphericalToCartesian(radius, i * pi / Stacks, j * 2 * pi / Sectors).
   * The trigonometry is left to the caller.
   */
  type SurfaceMap = (real, int, int) -> Vec3

  /**
   * Corner t of the quad at stack i, sector j: the triangles v1-v2-v3 and
   * v2-v4-v3 over v1 = (i, j), v2 = (i, j + 1), v3 = (i + 1, j), v4 = (i + 1, j + 1).
   */
  function QuadCorner(surface: SurfaceMap, radius: real, i: int, j: int, t: int): Vec3
  {
    match t
    case 0 => surface(radius, i, j)
    case 1 => surface(radius, i, j + 1)
    case 2 => surface(radius, i + 1, j)
    case 3 => surface(radius, i, j + 1)
    case 4 => surface(radius, i + 1, j + 1)
    case _ => surface(radius, i + 1, j)
  }

  /** Position of mesh vertex v: quad q = v / 6 covers stack q / 10 and sector q % 10. */
  function Corner(surface: SurfaceMap, radius: real, v: nat): Vec3
  {
    var q := v / 6;
    QuadCorner(surface, radius, q / 10, q % 10, v % 6)
  }

  /** The six floats `insert`ed for one vertex: its position, then the body colour. */
  function VertexFloats(p: Vec3, color: Vec3): seq<real>
  {
    [p.x, p.y, p.z, color.x, color.y, color.z]
  }

  /** The buffer after quad (i, j) is appended to it. */
  function AppendQuad(buffer: seq<real>, surface: SurfaceMap, radius: real, color: Vec3, i: int, j: int): seq<real>
  {
    var v1, v2 := surface(radius, i, j), surface(radius, i, j + 1);
    var v3, v4 := surface(radius, i + 1, j), surface(radius, i + 1, j + 1);
    buffer + VertexFloats(v1, color) + VertexFloats(v2, color) + VertexFloats(v3, color)
      + VertexFloats(v2, color) + VertexFloats(v4, color) + VertexFloats(v3, color)
  }

  /**
   * The vertex buffer once every quad of stacks 0..i-1, and sectors 0..j-1 of
   * stack i, has been appended in loop order.
   */
  function MeshUpTo(surface: SurfaceMap, radius: real, color: Vec3, i: nat, j: nat): seq<real>
    requires j <= Sectors
    decreases i, j
  {
    if j == 0 then
      if i == 0 then [] else MeshUpTo(surface, radius, color, i - 1, Sectors)
    else
      AppendQuad(MeshUpTo(surface, radius, color, i, j - 1), surface, radius, color, i, j - 1)
  }

  /** The interleaved vertex buffer of the whole sphere: x, y, z, r, g, b per vertex. */
  function SphereVertices(surface: SurfaceMap, radius: real, color: Vec3): seq<real>
  {
    MeshUpTo(surface, radius, color, Stacks, 0)
  }

  /**
   * The element buffer of an n-vertex mesh whose triangles are its vertices
   * taken three at a time: index k is k, for every k < n.
   */
  predicate InOrder(indices: seq<nat>, n: nat)
  {
    |indices| == n && forall k :: 0 <= k < n ==> indices[k] == k
  }

  /** Indices n..n+5 for the next six vertices keep the element buffer in order. */
  lemma InOrderPush(indices: seq<nat>, n: nat)
    requires InOrder(indices, n)
    ensures InOrder(indices + [n, n + 1, n + 2, n + 3, n + 4, n + 5], n + 6)
  {
    var ext := indices + [n, n + 1, n + 2, n + 3, n + 4, n + 5];
    forall k | 0 <= k < n + 6
      ensures ext[k] == k
    {
      if k < n {
        assert ext[k] == indices[k];
      }
    }
  }

  /** Floats 0..2 of vertex v of an interleaved buffer. */
  function VertexPosition(buffer: seq<real>, v: nat): Vec3
    requires 6 * v + 6 <= |buffer|
  {
    Vec3(buffer[6 * v], buffer[6 * v + 1], buffer[6 * v + 2])
  }

  /** Floats 3..5 of vertex v of an interleaved buffer. */
  function VertexColor(buffer: seq<real>, v: nat): Vec3
    requires 6 * v + 6 <= |buffer|
  {
    Vec3(buffer[6 * v + 3], buffer[6 * v + 4], buffer[6 * v + 5])
  }

  /** Quad (i, j) of the buffer is the two triangles v1-v2-v3 and v2-v4-v3 over its corners. */
  predicate QuadCovers(buffer: seq<real>, surface: SurfaceMap, radius: real, i: nat, j: nat)
    requires i < Stacks && j < Sectors && |buffer| == 6 * VertexCount
  {
    var b := 6 * (10 * i + j);
    && VertexPosition(buffer, b) == surface(radius, i, j)
    && VertexPosition(buffer, b + 1) == surface(radius, i, j + 1)
    && VertexPosition(buffer, b + 2) == surface(radius, i + 1, j)
    && VertexPosition(buffer, b + 3) == surface(radius, i, j + 1)
    && VertexPosition(buffer, b + 4) == surface(radius, i + 1, j + 1)
    && VertexPosition(buffer, b + 5) == surface(radius, i + 1, j)
  }

  /** Vertex t of quad q = 10 * i + j is corner t of the quad at stack i, sector j. */
  lemma CornerOfQuad(surface: SurfaceMap, radius: real, i: nat, j: nat, t: nat)
    requires j < Sectors && t < 6
    ensures Corner(surface, radius, 6 * (10 * i + j) + t) == QuadCorner(surface, radius, i, j, t)
  {
    DivMod(10 * i + j, 10, i, j);
    DivMod(6 * (10 * i + j) + t, 6, 10 * i + j, t);
  }

  /**
   * Appending quad (i, j) to a buffer of n vertices keeps those n vertices and
   * adds six whose positions are the quad's corners and whose colour is the
   * body colour.
   */
  lemma AppendQuadVertices(buffer: seq<real>, n: nat, surface: SurfaceMap, radius: real, color: Vec3, i: nat, j: nat)
    requires |buffer| == 6 * n
    ensures |AppendQuad(buffer, surface, radius, color, i, j)| == 6 * n + 36
    ensures forall v :: 0 <= v < n ==>
              && VertexPosition(AppendQuad(buffer, surface, radius, color, i, j), v) == VertexPosition(buffer, v)
              && VertexColor(AppendQuad(buffer, surface, radius, color, i, j), v) == VertexColor(buffer, v)
    ensures forall v :: n <= v < n + 6 ==>
              && VertexPosition(AppendQuad(buffer, surface, radius, color, i, j), v) == QuadCorner(surface, radius, i, j, v - n)
              && VertexColor(AppendQuad(buffer, surface, radius, color, i, j), v) == color
  {
    var r := AppendQuad(buffer, surface, radius, color, i, j);
    assert r[..6 * n] == buffer;
    forall v | n <= v < n + 6
      ensures VertexPosition(r, v) == QuadCorner(surface, radius, i, j, v - n)
      ensures VertexColor(r, v) == color
    {
      assert r[6 * v..6 * v + 6] == VertexFloats(QuadCorner(surface, radius, i, j, v - n), color);
    }
  }

  /**
   * The buffer holds exactly n vertices, each with its corner position in
   * floats 0..2 and the body colour in floats 3..5.
   */
  predicate LaidOut(buffer: seq<real>, n: nat, surface: SurfaceMap, radius: real, color: Vec3)
  {
    && |buffer| == 6 * n
    && (forall v :: 0 <= v < n ==> VertexPosition(buffer, v) == Corner(surface, radius, v))
    && (forall v :: 0 <= v < n ==> VertexColor(buffer, v) == color)
  }

  /** Appending quad q = 10 * i + j to the first q quads lays out the first q + 1. */
  lemma QuadLaysOut(buffer: seq<real>, surface: SurfaceMap, radius: real, color: Vec3, i: nat, j: nat)
    requires j < Sectors && LaidOut(buffer, 6 * (10 * i + j), surface, radius, color)
    ensures LaidOut(AppendQuad(buffer, surface, radius, color, i, j), 6 * (10 * i + j) + 6, surface, radius, color)
  {
    var n := 6 * (10 * i + j);
    AppendQuadVertices(buffer, n, surface, radius, color, i, j);
    forall v | n <= v < n + 6
      ensures QuadCorner(surface, radius, i, j, v - n) == Corner(surface, radius, v)
    {
      CornerOfQuad(surface, radius, i, j, v - n);
    }
  }

  /** After the quads up to (i, j) every vertex appended so far is laid out. */
  lemma {:induction false} MeshUpToVertices(surface: SurfaceMap, radius: real, color: Vec3, i: nat, j: nat)
    requires j <= Sectors
    ensures LaidOut(MeshUpTo(surface, radius, color, i, j), 6 * (10 * i + j), surface, radius, color)
    decreases i, j
  {
    if j == 0 {
      if i > 0 {
        MeshUpToVertices(surface, radius, color, i - 1, Sectors);
      }
    } else {
      MeshUpToVertices(surface, radius, color, i, j - 1);
      QuadLaysOut(MeshUpTo(surface, radius, color, i, j - 1), surface, radius, color, i, j - 1);
    }
  }

  /** The first i complete stacks lay out 60 vertices each. */
  lemma StacksLaidOut(surface: SurfaceMap, radius: real, color: Vec3, i: nat)
    ensures LaidOut(MeshUpTo(surface, radius, color, i, 0), 60 * i, surface, radius, color)
  {
    MeshUpToVertices(surface, radius, color, i, 0);
  }

  /**
   * The vertex buffer holds 6 floats for each of the 600 vertices, and every
   * vertex carries its corner position in floats 0..2 and the body colour in
   * floats 3..5.
   */
  lemma SphereLayout(surface: SurfaceMap, radius: real, color: Vec3)
    ensures LaidOut(SphereVertices(surface, radius, color), VertexCount, surface, radius, color)
  {
    StacksLaidOut(surface, radius, color, Stacks);
  }

  /** A laid-out buffer of 600 vertices draws every (stack, sector) quad as its two triangles. */
  lemma LaidOutQuads(buffer: seq<real>, surface: SurfaceMap, radius: real, color: Vec3)
    requires LaidOut(buffer, VertexCount, surface, radius, color)
    ensures forall i, j :: 0 <= i < Stacks && 0 <= j < Sectors ==> QuadCovers(buffer, surface, radius, i, j)
  {
    forall i, j | 0 <= i < Stacks && 0 <= j < Sectors
      ensures QuadCovers(buffer, surface, radius, i, j)
    {
      CornerOfQuad(surface, radius, i, j, 0);
      CornerOfQuad(surface, radius, i, j, 1);
      CornerOfQuad(surface, radius, i, j, 2);
      CornerOfQuad(surface, radius, i, j, 3);
      CornerOfQuad(surface, radius, i, j, 4);
      CornerOfQuad(surface, radius, i, j, 5);
    }
  }

  /** A vertex count and per-vertex contents determine a buffer completely. */
  lemma LaidOutUnique(a: seq<real>, b: seq<real>, n: nat, surface: SurfaceMap, radius: real, color: Vec3)
    requires LaidOut(a, n, surface, radius, color) && LaidOut(b, n, surface, radius, color)
    ensures a == b
  {
    forall k | 0 <= k < |a|
      ensures a[k] == b[k]
    {
      var v := k / 6;
      assert VertexPosition(a, v) == VertexPosition(b, v);
      assert VertexColor(a, v) == VertexColor(b, v);
    }
  }

  /** The quad-by-quad construction is the one buffer that lays out the sphere's 600 vertices. */
  lemma SphereVerticesUnique(buffer: seq<real>, surface: SurfaceMap, radius: real, color: Vec3)
    requires LaidOut(buffer, VertexCount, surface, radius, color)
    ensures buffer == SphereVertices(surface, radius, color)
  {
    SphereLayout(surface, radius, color);
    LaidOutUnique(buffer, SphereVertices(surface, radius, color), VertexCount, surface, radius, color);
  }

  /** Every (stack, sector) quad of the sphere mesh is drawn as its two triangles. */
  lemma SphereQuads(surface: SurfaceMap, radius: real, color: Vec3)
    ensures |SphereVertices(surface, radius, color)| == 6 * VertexCount
    ensures forall i, j :: 0 <= i < Stacks && 0 <= j < Sectors ==>
              QuadCovers(SphereVertices(surface, radius, color), surface, radius, i, j)
  {
    SphereLayout(surface, radius, color);
    LaidOutQuads(SphereVertices(surface, radius, color), surface, radius, color);
  }

  /** An in-order element buffer is determined by its length. */
  lemma InOrderUnique(a: seq<nat>, b: seq<nat>, n: nat)
    requires InOrder(a, n) && InOrder(b, n)
    ensures a == b
  {
  }

  /**
   * Every index of an in-order element buffer over a buffer of n vertices
   * names a vertex that exists, so drawing all the indices stays in range.
   */
  lemma IndicesInRange(indices: seq<nat>, buffer: seq<real>, n: nat)
    requires InOrder(indices, n) && |buffer| == 6 * n
    ensures |indices| == |buffer| / 6
    ensures forall k :: 0 <= k < |indices| ==> indices[k] < |buffer| / 6
  {
    DivMod(|buffer|, 6, n, 0);
  }

  /** Where a body at p moving with velocity v is after dt units of simulation time. */
  function Moved(p: Vec3, v: Vec3, dt: real): Vec3
  {
    p.Plus(v.Scale(dt))
  }

  /** Moving for no time leaves a body where it is. */
  lemma MovedZero(p: Vec3, v: Vec3)
    ensures Moved(p, v, 0.0) == p
  {
  }

  /** Two moves at the same velocity add up to one move for the total time. */
  lemma MovedAdditive(p: Vec3, v: Vec3, a: real, b: real)
    ensures Moved(Moved(p, v, a), v, b) == Moved(p, v, a + b)
  {
    assert v.x * a + v.x * b == v.x * (a + b);
    assert v.y * a + v.y * b == v.y * (a + b);
    assert v.z * a + v.z * b == v.z * (a + b);
  }

  /** The velocity after a force acts on a body of the given mass, without a time step. */
  function Accelerated(v: Vec3, force: Vec3, mass: real): Vec3
    requires mass != 0.0
  {
    v.Plus(force.Div(mass))
  }

  /** Applying two forces one after the other is applying their sum. */
  lemma AcceleratedAdditive(v: Vec3, f: Vec3, g: Vec3, mass: real)
    requires mass != 0.0
    ensures Accelerated(Accelerated(v, f, mass), g, mass) == Accelerated(v, f.Plus(g), mass)
  {
    assert f.x / mass + g.x / mass == (f.x + g.x) / mass;
    assert f.y / mass + g.y / mass == (f.y + g.y) / mass;
    assert f.z / mass + g.z / mass == (f.z + g.z) / mass;
  }

  /** A physics body (Body.h). The GPU handles (VAO, VBO, EBO) are not modelled. */
  class Body {
    var Position: Vec3
    var Color: Vec3
    var Velocity: Vec3
    var Mass: real
    var Radius: real
    var Glows: bool
    /** m_ModelMatrix, which only ever holds a translation: this is that translation. */
    var ModelTranslation: Vec3
    var Vertices: seq<real>
    var Indices: seq<nat>

    /**
     * Body(pos, vel, mass, radius, color): stores the fields, runs Update(0) and
     * builds the sphere mesh. Glows is not set by this constructor.
     */
    constructor (pos: Vec3, vel: Vec3, mass: real, radius: real, color: Vec3, surface: SurfaceMap)
      ensures Position == pos && Velocity == vel && Mass == mass && Radius == radius && Color == color
      ensures ModelTranslation == pos
      ensures LaidOut(Vertices, VertexCount, surface, radius, color)
      ensures InOrder(Indices, VertexCount)
    {
      Position, Velocity, Mass, Radius, Color := pos, vel, mass, radius, color;
      ModelTranslation := Vec3(0.0, 0.0, 0.0);
      Vertices, Indices := [], [];
      new;
      Update(0.0);
      GenerateVertices(surface);
    }

    /** Adds force / Mass to the velocity (no time step is applied here). */
    method Accelerate(force: Vec3)
      requires Mass != 0.0
      modifies this`Velocity
      ensures Velocity == Accelerated(old(Velocity), force, Mass)
    {
      var acceleration := force.Div(Mass);
      Velocity := Velocity.Plus(acceleration);
    }

    /** Moves the body by Velocity * simSpeed and re-derives the model translation. */
    method Update(simSpeed: real)
      modifies this`Position, this`ModelTranslation
      ensures Position == Moved(old(Position), Velocity, simSpeed)
      ensures ModelTranslation == Position
    {
      Position := Position.Plus(Velocity.Scale(simSpeed));
      ModelTranslation := Position;
    }

    /** operator==: equal position, velocity, mass and radius. */
    predicate Equals(other: Body)
      reads this, other
    {
      Position == other.Position && Velocity == other.Velocity && Mass == other.Mass && Radius == other.Radius
    }

    /**
     * Clears both buffers and rebuilds the sphere mesh quad by quad: afterwards
     * the vertex buffer holds the 600 laid-out vertices and the element buffer
     * draws them in order.
     */
    method GenerateVertices(surface: SurfaceMap)
      modifies this`Vertices, this`Indices
      ensures LaidOut(Vertices, VertexCount, surface, Radius, Color)
      ensures InOrder(Indices, VertexCount)
    {
      Vertices := [];
      Indices := [];
      var stacks, sectors := Stacks, Sectors;
      var i := 0;
      while i < stacks
        invariant 0 <= i <= stacks
        invariant LaidOut(Vertices, 6 * (10 * i), surface, Radius, Color)
        invariant InOrder(Indices, 6 * (10 * i))
      {
        var j := 0;
        while j < sectors
          invariant 0 <= j <= sectors
          invariant LaidOut(Vertices, 6 * (10 * i + j), surface, Radius, Color)
          invariant InOrder(Indices, 6 * (10 * i + j))
        {
          InsertQuad(surface, i, j);
          j := j + 1;
        }
        i := i + 1;
      }
    }

    /**
     * One pass of the inner loop of GenerateVertices: appends the two
     * triangles of quad (i, j) to the vertex buffer and their six indices,
     * numbered from the vertex count before the pass, to the element buffer.
     */
    method InsertQuad(surface: SurfaceMap, i: nat, j: nat)
      requires j < Sectors
      requires LaidOut(Vertices, 6 * (10 * i + j), surface, Radius, Color)
      requires InOrder(Indices, 6 * (10 * i + j))
      modifies this`Vertices, this`Indices
      ensures Vertices == AppendQuad(old(Vertices), surface, Radius, Color, i, j)
      ensures LaidOut(Vertices, 6 * (10 * i + j) + 6, surface, Radius, Color)
      ensures InOrder(Indices, 6 * (10 * i + j) + 6)
    {
      ghost var n := 6 * (10 * i + j);
      var v1 := surface(Radius, i, j);
      var v2 := surface(Radius, i, j + 1);
      var v3 := surface(Radius, i + 1, j);
      var v4 := surface(Radius, i + 1, j + 1);

      assert |Vertices| / 6 == n by {
        DivMod(|Vertices|, 6, n, 0);
      }
      var base: nat := |Vertices| / 6;
      QuadLaysOut(Vertices, surface, Radius, Color, i, j);
      InOrderPush(Indices, n);

      // Triangle 1: v1-v2-v3
      Vertices := Vertices + VertexFloats(v1, Color);
      Vertices := Vertices + VertexFloats(v2, Color);
      Vertices := Vertices + VertexFloats(v3, Color);

      // Triangle 2: v2-v4-v3
      Vertices := Vertices + VertexFloats(v2, Color);
      Vertices := Vertices + VertexFloats(v4, Color);
      Vertices := Vertices + VertexFloats(v3, Color);

      Indices := Indices + [base, base + 1, base + 2, base + 3, base + 4, base + 5];
    }
  }

  /** operator== is reflexive, symmetric and transitive over the real-valued fields. */
  lemma EqualsIsEquivalence(a: Body, b: Body, c: Body)
    ensures a.Equals(a)
    ensures a.Equals(b) <==> b.Equals(a)
    ensures a.Equals(b) && b.Equals(c) ==> a.Equals(c)
  {
  }

  /** Colour, glow flag, mesh and model matrix never take part in operator==. */
  lemma EqualsIgnoresAppearance(a: Body, b: Body)
    requires a.Position == b.Position && a.Velocity == b.Velocity
    requires a.Mass == b.Mass && a.Radius == b.Radius
    ensures a.Equals(b)
  {
  }
}
