/**
 * The polygon-based polyhedron mesh geometry component: its authored parameters,
 * its Point children, the recompile request that changes to them raise, the
 * subscription to the owning mesh in space's transform, and the gate in front of
 * mesh generation.
 */
module Polyhedron {
  import opened Options
  import opened Vectors

  datatype Quaternion = Quaternion(x: real, y: real, z: real, w: real)

  const Identity := Quaternion(0.0, 0.0, 0.0, 1.0)
  const One := Vec3(1.0, 1.0, 1.0)

  /** Position, rotation and scale of an object in space. */
  datatype Transform = Transform(position: Vec3, rotation: Quaternion, scale: Vec3)

  /** `new Transform(position, Quaternion.Identity)`: no rotation, unit scale. */
  function At(position: Vec3): Transform {
    Transform(position, Identity, One)
  }

  /** A component name as the scene graph's unique-name generator builds it. */
  datatype Name = Name(prefix: string, index: nat)

  /** A child component of the geometry: a Point with its transform, or anything else. */
  datatype ChildKind = PointChild(transform: Transform) | OtherChild
  datatype Child = Child(name: Name, kind: ChildKind)

  /** The Point children, in child order. */
  function PointsOf(cs: seq<Child>): (ps: seq<Child>)
    ensures |ps| <= |cs|
    ensures forall k :: 0 <= k < |ps| ==> ps[k] in cs && ps[k].kind.PointChild?
  {
    if cs == [] then []
    else
      var last := cs[|cs| - 1];
      PointsOf(cs[..|cs| - 1]) + (if last.kind.PointChild? then [last] else [])
  }

  /** The positions of the Point children, in child order. */
  function PointPositions(cs: seq<Child>): seq<Vec3> {
    var ps := PointsOf(cs);
    seq(|ps|, k requires 0 <= k < |ps| => ps[k].kind.transform.position)
  }

  /** Taking the Points of a concatenation is concatenating the Points of the parts. */
  lemma {:induction false} PointsOfConcat(a: seq<Child>, b: seq<Child>)
    ensures PointsOf(a + b) == PointsOf(a) + PointsOf(b)
  {
    if b == [] {
      assert a + b == a;
    } else {
      var n := |b|;
      assert (a + b)[..|a + b| - 1] == a + b[..n - 1];
      PointsOfConcat(a, b[..n - 1]);
    }
  }

  /** Appending a child appends a position exactly when the child is a Point. */
  lemma PointPositionsAppend(cs: seq<Child>, c: Child)
    ensures c.kind.PointChild? ==> PointPositions(cs + [c]) == PointPositions(cs) + [c.kind.transform.position]
    ensures c.kind.OtherChild? ==> PointPositions(cs + [c]) == PointPositions(cs)
  {
  }

  /**
   * Removing a child removes one Point when it was a Point, and leaves the
   * Points (and so the polygon) as they were when it was not.
   */
  lemma PointsOfRemove(cs: seq<Child>, i: nat)
    requires i < |cs|
    ensures PointsOf(cs[..i] + cs[i + 1..]) == PointsOf(cs[..i]) + PointsOf(cs[i + 1..])
    ensures cs[i].kind.OtherChild? ==> PointsOf(cs[..i] + cs[i + 1..]) == PointsOf(cs)
    ensures cs[i].kind.PointChild? ==> PointsOf(cs) == PointsOf(cs[..i]) + [cs[i]] + PointsOf(cs[i + 1..])
    ensures cs[i].kind.PointChild? ==> |PointsOf(cs[..i] + cs[i + 1..])| == |PointsOf(cs)| - 1
  {
    var pre, c, post := cs[..i], cs[i], cs[i + 1..];
    assert cs == pre + [c] + post;
    PointsOfAround(pre, c, post);
    PointsOfConcat(pre, post);
    PointsOfSingleton(c);
    if c.kind.OtherChild? {
      assert PointsOf(pre) + PointsOf([c]) == PointsOf(pre);
    }
  }

  /** The Points around one child are those before it, its own, and those after it. */
  lemma PointsOfAround(pre: seq<Child>, c: Child, post: seq<Child>)
    ensures PointsOf(pre + [c] + post) == PointsOf(pre) + PointsOf([c]) + PointsOf(post)
  {
    PointsOfConcat(pre + [c], post);
    PointsOfConcat(pre, [c]);
  }

  lemma PointsOfSingleton(c: Child)
    ensures PointsOf([c]) == if c.kind.PointChild? then [c] else []
  {
    assert [c][..0] == [];
  }

  /** The largest number used by a child name with this prefix (0 when none is). */
  function MaxIndex(cs: seq<Child>, prefix: string): (m: nat)
    ensures forall c :: c in cs && c.name.prefix == prefix ==> c.name.index <= m
  {
    if cs == [] then 0
    else
      var rest := MaxIndex(cs[..|cs| - 1], prefix);
      var last := cs[|cs| - 1];
      assert cs == cs[..|cs| - 1] + [last];
      if last.name.prefix == prefix && last.name.index > rest then last.name.index else rest
  }

  /** A name with the given prefix, numbered from 1, that no child carries yet. */
  function UniqueName(cs: seq<Child>, prefix: string): (n: Name)
    ensures n.prefix == prefix && n.index >= 1
    ensures forall c :: c in cs ==> c.name != n
  {
    Name(prefix, MaxIndex(cs, prefix) + 1)
  }

  /** The Point child the authoring session creates at `position`. */
  function NewPoint(cs: seq<Child>, position: Vec3): Child {
    Child(UniqueName(cs, "Point"), PointChild(At(position)))
  }

  /**
   * The plane of the polygon: through the first three point positions, or the
   * plane through the origin with normal Z when there are fewer than three.
   */
  function PlaneByPoints(ps: seq<Vec3>): (p: Plane)
    ensures |ps| >= 3 ==> OnPlane(p, ps[0]) && OnPlane(p, ps[1]) && OnPlane(p, ps[2])
    ensures |ps| >= 3 ==> (p.normal == Zero <==> Collinear(ps[0], ps[1], ps[2]))
    ensures |ps| < 3 ==> p == Plane(ZAxis, 0.0)
  {
    if |ps| >= 3 then FromPoints(ps[0], ps[1], ps[2])
    else FromPointAndNormal(Zero, ZAxis)
  }

  /** Once three points exist, further points never move the polygon's plane. */
  lemma PlaneFixedOnceThreePoints(ps: seq<Vec3>, extra: seq<Vec3>)
    requires |ps| >= 3
    ensures PlaneByPoints(ps + extra) == PlaneByPoints(ps)
  {
  }

  /** The vertex record layout the generated vertices are packed into. */
  datatype VertexLayout = StaticOneTexCoord

  /** Bytes in one packed record: position, normal, tangent, colour, one texture coordinate (16 floats). */
  const StaticOneTexCoordSize: nat := 16 * 4

  datatype Material = Material(name: string)

  /** The face grouping handed to the renderer: each face a run of vertex indices. */
  datatype MeshStructure = MeshStructure(faces: seq<seq<int>>)

  /** The `ref` outputs of the generation request. */
  datatype MeshOutputs = MeshOutputs(
    vertexStructure: Option<VertexLayout>,
    vertexBytes: nat,
    indices: seq<int>,
    material: Option<Material>,
    structure: Option<MeshStructure>)

  /** What the polyhedron generator hands back for a polygon (normals, tangents and UVs are not modelled). */
  datatype Generated = Generated(positions: seq<Vec3>, indices: seq<int>, faces: Option<seq<seq<int>>>)

  /** The mesh in space that owns the geometry (its grandparent), with its transform. */
  class MeshInSpace {
    var transform: Transform

    constructor (t: Transform)
      ensures transform == t
    {
      transform := t;
    }
  }

  /** Every field of a geometry component, as one value. */
  datatype GeometryState = GeometryState(
    children: seq<Child>,
    clockwise: bool,
    height: real,
    insideOut: bool,
    alwaysDisplayPointLabels: bool,
    recompileRequested: bool,
    enabledInHierarchy: bool,
    transformSubscriptions: nat)

  class Geometry {
    var children: seq<Child>
    var clockwise: bool
    var height: real
    var insideOut: bool
    var alwaysDisplayPointLabels: bool
    /** Raised by ShouldRecompileMesh; the mesh is rebuilt lazily on the next request. */
    var recompileRequested: bool
    var enabledInHierarchy: bool
    /** How many times the transform-changed handler is registered with the mesh in space. */
    var transformSubscriptions: nat
    /** The grandparent when it is a mesh in space, null otherwise. */
    const meshInSpace: MeshInSpace?

    function State(): GeometryState
      reads this
    {
      GeometryState(children, clockwise, height, insideOut, alwaysDisplayPointLabels,
                    recompileRequested, enabledInHierarchy, transformSubscriptions)
    }

    /** The handler is registered exactly once while enabled under a mesh in space, and never otherwise. */
    ghost predicate Valid()
      reads this
    {
      transformSubscriptions == (if meshInSpace != null && enabledInHierarchy then 1 else 0)
    }

    /** A fresh, disabled geometry with the default parameter values and no children. */
    constructor (meshInSpace: MeshInSpace?)
      ensures Valid() && this.meshInSpace == meshInSpace
      ensures State() == GeometryState([], false, 0.0, false, false, false, false, 0)
    {
      children := [];
      clockwise, height, insideOut, alwaysDisplayPointLabels := false, 0.0, false, false;
      recompileRequested := false;
      enabledInHierarchy, transformSubscriptions := false, 0;
      this.meshInSpace := meshInSpace;
    }

    /** Asks for the mesh to be rebuilt on the next request. */
    method ShouldRecompileMesh()
      modifies this
      ensures State() == old(State()).(recompileRequested := true)
    {
      recompileRequested := true;
    }

    method SetClockwise(value: bool)
      modifies this
      ensures State() == old(State()).(clockwise := value,
        recompileRequested := old(recompileRequested) || value != old(clockwise))
    {
      if value != clockwise {
        clockwise := value;
        recompileRequested := true;
      }
    }

    method SetHeight(value: real)
      modifies this
      ensures State() == old(State()).(height := value,
        recompileRequested := old(recompileRequested) || value != old(height))
    {
      if value != height {
        height := value;
        recompileRequested := true;
      }
    }

    method SetInsideOut(value: bool)
      modifies this
      ensures State() == old(State()).(insideOut := value,
        recompileRequested := old(recompileRequested) || value != old(insideOut))
    {
      if value != insideOut {
        insideOut := value;
        recompileRequested := true;
      }
    }

    /** Only changes how labels are shown: the mesh is not recompiled. */
    method SetAlwaysDisplayPointLabels(value: bool)
      modifies this
      ensures State() == old(State()).(alwaysDisplayPointLabels := value)
    {
      alwaysDisplayPointLabels := value;
    }

    /** A child is added; only a Point child asks for a recompile. */
    method AddComponent(c: Child)
      modifies this
      ensures State() == old(State()).(children := old(children) + [c],
        recompileRequested := old(recompileRequested) || c.kind.PointChild?)
      ensures c.kind.PointChild? ==> PointPositions(children) == old(PointPositions(children)) + [c.kind.transform.position]
      ensures c.kind.OtherChild? ==> PointPositions(children) == old(PointPositions(children))
    {
      PointPositionsAppend(children, c);
      children := children + [c];
      if c.kind.PointChild? {
        recompileRequested := true;
      }
    }

    /** The child at `i` is removed; only a Point child asks for a recompile. */
    method RemoveComponent(i: nat)
      requires i < |children|
      modifies this
      ensures State() == old(State()).(children := old(children[..i] + children[i + 1..]),
        recompileRequested := old(recompileRequested) || old(children[i]).kind.PointChild?)
      ensures old(children[i]).kind.OtherChild? ==> PointsOf(children) == old(PointsOf(children))
      ensures old(children[i]).kind.PointChild? ==> |PointsOf(children)| == old(|PointsOf(children)|) - 1
    {
      PointsOfRemove(children, i);
      var removed := children[i];
      children := children[..i] + children[i + 1..];
      if removed.kind.PointChild? {
        recompileRequested := true;
      }
    }

    /** The Point at child index `i` gets a new transform; a change asks for a recompile. */
    method SetPointTransform(i: nat, t: Transform)
      requires i < |children| && children[i].kind.PointChild?
      modifies this
      ensures State() == old(State()).(
        children := old(children)[i := Child(old(children[i]).name, PointChild(t))],
        recompileRequested := old(recompileRequested) || t != old(children[i].kind.transform))
    {
      if t != children[i].kind.transform {
        children := children[i := Child(children[i].name, PointChild(t))];
        recompileRequested := true;
      }
    }

    /**
     * Creates a Point child with a fresh "Point" name at `position` and enables it:
     * one more polygon vertex, at the end.
     */
    method CreatePoint(position: Vec3)
      modifies this
      ensures State() == old(State()).(children := old(children) + [NewPoint(old(children), position)],
        recompileRequested := true)
      ensures PointPositions(children) == old(PointPositions(children)) + [position]
      ensures forall c :: c in old(children) ==> c.name != children[|children| - 1].name
    {
      AddComponent(NewPoint(children, position));
    }

    /** The enabled-in-hierarchy flag changes: the handler is registered or unregistered. */
    method SetEnabledInHierarchy(value: bool)
      requires Valid()
      modifies this
      ensures Valid()
      ensures State() == old(State()).(enabledInHierarchy := value,
        transformSubscriptions := if meshInSpace != null && value then 1 else 0)
    {
      if value != enabledInHierarchy {
        enabledInHierarchy := value;
        OnEnabledInHierarchyChanged();
      }
    }

    /** Adds the handler to the event when enabled, removes one registration when not. */
    method OnEnabledInHierarchyChanged()
      modifies this`transformSubscriptions
      ensures meshInSpace == null ==> transformSubscriptions == old(transformSubscriptions)
      ensures meshInSpace != null && enabledInHierarchy ==> transformSubscriptions == old(transformSubscriptions) + 1
      ensures meshInSpace != null && !enabledInHierarchy ==>
        transformSubscriptions == if old(transformSubscriptions) == 0 then 0 else old(transformSubscriptions) - 1
    {
      if meshInSpace != null {
        if enabledInHierarchy {
          transformSubscriptions := transformSubscriptions + 1;
        } else if transformSubscriptions > 0 {
          transformSubscriptions := transformSubscriptions - 1;
        }
      }
    }

    /**
     * The mesh in space gets a new transform; when it changes, each registered
     * handler asks for a recompile. A disabled geometry is left as it was.
     */
    method SetMeshInSpaceTransform(t: Transform)
      requires meshInSpace != null
      modifies this, meshInSpace
      ensures meshInSpace.transform == t
      ensures State() == old(State()).(recompileRequested := old(recompileRequested)
        || (t != old(meshInSpace.transform) && transformSubscriptions > 0))
    {
      if t != meshInSpace.transform {
        meshInSpace.transform := t;
        if transformSubscriptions > 0 {
          recompileRequested := true;
        }
      }
    }

    /** A new array with the position of every Point child, same length and order as the Points. */
    method GetPointPositions() returns (result: array<Vec3>)
      ensures result.Length == |PointsOf(children)|
      ensures forall k :: 0 <= k < result.Length ==> result[k] == PointsOf(children)[k].kind.transform.position
      ensures result[..] == PointPositions(children)
    {
      var points := PointsOf(children);
      result := new Vec3[|points|];
      var n := 0;
      while n < |points|
        invariant 0 <= n <= |points| == result.Length
        invariant forall k :: 0 <= k < n ==> result[k] == points[k].kind.transform.position
      {
        result[n] := points[n].kind.transform.position;
        n := n + 1;
      }
    }

    function GetPolygonPlaneByPoints(): Plane
      reads this
    {
      PlaneByPoints(PointPositions(children))
    }

    /**
     * Fills the outputs only when the geometry sits under a mesh in space and has
     * at least three points; otherwise every output is left as it came in. The
     * material is never touched, and the face structure only when the generator
     * reports faces.
     */
    method GetProceduralGeneratedData(outputs: MeshOutputs, vertexSize: nat,
                                      generate: (seq<Vec3>, bool, real, bool) -> Generated)
      returns (r: MeshOutputs)
      requires meshInSpace != null && |PointsOf(children)| >= 3 ==> vertexSize == StaticOneTexCoordSize
      ensures !(meshInSpace != null && |PointsOf(children)| >= 3) ==> r == outputs
      ensures meshInSpace != null && |PointsOf(children)| >= 3 ==>
        var g := generate(PointPositions(children), clockwise, height, insideOut);
        && r.vertexStructure == Some(StaticOneTexCoord)
        && r.vertexBytes == StaticOneTexCoordSize * |g.positions|
        && r.indices == g.indices
        && r.material == outputs.material
        && r.structure == (if g.faces.Some? then Some(MeshStructure(g.faces.value)) else outputs.structure)
    {
      var points := GetPointPositions();
      r := outputs;
      if meshInSpace != null && points.Length >= 3 {
        r := r.(vertexStructure := Some(StaticOneTexCoord));
        var g := generate(points[..], clockwise, height, insideOut);
        r := r.(indices := g.indices);
        if g.faces.Some? {
          r := r.(structure := Some(MeshStructure(g.faces.value)));
        }
        r := r.(vertexBytes := vertexSize * |g.positions|);
      }
    }
  }
}
