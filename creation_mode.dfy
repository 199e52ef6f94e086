/**
 * The editor's creation mode for the polygon-based polyhedron: clicks place the
 * polygon's points, a click on the first point's hit box or the confirm key
 * switches to setting the height, and a further click or key finishes the object.
 *
 * What the viewport computes is handed in: whether the mouse is in relative
 * mode, the mouse position, the surface position under the cursor (`probe`), the
 * ray/plane intersection (`intersect`), the screen projection (`project`), the
 * camera position and the vector length `length` (a square root).
 */
module CreationMode {
  import opened Options
  import opened Vectors
  import opened Polyhedron

  datatype MouseButton = Left | Right | Middle
  datatype Key = Space | Return | Escape | OtherKey(code: int)

  /** An axis-aligned screen rectangle, in viewport-relative coordinates. */
  datatype Rectangle = Rectangle(left: real, top: real, right: real, bottom: real) {
    /** Edges included. */
    predicate Contains(p: Vec2) {
      left <= p.x <= right && top <= p.y <= bottom
    }
  }

  /** Size in pixels of the first point's hit box at distance 0 and at the far limit. */
  const MaxSizePixels: real := 20.0
  const MinSizePixels: real := 5.0
  /** Beyond this camera distance the first point gets no hit box. */
  const MaxDistance: real := 100.0

  /**
   * The hit box's size in pixels: interpolated linearly from the largest size at
   * the camera down to the smallest at the far limit.
   */
  function SizeInPixels(distance: real): (s: real)
    ensures distance == 0.0 ==> s == MaxSizePixels
    ensures 0.0 <= distance ==> s <= MaxSizePixels
    ensures distance < MaxDistance ==> MinSizePixels < s
    ensures distance == MaxDistance ==> s == MinSizePixels
  {
    MaxSizePixels + (MinSizePixels - MaxSizePixels) * (distance / MaxDistance)
  }

  /** A farther first point never gets a larger hit box. */
  lemma HitBoxShrinksWithDistance(near: real, far: real)
    requires near <= far
    ensures SizeInPixels(far) <= SizeInPixels(near)
  {
  }

  /**
   * The hit box of the first point, centred on its screen position, 1.5 times the
   * interpolated pixel size, or none when the point is at or beyond the far limit.
   */
  function StartPointRectangle(screen: Vec2, distance: real, viewport: Vec2): (r: Option<Rectangle>)
    requires viewport.x > 0.0 && viewport.y > 0.0
    ensures r.Some? <==> distance < MaxDistance
    ensures r.Some? ==> r.value.Contains(screen)
    ensures r.Some? ==> r.value.left + r.value.right == 2.0 * screen.x && r.value.top + r.value.bottom == 2.0 * screen.y
    ensures r.Some? ==> r.value.right - r.value.left == 1.5 * (SizeInPixels(distance) / viewport.x)
    ensures r.Some? ==> r.value.bottom - r.value.top == 1.5 * (SizeInPixels(distance) / viewport.y)
  {
    if distance < MaxDistance then
      var size := SizeInPixels(distance);
      var w := size / viewport.x * 1.5;
      var h := size / viewport.y * 1.5;
      Some(Rectangle(screen.x - w * 0.5, screen.y - h * 0.5, screen.x + w * 0.5, screen.y + h * 0.5))
    else
      None
  }

  /** The surface point under the cursor, which is never looked up in relative mouse mode. */
  function CalculatePointPosition(relative: bool, probe: Option<Vec3>): (r: Option<Vec3>)
    ensures relative ==> r.None?
    ensures !relative ==> r == probe
  {
    if !relative then probe else None
  }

  /** `n` scaled to length 1 by its length `len`; the zero vector has no direction. */
  function Normalize(n: Vec3, len: real): Vec3 {
    if len != 0.0 then Div(n, len) else n
  }

  /**
   * The clockwise heuristic for the third point: the camera is strictly nearer to
   * the first point than to the first point moved along the polygon's unit
   * normal. Three collinear points have no normal and never pass.
   */
  function CameraNearerThanNormalTip(p0: Vec3, p1: Vec3, p2: Vec3, camera: Vec3, length: Vec3 -> real): (r: bool)
    ensures Collinear(p0, p1, p2) ==> !r
  {
    NormalZeroIffCollinear(p0, p1, p2);
    var normal := Normalize(PolygonNormal(p0, p1, p2), length(PolygonNormal(p0, p1, p2)));
    var d1 := length(Sub(p0, camera));
    var d2 := length(Sub(Add(p0, normal), camera));
    assert PolygonNormal(p0, p1, p2) == Zero ==> Add(p0, normal) == p0;
    d1 < d2
  }

  /**
   * Where a click while placing points puts the next point: nowhere in relative
   * mouse mode; on the polygon's plane under the cursor once three points exist;
   * on the surface under the cursor before that.
   */
  function PlacedPosition(ps: seq<Vec3>, relative: bool, mouse: Vec2, probe: Option<Vec3>,
                          intersect: (Plane, Vec2) -> Option<Vec3>): (r: Option<Vec3>)
    ensures relative ==> r.None?
    ensures !relative && |ps| < 3 ==> r == probe
    ensures !relative && |ps| >= 3 ==> r == intersect(PlaneByPoints(ps), mouse)
  {
    if relative then None
    else if |ps| >= 3 then intersect(PlaneByPoints(ps), mouse)
    else CalculatePointPosition(relative, probe)
  }

  /**
   * Every point lies on the plane of the first three (vacuous below three points).
   * When the first three are collinear that plane has a zero normal and holds every
   * point, so planarity then says nothing.
   */
  ghost predicate Planar(ps: seq<Vec3>) {
    forall i :: 0 <= i < |ps| ==> |ps| < 3 || OnPlane(PlaneByPoints(ps), ps[i])
  }

  /** The ray/plane intersection only reports points on the plane it was given. */
  ghost predicate HitsOnPlane(intersect: (Plane, Vec2) -> Option<Vec3>) {
    forall pl, m :: intersect(pl, m).Some? ==> OnPlane(pl, intersect(pl, m).value)
  }

  /**
   * A polygon stays planar under point placement: the third point completes the
   * plane, and every later point is a hit on the plane of the first three.
   */
  lemma PlacementKeepsPolygonPlanar(ps: seq<Vec3>, q: Vec3)
    requires Planar(ps)
    requires |ps| >= 3 ==> OnPlane(PlaneByPoints(ps), q)
    ensures Planar(ps + [q])
  {
  }

  /** Adds up the points front to back, as Finish does before dividing by their number. */
  method Accumulate(points: array<Vec3>) returns (position: Vec3)
    ensures position == Sum(points[..])
  {
    position := Zero;
    var n := 0;
    while n < points.Length
      invariant 0 <= n <= points.Length
      invariant position == Sum(points[..n])
    {
      assert points[..n + 1][..n] == points[..n];
      position := Add(position, points[n]);
      n := n + 1;
    }
    assert points[..points.Length] == points[..];
  }

  /** Where Finish moves the mesh in space: to the mean of the points, if there are any. */
  function FinishedTransform(ps: seq<Vec3>, t: Transform): (r: Transform)
    ensures ps == [] ==> r == t
    ensures ps != [] ==> r.position == Centroid(ps) && r.rotation == Identity && r.scale == One
  {
    if ps == [] then t else At(Centroid(ps))
  }

  /** The creation mode's own fields, as one value. */
  datatype SessionState = SessionState(
    lastStartPointRectangle: Option<Rectangle>,
    heightStage: bool,
    heightStagePosition: Vec3,
    finished: Option<bool>)

  class CreationModePolyhedron {
    /** The first point's hit box as last drawn, if it was. */
    var lastStartPointRectangle: Option<Rectangle>
    /** False while placing points, true while setting the height. */
    var heightStage: bool
    /** The surface point under the cursor when the height stage began. */
    var heightStagePosition: Vec3
    /**
     * Set by Finish: Some(cancel). Finishing ends the mode, so the event handlers
     * are only ever called while this is None.
     */
    var finished: Option<bool>
    /** The mesh in space being created, and the polyhedron geometry under it. */
    const creatingObject: MeshInSpace
    const geometry: Geometry

    function Session(): SessionState
      reads this
    {
      SessionState(lastStartPointRectangle, heightStage, heightStagePosition, finished)
    }

    ghost predicate Valid()
      reads this, geometry
    {
      geometry.meshInSpace == creatingObject
    }

    /** The polygon as the geometry's Point children give it. */
    ghost function Points(): seq<Vec3>
      reads this, geometry
    {
      PointPositions(geometry.children)
    }

    /**
     * Starts a session on a new mesh in space: places the first point under the
     * cursor, or at the mesh in space's own position when nothing is there.
     */
    constructor (creatingObject: MeshInSpace, geometry: Geometry, relative: bool, probe: Option<Vec3>)
      requires geometry.meshInSpace == creatingObject
      modifies geometry
      ensures Valid() && this.creatingObject == creatingObject && this.geometry == geometry
      ensures Session() == SessionState(None, false, Zero, None)
      ensures var position := CalculatePointPosition(relative, probe);
        var at := if position.Some? then position.value else creatingObject.transform.position;
        && geometry.State() == old(geometry.State()).(
          children := old(geometry.children) + [NewPoint(old(geometry.children), at)],
          recompileRequested := true)
        && Points() == old(PointPositions(geometry.children)) + [at]
    {
      this.creatingObject := creatingObject;
      this.geometry := geometry;
      lastStartPointRectangle := None;
      heightStage := false;
      heightStagePosition := Zero;
      finished := None;
      new;
      var position := creatingObject.transform.position;
      var position2 := CalculatePointPosition(relative, probe);
      if position2.Some? {
        position := position2.value;
      }
      geometry.CreatePoint(position);
    }

    /** Enters the height stage, anchored at the surface point under the cursor if there is one. */
    method HeightStageStart(relative: bool, probe: Option<Vec3>)
      modifies this
      ensures var position := CalculatePointPosition(relative, probe);
        Session() == old(Session()).(heightStage := true,
          heightStagePosition := if position.Some? then position.value else old(heightStagePosition))
    {
      heightStage := true;
      var position := CalculatePointPosition(relative, probe);
      if position.Some? {
        heightStagePosition := position.value;
      }
    }

    /**
     * Ends the session. Unless cancelled, the mesh in space moves to the mean of
     * the points and the mesh is rebuilt; a cancel changes neither.
     */
    method Finish(cancel: bool)
      requires Valid()
      modifies this, geometry, creatingObject
      ensures Session() == old(Session()).(finished := Some(cancel))
      ensures cancel ==> (geometry.State() == old(geometry.State())
        && creatingObject.transform == old(creatingObject.transform))
      ensures !cancel ==> (geometry.State() == old(geometry.State()).(recompileRequested := true)
        && creatingObject.transform == FinishedTransform(old(Points()), old(creatingObject.transform)))
    {
      if !cancel {
        var points := geometry.GetPointPositions();
        if points.Length != 0 {
          var position := Accumulate(points);
          position := Div(position, points.Length as real);
          geometry.SetMeshInSpaceTransform(At(position));
        }
        geometry.ShouldRecompileMesh();
      }
      finished := Some(cancel);
    }

    /**
     * A mouse click. Only the left button does anything: in the height stage it
     * finishes; on the first point's hit box it starts the height stage; otherwise
     * it adds a point where PlacedPosition says, if anywhere, and when that point is
     * the third it may turn Clockwise on (never off). Handled exactly when
     * something happened.
     */
    method OnMouseDown(button: MouseButton, mouse: Vec2, relative: bool, probe: Option<Vec3>,
                       intersect: (Plane, Vec2) -> Option<Vec3>, camera: Vec3, length: Vec3 -> real)
      returns (handled: bool)
      requires Valid() && finished.None?
      modifies this, geometry, creatingObject
      ensures button != Left ==> (!handled && Session() == old(Session())
        && geometry.State() == old(geometry.State()) && creatingObject.transform == old(creatingObject.transform))
      ensures button == Left && old(heightStage) ==> (handled
        && Session() == old(Session()).(finished := Some(false))
        && geometry.State() == old(geometry.State()).(recompileRequested := true)
        && creatingObject.transform == FinishedTransform(old(Points()), old(creatingObject.transform)))
      ensures button == Left && !old(heightStage) && OverStartPoint(old(lastStartPointRectangle), mouse) ==>
        var position := CalculatePointPosition(relative, probe);
        && handled
        && Session() == old(Session()).(heightStage := true,
          heightStagePosition := if position.Some? then position.value else old(heightStagePosition))
        && geometry.State() == old(geometry.State()) && creatingObject.transform == old(creatingObject.transform)
      ensures button == Left && !old(heightStage) && !OverStartPoint(old(lastStartPointRectangle), mouse) ==>
        var ps := old(Points());
        var position := PlacedPosition(ps, relative, mouse, probe, intersect);
        && handled == position.Some?
        && Session() == old(Session()) && creatingObject.transform == old(creatingObject.transform)
        && (position.None? ==> geometry.State() == old(geometry.State()))
        && (position.Some? ==>
          && geometry.State() == old(geometry.State()).(
            children := old(geometry.children) + [NewPoint(old(geometry.children), position.value)],
            recompileRequested := true,
            clockwise := old(geometry.clockwise)
              || (|ps| == 2 && CameraNearerThanNormalTip(ps[0], ps[1], position.value, camera, length)))
          && Points() == ps + [position.value])
      ensures HitsOnPlane(intersect) && Planar(old(Points())) ==> Planar(Points())
    {
      handled := false;
      if button == Left {
        var overStartPoint := !heightStage && OverStartPoint(lastStartPointRectangle, mouse);
        if heightStage {
          Finish(false);
          handled := true;
        } else if overStartPoint {
          HeightStageStart(relative, probe);
          handled := true;
        } else {
          handled := PlacePoint(mouse, relative, probe, intersect, camera, length);
        }
      }
    }

    /**
     * A click while placing points, off the first point's hit box: adds a point
     * where PlacedPosition says, if anywhere; when that point is the third, the
     * clockwise heuristic may turn Clockwise on, never off.
     */
    method PlacePoint(mouse: Vec2, relative: bool, probe: Option<Vec3>,
                      intersect: (Plane, Vec2) -> Option<Vec3>, camera: Vec3, length: Vec3 -> real)
      returns (handled: bool)
      modifies geometry
      ensures var ps := old(Points());
        var position := PlacedPosition(ps, relative, mouse, probe, intersect);
        && handled == position.Some?
        && Session() == old(Session()) && creatingObject.transform == old(creatingObject.transform)
        && (position.None? ==> geometry.State() == old(geometry.State()))
        && (position.Some? ==>
          && geometry.State() == old(geometry.State()).(
            children := old(geometry.children) + [NewPoint(old(geometry.children), position.value)],
            recompileRequested := true,
            clockwise := old(geometry.clockwise)
              || (|ps| == 2 && CameraNearerThanNormalTip(ps[0], ps[1], position.value, camera, length)))
          && Points() == ps + [position.value])
      ensures HitsOnPlane(intersect) && Planar(old(Points())) ==> Planar(Points())
    {
      handled := false;
      ghost var ps := Points();
      var points := PointsOf(geometry.children);
      if !relative {
        if |points| >= 3 {
          handled := AddPointOnPlane(mouse, intersect);
        } else {
          var position := CalculatePointPosition(relative, probe);
          assert position == PlacedPosition(ps, relative, mouse, probe, intersect);
          if position.Some? {
            if Planar(ps) {
              PlacementKeepsPolygonPlanar(ps, position.value);
            }
            AddPointDetectingClockwise(position.value, camera, length);
            handled := true;
          }
        }
      }
    }

    /**
     * Adds a point, once three exist, where the mouse ray meets the polygon's
     * plane, if it does; Clockwise is not touched.
     */
    method AddPointOnPlane(mouse: Vec2, intersect: (Plane, Vec2) -> Option<Vec3>) returns (handled: bool)
      requires |Points()| >= 3
      modifies geometry
      ensures var ps := old(Points());
        var position := intersect(PlaneByPoints(ps), mouse);
        && handled == position.Some?
        && (position.None? ==> geometry.State() == old(geometry.State()))
        && (position.Some? ==>
          && geometry.State() == old(geometry.State()).(
            children := old(geometry.children) + [NewPoint(old(geometry.children), position.value)],
            recompileRequested := true)
          && Points() == ps + [position.value])
      ensures HitsOnPlane(intersect) && Planar(old(Points())) ==> Planar(Points())
    {
      handled := false;
      ghost var ps := Points();
      var plane := geometry.GetPolygonPlaneByPoints();
      var position := intersect(plane, mouse);
      if position.Some? {
        if HitsOnPlane(intersect) && Planar(ps) {
          PlacementKeepsPolygonPlanar(ps, position.value);
        }
        geometry.CreatePoint(position.value);
        handled := true;
      }
    }

    /**
     * Adds a point below three points; when it is the third, Clockwise turns on
     * exactly when the heuristic holds for the new triangle, and is left alone
     * otherwise.
     */
    method AddPointDetectingClockwise(position: Vec3, camera: Vec3, length: Vec3 -> real)
      requires |Points()| < 3
      modifies geometry
      ensures var ps := old(Points());
        && geometry.State() == old(geometry.State()).(
          children := old(geometry.children) + [NewPoint(old(geometry.children), position)],
          recompileRequested := true,
          clockwise := old(geometry.clockwise)
            || (|ps| == 2 && CameraNearerThanNormalTip(ps[0], ps[1], position, camera, length)))
        && Points() == ps + [position]
    {
      ghost var ps := Points();
      ghost var detected := |ps| == 2 && CameraNearerThanNormalTip(ps[0], ps[1], position, camera, length);
      geometry.CreatePoint(position);
      var points2 := geometry.GetPointPositions();
      assert points2[..] == ps + [position];
      if points2.Length == 3 {
        assert points2[0] == ps[0] && points2[1] == ps[1] && points2[2] == position;
        var away := CameraNearerThanNormalTip(points2[0], points2[1], points2[2], camera, length);
        assert away == detected;
        if away {
          geometry.SetClockwise(true);
        }
      } else {
        assert !detected;
      }
    }

    /** Whether the mouse is on the first point's hit box, as last drawn. */
    static predicate OverStartPoint(rect: Option<Rectangle>, mouse: Vec2) {
      rect.Some? && rect.value.Contains(mouse)
    }

    /**
     * Mouse movement. In the height stage the height becomes the distance from the
     * height-stage anchor to the mouse ray (`projectToRay` gives the ray's point
     * nearest to its argument); otherwise nothing changes.
     */
    method OnMouseMove(projectToRay: Vec3 -> Vec3, length: Vec3 -> real)
      requires finished.None?
      requires forall v :: length(v) >= 0.0
      modifies geometry
      ensures !heightStage ==> geometry.State() == old(geometry.State())
      ensures heightStage ==>
        var h := length(Sub(projectToRay(heightStagePosition), heightStagePosition));
        geometry.State() == old(geometry.State()).(height := h,
          recompileRequested := old(geometry.recompileRequested) || h != old(geometry.height))
      ensures heightStage ==> geometry.height >= 0.0
    {
      if heightStage {
        var distance := length(Sub(projectToRay(heightStagePosition), heightStagePosition));
        geometry.SetHeight(distance);
      }
    }

    /**
     * A key press. Space or Return starts the height stage, or finishes when
     * already in it; Escape cancels; any other key is not handled.
     */
    method OnKeyDown(key: Key, relative: bool, probe: Option<Vec3>) returns (handled: bool)
      requires Valid() && finished.None?
      modifies this, geometry, creatingObject
      ensures handled <==> key.Space? || key.Return? || key.Escape?
      ensures (key.Space? || key.Return?) && !old(heightStage) ==>
        var position := CalculatePointPosition(relative, probe);
        && Session() == old(Session()).(heightStage := true,
          heightStagePosition := if position.Some? then position.value else old(heightStagePosition))
        && geometry.State() == old(geometry.State()) && creatingObject.transform == old(creatingObject.transform)
      ensures (key.Space? || key.Return?) && old(heightStage) ==>
        && Session() == old(Session()).(finished := Some(false))
        && geometry.State() == old(geometry.State()).(recompileRequested := true)
        && creatingObject.transform == FinishedTransform(old(Points()), old(creatingObject.transform))
      ensures key.Escape? ==> (Session() == old(Session()).(finished := Some(true))
        && geometry.State() == old(geometry.State()) && creatingObject.transform == old(creatingObject.transform))
      ensures !handled ==> (Session() == old(Session())
        && geometry.State() == old(geometry.State()) && creatingObject.transform == old(creatingObject.transform))
    {
      if key.Space? || key.Return? {
        if !heightStage {
          HeightStageStart(relative, probe);
        } else {
          Finish(false);
        }
        return true;
      }
      if key.Escape? {
        Finish(true);
        return true;
      }
      return false;
    }

    /**
     * Once per frame: recomputes the first point's hit box. There is one only while
     * placing points, with more than two points, when the first point projects onto
     * the screen and is nearer than the far limit.
     */
    method OnUpdateBeforeOutput(project: Vec3 -> Option<Vec2>, camera: Vec3, viewport: Vec2, length: Vec3 -> real)
      requires finished.None?
      requires viewport.x > 0.0 && viewport.y > 0.0
      modifies this
      ensures var ps := Points();
        Session() == old(Session()).(lastStartPointRectangle :=
          if !heightStage && |ps| > 2 && project(ps[0]).Some?
          then StartPointRectangle(project(ps[0]).value, length(Sub(ps[0], camera)), viewport)
          else None)
    {
      lastStartPointRectangle := None;
      var points := geometry.GetPointPositions();
      if !heightStage && points.Length > 2 {
        var screenPosition := project(points[0]);
        if screenPosition.Some? {
          var distance := length(Sub(points[0], camera));
          if distance < MaxDistance {
            lastStartPointRectangle := StartPointRectangle(screenPosition.value, distance, viewport);
          }
        }
      }
    }
  }
}
