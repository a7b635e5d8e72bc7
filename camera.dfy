/**
 * The orbit camera: position, target and up vector, the projection
 * settings, the snapshot `reset` returns to, and the two matrix caches with
 * their dirty flags. The cached matrices are functions of the current state
 * (lookAt for the view, perspective or ortho for the projection); a cache
 * whose flag is clear always equals its function.
 */
module CameraModel {
  import opened Geometry

  datatype ProjectionType = Perspective | Orthographic

  /** The view matrix of a camera state: lookAt(position, target, up). */
  function ViewOf(position: Vec3, target: Vec3, up: Vec3): Mat4 {
    LookAtMatrix(position, target, up)
  }

  /**
   * The projection matrix of a camera state: a perspective frustum, or an
   * orthographic box whose half height is far * tan(fov / 2) and whose half
   * width is that times the aspect ratio.
   */
  function ProjectionOf(kind: ProjectionType, fov: real, aspect: real, nearPlane: real, farPlane: real): Mat4 {
    if kind == Perspective then PerspectiveMatrix(fov, aspect, nearPlane, farPlane)
    else OrthoBox(HalfWidth(fov, aspect, farPlane), HalfHeight(fov, farPlane), nearPlane, farPlane)
  }

  /** The half height of the orthographic box: far * tan(fov / 2), with fov in degrees. */
  function HalfHeight(fov: real, farPlane: real): real {
    farPlane * Tan(DegreesToRadians(fov * 0.5))
  }

  /** The half width of the orthographic box: the half height times the aspect ratio. */
  function HalfWidth(fov: real, aspect: real, farPlane: real): real {
    HalfHeight(fov, farPlane) * aspect
  }

  /** ortho(-w, w, -h, h, near, far). */
  function OrthoBox(halfWidth: real, halfHeight: real, nearPlane: real, farPlane: real): Mat4 {
    OrthoMatrix(-halfWidth, halfWidth, -halfHeight, halfHeight, nearPlane, farPlane)
  }

  /** The lowest distance zoom keeps from the target. */
  const MinZoomDistance: real := 0.1
  /** The fraction of the distance one unit of zoom removes. */
  const ZoomSpeed: real := 0.1
  /** The polar angle orbit keeps away from either pole. */
  const PolarMargin: real := 0.1
  /** Radians per unit of orbit input. */
  const OrbitSpeed: real := 0.01
  /** Distance fraction per unit of pan input. */
  const PanSpeed: real := 0.001

  /**
   * The distance zoom moves to: the distance scaled by 1 - 0.1 delta, and
   * never below 0.1 (qMax(0.1, scaled)).
   */
  function ZoomDistance(distance: real, delta: real): (r: real)
    ensures r >= MinZoomDistance
    ensures r >= distance * (1.0 - delta * ZoomSpeed)
    ensures r == MinZoomDistance || r == distance * (1.0 - delta * ZoomSpeed)
  {
    QMax(MinZoomDistance, distance * (1.0 - delta * ZoomSpeed))
  }

  /** Zooming further in (a larger delta) never leaves the camera farther away. */
  lemma ZoomMonotone(distance: real, delta1: real, delta2: real)
    requires 0.0 <= distance && delta1 <= delta2
    ensures ZoomDistance(distance, delta2) <= ZoomDistance(distance, delta1)
  {
    var s1 := distance * (1.0 - delta1 * ZoomSpeed);
    var s2 := distance * (1.0 - delta2 * ZoomSpeed);
    assert s1 - s2 == distance * ((delta2 - delta1) * ZoomSpeed);
    assert distance * ((delta2 - delta1) * ZoomSpeed) >= 0.0;
  }

  /** A zero zoom keeps any distance of at least 0.1 and lifts a smaller one to 0.1. */
  lemma ZoomByZero(distance: real)
    ensures ZoomDistance(distance, 0.0) == QMax(MinZoomDistance, distance)
  {
    assert distance * (1.0 - 0.0 * ZoomSpeed) == distance;
  }

  /**
   * The polar angle orbit moves to: the old angle plus 0.01 dy, clamped to
   * [0.1, pi - 0.1].
   */
  function OrbitPolar(phi: real, deltaY: real): (r: real)
    ensures PolarMargin <= r <= Pi - PolarMargin
    ensures PolarMargin <= phi + deltaY * OrbitSpeed <= Pi - PolarMargin ==> r == phi + deltaY * OrbitSpeed
    ensures phi + deltaY * OrbitSpeed < PolarMargin ==> r == PolarMargin
    ensures phi + deltaY * OrbitSpeed > Pi - PolarMargin ==> r == Pi - PolarMargin
  {
    QBound(PolarMargin, phi + deltaY * OrbitSpeed, Pi - PolarMargin)
  }

  /** The pan offset: -dx along the right vector and dy along the up vector, each times 0.001 of the distance. */
  function PanOffset(right: Vec3, up: Vec3, distance: real, deltaX: real, deltaY: real): Vec3 {
    var speed := distance * PanSpeed;
    Add(Scale(right, -deltaX * speed), Scale(up, deltaY * speed))
  }

  /** The point at radius r, polar angle phi (from +y) and azimuth theta (from +z towards +x). */
  function Spherical(r: real, phi: real, theta: real): Vec3 {
    Vec3(r * Sin(phi) * Sin(theta), r * Cos(phi), r * Sin(phi) * Cos(theta))
  }

  class Camera {
    var position: Vec3
    var target: Vec3
    var up: Vec3
    var projectionType: ProjectionType
    var fov: real
    var aspect: real
    var nearPlane: real
    var farPlane: real
    /** The snapshot taken at construction; nothing changes it afterwards. */
    const initialPosition: Vec3
    const initialTarget: Vec3
    const initialUp: Vec3
    /** The matrix caches and their dirty flags. */
    var viewMatrix: Mat4
    var projectionMatrix: Mat4
    var viewDirty: bool
    var projectionDirty: bool

    /** A clean cache holds the matrix of the current state. */
    ghost predicate Valid()
      reads this
    {
      && (!viewDirty ==> viewMatrix == CurrentView())
      && (!projectionDirty ==> projectionMatrix == CurrentProjection())
    }

    function CurrentView(): Mat4
      reads this
    {
      ViewOf(position, target, up)
    }

    function CurrentProjection(): Mat4
      reads this
    {
      ProjectionOf(projectionType, fov, aspect, nearPlane, farPlane)
    }

    constructor()
      ensures Valid()
      ensures position == Vec3(0.0, 0.0, 5.0) && target == Zero3 && up == Vec3(0.0, 1.0, 0.0)
      ensures projectionType == Perspective && fov == 45.0 && aspect == 1.0
      ensures nearPlane == 0.1 && farPlane == 1000.0
      ensures viewDirty && projectionDirty
      ensures initialPosition == position && initialTarget == target && initialUp == up
    {
      position := Vec3(0.0, 0.0, 5.0);
      target := Zero3;
      up := Vec3(0.0, 1.0, 0.0);
      projectionType := Perspective;
      fov := 45.0;
      aspect := 1.0;
      nearPlane := 0.1;
      farPlane := 1000.0;
      viewMatrix, projectionMatrix := Identity, Identity;
      viewDirty, projectionDirty := true, true;
      initialPosition := Vec3(0.0, 0.0, 5.0);
      initialTarget := Zero3;
      initialUp := Vec3(0.0, 1.0, 0.0);
    }

    // Inline queries of Camera.h.

    function GetForward(): Vec3
      reads this
    {
      Normalized(Sub(target, position))
    }

    function GetRight(): Vec3
      reads this
    {
      Normalized(Cross(GetForward(), up))
    }

    function GetDistance(): real
      reads this
    {
      Length(Sub(target, position))
    }

    // Cache maintenance.

    method InvalidateViewMatrix()
      modifies this`viewDirty
      ensures viewDirty
    {
      viewDirty := true;
    }

    method InvalidateProjectionMatrix()
      modifies this`projectionDirty
      ensures projectionDirty
    {
      projectionDirty := true;
    }

    method UpdateViewMatrix()
      modifies this`viewMatrix, this`viewDirty
      ensures viewMatrix == CurrentView() && !viewDirty
    {
      viewMatrix := LookAtMatrix(position, target, up);
      viewDirty := false;
    }

    method UpdateProjectionMatrix()
      modifies this`projectionMatrix, this`projectionDirty
      ensures projectionMatrix == CurrentProjection() && !projectionDirty
    {
      if projectionType == Perspective {
        projectionMatrix := PerspectiveMatrix(fov, aspect, nearPlane, farPlane);
      } else {
        var halfHeight := HalfHeight(fov, farPlane);
        var halfWidth := HalfWidth(fov, aspect, farPlane);
        projectionMatrix := OrthoBox(halfWidth, halfHeight, nearPlane, farPlane);
      }
      projectionDirty := false;
    }

    /**
     * getViewMatrix: recomputes only when the view flag is set, leaves the
     * view flag clear, and returns the view of the current state; the
     * projection cache and flag are not touched.
     */
    method GetViewMatrix() returns (m: Mat4)
      requires Valid()
      modifies this`viewMatrix, this`viewDirty
      ensures Valid() && !viewDirty
      ensures m == CurrentView()
      ensures !old(viewDirty) ==> viewMatrix == old(viewMatrix)
    {
      if viewDirty {
        UpdateViewMatrix();
      }
      m := viewMatrix;
    }

    /** getProjectionMatrix: the same discipline for the projection cache. */
    method GetProjectionMatrix() returns (m: Mat4)
      requires Valid()
      modifies this`projectionMatrix, this`projectionDirty
      ensures Valid() && !projectionDirty
      ensures m == CurrentProjection()
      ensures !old(projectionDirty) ==> projectionMatrix == old(projectionMatrix)
    {
      if projectionDirty {
        UpdateProjectionMatrix();
      }
      m := projectionMatrix;
    }

    /** getViewProjectionMatrix: projection times view, both caches clean afterwards. */
    method GetViewProjectionMatrix() returns (m: Mat4)
      requires Valid()
      modifies this`viewMatrix, this`viewDirty, this`projectionMatrix, this`projectionDirty
      ensures Valid() && !viewDirty && !projectionDirty
      ensures m == MatMul(CurrentProjection(), CurrentView())
    {
      var p := GetProjectionMatrix();
      var v := GetViewMatrix();
      m := MatMul(p, v);
    }

    // Setters: each changes its own field and flags only the cache it feeds.

    method SetPosition(p: Vec3)
      requires Valid()
      modifies this`position, this`viewDirty
      ensures Valid() && position == p && viewDirty
    {
      position := p;
      InvalidateViewMatrix();
    }

    method SetTarget(t: Vec3)
      requires Valid()
      modifies this`target, this`viewDirty
      ensures Valid() && target == t && viewDirty
    {
      target := t;
      InvalidateViewMatrix();
    }

    /** The up vector is stored normalised. */
    method SetUpVector(u: Vec3)
      requires Valid()
      modifies this`up, this`viewDirty
      ensures Valid() && up == Normalized(u) && viewDirty
    {
      up := Normalized(u);
      InvalidateViewMatrix();
    }

    method SetFov(f: real)
      requires Valid()
      modifies this`fov, this`projectionDirty
      ensures Valid() && fov == f && projectionDirty
    {
      fov := f;
      InvalidateProjectionMatrix();
    }

    method SetAspectRatio(a: real)
      requires Valid()
      modifies this`aspect, this`projectionDirty
      ensures Valid() && aspect == a && projectionDirty
    {
      aspect := a;
      InvalidateProjectionMatrix();
    }

    method SetNearPlane(n: real)
      requires Valid()
      modifies this`nearPlane, this`projectionDirty
      ensures Valid() && nearPlane == n && projectionDirty
    {
      nearPlane := n;
      InvalidateProjectionMatrix();
    }

    method SetFarPlane(f: real)
      requires Valid()
      modifies this`farPlane, this`projectionDirty
      ensures Valid() && farPlane == f && projectionDirty
    {
      farPlane := f;
      InvalidateProjectionMatrix();
    }

    method SetProjectionType(kind: ProjectionType)
      requires Valid()
      modifies this`projectionType, this`projectionDirty
      ensures Valid() && projectionType == kind && projectionDirty
    {
      projectionType := kind;
      InvalidateProjectionMatrix();
    }

    // Movement.

    /**
     * orbit: the target stays; the position moves to the old distance from
     * the target at the azimuth reduced by 0.01 dx and the polar angle
     * raised by 0.01 dy and clamped away from the poles. The angles are read
     * from the normalised target-to-position direction.
     */
    method Orbit(deltaX: real, deltaY: real)
      requires Valid()
      modifies this`position, this`viewDirty
      ensures Valid() && viewDirty
      ensures var direction := Normalized(Sub(old(position), target));
              position == Add(target, Spherical(
                Length(Sub(target, old(position))),
                OrbitPolar(Acos(direction.y), deltaY),
                Atan2(direction.x, direction.z) - deltaX * OrbitSpeed))
    {
      var distance := GetDistance();
      var direction := Normalized(Sub(position, target));
      var theta := Atan2(direction.x, direction.z);
      var phi := Acos(direction.y);
      theta := theta - deltaX * OrbitSpeed;
      phi := phi + deltaY * OrbitSpeed;
      phi := QBound(PolarMargin, phi, Pi - PolarMargin);
      position := Add(target, Spherical(distance, phi, theta));
      InvalidateViewMatrix();
    }

    /**
     * pan: position and target move by the same offset, along the right
     * vector by -dx and along the up vector by dy, both scaled by 0.001 of
     * the distance; so the target-to-position offset is unchanged.
     */
    method Pan(deltaX: real, deltaY: real)
      requires Valid()
      modifies this`position, this`target, this`viewDirty
      ensures Valid() && viewDirty
      ensures Sub(target, position) == old(Sub(target, position))
      ensures var offset := PanOffset(old(GetRight()), up, old(GetDistance()), deltaX, deltaY);
              position == Add(old(position), offset) && target == Add(old(target), offset)
    {
      var distance := GetDistance();
      var right := GetRight();
      var offset := PanOffset(right, up, distance, deltaX, deltaY);
      TranslationKeepsOffset(position, target, offset);
      position := Add(position, offset);
      target := Add(target, offset);
      InvalidateViewMatrix();
    }

    /**
     * setDistance: the target stays and the position moves along the
     * normalised target-to-position direction to the given distance. No
     * lower bound is applied here.
     */
    method SetDistance(distance: real)
      requires Valid()
      modifies this`position, this`viewDirty
      ensures Valid() && viewDirty
      ensures position == Add(target, Scale(Normalized(Sub(old(position), target)), distance))
    {
      var direction := Normalized(Sub(position, target));
      position := Add(target, Scale(direction, distance));
      InvalidateViewMatrix();
    }

    /** zoom: setDistance with the clamped, scaled distance. */
    method Zoom(delta: real)
      requires Valid()
      modifies this`position, this`viewDirty
      ensures Valid() && viewDirty
      ensures position == Add(target, Scale(Normalized(Sub(old(position), target)), ZoomDistance(old(GetDistance()), delta)))
    {
      var distance := GetDistance();
      distance := distance * (1.0 - delta * ZoomSpeed);
      distance := QMax(MinZoomDistance, distance);
      SetDistance(distance);
    }

    /** reset: back to the snapshot; the projection settings and their cache are untouched. */
    method Reset()
      requires Valid()
      modifies this`position, this`target, this`up, this`viewDirty
      ensures Valid() && viewDirty
      ensures position == initialPosition && target == initialTarget && up == initialUp
    {
      position := initialPosition;
      target := initialTarget;
      up := initialUp;
      InvalidateViewMatrix();
    }
  }

  /** Translating both ends of a segment by one offset keeps the segment's vector. */
  lemma TranslationKeepsOffset(p: Vec3, t: Vec3, offset: Vec3)
    ensures Sub(Add(t, offset), Add(p, offset)) == Sub(t, p)
  {
  }
}
