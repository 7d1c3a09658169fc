/**
 * The observable geometry primitives of the backend
 * (cpp_backend/include/vis_primitives.h). Each primitive keeps its shape
 * in fields; every setter stores its argument and then notifies the single
 * observer registered with the primitive, which is how the server learns
 * that an object has changed.
 *
 * `float` fields are exact reals here. A primitive's `Observable` base
 * class is the `base` object of each primitive class; it is the subject
 * passed to the observer.
 */
module Primitives {

  /** `Vec2`; a default-constructed one is the origin. */
  datatype Vec2 = Vec2(x: real, y: real)
  /** `Vec3`; a default-constructed one is the origin. */
  datatype Vec3 = Vec3(x: real, y: real, z: real)
  /** `Quaternion` as (w, x, y, z); a default-constructed one is the identity rotation (1, 0, 0, 0). */
  datatype Quaternion = Quaternion(w: real, x: real, y: real, z: real)

  const Origin2: Vec2 := Vec2(0.0, 0.0)
  const Origin3: Vec3 := Vec3(0.0, 0.0, 0.0)
  const Identity: Quaternion := Quaternion(1.0, 0.0, 0.0, 0.0)

  /** The value of a `Pose2D`: a position and a heading angle. */
  datatype Pose2DValue = Pose2DValue(position: Vec2, theta: real)
  /** The value of a `Box2D`: a centre pose, a width, and the lengths in front of and behind the centre. */
  datatype Box2DValue = Box2DValue(center: Pose2DValue, width: real, lengthFront: real, lengthRear: real)
  /** The value of a `Pose3D`: a position and an orientation. */
  datatype Pose3DValue = Pose3DValue(position: Vec3, orientation: Quaternion)

  const DefaultPose2D: Pose2DValue := Pose2DValue(Origin2, 0.0)
  const DefaultBox2D: Box2DValue := Box2DValue(DefaultPose2D, 1.0, 1.0, 1.0)
  const DefaultPose3D: Pose3DValue := Pose3DValue(Origin3, Identity)

  /**
   * An `IObserver`: the receiver of `on_update(subject)`. This one is a
   * recording stand-in for any observer: it only records the subjects it was
   * called with, in order. The server's reaction is `ServerImpl.OnUpdate`.
   */
  class Observer {
    var updates: seq<Observable>

    constructor()
      ensures updates == []
    {
      updates := [];
    }

    method OnUpdate(subject: Observable)
      modifies this
      ensures updates == old(updates) + [subject]
    {
      updates := updates + [subject];
    }
  }

  /** `Observable`: holds at most one observer, initially none. */
  class Observable {
    var observer: Observer?

    constructor()
      ensures observer == null
    {
      observer := null;
    }

    /** `set_observer(observer)`: replace the observer (null detaches it). */
    method SetObserver(o: Observer?)
      modifies this
      ensures observer == o
    {
      observer := o;
    }

    /** Between two states, the observer was told about this subject exactly once, or there is no observer. */
    twostate predicate NotifiedOnce()
      reads this, observer
    {
      && observer == old(observer)
      && (observer != null ==> observer.updates == old(observer.updates) + [this])
    }

    /** `notify_update()`: call the observer's `on_update(this)` if one is set. */
    method NotifyUpdate()
      modifies observer
      ensures NotifiedOnce()
    {
      if observer != null {
        observer.OnUpdate(this);
      }
    }
  }

  /** `Point2D`. */
  class Point2D {
    const base: Observable
    var position: Vec2

    /** `Point2D::create(pos = {})`. */
    constructor(pos: Vec2 := Origin2)
      ensures position == pos && fresh(base) && base.observer == null
    {
      base := new Observable();
      position := pos;
    }

    /** `set_position(pos)`. */
    method SetPosition(pos: Vec2)
      modifies this, base.observer
      ensures position == pos
      ensures base.NotifiedOnce()
    {
      position := pos;
      base.NotifyUpdate();
    }
  }

  /** `Pose2D`. */
  class Pose2D {
    const base: Observable
    var position: Vec2
    var theta: real

    /** `Pose2D()` and `Pose2D::create(pos = {}, theta = 0)`. */
    constructor(pos: Vec2 := Origin2, theta: real := 0.0)
      ensures Value() == Pose2DValue(pos, theta) && fresh(base) && base.observer == null
    {
      base := new Observable();
      position := pos;
      this.theta := theta;
    }

    function Value(): Pose2DValue
      reads this
    {
      Pose2DValue(position, theta)
    }

    /** `set_position(pos)`: the angle is kept. */
    method SetPosition(pos: Vec2)
      modifies this, base.observer
      ensures Value() == Pose2DValue(pos, old(theta))
      ensures base.NotifiedOnce()
    {
      position := pos;
      base.NotifyUpdate();
    }

    /** `set_angle(theta)`: the position is kept. */
    method SetAngle(theta: real)
      modifies this, base.observer
      ensures Value() == Pose2DValue(old(position), theta)
      ensures base.NotifiedOnce()
    {
      this.theta := theta;
      base.NotifyUpdate();
    }

    /** `set_pose(pos, theta)`: both parts with a single notification. */
    method SetPose(pos: Vec2, theta: real)
      modifies this, base.observer
      ensures Value() == Pose2DValue(pos, theta)
      ensures base.NotifiedOnce()
    {
      position := pos;
      this.theta := theta;
      base.NotifyUpdate();
    }
  }

  /** `Circle`. */
  class Circle {
    const base: Observable
    var center: Vec2
    var radius: real

    /** `Circle::create(center = {}, radius = 1)`. */
    constructor(center: Vec2 := Origin2, radius: real := 1.0)
      ensures this.center == center && this.radius == radius && fresh(base) && base.observer == null
    {
      base := new Observable();
      this.center := center;
      this.radius := radius;
    }

    /** `set_center(center)`: the radius is kept. */
    method SetCenter(center: Vec2)
      modifies this, base.observer
      ensures this.center == center && radius == old(radius)
      ensures base.NotifiedOnce()
    {
      this.center := center;
      base.NotifyUpdate();
    }

    /** `set_radius(radius)`: the centre is kept. */
    method SetRadius(radius: real)
      modifies this, base.observer
      ensures this.radius == radius && center == old(center)
      ensures base.NotifiedOnce()
    {
      this.radius := radius;
      base.NotifyUpdate();
    }
  }

  /** `Box2D`. */
  class Box2D {
    const base: Observable
    var center: Pose2DValue
    var width: real
    var lengthFront: real
    var lengthRear: real

    /** `Box2D::create(center = {}, width = 1, len_f = 1, len_r = 1)`. */
    constructor(center: Pose2DValue := DefaultPose2D, width: real := 1.0, lengthFront: real := 1.0, lengthRear: real := 1.0)
      ensures Value() == Box2DValue(center, width, lengthFront, lengthRear) && fresh(base) && base.observer == null
    {
      base := new Observable();
      this.center := center;
      this.width := width;
      this.lengthFront := lengthFront;
      this.lengthRear := lengthRear;
    }

    function Value(): Box2DValue
      reads this
    {
      Box2DValue(center, width, lengthFront, lengthRear)
    }

    /** `set_center(center)`. */
    method SetCenter(center: Pose2DValue)
      modifies this, base.observer
      ensures Value() == old(Value()).(center := center)
      ensures base.NotifiedOnce()
    {
      this.center := center;
      base.NotifyUpdate();
    }

    /** `set_width(width)`. */
    method SetWidth(width: real)
      modifies this, base.observer
      ensures Value() == old(Value()).(width := width)
      ensures base.NotifiedOnce()
    {
      this.width := width;
      base.NotifyUpdate();
    }

    /** `set_length_front(len)`. */
    method SetLengthFront(len: real)
      modifies this, base.observer
      ensures Value() == old(Value()).(lengthFront := len)
      ensures base.NotifiedOnce()
    {
      lengthFront := len;
      base.NotifyUpdate();
    }

    /** `set_length_rear(len)`. */
    method SetLengthRear(len: real)
      modifies this, base.observer
      ensures Value() == old(Value()).(lengthRear := len)
      ensures base.NotifiedOnce()
    {
      lengthRear := len;
      base.NotifyUpdate();
    }
  }

  /** `Line2D`: a polyline. */
  class Line2D {
    const base: Observable
    var points: seq<Vec2>

    /** `Line2D::create(points = {})`. */
    constructor(points: seq<Vec2> := [])
      ensures this.points == points && fresh(base) && base.observer == null
    {
      base := new Observable();
      this.points := points;
    }

    /** `set_points(points)`: replace the whole polyline. */
    method SetPoints(points: seq<Vec2>)
      modifies this, base.observer
      ensures this.points == points
      ensures base.NotifiedOnce()
    {
      this.points := points;
      base.NotifyUpdate();
    }

    /** `add_point(p)`: append at the end; earlier points are kept. */
    method AddPoint(p: Vec2)
      modifies this, base.observer
      ensures points == old(points) + [p]
      ensures base.NotifiedOnce()
    {
      points := points + [p];
      base.NotifyUpdate();
    }

    /** `clear()`. */
    method Clear()
      modifies this, base.observer
      ensures points == []
      ensures base.NotifiedOnce()
    {
      points := [];
      base.NotifyUpdate();
    }
  }

  /** `Trajectory2D`: a sequence of box footprints. */
  class Trajectory2D {
    const base: Observable
    var poses: seq<Box2DValue>

    /** `Trajectory2D::create(poses = {})`. */
    constructor(poses: seq<Box2DValue> := [])
      ensures this.poses == poses && fresh(base) && base.observer == null
    {
      base := new Observable();
      this.poses := poses;
    }

    /** `set_poses(poses)`. */
    method SetPoses(poses: seq<Box2DValue>)
      modifies this, base.observer
      ensures this.poses == poses
      ensures base.NotifiedOnce()
    {
      this.poses := poses;
      base.NotifyUpdate();
    }

    /** `add_pose(pose)`: append at the end. */
    method AddPose(pose: Box2DValue)
      modifies this, base.observer
      ensures poses == old(poses) + [pose]
      ensures base.NotifiedOnce()
    {
      poses := poses + [pose];
      base.NotifyUpdate();
    }

    /** `clear()`. */
    method Clear()
      modifies this, base.observer
      ensures poses == []
      ensures base.NotifiedOnce()
    {
      poses := [];
      base.NotifyUpdate();
    }
  }

  /** `Polygon`. */
  class Polygon {
    const base: Observable
    var vertices: seq<Vec2>

    /** `Polygon::create(vertices = {})`. */
    constructor(vertices: seq<Vec2> := [])
      ensures this.vertices == vertices && fresh(base) && base.observer == null
    {
      base := new Observable();
      this.vertices := vertices;
    }

    /** `set_vertices(vertices)`. */
    method SetVertices(vertices: seq<Vec2>)
      modifies this, base.observer
      ensures this.vertices == vertices
      ensures base.NotifiedOnce()
    {
      this.vertices := vertices;
      base.NotifyUpdate();
    }

    /** `add_vertex(v)`: append at the end. */
    method AddVertex(v: Vec2)
      modifies this, base.observer
      ensures vertices == old(vertices) + [v]
      ensures base.NotifiedOnce()
    {
      vertices := vertices + [v];
      base.NotifyUpdate();
    }

    /** `clear()`. */
    method Clear()
      modifies this, base.observer
      ensures vertices == []
      ensures base.NotifiedOnce()
    {
      vertices := [];
      base.NotifyUpdate();
    }
  }

  /** `Point3D`. */
  class Point3D {
    const base: Observable
    var position: Vec3

    /** `Point3D::create(pos = {})`. */
    constructor(pos: Vec3 := Origin3)
      ensures position == pos && fresh(base) && base.observer == null
    {
      base := new Observable();
      position := pos;
    }

    /** `set_position(pos)`. */
    method SetPosition(pos: Vec3)
      modifies this, base.observer
      ensures position == pos
      ensures base.NotifiedOnce()
    {
      position := pos;
      base.NotifyUpdate();
    }
  }

  /** `Pose3D`. */
  class Pose3D {
    const base: Observable
    var position: Vec3
    var orientation: Quaternion

    /** `Pose3D()` and `Pose3D::create(pos = {}, quat = {})`. */
    constructor(pos: Vec3 := Origin3, quat: Quaternion := Identity)
      ensures Value() == Pose3DValue(pos, quat) && fresh(base) && base.observer == null
    {
      base := new Observable();
      position := pos;
      orientation := quat;
    }

    function Value(): Pose3DValue
      reads this
    {
      Pose3DValue(position, orientation)
    }

    /** `set_position(pos)`: the orientation is kept. */
    method SetPosition(pos: Vec3)
      modifies this, base.observer
      ensures Value() == Pose3DValue(pos, old(orientation))
      ensures base.NotifiedOnce()
    {
      position := pos;
      base.NotifyUpdate();
    }

    /** `set_orientation(quat)`: the position is kept. */
    method SetOrientation(quat: Quaternion)
      modifies this, base.observer
      ensures Value() == Pose3DValue(old(position), quat)
      ensures base.NotifiedOnce()
    {
      orientation := quat;
      base.NotifyUpdate();
    }

    /** `set_pose(pos, quat)`: both parts with a single notification. */
    method SetPose(pos: Vec3, quat: Quaternion)
      modifies this, base.observer
      ensures Value() == Pose3DValue(pos, quat)
      ensures base.NotifiedOnce()
    {
      position := pos;
      orientation := quat;
      base.NotifyUpdate();
    }
  }

  /** `Ball`. */
  class Ball {
    const base: Observable
    var center: Vec3
    var radius: real

    /** `Ball::create(center = {}, radius = 1)`. */
    constructor(center: Vec3 := Origin3, radius: real := 1.0)
      ensures this.center == center && this.radius == radius && fresh(base) && base.observer == null
    {
      base := new Observable();
      this.center := center;
      this.radius := radius;
    }

    /** `set_center(center)`: the radius is kept. */
    method SetCenter(center: Vec3)
      modifies this, base.observer
      ensures this.center == center && radius == old(radius)
      ensures base.NotifiedOnce()
    {
      this.center := center;
      base.NotifyUpdate();
    }

    /** `set_radius(radius)`: the centre is kept. */
    method SetRadius(radius: real)
      modifies this, base.observer
      ensures this.radius == radius && center == old(center)
      ensures base.NotifiedOnce()
    {
      this.radius := radius;
      base.NotifyUpdate();
    }
  }

  /** `Box3D`: a box with a centre pose and three edge lengths. */
  class Box3D {
    const base: Observable
    var center: Pose3DValue
    var xLength: real
    var yLength: real
    var zLength: real

    /** `Box3D::create(center = {}, x = 1, y = 1, z = 1)`. */
    constructor(center: Pose3DValue := DefaultPose3D, x: real := 1.0, y: real := 1.0, z: real := 1.0)
      ensures this.center == center && Lengths() == Vec3(x, y, z) && fresh(base) && base.observer == null
    {
      base := new Observable();
      this.center := center;
      xLength, yLength, zLength := x, y, z;
    }

    /** `get_lengths()`. */
    function Lengths(): Vec3
      reads this
    {
      Vec3(xLength, yLength, zLength)
    }

    /** `set_center(center)`: the lengths are kept. */
    method SetCenter(center: Pose3DValue)
      modifies this, base.observer
      ensures this.center == center && Lengths() == old(Lengths())
      ensures base.NotifiedOnce()
    {
      this.center := center;
      base.NotifyUpdate();
    }

    /** `set_lengths(x, y, z)`: `get_lengths()` then returns exactly these. */
    method SetLengths(x: real, y: real, z: real)
      modifies this, base.observer
      ensures Lengths() == Vec3(x, y, z) && center == old(center)
      ensures base.NotifiedOnce()
    {
      xLength, yLength, zLength := x, y, z;
      base.NotifyUpdate();
    }
  }
}
