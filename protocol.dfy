/**
 * The messages the backend sends to the web client: per-object add, update
 * and delete commands plus the scene-wide settings, grouped into one scene
 * update per send. Geometry payloads use the primitive value types.
 */
module Protocol {
  import Primitives

  /** The geometry carried by an add or update command; `Unset` when none is set. */
  datatype Geometry =
    | Unset
    | Point2D(position: Primitives.Vec2)
    | Pose2D(pose: Primitives.Pose2DValue)
    | Line2D(points: seq<Primitives.Vec2>)
    | Polygon(vertices: seq<Primitives.Vec2>)
    | Circle(center: Primitives.Vec2, radius: real)
    | Box2D(box: Primitives.Box2DValue)
    | Trajectory2D(poses: seq<Primitives.Box2DValue>)
    | Point3D(position3: Primitives.Vec3)
    | Pose3D(pose3: Primitives.Pose3DValue)
    | Ball(center3: Primitives.Vec3, ballRadius: real)
    | Box3D(centerPose: Primitives.Pose3DValue, lengths: Primitives.Vec3)

  /** An RGBA colour. */
  datatype Color = Color(r: real, g: real, b: real, a: real)

  /** The part of an object's material the scene bookkeeping uses: its colour and its legend text. */
  datatype Material = Material(color: Color, legend: string)

  /** One command inside a scene update, as the client reads it. */
  datatype Command =
    | AddObject(id: string, geometry: Geometry, material: Material)
    | UpdateObjectGeometry(id: string, geometry: Geometry)
    | DeleteObject(id: string)
    | SetGridVisible(visible: bool)
    | SetAxesVisible(visible: bool)
    | SetAxisProperties(xMin: real, xMax: real, yMin: real, yMax: real)
    | SetTitle(title: string)

  /** Which plotter a scene update is for. */
  datatype Kind = Plot2D | Plot3D

  /** A scene update: its kind and its commands, applied in order. */
  datatype SceneUpdate = SceneUpdate(kind: Kind, commands: seq<Command>)
}
