/** The slice of the host editor's scene graph the exporter reads, as an
    explicit snapshot: the camera and light data blocks, the objects that
    use them, and the world colour. */
module Host {
  import opened Wrappers
  import opened Coords

  /** Identity of a data block; `o.data == cam` compares these. */
  datatype DataRef = CameraData(id: nat) | LightData(id: nat) | OtherData(id: nat)

  /** An object constraint: its type identifier and the location of its
      target object, if it has one. */
  datatype Constraint = Constraint(kind: string, target: Option<Vec3>)

  /** A scene object: name, type identifier ("MESH", "CAMERA", "LIGHT",
      "EMPTY", ...), the data block it uses (none for an empty), transform
      and constraint stack. */
  datatype HostObject = HostObject(
    name: string,
    kind: string,
    data: Option<DataRef>,
    location: Vec3,
    rotation: Vec3,
    constraints: seq<Constraint>)

  /** Camera data: `lens` is the focal length written as "fov". */
  datatype Camera = Camera(id: nat, lens: real) {
    function Ref(): DataRef {
      CameraData(id)
    }
  }

  datatype LightKind = Point | Sun | Spot | Area

  /** The type identifier the host reports for a light kind. */
  function KindName(k: LightKind): string {
    match k
    case Point => "POINT"
    case Sun => "SUN"
    case Spot => "SPOT"
    case Area => "AREA"
  }

  /** Light data: kind, colour channels, power and spot cone size. */
  datatype Light = Light(id: nat, kind: LightKind, color: seq<real>, energy: real, spotSize: real) {
    function Ref(): DataRef {
      LightData(id)
    }
  }

  /** `bpy.data.cameras`, `bpy.data.lights`, `bpy.data.objects` and the
      active scene's world colour (absent when the scene has no world). */
  datatype Scene = Scene(
    cameras: seq<Camera>,
    lights: seq<Light>,
    objects: seq<HostObject>,
    world: Option<seq<real>>)
}
