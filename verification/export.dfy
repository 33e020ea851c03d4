/** The export operator (`EXPORT_OT_r3f_scene_json.execute`): the scene
    document built from a snapshot of the host's cameras, lights, objects
    and world. */
module Export {
  import opened Wrappers
  import opened Json
  import opened Coords
  import opened Host
  import opened Names
  import opened Records
  import opened Meshes
  import Seqs

  /** Why an export stops: no object uses a camera or light data block
      (the `[0]` of an empty list raises), or the scene has no world
      (reading its colour raises). */
  datatype ExportError = NoOwner(ref: DataRef) | NoWorld

  predicate Uses(obj: HostObject, ref: DataRef) {
    obj.data == Some(ref)
  }

  /** `o.data == d` as a condition on objects. */
  function UsesRef(ref: DataRef): HostObject -> bool {
    obj => Uses(obj, ref)
  }

  /** `k` is the first object that uses `ref`. */
  predicate FirstUser(objs: seq<HostObject>, ref: DataRef, k: int) {
    && 0 <= k < |objs|
    && Uses(objs[k], ref)
    && forall j :: 0 <= j < k ==> !Uses(objs[j], ref)
  }

  /** `[o for o in bpy.data.objects if o.data == d][0]` */
  function Owner(objs: seq<HostObject>, ref: DataRef): (r: Result<HostObject, ExportError>)
    ensures r.Success? ==> Uses(r.value, ref) && r.value in objs
    ensures r.Failure? ==> r.error == NoOwner(ref)
  {
    var users := Seqs.Filter(objs, UsesRef(ref));
    if |users| == 0 then Failure(NoOwner(ref))
    else
      assert users[0] in users && UsesRef(ref)(users[0]);
      Success(users[0])
  }

  /** The owner lookup yields the first object that uses the data block,
      and fails exactly when no object uses it. */
  lemma OwnerIsFirstUser(objs: seq<HostObject>, ref: DataRef)
    ensures forall k :: FirstUser(objs, ref, k) ==> Owner(objs, ref) == Success(objs[k])
    ensures (forall j :: 0 <= j < |objs| ==> !Uses(objs[j], ref)) <==> Owner(objs, ref) == Failure(NoOwner(ref))
  {
    Seqs.FilterHeadIsFirst(objs, UsesRef(ref));
    var f := Seqs.First(objs, UsesRef(ref));
    forall k | FirstUser(objs, ref, k)
      ensures f == Some(k)
    {
      assert UsesRef(ref)(objs[k]);
      assert f.Some?;
      assert !(f.value < k);
      assert !(f.value > k);
    }
    if f.None? {
      assert forall j :: 0 <= j < |objs| ==> !UsesRef(ref)(objs[j]);
    }
  }

  /** Builds one element per input in order, stopping at the first input
      whose builder fails, as the `for ... append` loops do. */
  function MapResult<A, B, E>(xs: seq<A>, f: A -> Result<B, E>): (r: Result<seq<B>, E>)
    ensures r.Success? <==> forall i :: 0 <= i < |xs| ==> f(xs[i]).Success?
    ensures r.Success? ==> |r.value| == |xs| && forall i :: 0 <= i < |xs| ==> r.value[i] == f(xs[i]).value
    decreases |xs|
  {
    if |xs| == 0 then Success([])
    else
      var head :- f(xs[0]);
      var tail :- MapResult(xs[1..], f);
      Success([head] + tail)
  }

  /** The error `MapResult` stops with is that of the first failing input. */
  lemma {:induction false} MapResultFirstError<A, B, E>(xs: seq<A>, f: A -> Result<B, E>, k: nat)
    requires k < |xs| && f(xs[k]).Failure?
    requires forall j :: 0 <= j < k ==> f(xs[j]).Success?
    ensures MapResult(xs, f).Failure? && MapResult(xs, f).error == f(xs[k]).error
    decreases k
  {
    if k > 0 {
      assert xs[1..][k - 1] == xs[k];
      MapResultFirstError(xs[1..], f, k - 1);
    }
  }

  /** The record for one camera data block. */
  function CameraEntry(objs: seq<HostObject>): Camera -> Result<Value, ExportError> {
    (cam: Camera) =>
      match Owner(objs, cam.Ref())
      case Success(obj) => Success(CameraRecord(obj, cam))
      case Failure(e) => Failure(e)
  }

  /** The record for one light data block. */
  function LightEntry(objs: seq<HostObject>, forward: Vec3 -> Vec3): Light -> Result<Value, ExportError> {
    (light: Light) =>
      match Owner(objs, light.Ref())
      case Success(obj) => Success(LightRecord(obj, light, forward))
      case Failure(e) => Failure(e)
  }

  /** The keys of the scene document, in insertion order. */
  const DocumentKeys: seq<string> := ["cameras", "lights", "background", "meshes"]

  /** The scene document dict literal, given its computed lists. */
  function Document(cameras: seq<Value>, lights: seq<Value>, background: seq<real>, meshes: seq<string>): (ms: seq<Member>)
    ensures Keys(ms) == DocumentKeys
  {
    var ms := [
      Member("cameras", Arr(cameras)),
      Member("lights", Arr(lights)),
      Member("background", Nums(background)),
      Member("meshes", Strs(meshes))
    ];
    KeysIndexed(ms);
    ms
  }

  /** Each key of the document looks up the list it was built with. */
  lemma DocumentLookup(cameras: seq<Value>, lights: seq<Value>, background: seq<real>, meshes: seq<string>)
    ensures var ms := Document(cameras, lights, background, meshes);
      && Get(ms, "cameras") == Some(Arr(cameras))
      && Get(ms, "lights") == Some(Arr(lights))
      && Get(ms, "background") == Some(Nums(background))
      && Get(ms, "meshes") == Some(Strs(meshes))
  {
    var ms := Document(cameras, lights, background, meshes);
    assert Distinct(DocumentKeys);
    GetUnique(ms, 0);
    GetUnique(ms, 1);
    GetUnique(ms, 2);
    GetUnique(ms, 3);
  }

  /** `execute`: cameras, then lights, then the mesh list, then the
      background; the document's keys are in that insertion order. */
  function Execute(scene: Scene, forward: Vec3 -> Vec3): (r: Result<Value, ExportError>)
    ensures r.Success? ==> r.value.Obj?
  {
    var cameras :- MapResult(scene.cameras, CameraEntry(scene.objects));
    var lights :- MapResult(scene.lights, LightEntry(scene.objects, forward));
    var meshes := MeshFiles(scene.objects);
    var world :- if scene.world.None? then Failure(NoWorld) else Success(scene.world.value);
    Success(Obj(Document(cameras, lights, ColorToList(world), meshes)))
  }

  /** Some camera data block that no object uses. */
  predicate OrphanCamera(scene: Scene) {
    exists i :: 0 <= i < |scene.cameras| && forall j :: 0 <= j < |scene.objects| ==> !Uses(scene.objects[j], scene.cameras[i].Ref())
  }

  /** Some light data block that no object uses. */
  predicate OrphanLight(scene: Scene) {
    exists i :: 0 <= i < |scene.lights| && forall j :: 0 <= j < |scene.objects| ==> !Uses(scene.objects[j], scene.lights[i].Ref())
  }

  /** The owner lookup fails exactly when no object uses the block. */
  lemma OwnerFails(objs: seq<HostObject>, ref: DataRef)
    ensures Owner(objs, ref).Failure? <==> forall j :: 0 <= j < |objs| ==> !Uses(objs[j], ref)
  {
    OwnerIsFirstUser(objs, ref);
  }

  /** A camera's record fails exactly when no object uses its data. */
  lemma CameraEntryFails(objs: seq<HostObject>, cam: Camera)
    ensures CameraEntry(objs)(cam).Failure? <==> forall j :: 0 <= j < |objs| ==> !Uses(objs[j], cam.Ref())
  {
    OwnerFails(objs, cam.Ref());
  }

  /** A camera's record is built from the first object using its data. */
  lemma CameraEntryRecord(objs: seq<HostObject>, cam: Camera, k: int)
    requires FirstUser(objs, cam.Ref(), k)
    ensures CameraEntry(objs)(cam) == Success(CameraRecord(objs[k], cam))
  {
    OwnerIsFirstUser(objs, cam.Ref());
  }

  /** A light's record fails exactly when no object uses its data. */
  lemma LightEntryFails(objs: seq<HostObject>, forward: Vec3 -> Vec3, light: Light)
    ensures LightEntry(objs, forward)(light).Failure? <==> forall j :: 0 <= j < |objs| ==> !Uses(objs[j], light.Ref())
  {
    OwnerFails(objs, light.Ref());
  }

  /** A light's record is built from the first object using its data. */
  lemma LightEntryRecord(objs: seq<HostObject>, forward: Vec3 -> Vec3, light: Light, k: int)
    requires FirstUser(objs, light.Ref(), k)
    ensures LightEntry(objs, forward)(light) == Success(LightRecord(objs[k], light, forward))
  {
    OwnerIsFirstUser(objs, light.Ref());
  }

  /** A failing camera list has an unused camera data block. */
  lemma CameraListFailure(scene: Scene)
    ensures MapResult(scene.cameras, CameraEntry(scene.objects)).Failure? ==> OrphanCamera(scene)
  {
    var f := CameraEntry(scene.objects);
    if MapResult(scene.cameras, f).Failure? {
      var i :| 0 <= i < |scene.cameras| && f(scene.cameras[i]).Failure?;
      CameraEntryFails(scene.objects, scene.cameras[i]);
    }
  }

  /** An unused camera data block makes the camera list fail. */
  lemma OrphanCameraFails(scene: Scene)
    ensures OrphanCamera(scene) ==> MapResult(scene.cameras, CameraEntry(scene.objects)).Failure?
  {
    var objs := scene.objects;
    if OrphanCamera(scene) {
      var i :| 0 <= i < |scene.cameras| && forall j :: 0 <= j < |objs| ==> !Uses(objs[j], scene.cameras[i].Ref());
      CameraEntryFails(objs, scene.cameras[i]);
    }
  }

  /** The camera list fails exactly when some camera data block has no
      object using it. */
  lemma CameraListFails(scene: Scene)
    ensures MapResult(scene.cameras, CameraEntry(scene.objects)).Failure? <==> OrphanCamera(scene)
  {
    CameraListFailure(scene);
    OrphanCameraFails(scene);
  }

  /** A failing light list has an unused light data block. */
  lemma LightListFailure(scene: Scene, forward: Vec3 -> Vec3)
    ensures MapResult(scene.lights, LightEntry(scene.objects, forward)).Failure? ==> OrphanLight(scene)
  {
    var f := LightEntry(scene.objects, forward);
    if MapResult(scene.lights, f).Failure? {
      var i :| 0 <= i < |scene.lights| && f(scene.lights[i]).Failure?;
      LightEntryFails(scene.objects, forward, scene.lights[i]);
    }
  }

  /** An unused light data block makes the light list fail. */
  lemma OrphanLightFails(scene: Scene, forward: Vec3 -> Vec3)
    ensures OrphanLight(scene) ==> MapResult(scene.lights, LightEntry(scene.objects, forward)).Failure?
  {
    var objs := scene.objects;
    if OrphanLight(scene) {
      var i :| 0 <= i < |scene.lights| && forall j :: 0 <= j < |objs| ==> !Uses(objs[j], scene.lights[i].Ref());
      LightEntryFails(objs, forward, scene.lights[i]);
    }
  }

  /** The light list fails exactly when some light data block has no
      object using it. */
  lemma LightListFails(scene: Scene, forward: Vec3 -> Vec3)
    ensures MapResult(scene.lights, LightEntry(scene.objects, forward)).Failure? <==> OrphanLight(scene)
  {
    LightListFailure(scene, forward);
    OrphanLightFails(scene, forward);
  }

  /** The export fails exactly when a camera or a light has no object
      using it, or the scene has no world. */
  lemma ExportFailsIff(scene: Scene, forward: Vec3 -> Vec3)
    ensures Execute(scene, forward).Failure? <==> OrphanCamera(scene) || OrphanLight(scene) || scene.world.None?
  {
    CameraListFails(scene);
    LightListFails(scene, forward);
  }

  /** The lists a successful export puts in its document. */
  lemma DocumentMembers(scene: Scene, forward: Vec3 -> Vec3)
    requires Execute(scene, forward).Success?
    ensures var cs := MapResult(scene.cameras, CameraEntry(scene.objects));
      var ls := MapResult(scene.lights, LightEntry(scene.objects, forward));
      && cs.Success? && ls.Success? && scene.world.Some?
      && Execute(scene, forward).value.members
         == Document(cs.value, ls.value, ColorToList(scene.world.value), MeshFiles(scene.objects))
  {
  }

  /** The document has exactly the keys cameras, lights, background and
      meshes, in that order. */
  lemma ExportKeys(scene: Scene, forward: Vec3 -> Vec3)
    requires Execute(scene, forward).Success?
    ensures Keys(Execute(scene, forward).value.members) == ["cameras", "lights", "background", "meshes"]
  {
    DocumentMembers(scene, forward);
  }

  /** The "cameras" list has one record per camera data block, in the
      order of the data blocks, each built from the first object that uses
      the block. */
  lemma CamerasInOrder(scene: Scene, forward: Vec3 -> Vec3)
    requires Execute(scene, forward).Success?
    ensures exists cs ::
      && Get(Execute(scene, forward).value.members, "cameras") == Some(Arr(cs))
      && |cs| == |scene.cameras|
      && forall i, k :: 0 <= i < |cs| && FirstUser(scene.objects, scene.cameras[i].Ref(), k) ==>
           cs[i] == CameraRecord(scene.objects[k], scene.cameras[i])
  {
    DocumentMembers(scene, forward);
    var cs := MapResult(scene.cameras, CameraEntry(scene.objects)).value;
    DocumentLookup(cs, MapResult(scene.lights, LightEntry(scene.objects, forward)).value,
      ColorToList(scene.world.value), MeshFiles(scene.objects));
    forall i, k | 0 <= i < |cs| && FirstUser(scene.objects, scene.cameras[i].Ref(), k)
      ensures cs[i] == CameraRecord(scene.objects[k], scene.cameras[i])
    {
      CameraEntryRecord(scene.objects, scene.cameras[i], k);
    }
  }

  /** Each element of a successful light list is the record of its light
      data block, built from the block's first user. */
  lemma LightListRecords(scene: Scene, forward: Vec3 -> Vec3)
    requires MapResult(scene.lights, LightEntry(scene.objects, forward)).Success?
    ensures var ls := MapResult(scene.lights, LightEntry(scene.objects, forward)).value;
      forall i, k :: 0 <= i < |ls| && FirstUser(scene.objects, scene.lights[i].Ref(), k) ==>
        ls[i] == LightRecord(scene.objects[k], scene.lights[i], forward)
  {
    var ls := MapResult(scene.lights, LightEntry(scene.objects, forward)).value;
    forall i, k | 0 <= i < |ls| && FirstUser(scene.objects, scene.lights[i].Ref(), k)
      ensures ls[i] == LightRecord(scene.objects[k], scene.lights[i], forward)
    {
      LightEntryRecord(scene.objects, forward, scene.lights[i], k);
    }
  }

  /** The "lights" list has one record per light data block, in the order
      of the data blocks, each built from the first object that uses the
      block. */
  lemma LightsInOrder(scene: Scene, forward: Vec3 -> Vec3)
    requires Execute(scene, forward).Success?
    ensures exists ls ::
      && Get(Execute(scene, forward).value.members, "lights") == Some(Arr(ls))
      && |ls| == |scene.lights|
      && forall i, k :: 0 <= i < |ls| && FirstUser(scene.objects, scene.lights[i].Ref(), k) ==>
           ls[i] == LightRecord(scene.objects[k], scene.lights[i], forward)
  {
    DocumentMembers(scene, forward);
    var ls := MapResult(scene.lights, LightEntry(scene.objects, forward)).value;
    DocumentLookup(MapResult(scene.cameras, CameraEntry(scene.objects)).value, ls,
      ColorToList(scene.world.value), MeshFiles(scene.objects));
    LightListRecords(scene, forward);
    assert Get(Execute(scene, forward).value.members, "lights") == Some(Arr(ls));
  }

  /** The "background" entry is the world colour's first three channels,
      rounded, and the "meshes" entry is the file name of each mesh object
      in object order. */
  lemma BackgroundAndMeshes(scene: Scene, forward: Vec3 -> Vec3)
    requires Execute(scene, forward).Success?
    ensures scene.world.Some?
    ensures Get(Execute(scene, forward).value.members, "background") == Some(Nums(ColorToList(scene.world.value)))
    ensures Get(Execute(scene, forward).value.members, "meshes")
      == Some(Strs(FileNames(Seqs.Filter(scene.objects, IsMesh))))
  {
    DocumentMembers(scene, forward);
    DocumentLookup(MapResult(scene.cameras, CameraEntry(scene.objects)).value,
      MapResult(scene.lights, LightEntry(scene.objects, forward)).value,
      ColorToList(scene.world.value), MeshFiles(scene.objects));
    MeshFilesAreMeshObjects(scene.objects);
  }

  /** An export that fails at a camera reports the first camera data block
      that no object uses; lights are looked at only once every camera has
      an owner. */
  lemma ExportStopsAtFirstOrphanCamera(scene: Scene, forward: Vec3 -> Vec3, k: nat)
    requires k < |scene.cameras|
    requires forall j :: 0 <= j < |scene.objects| ==> !Uses(scene.objects[j], scene.cameras[k].Ref())
    requires forall i :: 0 <= i < k ==> exists j :: 0 <= j < |scene.objects| && Uses(scene.objects[j], scene.cameras[i].Ref())
    ensures Execute(scene, forward) == Failure(NoOwner(scene.cameras[k].Ref()))
  {
    var objs := scene.objects;
    CameraEntryFails(objs, scene.cameras[k]);
    OwnerIsFirstUser(objs, scene.cameras[k].Ref());
    forall i | 0 <= i < k
      ensures CameraEntry(objs)(scene.cameras[i]).Success?
    {
      CameraEntryFails(objs, scene.cameras[i]);
    }
    MapResultFirstError(scene.cameras, CameraEntry(objs), k);
  }

  /** The object "My Cube" is exported to "My_Cube.glb". */
  lemma MyCubeFile(obj: HostObject)
    requires obj.name == "My Cube"
    ensures MeshFileName(obj) == "My_Cube.glb"
  {
    SafeNameMyCube(obj.name);
    assert MeshFileName(obj) == "My_Cube" + ".glb";
    assert "My_Cube" + ".glb" == "My_Cube.glb";
  }

  /** A scene with no cameras, no lights and one mesh object named
      "My Cube" exports empty camera and light lists and the single mesh
      file "My_Cube.glb". */
  lemma SingleMeshScene(obj: HostObject, world: seq<real>, forward: Vec3 -> Vec3)
    requires obj.name == "My Cube" && obj.kind == "MESH"
    ensures Execute(Scene([], [], [obj], Some(world)), forward) == Success(Obj([
      Member("cameras", Arr([])),
      Member("lights", Arr([])),
      Member("background", Nums(ColorToList(world))),
      Member("meshes", Strs(["My_Cube.glb"]))
    ]))
  {
    MyCubeFile(obj);
    assert MeshFiles([obj]) == ["My_Cube.glb"];
    var scene := Scene([], [], [obj], Some(world));
    assert MapResult(scene.cameras, CameraEntry(scene.objects)) == Success([]);
    assert MapResult(scene.lights, LightEntry(scene.objects, forward)) == Success([]);
  }
}
