/** The camera and light records of the exported document
    (`get_camera_data`, `get_light_data`). Each record is a dict built from
    a handful of computed values; the dict-building steps are stated over
    those values, the values over the host objects. */
module Records {
  import opened Wrappers
  import opened Coords
  import opened Json
  import opened Host
  import opened Names
  import Seqs

  /** Constraint types whose target a spot light is taken to aim at. */
  const TrackingKinds: set<string> := {"TRACK_TO", "DAMPED_TRACK", "LOCKED_TRACK"}

  /** A tracking constraint that has a target set. */
  predicate Aims(c: Constraint) {
    c.kind in TrackingKinds && c.target.Some?
  }

  const CameraKeys: seq<string> := ["name", "type", "fov", "position", "rotation"]

  /** The camera dict literal, given its computed values. */
  function CameraDict(name: string, fov: real, position: seq<real>, rotation: seq<real>): (ms: seq<Member>)
    ensures Keys(ms) == CameraKeys
  {
    var ms := [
      Member("name", Str(name)),
      Member("type", Str("PerspectiveCamera")),
      Member("fov", Num(fov)),
      Member("position", Nums(position)),
      Member("rotation", Nums(rotation))
    ];
    KeysIndexed(ms);
    ms
  }

  /** `get_camera_data(cam_obj, cam_data)` */
  function CameraRecord(obj: HostObject, cam: Camera): (r: Value)
    ensures r.Obj? && Keys(r.members) == CameraKeys
  {
    Obj(CameraDict(SafeName(obj.name), cam.lens, Transform(obj.location), Transform(obj.rotation)))
  }

  /** The keys every light record starts with. */
  const LightKeys: seq<string> := ["name", "type", "color", "intensity", "position"]

  /** The light dict literal, given its computed values. */
  function LightBase(name: string, kind: string, color: seq<real>, intensity: real, position: seq<real>): (ms: seq<Member>)
    ensures Keys(ms) == LightKeys
  {
    var ms := [
      Member("name", Str(name)),
      Member("type", Str(kind)),
      Member("color", Nums(color)),
      Member("intensity", Num(intensity)),
      Member("position", Nums(position))
    ];
    KeysIndexed(ms);
    ms
  }

  /** `d["target"] = ...` when a spot light has a target; the dict as it
      was otherwise. */
  function Aimed(base: seq<Member>, target: Option<seq<real>>): seq<Member> {
    match target
    case Some(t) => Put(base, "target", Nums(t))
    case None => base
  }

  /** The spot-light steps of `get_light_data` on the dict `base`: the
      target step, then `d["angle"] = ...`; nothing for other light types. */
  function LightDict(base: seq<Member>, spot: bool, target: Option<seq<real>>, angle: real): seq<Member> {
    if !spot then base
    else Put(Aimed(base, target), "angle", Num(angle))
  }

  /** The target member a spot dict gets, if any. */
  function TargetMembers(target: Option<seq<real>>): seq<Member> {
    match target
    case Some(t) => [Member("target", Nums(t))]
    case None => []
  }

  /** The keys a spot dict gets after the common five. */
  function SpotKeys(target: Option<seq<real>>): seq<string> {
    if target.Some? then ["target", "angle"] else ["angle"]
  }

  /** The angle member a spot dict ends with. */
  function AngleMember(angle: real): Member {
    Member("angle", Num(angle))
  }

  /** No record key list repeats a key. */
  lemma RecordKeysDistinct()
    ensures Distinct(CameraKeys)
    ensures Distinct(LightKeys + ["target", "angle"])
    ensures Distinct(LightKeys + ["angle"])
  {
  }

  /** The members a spot dict adds after the common five. */
  function SpotMembers(target: Option<seq<real>>, angle: real): seq<Member> {
    TargetMembers(target) + [AngleMember(angle)]
  }

  /** The target step appends, as the common keys do not include "target". */
  lemma AimedAppends(base: seq<Member>, target: Option<seq<real>>)
    requires "target" !in Keys(base)
    ensures Aimed(base, target) == base + TargetMembers(target)
  {
    if target.Some? {
      PutAbsent(base, "target", Nums(target.value));
    } else {
      assert base + [] == base;
    }
  }

  /** After the target step the dict still has no "angle". */
  lemma AngleAbsent(base: seq<Member>, target: Option<seq<real>>)
    requires Keys(base) == LightKeys
    ensures "angle" !in Keys(base + TargetMembers(target))
  {
    KeysAppend(base, TargetMembers(target));
  }

  /** Both spot steps append: the target (if any), then the angle. */
  lemma SpotDictMembers(base: seq<Member>, target: Option<seq<real>>, angle: real)
    requires Keys(base) == LightKeys
    ensures LightDict(base, true, target, angle) == base + SpotMembers(target, angle)
  {
    AimedAppends(base, target);
    AngleAbsent(base, target);
    PutAbsent(base + TargetMembers(target), "angle", Num(angle));
    assert base + TargetMembers(target) + [AngleMember(angle)]
      == base + (TargetMembers(target) + [AngleMember(angle)]);
  }

  /** The keys of the added members. */
  lemma SpotMembersKeys(target: Option<seq<real>>, angle: real)
    ensures Keys(SpotMembers(target, angle)) == SpotKeys(target)
  {
    if target.None? {
      assert SpotMembers(target, angle) == [AngleMember(angle)];
    }
  }

  /** Among the added members, "target" is there exactly when a target was
      found. */
  lemma SpotMembersTarget(target: Option<seq<real>>, angle: real)
    ensures Get(SpotMembers(target, angle), "target") == match target
      case Some(t) => Some(Nums(t))
      case None => None
  {
    if target.None? {
      assert SpotMembers(target, angle) == [AngleMember(angle)];
    }
  }

  /** Among the added members, "angle" holds the angle. */
  lemma SpotMembersAngle(target: Option<seq<real>>, angle: real)
    ensures Get(SpotMembers(target, angle), "angle") == Some(Num(angle))
  {
    if target.None? {
      assert SpotMembers(target, angle) == [AngleMember(angle)];
    }
  }

  /** A key the common five do not include is looked up among the members
      added after them. */
  lemma AddedLookup(base: seq<Member>, extra: seq<Member>, d: seq<Member>, k: string)
    requires Keys(base) == LightKeys && k !in LightKeys
    requires d == base + extra
    ensures Get(d, k) == Get(extra, k)
  {
    GetAppend(base, extra, k);
  }

  /** The keys of a spot dict, in order. */
  lemma SpotDictKeys(base: seq<Member>, target: Option<seq<real>>, angle: real)
    requires Keys(base) == LightKeys
    ensures Keys(LightDict(base, true, target, angle)) == LightKeys + SpotKeys(target)
  {
    SpotDictMembers(base, target, angle);
    KeysAppend(base, SpotMembers(target, angle));
    SpotMembersKeys(target, angle);
  }

  /** A light dict starts with the common members, unchanged. */
  lemma LightDictPrefix(base: seq<Member>, spot: bool, target: Option<seq<real>>, angle: real)
    requires Keys(base) == LightKeys
    ensures var d := LightDict(base, spot, target, angle);
      |d| >= 5 && d[..5] == base
  {
    if spot {
      SpotDictMembers(base, target, angle);
      assert (base + SpotMembers(target, angle))[..5] == base;
    } else {
      assert base[..5] == base;
    }
  }

  /** The keys of a light dict, in order: the five common ones, then for a
      spot "target" when a target was found, then "angle"; no key twice. */
  lemma LightDictKeys(base: seq<Member>, spot: bool, target: Option<seq<real>>, angle: real)
    requires Keys(base) == LightKeys
    ensures var d := LightDict(base, spot, target, angle);
      && Keys(d) == (if spot then LightKeys + SpotKeys(target) else LightKeys)
      && UniqueKeys(d)
  {
    RecordKeysDistinct();
    if spot {
      SpotDictKeys(base, target, angle);
    }
  }

  /** A spot dict's "angle" looks up the spot angle. */
  lemma SpotDictAngle(base: seq<Member>, target: Option<seq<real>>, angle: real)
    requires Keys(base) == LightKeys
    ensures Get(LightDict(base, true, target, angle), "angle") == Some(Num(angle))
  {
    SpotDictMembers(base, target, angle);
    AddedLookup(base, SpotMembers(target, angle), LightDict(base, true, target, angle), "angle");
    SpotMembersAngle(target, angle);
  }

  /** A spot dict's "target" looks up the target exactly when one was
      found. */
  lemma SpotDictTarget(base: seq<Member>, target: Option<seq<real>>, angle: real)
    requires Keys(base) == LightKeys
    ensures Get(LightDict(base, true, target, angle), "target") == match target
      case Some(t) => Some(Nums(t))
      case None => None
  {
    SpotDictMembers(base, target, angle);
    AddedLookup(base, SpotMembers(target, angle), LightDict(base, true, target, angle), "target");
    SpotMembersTarget(target, angle);
  }

  /** `location + rotation_euler.to_matrix() @ Vector((0, 0, -1))`, where
      `forward` stands for the rotation applied to (0, 0, -1). */
  function AimPoint(obj: HostObject, forward: Vec3 -> Vec3): Vec3 {
    Add(obj.location, forward(obj.rotation))
  }

  /** Where a spot light aims, as `get_light_data` decides it: with no
      constraints, at the computed aim point; otherwise at the target of the
      first tracking constraint that has one (the loop breaks there); and
      nowhere when no constraint qualifies. */
  function SpotTarget(obj: HostObject, forward: Vec3 -> Vec3): Option<Vec3> {
    if |obj.constraints| == 0 then Some(AimPoint(obj, forward))
    else
      match Seqs.First(obj.constraints, Aims)
      case Some(i) => obj.constraints[i].target
      case None => None
  }

  /** The remapped spot target, as written into the record. */
  function TargetList(obj: HostObject, forward: Vec3 -> Vec3): Option<seq<real>> {
    match SpotTarget(obj, forward)
    case Some(t) => Some(Transform(t))
    case None => None
  }

  /** The base dict of `get_light_data`. */
  function BaseLight(obj: HostObject, light: Light): (ms: seq<Member>)
    ensures Keys(ms) == LightKeys
  {
    LightBase(SafeName(obj.name), KindName(light.kind), ColorToList(light.color), light.energy, Transform(obj.location))
  }

  /** `get_light_data(light_obj, light_data)` */
  function LightRecord(obj: HostObject, light: Light, forward: Vec3 -> Vec3): (r: Value)
    ensures r.Obj?
  {
    Obj(LightDict(BaseLight(obj, light), light.kind == Spot, TargetList(obj, forward), light.spotSize))
  }

  /** A camera record holds the sanitised name, the literal type
      "PerspectiveCamera", the focal length, and the remapped location and
      rotation. */
  lemma CameraRecordFields(obj: HostObject, cam: Camera)
    ensures var ms := CameraRecord(obj, cam).members;
      && Get(ms, "name") == Some(Str(SafeName(obj.name)))
      && Get(ms, "type") == Some(Str("PerspectiveCamera"))
      && Get(ms, "fov") == Some(Num(cam.lens))
      && Get(ms, "position") == Some(Nums(Transform(obj.location)))
      && Get(ms, "rotation") == Some(Nums(Transform(obj.rotation)))
  {
    var ms := CameraRecord(obj, cam).members;
    RecordKeysDistinct();
    GetUnique(ms, 0);
    GetUnique(ms, 1);
    GetUnique(ms, 2);
    GetUnique(ms, 3);
    GetUnique(ms, 4);
  }

  /** The camera's name member has no space or hyphen and keeps the
      object name's length, and its type is always "PerspectiveCamera". */
  lemma CameraRecordName(obj: HostObject, cam: Camera)
    ensures exists n :: Get(CameraRecord(obj, cam).members, "name") == Some(Str(n)) && IsSafe(n) && |n| == |obj.name|
    ensures Get(CameraRecord(obj, cam).members, "type") == Some(Str("PerspectiveCamera"))
  {
    CameraRecordFields(obj, cam);
  }

  /** Every light record holds the sanitised name, the host type
      identifier, the three rounded colour channels, the power and the
      remapped location, under its first five keys. */
  lemma LightCommonFields(obj: HostObject, light: Light, forward: Vec3 -> Vec3)
    ensures var ms := LightRecord(obj, light, forward).members;
      && |ms| >= 5 && Keys(ms)[..5] == LightKeys
      && Get(ms, "name") == Some(Str(SafeName(obj.name)))
      && Get(ms, "type") == Some(Str(KindName(light.kind)))
      && Get(ms, "color") == Some(Nums(ColorToList(light.color)))
      && Get(ms, "intensity") == Some(Num(light.energy))
      && Get(ms, "position") == Some(Nums(Transform(obj.location)))
  {
    var base := BaseLight(obj, light);
    var spot, target := light.kind == Spot, TargetList(obj, forward);
    LightDictKeys(base, spot, target, light.spotSize);
    LightDictPrefix(base, spot, target, light.spotSize);
    CommonLookup(base, LightDict(base, spot, target, light.spotSize));
  }

  /** In a light dict whose first five members are the common ones, each
      common key looks up its member. */
  lemma CommonLookup(base: seq<Member>, d: seq<Member>)
    requires |base| == 5 && |d| >= 5 && d[..5] == base && UniqueKeys(d)
    ensures Get(d, base[0].key) == Some(base[0].value)
    ensures Get(d, base[1].key) == Some(base[1].value)
    ensures Get(d, base[2].key) == Some(base[2].value)
    ensures Get(d, base[3].key) == Some(base[3].value)
    ensures Get(d, base[4].key) == Some(base[4].value)
  {
    assert d[0] == base[0] && d[1] == base[1] && d[2] == base[2] && d[3] == base[3] && d[4] == base[4];
    GetUnique(d, 0);
    GetUnique(d, 1);
    GetUnique(d, 2);
    GetUnique(d, 3);
    GetUnique(d, 4);
  }

  /** A light that is not a spot has exactly the five common keys: no
      target and no angle. */
  lemma NonSpotLight(obj: HostObject, light: Light, forward: Vec3 -> Vec3)
    requires light.kind != Spot
    ensures Keys(LightRecord(obj, light, forward).members) == LightKeys
    ensures Get(LightRecord(obj, light, forward).members, "target") == None
    ensures Get(LightRecord(obj, light, forward).members, "angle") == None
  {
  }

  /** A record has an "angle" key exactly when the light is a spot, and
      then it is the spot size. A spot record is the five common keys,
      then "target" exactly when a target was found, then "angle". */
  lemma SpotLightKeys(obj: HostObject, light: Light, forward: Vec3 -> Vec3)
    ensures var ms := LightRecord(obj, light, forward).members;
      && ("angle" in Keys(ms) <==> light.kind == Spot)
      && (light.kind == Spot ==> Get(ms, "angle") == Some(Num(light.spotSize)))
      && (light.kind == Spot && SpotTarget(obj, forward).Some? ==> Keys(ms) == LightKeys + ["target", "angle"])
      && (light.kind == Spot && SpotTarget(obj, forward).None? ==> Keys(ms) == LightKeys + ["angle"])
  {
    LightDictKeys(BaseLight(obj, light), light.kind == Spot, TargetList(obj, forward), light.spotSize);
    if light.kind == Spot {
      SpotDictAngle(BaseLight(obj, light), TargetList(obj, forward), light.spotSize);
    }
  }

  /** The target a spot record carries is the one `SpotTarget` decides,
      remapped; there is no target key when it decides none. */
  lemma SpotRecordTarget(obj: HostObject, light: Light, forward: Vec3 -> Vec3)
    requires light.kind == Spot
    ensures Get(LightRecord(obj, light, forward).members, "target")
      == match SpotTarget(obj, forward)
         case Some(t) => Some(Nums(Transform(t)))
         case None => None
  {
    SpotDictTarget(BaseLight(obj, light), TargetList(obj, forward), light.spotSize);
  }

  /** The target rule for spot lights, stated without the search that
      implements it: no constraints gives the computed aim point; otherwise
      the first constraint that is a tracking constraint with a target
      decides; and when there are constraints but none qualifies, there is
      no target. */
  lemma SpotTargetRule(obj: HostObject, forward: Vec3 -> Vec3)
    ensures |obj.constraints| == 0 ==>
      SpotTarget(obj, forward) == Some(Add(obj.location, forward(obj.rotation)))
    ensures forall i :: (0 <= i < |obj.constraints| && Aims(obj.constraints[i])
                         && (forall j :: 0 <= j < i ==> !Aims(obj.constraints[j]))) ==>
      SpotTarget(obj, forward) == obj.constraints[i].target
    ensures (|obj.constraints| > 0 && forall j :: 0 <= j < |obj.constraints| ==> !Aims(obj.constraints[j])) ==>
      SpotTarget(obj, forward) == None
  {
    var cs := obj.constraints;
    var f := Seqs.First(cs, Aims);
    forall i | 0 <= i < |cs| && Aims(cs[i]) && (forall j :: 0 <= j < i ==> !Aims(cs[j]))
      ensures f == Some(i)
    {
      assert f.Some?;
      assert !(f.value < i);
      assert !(f.value > i);
    }
  }

  /** Only a tracking constraint with a target ever supplies the target of
      a constrained spot light, and a spot light lacks a target only when it
      has constraints and none of them qualifies. */
  lemma SpotTargetSource(obj: HostObject, forward: Vec3 -> Vec3)
    ensures SpotTarget(obj, forward).None? <==>
      |obj.constraints| > 0 && forall j :: 0 <= j < |obj.constraints| ==> !Aims(obj.constraints[j])
    ensures |obj.constraints| > 0 && SpotTarget(obj, forward).Some? ==>
      exists i :: 0 <= i < |obj.constraints| && Aims(obj.constraints[i])
                  && SpotTarget(obj, forward) == obj.constraints[i].target
  {
    var cs := obj.constraints;
    if |cs| > 0 && SpotTarget(obj, forward).Some? {
      var i := Seqs.First(cs, Aims).value;
      assert Aims(cs[i]) && SpotTarget(obj, forward) == cs[i].target;
    }
  }

  /** A spot light at the origin with no constraints and no rotation,
      whose forward direction is then (0, 0, -1), aims at (0, -1, 0) in
      viewer coordinates. */
  lemma UnconstrainedSpotAtOrigin(obj: HostObject, light: Light, forward: Vec3 -> Vec3)
    requires light.kind == Spot && |obj.constraints| == 0
    requires obj.location == Vec3(0.0, 0.0, 0.0) && obj.rotation == Vec3(0.0, 0.0, 0.0)
    requires forward(Vec3(0.0, 0.0, 0.0)) == Vec3(0.0, 0.0, -1.0)
    ensures Get(LightRecord(obj, light, forward).members, "target") == Some(Nums([0.0, -1.0, 0.0]))
  {
    var down := Vec3(0.0, 0.0, -1.0);
    assert AimPoint(obj, forward) == down;
    assert TargetList(obj, forward) == Some(Transform(down));
    TransformDown();
    SpotDictTarget(BaseLight(obj, light), TargetList(obj, forward), light.spotSize);
  }
}
