# R3F scene exporter: a Dafny model

This project models the data side of the Blender add-on that exports a scene for a
React Three Fiber viewer. It covers:

- `safe_name`, which turns spaces and hyphens into underscores;
- `safe_transform`, which remaps axes to (x, z, -y) and rounds to four decimals;
- `color_to_list`, which keeps the first three channels, rounded;
- the camera record and the light record, including the rule that decides where a spot light aims;
- the file name that `export_mesh_object` returns, and the path it writes to;
- the deletion test of `clean_export_folder`;
- the `execute` operator, which assembles the `lights_and_cameras.json` document from the scene's cameras, lights, objects and world.

The add-on exists in two copies with identical helper code: `r3f_handlers.py` plus
`r3f_ui.py`, and the single file `blender_addon/__init__.py`. The model describes both,
and the table below cites whichever copy a row is about.

Modelling choices:

- **Scene objects.** Host objects, cameras, lights, constraints and the scene are
  immutable datatypes (`Host`). Python's `o.data == cam` identity test is a comparison
  of data-block references (`DataRef`).
- **Dicts.** A Python dict keeps insertion order, and `json.dump` writes keys in that
  order. A JSON object is therefore an ordered member list (`Json`).
  - `d[k] = v` replaces the value of an existing key in place, or appends a new key (`Json.Put`).
  - `Json.Get` looks a key up. The exporter itself never reads a dict back; `Get` is how the model states what a dict holds.
- **Rounding.** `round(x, 4)` is modelled exactly on the value being rounded
  (`Rounding.Round4`): multiply by 10000, round to the nearest integer with ties to
  even, then divide. CPython's float `round` rounds the exact binary value correctly,
  so a double whose exact expansion is given rounds as the model says.
  `Coords.ColorExample` uses the exact expansions of the doubles nearest 0.12345 and 0.6.
- **Forward direction.** The product `rotation_euler.to_matrix() @ Vector((0, 0, -1))`
  is a parameter `forward: Vec3 -> Vec3` of the light record.
- **Failures.** The `[0]` of an empty owner list and a missing world raise exceptions.
  Here they are `Result` failures (`Export.ExportError`), and the export stops at the
  first one, as the exception does.
- **Paths.** `os.path.join` and the base name of a path follow POSIX rules (`Paths`).
- **Cleaning.** The folder walk is a list of (directory, name) entries, or `None` for a
  folder that does not exist.

A camera or light whose data block no object uses is not skipped. The `[0]` of the
empty owner list raises, and that aborts the whole export. In the model `Owner` fails and
`Execute` returns `Failure(NoOwner(...))`.

## Model

| member | source | states |
|---|---|---|
| Names.Replace | r3f_handlers.py:10 | `str.replace` with one-character pattern and replacement keeps the length, puts the replacement at every occurrence of the pattern and leaves every other character at its position |
| Names.SafeName | r3f_handlers.py:9-10 | the sanitised name has the input's length, contains no space and no hyphen, has an underscore where the input had a space or hyphen, and keeps every other character at its position |
| Names.SafeNameIdempotent | blender_addon/__init__.py:21-22 | sanitising a sanitised name changes nothing |
| Names.SafeNameFixedPoint | r3f_handlers.py:9-10 | a name is left unchanged exactly when it has no space and no hyphen |
| Names.SafeNameCollides | blender_addon/__init__.py:21-22 | names of equal length that differ only where both have a space, hyphen or underscore sanitise to the same string, so distinct objects can share a file name |
| Names.SafeNameMyCube | r3f_handlers.py:10 | "My Cube" sanitises to "My_Cube" |
| Rounding.RoundHalfEven | r3f_handlers.py:13 | the integer chosen is within one half of its argument, and at an exact tie it is the even neighbour |
| Rounding.RoundHalfEvenOfInt | r3f_handlers.py:13 | an integer rounds to itself |
| Rounding.RoundHalfEvenNeg | r3f_handlers.py:13 | rounding commutes with negation, ties included (ties go to even) |
| Rounding.Round4 | r3f_handlers.py:13 | `round(v, 4)` lies on the 0.0001 grid and within 0.00005 of `v` |
| Rounding.Round4OnGrid | r3f_handlers.py:16 | a value with at most four decimals is unchanged by rounding |
| Rounding.Round4Idempotent | r3f_handlers.py:16 | rounding twice is rounding once |
| Rounding.Round4Neg | r3f_handlers.py:13 | rounding `-y` gives minus the rounded `y` |
| Coords.Transform | r3f_handlers.py:12-13 | the remapped vector has exactly three components |
| Coords.TransformAxes | r3f_handlers.py:12-13 | the components are the rounded x, the rounded z and minus the rounded y, in that order |
| Coords.TransformRoundTrip | blender_addon/__init__.py:25-26 | every component is on the rounding grid; undoing the remap gives the rounded host vector, and the host vector itself when it already had four decimals |
| Coords.TransformDown | r3f_handlers.py:12-13 | the host direction (0, 0, -1) becomes (0, -1, 0) in viewer coordinates |
| Coords.ColorToList | r3f_handlers.py:15-16 | the list has min(channel count, 3) entries, each the rounded input channel at the same position |
| Coords.ColorDropsAlpha | blender_addon/__init__.py:29-30 | channels after the third, such as alpha, never affect the result |
| Coords.ColorToListIdempotent | blender_addon/__init__.py:29-30 | converting an already converted colour changes nothing |
| Coords.ColorExample | r3f_handlers.py:15-16 | the doubles nearest (0.12345, 0.6, 1.0, 0.0) convert to [0.1235, 0.6, 1.0] |
| Json.Get | r3f_handlers.py:28-34 | the lookup used to state what a dict holds: it finds nothing exactly when the key is not among the object's keys |
| Json.Put | r3f_handlers.py:40 | after `d[k] = v`, `k` looks up `v` |
| Json.PutKeys | r3f_handlers.py:44-46 | assigning an existing key keeps the key order; assigning a new key appends it |
| Json.PutOther | r3f_handlers.py:46 | assigning one key leaves the lookup of every other key unchanged |
| Json.PutAbsent | r3f_handlers.py:46 | assigning a key the dict lacks appends exactly one member |
| Json.GetUnique | r3f_handlers.py:28-34 | in a dict without repeated keys each member is what its key looks up |
| Json.GetAppend | r3f_handlers.py:40-46 | a lookup in a dict grown at the end finds the older member first |
| Json.KeysAppend | r3f_handlers.py:40-46 | the keys of an appended dict are the old keys followed by the new ones |
| Records.CameraDict | r3f_handlers.py:19-25 | the camera dict's keys are name, type, fov, position, rotation, in that order |
| Records.CameraRecord | r3f_handlers.py:18-25 | a camera record is an object with exactly those keys |
| Records.CameraRecordFields | r3f_handlers.py:18-25 | the record holds the sanitised object name, "PerspectiveCamera", the lens, and the remapped location and rotation |
| Records.CameraRecordName | blender_addon/__init__.py:33-40 | the name has no space or hyphen and the object name's length; the type is always "PerspectiveCamera" |
| Records.LightBase | r3f_handlers.py:28-34 | the light dict starts with the keys name, type, color, intensity, position |
| Records.BaseLight | r3f_handlers.py:28-34 | the same, for the values computed from a light and its object |
| Records.RecordKeysDistinct | r3f_handlers.py:28-46 | no record key list repeats a key |
| Records.AimedAppends | r3f_handlers.py:40 | setting "target" on the fresh light dict appends it |
| Records.AngleAbsent | r3f_handlers.py:46 | "angle" is not yet present when it is set |
| Records.SpotDictMembers | r3f_handlers.py:36-46 | a spot dict is the common members, then the target member if a target was found, then the angle member |
| Records.SpotMembersKeys | r3f_handlers.py:36-46 | the added keys are "target" then "angle", or "angle" alone |
| Records.SpotMembersTarget | r3f_handlers.py:40-44 | among the added members "target" is present exactly when a target was found |
| Records.SpotMembersAngle | r3f_handlers.py:46 | among the added members "angle" holds the spot size |
| Records.AddedLookup | r3f_handlers.py:36-46 | a key that is not one of the common five is looked up among the added members |
| Records.SpotDictKeys | r3f_handlers.py:36-46 | the keys of a spot dict are the common five followed by the added keys |
| Records.LightDict | r3f_handlers.py:36-46 | the light dict after the spot steps; its meaning is stated by `SpotDictMembers`, `LightDictPrefix`, `LightDictKeys`, `SpotDictAngle` and `SpotDictTarget` |
| Records.LightDictPrefix | r3f_handlers.py:28-34 | every light dict starts with the common members, unchanged |
| Records.LightDictKeys | r3f_handlers.py:27-48 | a light dict's keys are the common five, plus the spot keys for a spot light only, with no key twice |
| Records.SpotDictAngle | r3f_handlers.py:46 | a spot dict's "angle" is the spot size |
| Records.SpotDictTarget | r3f_handlers.py:37-44 | a spot dict's "target" is the found target, and absent when none was found |
| Records.LightRecord | r3f_handlers.py:27-48 | a light record is an object |
| Records.CommonLookup | r3f_handlers.py:28-34 | each of the first five keys looks up its common member |
| Records.LightCommonFields | r3f_handlers.py:27-34 | every light record starts with name, type, color, intensity, position, holding the sanitised name, the host type identifier, the three rounded channels, the power and the remapped location |
| Records.NonSpotLight | r3f_handlers.py:36-48 | a light that is not a spot has exactly the five common keys, with no target and no angle |
| Records.SpotLightKeys | r3f_handlers.py:36-48 | "angle" is present exactly for spot lights and holds the spot size; a spot record's keys end with "target", "angle" when a target was found and with "angle" alone otherwise |
| Records.SpotRecordTarget | blender_addon/__init__.py:52-62 | a spot record's "target" is the remapped target the rule decides, and absent when it decides none |
| Records.Aims | r3f_handlers.py:39 | the loop's test: a TRACK_TO, DAMPED_TRACK or LOCKED_TRACK constraint with a target; `SpotTargetRule` states the choice it drives |
| Records.AimPoint | r3f_handlers.py:43 | the point one forward step from the light's location; `SpotTargetRule` states when it is the target |
| Records.SpotTarget | r3f_handlers.py:37-44 | where a spot light aims; its meaning is stated by `SpotTargetRule` and `SpotTargetSource` |
| Records.SpotTargetRule | r3f_handlers.py:36-44 | no constraints: the computed aim point; otherwise the first constraint that is a tracking constraint with a target decides; constraints but none qualifying: no target |
| Records.SpotTargetSource | blender_addon/__init__.py:52-62 | a spot light lacks a target exactly when it has constraints and none qualifies; a constrained target always comes from a qualifying constraint |
| Records.UnconstrainedSpotAtOrigin | r3f_handlers.py:42-44 | an unrotated, unconstrained spot light at the origin aims at (0, -1, 0) in viewer coordinates |
| Paths.Join | r3f_handlers.py:53 | the joined path ends with the name; a relative name is appended directly after a directory that is empty or ends in a separator, and after one added separator otherwise; an absolute name replaces the directory |
| Paths.Basename | r3f_handlers.py:53 | the base name has no separator, is a suffix of the path, and starts right after the path's last separator (or at its start) |
| Paths.BasenameAfterSeparator | r3f_handlers.py:53 | a separator-free name after a directory ending in a separator is the path's base name |
| Paths.JoinBasename | r3f_handlers.py:53 | joining a directory with a separator-free name gives a path whose base name is that name |
| Meshes.MeshFileName | r3f_handlers.py:60 | the returned name is the sanitised object name followed by ".glb", and contains no space or hyphen |
| Meshes.ExportPath | r3f_handlers.py:53 | the path handed to the glTF exporter ends with the name `export_mesh_object` returns, whatever the object name; `MeshFileIsExportedFile` states that the name is the path's base name |
| Meshes.MeshFileIsExportedFile | r3f_handlers.py:53-60 | for an object name without a separator, the returned name is the base name of the path the mesh was written to |
| Meshes.AbsoluteNameLeavesExportDir | r3f_handlers.py:53 | an object name that starts with "/" makes the join discard the export folder |
| Meshes.MeshFiles | blender_addon/__init__.py:112-115 | the mesh list is never longer than the object list |
| Meshes.FileNamesAppend | blender_addon/__init__.py:112-115 | file names of a concatenation are the concatenated file names |
| Meshes.MeshFilesAreMeshObjects | blender_addon/__init__.py:112-115 | the mesh list is the MESH objects, in object order, each mapped to its file name |
| Meshes.MeshFilesConcat | r3f_ui.py:29-32 | the list for a concatenation of object lists is the concatenation of their lists |
| Meshes.ListedFileHasObject | r3f_ui.py:29-32 | every listed name is the file name of some MESH object |
| Meshes.MeshObjectIsListed | r3f_ui.py:29-32 | every MESH object's file name is listed |
| Meshes.MeshFilesMembership | r3f_ui.py:29-32 | a name is listed exactly when some MESH object exports to it |
| Meshes.MeshFilesAreGlb | r3f_ui.py:29-32 | every listed name ends in ".glb" |
| Cleanup.Deletable | r3f_handlers.py:69 | the deletion test on one file name; `Clean`, `Removed` and `ExportedFilesAreCleaned` state what it deletes |
| Cleanup.Clean | r3f_handlers.py:62-70 | a missing folder stays missing; otherwise a file remains exactly when its name neither ends in ".glb" nor is "lights_and_cameras.json" |
| Cleanup.Removed | r3f_handlers.py:66-70 | the deleted files are exactly the folder's files whose name ends in ".glb" or is "lights_and_cameras.json" |
| Cleanup.CleanPartitions | r3f_handlers.py:66-70 | deleted and kept files together are the folder's files, none lost and none duplicated |
| Cleanup.CleanIdempotent | blender_addon/__init__.py:84-88 | a second run deletes nothing and leaves the folder as the first run left it |
| Cleanup.ExportedFilesAreCleaned | blender_addon/__init__.py:77-88 | every file name the exporter returns, and the document's name, pass the cleaner's deletion test |
| Seqs.Filter | blender_addon/__init__.py:105 | the comprehension keeps exactly the elements that satisfy the condition |
| Seqs.FirstFrom | r3f_handlers.py:38-41 | the index found from a start position is the first satisfying one, and none is found only when none satisfies |
| Seqs.First | r3f_handlers.py:38-41 | the loop with `break` finds the first satisfying element, and none exactly when none satisfies |
| Seqs.FilterConcat | blender_addon/__init__.py:105 | the comprehension keeps its input's order |
| Seqs.FilterHeadIsFirst | blender_addon/__init__.py:105 | the `[0]` of the comprehension is the first satisfying element, and the comprehension is empty exactly when none satisfies |
| Seqs.FilterNone | blender_addon/__init__.py:105 | with no satisfying element the comprehension is empty |
| Seqs.FilterPartition | r3f_handlers.py:67-70 | splitting by a condition and its complement loses and duplicates nothing |
| Seqs.FilterIdempotent | r3f_handlers.py:67-70 | filtering twice by the same condition is filtering once |
| Export.OwnerIsFirstUser | blender_addon/__init__.py:104-106 | the owner is the first object whose data is the block; the lookup fails exactly when no object uses it |
| Export.Owner | r3f_ui.py:22 | a found owner uses the data block and is one of the scene's objects; a failure names the block; `OwnerIsFirstUser` states that it is the first user |
| Export.OwnerFails | r3f_ui.py:22 | the owner lookup fails exactly when no object uses the block |
| Export.MapResult | r3f_ui.py:21-27 | the loop succeeds exactly when every element's record succeeds, and then yields one record per element, in order |
| Export.MapResultFirstError | r3f_ui.py:21-27 | a failing loop stops with the error of its first failing element |
| Export.CameraEntry | r3f_ui.py:21-23 | one iteration of the camera loop; `CameraEntryFails` and `CameraEntryRecord` state its meaning |
| Export.CameraEntryFails | r3f_ui.py:21-23 | a camera's record fails exactly when no object uses the camera's data |
| Export.CameraEntryRecord | r3f_ui.py:21-23 | a camera's record is built from the first object using its data |
| Export.LightEntry | r3f_ui.py:25-27 | one iteration of the light loop; `LightEntryFails` and `LightEntryRecord` state its meaning |
| Export.LightEntryFails | r3f_ui.py:25-27 | a light's record fails exactly when no object uses the light's data |
| Export.LightEntryRecord | r3f_ui.py:25-27 | a light's record is built from the first object using its data |
| Export.CameraListFailure | r3f_ui.py:21-23 | a failing camera loop has a camera data block no object uses |
| Export.OrphanCameraFails | r3f_ui.py:21-23 | a camera data block no object uses makes the camera loop fail |
| Export.CameraListFails | r3f_ui.py:21-23 | the camera loop fails exactly when some camera data block has no user |
| Export.LightListFailure | r3f_ui.py:25-27 | a failing light loop has a light data block no object uses |
| Export.OrphanLightFails | r3f_ui.py:25-27 | a light data block no object uses makes the light loop fail |
| Export.LightListFails | r3f_ui.py:25-27 | the light loop fails exactly when some light data block has no user |
| Export.Document | r3f_ui.py:36-41 | the document's keys are cameras, lights, background, meshes, in that order |
| Export.DocumentLookup | r3f_ui.py:36-41 | each document key holds the list it was built with |
| Export.Execute | r3f_ui.py:14-41 | a successful export produces a JSON object |
| Export.ExportFailsIff | blender_addon/__init__.py:104-117 | the export fails exactly when a camera or light data block has no user or the scene has no world |
| Export.DocumentMembers | r3f_ui.py:21-41 | a successful export's document is built from the camera list, the light list, the world colour and the mesh list |
| Export.ExportKeys | r3f_ui.py:36-41 | the document has exactly the keys cameras, lights, background and meshes, in that order |
| Export.CamerasInOrder | r3f_ui.py:21-23 | "cameras" has one record per camera data block, in block order, each built from the block's first user |
| Export.LightListRecords | r3f_ui.py:25-27 | each element of a successful light list is the record of its block, built from the block's first user |
| Export.LightsInOrder | r3f_ui.py:25-27 | "lights" has one record per light data block, in block order, each built from the block's first user |
| Export.BackgroundAndMeshes | r3f_ui.py:29-34 | "background" is the world colour's three rounded channels; "meshes" is the MESH objects' file names in object order |
| Export.ExportStopsAtFirstOrphanCamera | blender_addon/__init__.py:104-106 | an export whose first unused camera block is number k fails naming that block |
| Export.MyCubeFile | r3f_handlers.py:60 | the object "My Cube" is exported as "My_Cube.glb" |
| Export.SingleMeshScene | r3f_ui.py:14-41 | a scene with one mesh object "My Cube" and nothing else exports empty camera and light lists and the mesh list ["My_Cube.glb"] |

## Left out

- Rounding.Round4: the rounded value is an exact decimal. The source converts it back to the nearest double, and that conversion is not modelled.
- Coords.Add: exact real addition stands for the single-precision (float32) addition of `mathutils` vectors in the aim point. The host's location, rotation and colour fields are float32 values too, and become doubles only when `safe_transform` or `color_to_list` reads them; the model takes them as exact reals.
- The rotation matrix product `rotation_euler.to_matrix() @ Vector((0, 0, -1))` is the parameter `forward`. Its mathutils internals are not modelled.
- `bpy.ops.export_scene.gltf`, object selection, `os.makedirs`, `os.walk`, `os.remove`, `os.path.exists` and writing the JSON file are host and file-system effects. The model keeps only the names, paths and predicates they use.
- Meshes written before a missing world stops the export are side effects and are not modelled. A missing owner raises in the camera or light loop (r3f_ui.py:21-27), which runs before the mesh loop (r3f_ui.py:29-32), so no mesh has been written when it does.
- The export folder is `abspath("/")` in `r3f_ui.py` (lines 17-18 and 43) and `abspath("//")` in the single-file add-on (blender_addon/__init__.py:100). Where the folder lies does not change the document, so neither call is modelled. The cleaner in `r3f_handlers.py` walks `abspath("//")/viewer/public` (lines 63-64), so files written by the two-file copy do not reach that cleaner. `Cleanup.ExportedFilesAreCleaned` therefore speaks only for the single-file add-on, where the exporter's folder lies inside the folder the cleaner walks.
- Paths.Join: POSIX rules only; Windows drive letters and backslashes are not modelled.
- Cleanup.Clean: directories found by the walk are not entries; only files are. The walk order is taken as given.
- Records.LightRecord: its own contract only says the result is an object. The field, key and target facts are the lemmas listed above.
- Meshes.MeshFiles: its own contract only bounds the length. The content is stated by `MeshFilesAreMeshObjects` and `MeshFilesMembership`.
- Cleanup.ExportedFilesAreCleaned: it is about names only. An object name containing `/` can put the mesh outside the cleaned folder: a name starting with `/` makes the join discard the export folder (`Meshes.AbsoluteNameLeavesExportDir`), and `../` segments climb out of it. Such a file passes the deletion test but is never reached by the walk.
- Export.ExportFailsIff: the equivalence covers only the missing-owner and missing-world failures. The source can also abort when `select_set` raises for an object outside the active view layer (blender_addon/__init__.py:69), when the glTF export fails (:71-75), when `os.makedirs` fails (:102) and when writing the JSON file fails (:127-128). Those failures are not modelled.
- Export.Execute: its own contract only says a success is an object. The contents are stated by the `Export` lemmas.
- The launch operators (`subprocess.Popen`), the panel and add-on registration, the root `__init__.py`, `zipper.py`, the viewer's React sources and `server/server.ts` are UI wiring, process launch, packaging and network code outside the exporter's data logic. They are not part of this model.
- Signed zero, NaN and infinity: exact reals have none of them. Python's `round(-0.0, 4)` is `-0.0`, so where `Coords.TransformDown` and `Records.UnconstrainedSpotAtOrigin` give `[0.0, -1.0, 0.0]`, `json.dump` writes `[0.0, -1.0, -0.0]`. The two lists are numerically equal, but not the same text.
- Euler order: `forward` receives only the three rotation angles. `rotation_euler.to_matrix()` also depends on the Euler's rotation order, which the model does not carry; a caller must pick the `forward` that matches the order.
- The `INFO` reports and `{'FINISHED'}` return values of the operators are not modelled.
