/** Mesh objects: the file each one is exported to (`export_mesh_object`)
    and the "meshes" list of the document. */
module Meshes {
  import opened Names
  import opened Paths
  import opened Host
  import Seqs

  const GlbSuffix: string := ".glb"

  /** The name `export_mesh_object` returns: the sanitised object name
      with the binary glTF suffix. */
  function MeshFileName(obj: HostObject): (f: string)
    ensures EndsWith(f, GlbSuffix)
    ensures |f| == |obj.name| + 4 && f[..|obj.name|] == SafeName(obj.name)
    ensures IsSafe(f)
  {
    var f := SafeName(obj.name) + GlbSuffix;
    assert f[..|obj.name|] == SafeName(obj.name);
    f
  }

  /** The path the glTF exporter is asked to write, built independently of
      the returned name: `path.join(export_dir, f"{safe_name(obj.name)}.glb")`. */
  function ExportPath(dir: string, obj: HostObject): (p: string)
    ensures EndsWith(p, MeshFileName(obj))
  {
    Join(dir, SafeName(obj.name) + ".glb")
  }

  /** The returned name is the base name of the path the mesh was written
      to, for every object name without a separator. */
  lemma MeshFileIsExportedFile(dir: string, obj: HostObject)
    requires '/' !in obj.name
    ensures Basename(ExportPath(dir, obj)) == MeshFileName(obj)
  {
    var n := SafeName(obj.name) + ".glb";
    forall i | 0 <= i < |n|
      ensures n[i] != '/'
    {
      if i < |obj.name| {
        assert obj.name[i] in obj.name;
      }
    }
    JoinBasename(dir, n);
  }

  /** An object name that starts with a separator makes the join discard
      the export directory: the mesh is written to the absolute path the
      name spells. */
  lemma AbsoluteNameLeavesExportDir(dir: string, obj: HostObject)
    requires |obj.name| > 0 && obj.name[0] == '/'
    ensures ExportPath(dir, obj) == MeshFileName(obj)
  {
    var n := SafeName(obj.name) + ".glb";
    assert n[..1] == "/";
  }

  predicate IsMesh(obj: HostObject) {
    obj.kind == "MESH"
  }

  /** The "meshes" list: walking the objects in order, one file name for
      each mesh object. */
  function MeshFiles(objs: seq<HostObject>): (r: seq<string>)
    ensures |r| <= |objs|
    decreases |objs|
  {
    if |objs| == 0 then []
    else MeshEntry(objs[0]) + MeshFiles(objs[1..])
  }

  /** What one object adds to the "meshes" list. */
  function MeshEntry(obj: HostObject): seq<string> {
    if IsMesh(obj) then [MeshFileName(obj)] else []
  }

  /** The file names of a list of objects, position by position. */
  function FileNames(objs: seq<HostObject>): (r: seq<string>)
    ensures |r| == |objs|
    ensures forall i :: 0 <= i < |objs| ==> r[i] == MeshFileName(objs[i])
  {
    seq(|objs|, i requires 0 <= i < |objs| => MeshFileName(objs[i]))
  }

  /** File names of a concatenation, part by part. */
  lemma FileNamesAppend(a: seq<HostObject>, b: seq<HostObject>)
    ensures FileNames(a + b) == FileNames(a) + FileNames(b)
  {
    assert forall i :: 0 <= i < |a + b| ==> FileNames(a + b)[i] == (FileNames(a) + FileNames(b))[i];
  }

  /** The "meshes" list is the mesh objects, in object order, mapped to
      their file names: non-mesh objects contribute nothing and every mesh
      object contributes exactly one entry. */
  lemma {:induction false} MeshFilesAreMeshObjects(objs: seq<HostObject>)
    ensures MeshFiles(objs) == FileNames(Seqs.Filter(objs, IsMesh))
    decreases |objs|
  {
    if |objs| > 0 {
      MeshFilesAreMeshObjects(objs[1..]);
      var head := if IsMesh(objs[0]) then [objs[0]] else [];
      var tail := Seqs.Filter(objs[1..], IsMesh);
      assert Seqs.Filter(objs, IsMesh) == head + tail;
      FileNamesAppend(head, tail);
      assert FileNames(head) == MeshEntry(objs[0]);
    }
  }

  /** The list of a concatenation of object lists is the concatenation of
      their lists, so the document keeps the objects' order. */
  lemma {:induction false} MeshFilesConcat(a: seq<HostObject>, b: seq<HostObject>)
    ensures MeshFiles(a + b) == MeshFiles(a) + MeshFiles(b)
    decreases |a|
  {
    if |a| == 0 {
      assert a + b == b;
    } else {
      assert (a + b)[0] == a[0];
      assert (a + b)[1..] == a[1..] + b;
      MeshFilesConcat(a[1..], b);
      var h := MeshEntry(a[0]);
      assert MeshFiles(a + b) == h + MeshFiles(a[1..] + b);
      assert h + (MeshFiles(a[1..]) + MeshFiles(b)) == (h + MeshFiles(a[1..])) + MeshFiles(b);
    }
  }

  /** Every listed file name is that of some mesh object. */
  lemma ListedFileHasObject(objs: seq<HostObject>, f: string)
    requires f in MeshFiles(objs)
    ensures exists o :: o in objs && IsMesh(o) && MeshFileName(o) == f
  {
    MeshFilesAreMeshObjects(objs);
    var ms := Seqs.Filter(objs, IsMesh);
    var k :| 0 <= k < |ms| && FileNames(ms)[k] == f;
    assert ms[k] in ms;
  }

  /** Every mesh object's file name is listed. */
  lemma MeshObjectIsListed(objs: seq<HostObject>, o: HostObject)
    requires o in objs && IsMesh(o)
    ensures MeshFileName(o) in MeshFiles(objs)
  {
    MeshFilesAreMeshObjects(objs);
    var ms := Seqs.Filter(objs, IsMesh);
    assert o in ms;
    var k :| 0 <= k < |ms| && ms[k] == o;
    assert FileNames(ms)[k] == MeshFileName(o);
  }

  /** A file name is listed exactly when some mesh object exports to it. */
  lemma MeshFilesMembership(objs: seq<HostObject>, f: string)
    ensures f in MeshFiles(objs) <==> exists o :: o in objs && IsMesh(o) && MeshFileName(o) == f
  {
    if f in MeshFiles(objs) {
      ListedFileHasObject(objs, f);
    }
    if o :| o in objs && IsMesh(o) && MeshFileName(o) == f {
      MeshObjectIsListed(objs, o);
    }
  }

  /** Every listed file is a binary glTF file. */
  lemma MeshFilesAreGlb(objs: seq<HostObject>)
    ensures forall f :: f in MeshFiles(objs) ==> EndsWith(f, GlbSuffix)
  {
    forall f | f in MeshFiles(objs)
      ensures EndsWith(f, GlbSuffix)
    {
      MeshFilesMembership(objs, f);
    }
  }
}
