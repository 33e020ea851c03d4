/** The export-folder cleaner (`clean_export_folder`): every file found
    under the viewer's public folder whose name ends in ".glb" or is the
    scene document's name is deleted; nothing else is touched, and an absent
    folder is left alone. */
module Cleanup {
  import opened Wrappers
  import opened Paths
  import opened Host
  import opened Meshes
  import Seqs

  /** The file the exporter writes the scene document to. */
  const DocumentName: string := "lights_and_cameras.json"

  /** The deletion test applied to each file name. */
  predicate Deletable(name: string) {
    EndsWith(name, ".glb") || name == DocumentName
  }

  /** A file found by walking the folder: the directory it was found in
      and its name. */
  datatype Entry = Entry(dir: string, name: string)

  predicate Removes(e: Entry) {
    Deletable(e.name)
  }

  predicate Keeps(e: Entry) {
    !Deletable(e.name)
  }

  /** The files left after a run; `None` stands for a folder that does not
      exist, which the cleaner leaves absent. */
  function Clean(folder: Option<seq<Entry>>): (r: Option<seq<Entry>>)
    ensures r.None? <==> folder.None?
    ensures folder.Some? ==> forall e :: e in r.value <==> e in folder.value && !Deletable(e.name)
  {
    match folder
    case None => None
    case Some(files) => Some(Seqs.Filter(files, Keeps))
  }

  /** The files a run deletes, in walk order. */
  function Removed(folder: Option<seq<Entry>>): (r: seq<Entry>)
    ensures folder.None? ==> r == []
    ensures forall e :: e in r <==> folder.Some? && e in folder.value && Deletable(e.name)
  {
    match folder
    case None => []
    case Some(files) => Seqs.Filter(files, Removes)
  }

  /** A run splits the folder's files into those it deletes and those it
      keeps, losing none and inventing none. */
  lemma CleanPartitions(folder: Option<seq<Entry>>)
    requires folder.Some?
    ensures multiset(Removed(folder)) + multiset(Clean(folder).value) == multiset(folder.value)
  {
    Seqs.FilterPartition(folder.value, Removes, Keeps);
  }

  /** A second run deletes nothing and leaves the folder as the first run
      left it. */
  lemma CleanIdempotent(folder: Option<seq<Entry>>)
    ensures Removed(Clean(folder)) == []
    ensures Clean(Clean(folder)) == Clean(folder)
  {
    if folder.Some? {
      var kept := Clean(folder).value;
      Seqs.FilterIdempotent(folder.value, Keeps);
      Seqs.FilterNone(kept, Removes);
    }
  }

  /** Every mesh file name the exporter returns, and the document's name,
      pass the deletion test. */
  lemma ExportedFilesAreCleaned(obj: HostObject)
    ensures Deletable(MeshFileName(obj))
    ensures Deletable(DocumentName)
  {
  }
}
