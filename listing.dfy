/**
 * `list_files`: a two-level listing of a folder whose children are all folders.
 * The filesystem is a snapshot passed in: what `os.listdir` reports for the root,
 * in the order it reports it, and for each child whether it is a folder and, if so,
 * the names it holds.
 */
module Listing {
  import opened Common
  import opened Sorting

  /** One child of the root: a non-directory, or a directory with its `os.listdir` names. */
  datatype Child = NotADirectory | Directory(names: seq<string>)

  /** A name reported by `os.listdir(root)` and what that name refers to. */
  datatype Entry = Entry(name: string, child: Child)

  /** The root path: not a directory, or a directory with its entries in listing order. */
  datatype Root = NotAFolder | Folder(entries: seq<Entry>)

  /** `osp.join(dir, name)` for a relative `name`. */
  function Join(dir: string, name: string): string
  {
    dir + "/" + name
  }

  /** `[osp.join(dir, n) for n in names]`. */
  function JoinAll(dir: string, names: seq<string>): seq<string>
  {
    seq(|names|, i requires 0 <= i < |names| => Join(dir, names[i]))
  }

  function NameOf(e: Entry): string { e.name }

  function Itself(s: string): string { s }

  /** The paths listed for one child folder: its names in ascending order, joined onto `inputs/name`. */
  function FilesOf(inputs: string, e: Entry): seq<string>
    requires e.child.Directory?
  {
    JoinAll(Join(inputs, e.name), SortBy(e.child.names, Itself))
  }

  /** Sorting the root's entries keeps exactly the same entries. */
  lemma SameEntries(entries: seq<Entry>)
    ensures forall e :: e in entries <==> e in SortBy(entries, NameOf)
  {
    var sorted := SortBy(entries, NameOf);
    assert multiset(sorted) == multiset(entries);
    forall e
      ensures e in entries <==> e in sorted
    {
      assert e in entries <==> e in multiset(entries);
      assert e in sorted <==> e in multiset(sorted);
    }
  }

  /**
   * The listing of `inputs`: for each child of the root in ascending name order,
   * the child's entry names in ascending order, each joined onto `inputs/child`.
   * Fails with an assertion error exactly when the root or one of its children is
   * not a directory.
   */
  method ListFiles(inputs: string, root: Root) returns (r: Result<seq<seq<string>>>)
    ensures r.Failure? <==> root.NotAFolder? || exists e :: e in root.entries && e.child.NotADirectory?
    ensures r.Failure? ==> r.error == AssertionError
    ensures r.Success? ==>
      && root.Folder?
      && var subDirs := SortBy(root.entries, NameOf);
      && |r.value| == |root.entries|
      && forall i :: 0 <= i < |subDirs| ==> subDirs[i].child.Directory? && r.value[i] == FilesOf(inputs, subDirs[i])
  {
    if root.NotAFolder? {
      return Failure(AssertionError);
    }
    var subDirs := SortBy(root.entries, NameOf);
    SameEntries(root.entries);
    var filesList: seq<seq<string>> := [];
    var i := 0;
    while i < |subDirs|
      invariant 0 <= i <= |subDirs|
      invariant |filesList| == i
      invariant forall j :: 0 <= j < i ==> subDirs[j].child.Directory? && filesList[j] == FilesOf(inputs, subDirs[j])
    {
      var dirPath := Join(inputs, subDirs[i].name);
      if !subDirs[i].child.Directory? {
        assert subDirs[i] in root.entries;
        return Failure(AssertionError);
      }
      var files := SortBy(subDirs[i].child.names, Itself);
      files := JoinAll(dirPath, files);
      filesList := filesList + [files];
      i := i + 1;
    }
    forall e | e in root.entries
      ensures e.child.Directory?
    {
      var j :| 0 <= j < |subDirs| && subDirs[j] == e;
    }
    return Success(filesList);
  }
}
