/** `get_size`: the total size of a folder tree. */
module Structure {
  import opened Entities

  /** Sum of the sizes of a list of files. */
  function FilesSize(files: seq<RemoteFile>): int {
    if files == [] then 0 else FilesSize(files[..|files| - 1]) + files[|files| - 1].size
  }

  /** Sum of the tree sizes of the first `n` subfolders of `p`. */
  function FoldersSize(p: Folder, n: nat): int
    requires n <= |p.folders|
    decreases p, n
  {
    if n == 0 then 0 else FoldersSize(p, n - 1) + TreeSize(p.folders[n - 1].folder)
  }

  /** The size of a folder: its own files plus, recursively, every subfolder. */
  function TreeSize(folder: Folder): int
    decreases folder, |folder.folders| + 1
  {
    FilesSize(folder.files) + FoldersSize(folder, |folder.folders|)
  }

  /** Every file of the tree, in listing order: own files first, then each subfolder's. */
  function AllFiles(folder: Folder): seq<RemoteFile>
    decreases folder, |folder.folders| + 1
  {
    folder.files + AllFilesOf(folder, |folder.folders|)
  }

  function AllFilesOf(p: Folder, n: nat): seq<RemoteFile>
    requires n <= |p.folders|
    decreases p, n
  {
    if n == 0 then [] else AllFilesOf(p, n - 1) + AllFiles(p.folders[n - 1].folder)
  }

  /** No file anywhere in the tree has a negative size. */
  predicate SizesNonNegative(folder: Folder) {
    && (forall f :: f in folder.files ==> f.size >= 0)
    && (forall i :: 0 <= i < |folder.folders| ==> SizesNonNegative(folder.folders[i].folder))
  }

  /**
   * `get_size(folder)`: an accumulator over the folder's own files, then one
   * recursive call per subfolder.
   */
  method GetSize(folder: Folder) returns (size: int)
    ensures size == TreeSize(folder)
    ensures folder.files == [] && folder.folders == [] ==> size == 0
    decreases folder
  {
    size := 0;
    for i := 0 to |folder.files|
      invariant size == FilesSize(folder.files[..i])
    {
      assert folder.files[..i + 1][..i] == folder.files[..i];
      size := size + folder.files[i].size;
    }
    assert folder.files[..|folder.files|] == folder.files;
    for j := 0 to |folder.folders|
      invariant size == FilesSize(folder.files) + FoldersSize(folder, j)
    {
      var sub := GetSize(folder.folders[j].folder);
      size := size + sub;
    }
  }

  lemma {:induction false} FilesSizeAppend(a: seq<RemoteFile>, b: seq<RemoteFile>)
    ensures FilesSize(a + b) == FilesSize(a) + FilesSize(b)
    decreases |b|
  {
    if b == [] {
      assert a + b == a;
    } else {
      assert (a + b)[..|a + b| - 1] == a + b[..|b| - 1];
      FilesSizeAppend(a, b[..|b| - 1]);
    }
  }

  /** The size is the sum of the sizes of every file in the tree. */
  lemma {:induction false} TreeSizeIsSumOfAllFiles(folder: Folder)
    ensures TreeSize(folder) == FilesSize(AllFiles(folder))
    decreases folder, |folder.folders| + 1
  {
    FoldersSizeIsSum(folder, |folder.folders|);
    FilesSizeAppend(folder.files, AllFilesOf(folder, |folder.folders|));
  }

  lemma {:induction false} FoldersSizeIsSum(p: Folder, n: nat)
    requires n <= |p.folders|
    ensures FoldersSize(p, n) == FilesSize(AllFilesOf(p, n))
    decreases p, n
  {
    if n > 0 {
      FoldersSizeIsSum(p, n - 1);
      TreeSizeIsSumOfAllFiles(p.folders[n - 1].folder);
      FilesSizeAppend(AllFilesOf(p, n - 1), AllFiles(p.folders[n - 1].folder));
    }
  }

  lemma {:induction false} FilesSizeNonNegative(files: seq<RemoteFile>)
    requires forall f :: f in files ==> f.size >= 0
    ensures FilesSize(files) >= 0
  {
    if files != [] {
      FilesSizeNonNegative(files[..|files| - 1]);
    }
  }

  /** With no negative file size, the size of a tree is not negative. */
  lemma {:induction false} TreeSizeNonNegative(folder: Folder)
    requires SizesNonNegative(folder)
    ensures TreeSize(folder) >= 0
    decreases folder, |folder.folders| + 1
  {
    FilesSizeNonNegative(folder.files);
    FoldersSizeNonNegative(folder, |folder.folders|);
  }

  lemma {:induction false} FoldersSizeNonNegative(p: Folder, n: nat)
    requires n <= |p.folders| && SizesNonNegative(p)
    ensures FoldersSize(p, n) >= 0
    decreases p, n
  {
    if n > 0 {
      FoldersSizeNonNegative(p, n - 1);
      TreeSizeNonNegative(p.folders[n - 1].folder);
    }
  }
}
