/**
 * Lookups in the cache of a previous run. The cache is the JSON dump of the
 * previous structure: per site a dictionary with a `files` list and a
 * `folders` dictionary keyed by the decimal text of each folder id. Every
 * lookup falls back to an empty dictionary; none changes the cache (they are
 * functions of their arguments).
 */
module Cache {
  import opened Wrappers
  import Decimal

  /** A cached file entry; each key may be missing. */
  datatype CacheFile = CacheFile(classPK: Option<int>, fileEntryId: Option<int>, modifiedDate: Option<int>)

  /** A cached site or folder; `files` and `folders` may be missing. */
  datatype CacheDir = CacheDir(files: Option<seq<CacheFile>>, folders: Option<map<string, CacheDir>>)

  /** The whole cache: sites keyed by the decimal text of their group id. */
  type SiteCache = map<string, CacheDir>

  /** The empty dictionary `{}` read as a file entry. */
  const NoFile := CacheFile(None, None, None)

  /** The empty dictionary `{}` read as a site or folder. */
  const NoDir := CacheDir(None, None)

  predicate Matches(f: CacheFile, id: int) {
    f.classPK == Some(id) || f.fileEntryId == Some(id)
  }

  /** The first entry of `files` that matches `id`, or `{}`. */
  function FirstMatch(files: seq<CacheFile>, id: int): CacheFile {
    if files == [] then NoFile
    else if Matches(files[0], id) then files[0]
    else FirstMatch(files[1..], id)
  }

  /**
   * The search finds a match exactly when the list holds one; what it finds
   * is an entry of the list with no matching entry before it; otherwise it
   * gives `{}`.
   */
  lemma {:induction false} FirstMatchIsFirst(files: seq<CacheFile>, id: int)
    ensures var r := FirstMatch(files, id);
      && (Matches(r, id) <==> exists i :: 0 <= i < |files| && Matches(files[i], id))
      && (Matches(r, id) ==> exists i :: 0 <= i < |files| && files[i] == r
                                         && forall j :: 0 <= j < i ==> !Matches(files[j], id))
      && (!Matches(r, id) ==> r == NoFile)
  {
    if files != [] && !Matches(files[0], id) {
      FirstMatchIsFirst(files[1..], id);
      assert forall i :: 1 <= i < |files| ==> files[i] == files[1..][i - 1];
      var r := FirstMatch(files, id);
      if Matches(r, id) {
        var i :| 0 <= i < |files[1..]| && files[1..][i] == r && forall j :: 0 <= j < i ==> !Matches(files[1..][j], id);
        assert files[i + 1] == r && forall j :: 0 <= j < i + 1 ==> !Matches(files[j], id);
      }
    }
  }

  /** `get_file_from_cache`: the first cached file whose `classPK` or `fileEntryId` is `id`, else `{}`. */
  function GetFileFromCache(cache: CacheDir, id: int): CacheFile {
    FirstMatch(cache.files.GetOr([]), id)
  }

  /**
   * `get_file_from_cache` returns the first entry of `files` that matches,
   * and `{}` when `files` is missing or nothing in it matches.
   */
  lemma GetFileFromCacheIsFirstMatch(cache: CacheDir, id: int)
    ensures var files, r := cache.files.GetOr([]), GetFileFromCache(cache, id);
      && (Matches(r, id) <==> exists i :: 0 <= i < |files| && Matches(files[i], id))
      && (Matches(r, id) ==> exists i :: 0 <= i < |files| && files[i] == r
                                         && forall j :: 0 <= j < i ==> !Matches(files[j], id))
      && (!Matches(r, id) ==> r == NoFile)
      && (cache.files.None? ==> r == NoFile)
  {
    FirstMatchIsFirst(cache.files.GetOr([]), id);
  }

  /** `get_folder_from_cache`: `cache["folders"][str(folderId)]`, with `{}` for a missing key at either level. */
  function GetFolderFromCache(cache: CacheDir, folderId: int): (r: CacheDir)
    ensures cache.folders == None ==> r == NoDir
    ensures cache.folders.Some? && Decimal.IntToString(folderId) !in cache.folders.value ==> r == NoDir
    ensures cache.folders.Some? && Decimal.IntToString(folderId) in cache.folders.value
            ==> r == cache.folders.value[Decimal.IntToString(folderId)]
  {
    var key := Decimal.IntToString(folderId);
    var folders := cache.folders.GetOr(map[]);
    if key in folders then folders[key] else NoDir
  }

  /** `get_site_from_cache`: `cache[groupId]`, or `{}` when the site was not cached. */
  function GetSiteFromCache(cache: SiteCache, groupId: string): (r: CacheDir)
    ensures groupId !in cache ==> r == NoDir
    ensures groupId in cache ==> r == cache[groupId]
  {
    if groupId in cache then cache[groupId] else NoDir
  }

  /**
   * Storing a folder under the text of its id and looking it up again gives
   * that folder back, and leaves the lookups of every other folder id as they
   * were: the decimal keys of two different ids never collide.
   */
  lemma FolderLookupAfterStore(files: Option<seq<CacheFile>>, folders: map<string, CacheDir>, id: int, d: CacheDir, other: int)
    ensures GetFolderFromCache(CacheDir(files, Some(folders[Decimal.IntToString(id) := d])), other)
         == if other == id then d else GetFolderFromCache(CacheDir(files, Some(folders)), other)
  {
    if other != id && Decimal.IntToString(other) == Decimal.IntToString(id) {
      Decimal.IntToStringInjective(other, id);
    }
  }
}
