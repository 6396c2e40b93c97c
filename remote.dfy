/**
 * The download list (`remote.py`): walk every selected site's folder tree,
 * drop forbidden files, skip files whose cached modification date is
 * unchanged, add up the sizes and build one `(url, path, fileEntryId)` task
 * per file still to fetch.
 */
module Remote {
  import opened Wrappers
  import opened Entities
  import opened Cache
  import Decimal
  import Paths
  import Structure

  /** DOWNLOAD_FILE_URL up to its first placeholder. */
  const DownloadFileUrlPrefix: string := "https://beep.metid.polimi.it/c/document_library/get_file?groupId="

  /** `download_file_url`: DOWNLOAD_FILE_URL filled with the group id, the folder id and the title. */
  function DownloadFileUrl(groupId: int, folderId: int, title: string): string {
    DownloadFileUrlPrefix + Decimal.IntToString(groupId) + "&folderId=" + Decimal.IntToString(folderId) + "&title=" + title
  }

  /** `os.path.join(base_dir, title)` plus `"." + extension` unless the path already ends with the extension. */
  function DownloadPath(base: string, f: RemoteFile): string {
    Paths.WithExtension(Paths.Join(base, f.title), f.extension)
  }

  /**
   * The download path ends with the file's extension and starts with
   * `base_dir/title`; a file without an extension is saved as `base_dir/title`.
   */
  lemma DownloadPathShape(base: string, f: RemoteFile)
    ensures var r := DownloadPath(base, f);
      && Paths.EndsWith(r, f.extension)
      && Paths.StartsWith(r, Paths.Join(base, f.title))
      && (f.extension == "" ==> r == Paths.Join(base, f.title))
  {
    Paths.WithExtensionShape(Paths.Join(base, f.title), f.extension);
  }

  function FileTask(base: string, f: RemoteFile): Task {
    Task(DownloadFileUrl(f.groupId, f.folderId, f.title), DownloadPath(base, f), f.fileEntryId)
  }

  /** The triple `(size, download_size, to_download)` returned for a site or folder. */
  datatype Listing = Listing(size: int, downloadSize: int, tasks: seq<Task>)

  const Empty := Listing(0, 0, [])

  function Plus(a: Listing, b: Listing): Listing {
    Listing(a.size + b.size, a.downloadSize + b.downloadSize, a.tasks + b.tasks)
  }

  /** What one file of a folder adds: nothing if forbidden, its size only if unchanged, else a task. */
  function FileListing(f: RemoteFile, cache: CacheDir, base: string, forbidden: set<int>): Listing {
    if f.fileEntryId in forbidden then Empty
    else if GetFileFromCache(cache, f.fileEntryId).modifiedDate == Some(f.modifiedDate) then Listing(f.size, 0, [])
    else Listing(f.size, f.size, [FileTask(base, f)])
  }

  /** The first loop of `get_download_list_site`, over the folder's own files in order. */
  function ListFiles(files: seq<RemoteFile>, cache: CacheDir, base: string, forbidden: set<int>): Listing {
    if files == [] then Empty
    else Plus(ListFiles(files[..|files| - 1], cache, base, forbidden), FileListing(files[|files| - 1], cache, base, forbidden))
  }

  /** The listing of the `n`-th subfolder of `p`, with its cache entry and its own base directory. */
  function SubListing(p: Folder, k: nat, cache: CacheDir, base: string, forbidden: set<int>): Listing
    requires k < |p.folders|
    decreases p, 0
  {
    var sub := p.folders[k];
    ListSite(sub.folder, GetFolderFromCache(cache, sub.folderId), Paths.Join(base, sub.folder.name), forbidden)
  }

  /** The second loop of `get_download_list_site`, over the first `n` subfolders. */
  function ListFolders(p: Folder, n: nat, cache: CacheDir, base: string, forbidden: set<int>): Listing
    requires n <= |p.folders|
    decreases p, n + 1
  {
    if n == 0 then Empty
    else Plus(ListFolders(p, n - 1, cache, base, forbidden), SubListing(p, n - 1, cache, base, forbidden))
  }

  /** `get_download_list_site`: own files first, then each subfolder's listing. */
  function ListSite(folder: Folder, cache: CacheDir, base: string, forbidden: set<int>): Listing
    decreases folder, |folder.folders| + 2
  {
    Plus(ListFiles(folder.files, cache, base, forbidden), ListFolders(folder, |folder.folders|, cache, base, forbidden))
  }

  /** The first loop of `get_download_list_site` (lines 59-80): the folder's own files. */
  method ListOwnFiles(files: seq<RemoteFile>, cache: CacheDir, baseDir: string, forbidden: set<int>)
    returns (size: int, downloadSize: int, toDownload: seq<Task>)
    ensures Listing(size, downloadSize, toDownload) == ListFiles(files, cache, baseDir, forbidden)
  {
    size, downloadSize, toDownload := 0, 0, [];
    for i := 0 to |files|
      invariant Listing(size, downloadSize, toDownload) == ListFiles(files[..i], cache, baseDir, forbidden)
    {
      var f := files[i];
      ListFilesStep(files, i, cache, baseDir, forbidden);
      if f.fileEntryId in forbidden {
        continue;
      }
      var cached := GetFileFromCache(cache, f.fileEntryId);
      size := size + f.size;
      if cached.modifiedDate == Some(f.modifiedDate) {
        continue;
      }
      downloadSize := downloadSize + f.size;
      var url := DownloadFileUrl(f.groupId, f.folderId, f.title);
      var path := DownloadPath(baseDir, f);
      toDownload := toDownload + [Task(url, path, f.fileEntryId)];
    }
    assert files[..|files|] == files;
  }

  /** `get_download_list_site(site, cache, base_dir, forbidden_files)`. */
  method GetDownloadListSite(site: Folder, cache: CacheDir, baseDir: string, forbidden: set<int>)
    returns (size: int, downloadSize: int, toDownload: seq<Task>)
    ensures Listing(size, downloadSize, toDownload) == ListSite(site, cache, baseDir, forbidden)
    decreases site
  {
    var ownSize, ownDown, ownTasks := ListOwnFiles(site.files, cache, baseDir, forbidden);
    var subSize, subDown, subTasks := 0, 0, [];
    for j := 0 to |site.folders|
      invariant Listing(subSize, subDown, subTasks) == ListFolders(site, j, cache, baseDir, forbidden)
    {
      var sub := site.folders[j];
      var cachedDir := GetFolderFromCache(cache, sub.folderId);
      var sz, downSz, toDl := GetDownloadListSite(sub.folder, cachedDir, Paths.Join(baseDir, sub.folder.name), forbidden);
      assert Listing(sz, downSz, toDl) == SubListing(site, j, cache, baseDir, forbidden);
      ListFoldersStep(site, j + 1, cache, baseDir, forbidden);
      subSize, subDown, subTasks := subSize + sz, subDown + downSz, subTasks + toDl;
    }
    size, downloadSize, toDownload := ownSize + subSize, ownDown + subDown, ownTasks + subTasks;
  }

  lemma ListFoldersStep(p: Folder, n: nat, cache: CacheDir, base: string, forbidden: set<int>)
    requires 0 < n <= |p.folders|
    ensures ListFolders(p, n, cache, base, forbidden)
         == Plus(ListFolders(p, n - 1, cache, base, forbidden), SubListing(p, n - 1, cache, base, forbidden))
  {
  }

  lemma ListFilesStep(files: seq<RemoteFile>, i: nat, cache: CacheDir, base: string, forbidden: set<int>)
    requires i < |files|
    ensures ListFiles(files[..i + 1], cache, base, forbidden)
         == Plus(ListFiles(files[..i], cache, base, forbidden), FileListing(files[i], cache, base, forbidden))
  {
    assert files[..i + 1][..i] == files[..i];
  }

  /** The listing of one site of the sites dictionary: base `out_dir/name`, cache key `str(groupId)`. */
  function SiteListing(site: SubFolder, cache: SiteCache, outDir: string, forbidden: set<int>): Listing {
    ListSite(site.folder, GetSiteFromCache(cache, Decimal.IntToString(site.folderId)),
             Paths.Join(outDir, site.folder.name), forbidden)
  }

  /** The per-site listings concatenated in site order, with the totals added up. */
  function ListSites(sites: seq<SubFolder>, cache: SiteCache, outDir: string, forbidden: set<int>): Listing {
    if sites == [] then Empty
    else Plus(ListSites(sites[..|sites| - 1], cache, outDir, forbidden), SiteListing(sites[|sites| - 1], cache, outDir, forbidden))
  }

  lemma ListSitesStep(sites: seq<SubFolder>, i: nat, cache: SiteCache, outDir: string, forbidden: set<int>)
    requires i < |sites|
    ensures ListSites(sites[..i + 1], cache, outDir, forbidden)
         == Plus(ListSites(sites[..i], cache, outDir, forbidden), SiteListing(sites[i], cache, outDir, forbidden))
  {
    assert sites[..i + 1][..i] == sites[..i];
  }

  /**
   * `get_download_list`: the tasks of every site in order. The totals that the
   * source prints are returned beside the list.
   */
  method GetDownloadList(sites: seq<SubFolder>, cache: SiteCache, outDir: string, forbidden: set<int>)
    returns (downloads: seq<Task>, totalSize: int, totalDownloadSize: int)
    ensures Listing(totalSize, totalDownloadSize, downloads) == ListSites(sites, cache, outDir, forbidden)
  {
    downloads, totalSize, totalDownloadSize := [], 0, 0;
    for i := 0 to |sites|
      invariant Listing(totalSize, totalDownloadSize, downloads) == ListSites(sites[..i], cache, outDir, forbidden)
    {
      ListSitesStep(sites, i, cache, outDir, forbidden);
      var groupId := Decimal.IntToString(sites[i].folderId);
      var cacheSite := GetSiteFromCache(cache, groupId);
      var size, downloadSize, toDownload :=
        GetDownloadListSite(sites[i].folder, cacheSite, Paths.Join(outDir, sites[i].folder.name), forbidden);
      assert Listing(size, downloadSize, toDownload) == SiteListing(sites[i], cache, outDir, forbidden);
      downloads := downloads + toDownload;
      totalSize := totalSize + size;
      totalDownloadSize := totalDownloadSize + downloadSize;
    }
    assert sites[..|sites|] == sites;
  }

  /* ---------------------------------------------------------------------- */
  /* Properties of one folder's listing                                      */
  /* ---------------------------------------------------------------------- */

  /** The files of `files` whose ids are not forbidden, in order. */
  function Allowed(files: seq<RemoteFile>, forbidden: set<int>): (r: seq<RemoteFile>)
    ensures forall f :: f in r <==> f in files && f.fileEntryId !in forbidden
  {
    if files == [] then []
    else
      var last := files[|files| - 1];
      assert files == files[..|files| - 1] + [last];
      Allowed(files[..|files| - 1], forbidden) + (if last.fileEntryId in forbidden then [] else [last])
  }

  /** Filtering a concatenation filters each part and keeps them in order. */
  lemma {:induction false} AllowedAppend(a: seq<RemoteFile>, b: seq<RemoteFile>, forbidden: set<int>)
    ensures Allowed(a + b, forbidden) == Allowed(a, forbidden) + Allowed(b, forbidden)
    decreases |b|
  {
    if b == [] {
      assert a + b == a;
    } else {
      var last := b[|b| - 1];
      var front := b[..|b| - 1];
      assert (a + b)[..|a + b| - 1] == a + front;
      assert (a + b)[|a + b| - 1] == last;
      AllowedAppend(a, front, forbidden);
    }
  }

  /** One file is kept exactly when its id is not forbidden. */
  lemma AllowedSingleton(f: RemoteFile, forbidden: set<int>)
    ensures Allowed([f], forbidden) == if f.fileEntryId in forbidden then [] else [f]
  {
    assert [f][..0] == [];
  }

  /**
   * A forbidden file contributes nothing to `size`, `download_size` or the
   * task list: listing with a forbidden set is listing the allowed files
   * with no forbidden set at all.
   */
  lemma {:induction false} ForbiddenFilesIgnored(files: seq<RemoteFile>, cache: CacheDir, base: string, forbidden: set<int>)
    ensures ListFiles(files, cache, base, forbidden) == ListFiles(Allowed(files, forbidden), cache, base, {})
  {
    if files != [] {
      var init, last := files[..|files| - 1], files[|files| - 1];
      ForbiddenFilesIgnored(init, cache, base, forbidden);
      var kept := Allowed(init, forbidden);
      if last.fileEntryId !in forbidden {
        assert (kept + [last])[..|kept + [last]| - 1] == kept;
      } else {
        assert kept + [] == kept;
      }
    }
  }

  /** A file still to fetch: not forbidden, and its cached `modifiedDate` (if any) differs. */
  predicate NeedsDownload(f: RemoteFile, cache: CacheDir, forbidden: set<int>) {
    f.fileEntryId !in forbidden && GetFileFromCache(cache, f.fileEntryId).modifiedDate != Some(f.modifiedDate)
  }

  /**
   * Every task built for a folder's own files comes from one of those files
   * that needs a download: a forbidden file, or one whose cached modification
   * date is unchanged, is never listed.
   */
  lemma {:induction false} ListedFileNeedsDownload(files: seq<RemoteFile>, cache: CacheDir, base: string, forbidden: set<int>, t: Task)
    ensures t in ListFiles(files, cache, base, forbidden).tasks
        ==> exists i :: 0 <= i < |files| && NeedsDownload(files[i], cache, forbidden) && t == FileTask(base, files[i])
  {
    if files != [] {
      var init, n := files[..|files| - 1], |files| - 1;
      ListedFileNeedsDownload(init, cache, base, forbidden, t);
      var before := ListFiles(init, cache, base, forbidden).tasks;
      var here := if NeedsDownload(files[n], cache, forbidden) then [FileTask(base, files[n])] else [];
      assert FileListing(files[n], cache, base, forbidden).tasks == here;
      assert ListFiles(files, cache, base, forbidden).tasks == before + here;
      if t in before {
        var i :| 0 <= i < |init| && NeedsDownload(init[i], cache, forbidden) && t == FileTask(base, init[i]);
        assert files[i] == init[i];
      } else if t in here {
        assert NeedsDownload(files[n], cache, forbidden) && t == FileTask(base, files[n]);
      }
    }
  }

  /** Conversely, every own file that needs a download has its task in the list. */
  lemma {:induction false} FileNeedingDownloadIsListed(files: seq<RemoteFile>, cache: CacheDir, base: string, forbidden: set<int>, i: nat)
    requires i < |files| && NeedsDownload(files[i], cache, forbidden)
    ensures FileTask(base, files[i]) in ListFiles(files, cache, base, forbidden).tasks
  {
    var init, n := files[..|files| - 1], |files| - 1;
    var before := ListFiles(init, cache, base, forbidden).tasks;
    var here := if NeedsDownload(files[n], cache, forbidden) then [FileTask(base, files[n])] else [];
    assert FileListing(files[n], cache, base, forbidden).tasks == here;
    assert ListFiles(files, cache, base, forbidden).tasks == before + here;
    if i < n {
      assert init[i] == files[i];
      FileNeedingDownloadIsListed(init, cache, base, forbidden, i);
      assert FileTask(base, files[i]) in before;
    } else {
      assert i == n;
      assert NeedsDownload(files[n], cache, forbidden);
      assert here == [FileTask(base, files[n])];
    }
  }

  /** With no forbidden files, the `size` of a folder's own files is the sum of their sizes. */
  lemma {:induction false} ListFilesSize(files: seq<RemoteFile>, cache: CacheDir, base: string)
    ensures ListFiles(files, cache, base, {}).size == Structure.FilesSize(files)
  {
    if files != [] {
      ListFilesSize(files[..|files| - 1], cache, base);
    }
  }

  /**
   * With an empty forbidden set, the `size` that `get_download_list_site`
   * reports for a folder is `get_size` of that folder, whatever the cache.
   */
  lemma {:induction false} ListSiteSizeIsTreeSize(folder: Folder, cache: CacheDir, base: string)
    ensures ListSite(folder, cache, base, {}).size == Structure.TreeSize(folder)
    decreases folder, |folder.folders| + 2
  {
    ListFilesSize(folder.files, cache, base);
    ListFoldersSizeIsFoldersSize(folder, |folder.folders|, cache, base);
  }

  lemma {:induction false} ListFoldersSizeIsFoldersSize(p: Folder, n: nat, cache: CacheDir, base: string)
    requires n <= |p.folders|
    ensures ListFolders(p, n, cache, base, {}).size == Structure.FoldersSize(p, n)
    decreases p, n + 1
  {
    if n > 0 {
      ListFoldersSizeIsFoldersSize(p, n - 1, cache, base);
      var sub := p.folders[n - 1];
      ListSiteSizeIsTreeSize(sub.folder, GetFolderFromCache(cache, sub.folderId), Paths.Join(base, sub.folder.name));
    }
  }

  /** With non-negative sizes, `0 <= download_size <= size` for a folder's own files. */
  lemma {:induction false} ListFilesBounded(files: seq<RemoteFile>, cache: CacheDir, base: string, forbidden: set<int>)
    requires forall f :: f in files ==> f.size >= 0
    ensures 0 <= ListFiles(files, cache, base, forbidden).downloadSize <= ListFiles(files, cache, base, forbidden).size
  {
    if files != [] {
      ListFilesBounded(files[..|files| - 1], cache, base, forbidden);
    }
  }

  /** With non-negative sizes, `0 <= download_size <= size` for every folder tree. */
  lemma {:induction false} ListSiteBounded(folder: Folder, cache: CacheDir, base: string, forbidden: set<int>)
    requires Structure.SizesNonNegative(folder)
    ensures Bounded(ListSite(folder, cache, base, forbidden))
    decreases folder
  {
    forall k | 0 <= k < |folder.folders|
      ensures Bounded(SubListing(folder, k, cache, base, forbidden))
    {
      var sub := folder.folders[k];
      ListSiteBounded(sub.folder, GetFolderFromCache(cache, sub.folderId), Paths.Join(base, sub.folder.name), forbidden);
    }
    ListFilesBounded(folder.files, cache, base, forbidden);
    ListFoldersBounded(folder, |folder.folders|, cache, base, forbidden);
    PlusBounded(ListFiles(folder.files, cache, base, forbidden), ListFolders(folder, |folder.folders|, cache, base, forbidden));
  }

  /** The first `n` subfolders together are bounded when each of them is. */
  lemma {:induction false} ListFoldersBounded(p: Folder, n: nat, cache: CacheDir, base: string, forbidden: set<int>)
    requires n <= |p.folders|
    requires forall k :: 0 <= k < n ==> Bounded(SubListing(p, k, cache, base, forbidden))
    ensures Bounded(ListFolders(p, n, cache, base, forbidden))
  {
    if n > 0 {
      ListFoldersBounded(p, n - 1, cache, base, forbidden);
      ListFoldersStep(p, n, cache, base, forbidden);
      PlusBounded(ListFolders(p, n - 1, cache, base, forbidden), SubListing(p, n - 1, cache, base, forbidden));
    }
  }

  /** The sizes of a listing satisfy `0 <= download_size <= size`. */
  predicate Bounded(l: Listing) {
    0 <= l.downloadSize <= l.size
  }

  lemma PlusBounded(x: Listing, y: Listing)
    requires Bounded(x) && Bounded(y)
    ensures Bounded(Plus(x, y))
  {
  }

  /** No task of the list names a forbidden file. */
  predicate NoneForbidden(tasks: seq<Task>, forbidden: set<int>) {
    forall t :: t in tasks ==> t.fileEntryId !in forbidden
  }

  lemma {:induction false} ListFilesNoneForbidden(files: seq<RemoteFile>, cache: CacheDir, base: string, forbidden: set<int>)
    ensures NoneForbidden(ListFiles(files, cache, base, forbidden).tasks, forbidden)
  {
    if files != [] {
      ListFilesNoneForbidden(files[..|files| - 1], cache, base, forbidden);
    }
  }

  /** Anywhere in the tree, a forbidden file id never reaches the download list. */
  lemma {:induction false} ListSiteNoneForbidden(folder: Folder, cache: CacheDir, base: string, forbidden: set<int>)
    ensures NoneForbidden(ListSite(folder, cache, base, forbidden).tasks, forbidden)
    decreases folder, |folder.folders| + 2
  {
    ListFilesNoneForbidden(folder.files, cache, base, forbidden);
    ListFoldersNoneForbidden(folder, |folder.folders|, cache, base, forbidden);
  }

  lemma {:induction false} ListFoldersNoneForbidden(p: Folder, n: nat, cache: CacheDir, base: string, forbidden: set<int>)
    requires n <= |p.folders|
    ensures NoneForbidden(ListFolders(p, n, cache, base, forbidden).tasks, forbidden)
    decreases p, n + 1
  {
    if n > 0 {
      ListFoldersNoneForbidden(p, n - 1, cache, base, forbidden);
      var sub := p.folders[n - 1];
      ListSiteNoneForbidden(sub.folder, GetFolderFromCache(cache, sub.folderId), Paths.Join(base, sub.folder.name), forbidden);
    }
  }

  /** Without a cache, every allowed file is to be downloaded: `download_size == size`. */
  lemma {:induction false} ListFilesUncached(files: seq<RemoteFile>, base: string, forbidden: set<int>)
    ensures var l := ListFiles(files, NoDir, base, forbidden); l.downloadSize == l.size
  {
    if files != [] {
      ListFilesUncached(files[..|files| - 1], base, forbidden);
    }
  }

  lemma {:induction false} ListSiteUncached(folder: Folder, base: string, forbidden: set<int>)
    ensures var l := ListSite(folder, NoDir, base, forbidden); l.downloadSize == l.size
    decreases folder, |folder.folders| + 2
  {
    ListFilesUncached(folder.files, base, forbidden);
    ListFoldersUncached(folder, |folder.folders|, base, forbidden);
  }

  lemma {:induction false} ListFoldersUncached(p: Folder, n: nat, base: string, forbidden: set<int>)
    requires n <= |p.folders|
    ensures var l := ListFolders(p, n, NoDir, base, forbidden); l.downloadSize == l.size
    decreases p, n + 1
  {
    if n > 0 {
      ListFoldersUncached(p, n - 1, base, forbidden);
      var sub := p.folders[n - 1];
      ListSiteUncached(sub.folder, Paths.Join(base, sub.folder.name), forbidden);
    }
  }

  /* ---------------------------------------------------------------------- */
  /* A second run against the cache the first run wrote                      */
  /* ---------------------------------------------------------------------- */

  /** The cache entry `json.dumps` writes for one file record. */
  function CacheRecord(f: RemoteFile): CacheFile {
    CacheFile(None, Some(f.fileEntryId), Some(f.modifiedDate))
  }

  function CacheFiles(files: seq<RemoteFile>): (r: seq<CacheFile>)
    ensures |r| == |files| && forall i :: 0 <= i < |files| ==> r[i] == CacheRecord(files[i])
  {
    seq(|files|, i requires 0 <= i < |files| => CacheRecord(files[i]))
  }

  /** The `folders` dictionary of the dump for the first `n` subfolders: integer keys become their decimal text. */
  function CacheFolders(p: Folder, n: nat): map<string, CacheDir>
    requires n <= |p.folders|
    decreases p, n
  {
    if n == 0 then map[]
    else CacheFolders(p, n - 1)[Decimal.IntToString(p.folders[n - 1].folderId) := CacheOf(p.folders[n - 1].folder)]
  }

  /** A folder of the structure as the cache file holds it after the dump. */
  function CacheOf(folder: Folder): CacheDir
    decreases folder, |folder.folders| + 1
  {
    CacheDir(Some(CacheFiles(folder.files)), Some(CacheFolders(folder, |folder.folders|)))
  }

  predicate DistinctFileIds(files: seq<RemoteFile>) {
    forall i, j :: 0 <= i < j < |files| ==> files[i].fileEntryId != files[j].fileEntryId
  }

  /** The subfolders of a folder are a dictionary keyed by folder id, so their ids are distinct. */
  predicate DistinctFolderIds(folders: seq<SubFolder>) {
    forall i, j :: 0 <= i < j < |folders| ==> folders[i].folderId != folders[j].folderId
  }

  predicate WellFormed(folder: Folder) {
    && DistinctFileIds(folder.files)
    && DistinctFolderIds(folder.folders)
    && (forall i :: 0 <= i < |folder.folders| ==> WellFormed(folder.folders[i].folder))
  }

  /** Looking a file of the folder up in the dumped folder finds that very file's record. */
  lemma CachedFileFound(folder: Folder, i: nat)
    requires DistinctFileIds(folder.files) && i < |folder.files|
    ensures GetFileFromCache(CacheOf(folder), folder.files[i].fileEntryId) == CacheRecord(folder.files[i])
  {
    var id := folder.files[i].fileEntryId;
    var records := CacheFiles(folder.files);
    assert Matches(records[i], id);
    GetFileFromCacheIsFirstMatch(CacheOf(folder), id);
    var r := GetFileFromCache(CacheOf(folder), id);
    var k :| 0 <= k < |records| && records[k] == r && forall j :: 0 <= j < k ==> !Matches(records[j], id);
    assert Matches(records[k], id);
  }

  /** Looking the `k`-th subfolder up in the dumped `folders` finds that subfolder's dump. */
  lemma CachedFolderFound(p: Folder, n: nat, k: nat)
    requires DistinctFolderIds(p.folders) && k < n <= |p.folders|
    ensures Decimal.IntToString(p.folders[k].folderId) in CacheFolders(p, n)
    ensures CacheFolders(p, n)[Decimal.IntToString(p.folders[k].folderId)] == CacheOf(p.folders[k].folder)
  {
    var keys := FolderKeys(p, n);
    var dumps := FolderDumps(p, n);
    CacheFoldersIsKeyed(p, n);
    forall i | k < i < n
      ensures keys[i] != keys[k]
    {
      FolderKeysDiffer(p, k, i);
    }
    KeyedFinds(keys, dumps, k);
  }

  /** The decimal keys of the first `n` subfolders. */
  function FolderKeys(p: Folder, n: nat): (r: seq<string>)
    requires n <= |p.folders|
    ensures |r| == n && forall i :: 0 <= i < n ==> r[i] == Decimal.IntToString(p.folders[i].folderId)
  {
    seq(n, i requires 0 <= i < n => Decimal.IntToString(p.folders[i].folderId))
  }

  /** The dumps of the first `n` subfolders. */
  function FolderDumps(p: Folder, n: nat): (r: seq<CacheDir>)
    requires n <= |p.folders|
    ensures |r| == n && forall i :: 0 <= i < n ==> r[i] == CacheOf(p.folders[i].folder)
  {
    seq(n, i requires 0 <= i < n => CacheOf(p.folders[i].folder))
  }

  /** A dictionary filled key by key, in order: a later key overwrites an earlier equal one. */
  function Keyed(keys: seq<string>, values: seq<CacheDir>): map<string, CacheDir>
    requires |keys| == |values|
  {
    if keys == [] then map[]
    else Keyed(keys[..|keys| - 1], values[..|values| - 1])[keys[|keys| - 1] := values[|values| - 1]]
  }

  /** A key that no later key repeats maps to its own value. */
  lemma {:induction false} KeyedFinds(keys: seq<string>, values: seq<CacheDir>, k: nat)
    requires |keys| == |values| && k < |keys|
    requires forall i :: k < i < |keys| ==> keys[i] != keys[k]
    ensures keys[k] in Keyed(keys, values) && Keyed(keys, values)[keys[k]] == values[k]
  {
    var n := |keys|;
    if k < n - 1 {
      KeyedFinds(keys[..n - 1], values[..n - 1], k);
      assert keys[n - 1] != keys[k];
    }
  }

  lemma {:induction false} CacheFoldersIsKeyed(p: Folder, n: nat)
    requires n <= |p.folders|
    ensures CacheFolders(p, n) == Keyed(FolderKeys(p, n), FolderDumps(p, n))
  {
    if n > 0 {
      CacheFoldersIsKeyed(p, n - 1);
      assert FolderKeys(p, n)[..n - 1] == FolderKeys(p, n - 1);
      assert FolderDumps(p, n)[..n - 1] == FolderDumps(p, n - 1);
    }
  }

  /** Distinct folder ids have distinct decimal texts, so no dumped folder overwrites another's key. */
  lemma FolderKeysDiffer(p: Folder, i: nat, j: nat)
    requires DistinctFolderIds(p.folders) && i < j < |p.folders|
    ensures Decimal.IntToString(p.folders[i].folderId) != Decimal.IntToString(p.folders[j].folderId)
  {
    if Decimal.IntToString(p.folders[i].folderId) == Decimal.IntToString(p.folders[j].folderId) {
      Decimal.IntToStringInjective(p.folders[i].folderId, p.folders[j].folderId);
    }
  }

  /** `cache` records the current `modifiedDate` of every file of the tree, folder by folder. */
  predicate UpToDate(folder: Folder, cache: CacheDir) {
    && (forall f :: f in folder.files ==> GetFileFromCache(cache, f.fileEntryId).modifiedDate == Some(f.modifiedDate))
    && (forall k :: 0 <= k < |folder.folders| ==>
          UpToDate(folder.folders[k].folder, GetFolderFromCache(cache, folder.folders[k].folderId)))
  }

  lemma {:induction false} UpToDateOwnFiles(files: seq<RemoteFile>, cache: CacheDir, base: string, forbidden: set<int>)
    requires forall f :: f in files ==> GetFileFromCache(cache, f.fileEntryId).modifiedDate == Some(f.modifiedDate)
    ensures NothingToFetch(ListFiles(files, cache, base, forbidden))
  {
    if files != [] {
      UpToDateOwnFiles(files[..|files| - 1], cache, base, forbidden);
    }
  }

  /** Against a cache that is up to date for the whole tree, nothing is to be downloaded. */
  lemma {:induction false} UpToDateListsNothing(folder: Folder, cache: CacheDir, base: string, forbidden: set<int>)
    requires UpToDate(folder, cache)
    ensures NothingToFetch(ListSite(folder, cache, base, forbidden))
    decreases folder
  {
    forall k | 0 <= k < |folder.folders|
      ensures NothingToFetch(SubListing(folder, k, cache, base, forbidden))
    {
      var sub := folder.folders[k];
      UpToDateListsNothing(sub.folder, GetFolderFromCache(cache, sub.folderId), Paths.Join(base, sub.folder.name), forbidden);
    }
    UpToDateOwnFiles(folder.files, cache, base, forbidden);
    UpToDateSubfolders(folder, |folder.folders|, cache, base, forbidden);
    PlusNothing(ListFiles(folder.files, cache, base, forbidden), ListFolders(folder, |folder.folders|, cache, base, forbidden));
  }

  /** The first `n` subfolders together fetch nothing when none of them does. */
  lemma {:induction false} UpToDateSubfolders(p: Folder, n: nat, cache: CacheDir, base: string, forbidden: set<int>)
    requires n <= |p.folders|
    requires forall k :: 0 <= k < n ==> NothingToFetch(SubListing(p, k, cache, base, forbidden))
    ensures NothingToFetch(ListFolders(p, n, cache, base, forbidden))
  {
    if n > 0 {
      UpToDateSubfolders(p, n - 1, cache, base, forbidden);
      ListFoldersStep(p, n, cache, base, forbidden);
      PlusNothing(ListFolders(p, n - 1, cache, base, forbidden), SubListing(p, n - 1, cache, base, forbidden));
    }
  }

  /** Nothing is to be fetched: no bytes and no tasks. */
  predicate NothingToFetch(l: Listing) {
    l.downloadSize == 0 && l.tasks == []
  }

  lemma PlusNothing(x: Listing, y: Listing)
    requires NothingToFetch(x) && NothingToFetch(y)
    ensures NothingToFetch(Plus(x, y))
  {
  }

  /** The dump of a well-formed tree is up to date for that tree. */
  lemma {:induction false} DumpIsUpToDate(folder: Folder)
    requires WellFormed(folder)
    ensures UpToDate(folder, CacheOf(folder))
    decreases folder
  {
    forall f | f in folder.files
      ensures GetFileFromCache(CacheOf(folder), f.fileEntryId).modifiedDate == Some(f.modifiedDate)
    {
      var i :| 0 <= i < |folder.files| && folder.files[i] == f;
      CachedFileFound(folder, i);
    }
    forall k | 0 <= k < |folder.folders|
      ensures UpToDate(folder.folders[k].folder, GetFolderFromCache(CacheOf(folder), folder.folders[k].folderId))
    {
      CachedFolderFound(folder, |folder.folders|, k);
      DumpIsUpToDate(folder.folders[k].folder);
    }
  }

  /**
   * A run writes `json.dumps(structure)` as the cache. Listing the same tree
   * again against that cache finds every file unchanged: nothing is to be
   * downloaded and no task is built, whatever the forbidden set.
   */
  lemma RerunListsNothing(folder: Folder, base: string, forbidden: set<int>)
    requires WellFormed(folder)
    ensures NothingToFetch(ListSite(folder, CacheOf(folder), base, forbidden))
  {
    DumpIsUpToDate(folder);
    UpToDateListsNothing(folder, CacheOf(folder), base, forbidden);
  }

  /* ---------------------------------------------------------------------- */
  /* All sites                                                              */
  /* ---------------------------------------------------------------------- */

  lemma PlusAssociative(x: Listing, y: Listing, z: Listing)
    ensures Plus(Plus(x, y), z) == Plus(x, Plus(y, z))
  {
    assert (x.tasks + y.tasks) + z.tasks == x.tasks + (y.tasks + z.tasks);
  }

  lemma ListSitesLast(sites: seq<SubFolder>, cache: SiteCache, outDir: string, forbidden: set<int>)
    requires sites != []
    ensures ListSites(sites, cache, outDir, forbidden)
         == Plus(ListSites(sites[..|sites| - 1], cache, outDir, forbidden), SiteListing(sites[|sites| - 1], cache, outDir, forbidden))
  {
  }

  /** `get_download_list` is a homomorphism over the site order: listing `a + b` is listing `a`, then `b`. */
  lemma {:induction false} ListSitesAppend(a: seq<SubFolder>, b: seq<SubFolder>, cache: SiteCache, outDir: string, forbidden: set<int>)
    ensures ListSites(a + b, cache, outDir, forbidden) == Plus(ListSites(a, cache, outDir, forbidden), ListSites(b, cache, outDir, forbidden))
    decreases |b|
  {
    if b == [] {
      assert a + b == a;
      assert ListSites(a, cache, outDir, forbidden).tasks + [] == ListSites(a, cache, outDir, forbidden).tasks;
    } else {
      var init, ab := b[..|b| - 1], a + b;
      assert ab[..|ab| - 1] == a + init;
      assert ab[|ab| - 1] == b[|b| - 1];
      ListSitesLast(ab, cache, outDir, forbidden);
      ListSitesLast(b, cache, outDir, forbidden);
      ListSitesAppend(a, init, cache, outDir, forbidden);
      PlusAssociative(ListSites(a, cache, outDir, forbidden), ListSites(init, cache, outDir, forbidden),
                      SiteListing(b[|b| - 1], cache, outDir, forbidden));
    }
  }

  /** With non-negative sizes, the totals satisfy `0 <= total_download_size <= total_size`. */
  lemma {:induction false} ListSitesBounded(sites: seq<SubFolder>, cache: SiteCache, outDir: string, forbidden: set<int>)
    requires forall k :: 0 <= k < |sites| ==> Structure.SizesNonNegative(sites[k].folder)
    ensures Bounded(ListSites(sites, cache, outDir, forbidden))
  {
    if sites != [] {
      var last := sites[|sites| - 1];
      ListSitesBounded(sites[..|sites| - 1], cache, outDir, forbidden);
      ListSiteBounded(last.folder, GetSiteFromCache(cache, Decimal.IntToString(last.folderId)),
                      Paths.Join(outDir, last.folder.name), forbidden);
    }
  }

  /** No download of any site names a forbidden file. */
  lemma {:induction false} ListSitesNoneForbidden(sites: seq<SubFolder>, cache: SiteCache, outDir: string, forbidden: set<int>)
    ensures NoneForbidden(ListSites(sites, cache, outDir, forbidden).tasks, forbidden)
  {
    if sites != [] {
      var last := sites[|sites| - 1];
      ListSitesNoneForbidden(sites[..|sites| - 1], cache, outDir, forbidden);
      ListSiteNoneForbidden(last.folder, GetSiteFromCache(cache, Decimal.IntToString(last.folderId)),
                            Paths.Join(outDir, last.folder.name), forbidden);
    }
  }

  /**
   * The whole structure as the cache file holds it after the dump: the sites
   * dictionary keyed by the decimal text of each `groupId`, the same shape as
   * a folder's `folders`.
   */
  function CacheOfSites(sites: seq<SubFolder>): SiteCache {
    CacheFolders(Folder("", [], sites), |sites|)
  }

  lemma {:induction false} RerunSitePrefix(sites: seq<SubFolder>, m: nat, outDir: string, forbidden: set<int>)
    requires DistinctFolderIds(sites) && m <= |sites|
    requires forall k :: 0 <= k < |sites| ==> WellFormed(sites[k].folder)
    ensures NothingToFetch(ListSites(sites[..m], CacheOfSites(sites), outDir, forbidden))
  {
    if m > 0 {
      var site := sites[m - 1];
      assert sites[..m][..m - 1] == sites[..m - 1];
      RerunSitePrefix(sites, m - 1, outDir, forbidden);
      CachedFolderFound(Folder("", [], sites), |sites|, m - 1);
      assert GetSiteFromCache(CacheOfSites(sites), Decimal.IntToString(site.folderId)) == CacheOf(site.folder);
      RerunListsNothing(site.folder, Paths.Join(outDir, site.folder.name), forbidden);
      ListSitesStep(sites, m - 1, CacheOfSites(sites), outDir, forbidden);
      PlusNothing(ListSites(sites[..m - 1], CacheOfSites(sites), outDir, forbidden), SiteListing(site, CacheOfSites(sites), outDir, forbidden));
    }
  }

  /**
   * The run after a completed run, with the structure unchanged, downloads
   * nothing: `get_download_list` against the dumped structure is empty.
   */
  lemma RerunDownloadsNothing(sites: seq<SubFolder>, outDir: string, forbidden: set<int>)
    requires DistinctFolderIds(sites)
    requires forall k :: 0 <= k < |sites| ==> WellFormed(sites[k].folder)
    ensures NothingToFetch(ListSites(sites, CacheOfSites(sites), outDir, forbidden))
  {
    RerunSitePrefix(sites, |sites|, outDir, forbidden);
    assert sites[..|sites|] == sites;
  }

  /* ---------------------------------------------------------------------- */
  /* The site filter of get_user_sites                                       */
  /* ---------------------------------------------------------------------- */

  /** One entry of the user's sites: its name, its group id and its optional boolean `site` flag. */
  datatype SiteRecord = SiteRecord(name: string, groupId: int, site: Option<bool>)

  const BeepChannel: string := "BeeP channel"

  /** A site is kept unless its flag is `False`, or it is the BeeP channel and that was not asked for. */
  predicate Included(s: SiteRecord, includeBeep: bool) {
    s.site.GetOr(true) && (includeBeep || s.name != BeepChannel)
  }

  /** The position of the entry keyed `groupId` in an insertion-ordered dictionary, or its size when absent. */
  function KeyIndex(entries: seq<SiteRecord>, groupId: int): (k: nat)
    ensures k <= |entries|
    ensures k < |entries| ==> entries[k].groupId == groupId
    ensures k == |entries| ==> forall j :: 0 <= j < |entries| ==> entries[j].groupId != groupId
  {
    if entries == [] then 0
    else if entries[0].groupId == groupId then 0
    else 1 + KeyIndex(entries[1..], groupId)
  }

  /**
   * The site filter of `get_user_sites`, building the `structure`
   * dictionary keyed by `groupId` (the folder fetched for each site is not
   * part of this model: the value kept is the site entry itself).
   */
  method SelectSites(sites: seq<SiteRecord>, includeBeep: bool) returns (structure: seq<SiteRecord>)
    ensures forall i, j :: 0 <= i < j < |structure| ==> structure[i].groupId != structure[j].groupId
    ensures forall r :: r in structure ==> r in sites && Included(r, includeBeep)
    ensures forall i :: 0 <= i < |sites| && Included(sites[i], includeBeep) ==>
              exists k :: 0 <= k < |structure| && structure[k].groupId == sites[i].groupId
    ensures forall k, j :: 0 <= k < |structure| && 0 <= j < |sites| && Included(sites[j], includeBeep) && sites[j].groupId == structure[k].groupId
              ==> exists i :: j <= i < |sites| && sites[i] == structure[k]
  {
    structure := [];
    for n := 0 to |sites|
      invariant forall i, j :: 0 <= i < j < |structure| ==> structure[i].groupId != structure[j].groupId
      invariant forall r :: r in structure ==> r in sites[..n] && Included(r, includeBeep)
      invariant forall i :: 0 <= i < n && Included(sites[i], includeBeep) ==>
                  exists k :: 0 <= k < |structure| && structure[k].groupId == sites[i].groupId
      invariant forall k, j :: 0 <= k < |structure| && 0 <= j < n && Included(sites[j], includeBeep) && sites[j].groupId == structure[k].groupId
                  ==> exists i :: j <= i < n && sites[i] == structure[k]
    {
      var site := sites[n];
      assert sites[..n + 1] == sites[..n] + [site];
      if !site.site.GetOr(true) {
        continue;
      }
      if !includeBeep && site.name == BeepChannel {
        continue;
      }
      var k := KeyIndex(structure, site.groupId);
      ghost var before := structure;
      if k < |structure| {
        structure := structure[k := site];
        assert forall m :: 0 <= m < |structure| ==> structure[m].groupId == before[m].groupId;
      } else {
        structure := structure + [site];
        assert forall m :: 0 <= m < |before| ==> structure[m] == before[m];
      }
      assert structure[k] == site;
    }
  }
}
