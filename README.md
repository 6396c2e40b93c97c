# beep-downloader, modelled in Dafny

beep-downloader mirrors the course material of the BeeP e-learning site onto the local disk. It has three stages:

- It lists the user's sites. Each site is a tree of folders and files.
- It compares that tree with a cache written after the previous run, and computes which files still have to be fetched.
- A pool of worker threads downloads those files. One login thread logs in again when a worker finds the session expired; `perform_beep_login` keeps the first session it obtained per user and hands that back on later calls. A set of file ids the server refused ("forbidden files") is kept so that later runs skip them.

This project models the sequential logic of those stages and proves what it promises:

| file | module | what it models |
|---|---|---|
| `entities.dfy` | `Entities` | file records, folder trees and download tasks |
| `cache.dfy` | `Cache` | the defaulting lookups into the previous run's cache |
| `structure.dfy` | `Structure` | `get_size`, the total size of a folder tree |
| `remote.dfy` | `Remote` | the download list (which files to fetch, under which path, with which sizes) and the site filter |
| `utils.dfy` | `Utils` | `format_size` |
| `download_ui.dfy` | `DownloadUi` | the progress counters of `DownloadUI` |
| `download.dfy` | `Download` | one HTTP download (status classification, extension renaming, bytes reported), the per-item step of a worker, the drain after a failed login, and the stop markers |
| `scraper.dfy` | `Scraper` | the site id in a link, and the size and date fallbacks of the HTML scraper |
| `decimal.dfy`, `paths.dfy`, `wrappers.dfy` | `Decimal`, `Paths`, `Wrappers` | decimal text, `os.path.join`, `str.endswith`, `str.split`, `str.strip`, `Option` |

The shared state of the downloader is one Dafny class, `Download.Downloader`. It has these fields:

- the queue (`todo`);
- the forbidden set;
- the optional session (`cookies`);
- the `done` flag;
- the queue's count of unfinished tasks (`unfinished`);
- the `DownloadUI`.

Each thread action is one method: taking an item (`Take`), starting it (`Begin`, or `Abandon` once `done` is set), completing its fetch (`Complete`), the login outcome (`Login`), and putting the stop markers (`StopWorkers`). The ghost field `books` records which entries have been queued, taken and not yet started, fetched, finished or abandoned. `Valid()` says that every entry is accounted for exactly once. It also says that `unfinished` is the number of entries queued, taken or being fetched and not yet settled, that the UI's `todo` is the number of tasks not yet finished, and that the UI's `doing` is the number of tasks being fetched. Each method keeps `Valid()`. `Download.JoinedMeansSettled` then states what the main thread may conclude once `todo.join()` returns.

The project has two copies of `DownloadUI`: `beep_downloader/download_ui.py` and the root `download_ui.py`. Their counter logic is identical; they differ only in how they format output. `DownloadUi.DownloadUI` models both.

## Model

| member | source | states |
|---|---|---|
| `Cache.FirstMatchIsFirst` | beep_downloader/cache.py:9-12 | the result matches the id exactly when some entry matches; a match is an entry of the list and no earlier entry matches; otherwise the empty record |
| `Cache.GetFileFromCacheIsFirstMatch` | beep_downloader/cache.py:8-12 | the first entry of `files` whose `classPK` or `fileEntryId` is the id; `{}` when `files` is absent or nothing matches |
| `Cache.GetFolderFromCache` | beep_downloader/cache.py:15-16 | looks up the decimal text of the folder id under `folders`; `{}` when either level is missing |
| `Cache.GetSiteFromCache` | beep_downloader/cache.py:19-20 | the site's entry, or `{}` when the key is absent |
| `Cache.FolderLookupAfterStore` | beep_downloader/cache.py:15-16 | after storing a folder under an id, a lookup of that id returns it and a lookup of any other id is unaffected |
| `Structure.GetSize` | beep_downloader/structure.py:4-10 | the accumulator loops compute `TreeSize`; a folder with no files and no subfolders has size 0 |
| `Structure.TreeSizeIsSumOfAllFiles` | beep_downloader/structure.py:4-10 | the size of a tree is the sum of the sizes of all files in it, at every depth |
| `Structure.FilesSizeAppend` | beep_downloader/structure.py:6-7 | the file-size sum distributes over concatenation |
| `Structure.TreeSizeNonNegative` | beep_downloader/structure.py:4-10 | with non-negative file sizes, the tree size is non-negative |
| `Structure.FilesSizeNonNegative` | beep_downloader/structure.py:6-7 | with non-negative file sizes, their sum is non-negative |
| `Remote.DownloadPathShape` | remote.py:77-79 | the path starts with `base_dir/title` and ends with the extension; with an empty extension it is exactly `base_dir/title` |
| `Paths.WithExtensionShape` | remote.py:78-79 | the result always ends with `ext` and starts with the path; it is the path itself exactly when the path already ends with `ext`, and otherwise the path, a dot and `ext` |
| `Paths.JoinShape` | remote.py:77 | `os.path.join`: the result ends with the second part; an absolute second part replaces the first; otherwise the result starts with the first part, a separator follows it when it is not empty and does not end with one, and the result is the plain concatenation when the first part is empty or ends with a separator |
| `Remote.ListOwnFiles` | remote.py:63-80 | the loop over a folder's own files computes the size, the to-download size and the task list of `ListFiles` |
| `Remote.GetDownloadListSite` | remote.py:58-89 | the size, the to-download size and the list of one folder tree: its own eligible files in order, then each subfolder under `base_dir/name` with the cache from `get_folder_from_cache` |
| `Remote.GetDownloadList` | remote.py:92-109 | the per-site results concatenated and summed in site order, each site under `out_dir/name` with the cache key `str(groupId)` |
| `Remote.ForbiddenFilesIgnored` | remote.py:64-66 | a forbidden file contributes nothing: the listing equals that of the allowed files with no forbidden set |
| `Remote.Allowed` | remote.py:64-66 | exactly the files whose id is not forbidden are kept |
| `Remote.AllowedAppend` | remote.py:64-66 | the filter works file by file and keeps the order: filtering a concatenation concatenates the filtered parts |
| `Remote.AllowedSingleton` | remote.py:64-66 | one file is kept exactly when its id is not forbidden |
| `Remote.ListedFileNeedsDownload` | remote.py:63-80 | every listed task belongs to a file that is not forbidden and whose cached `modifiedDate` differs |
| `Remote.FileNeedingDownloadIsListed` | remote.py:63-80 | every file that is not forbidden and whose cached `modifiedDate` differs is listed, with its URL, path and id |
| `Remote.ListSiteSizeIsTreeSize` | remote.py:58-89 | with no forbidden files, the `size` of a folder's listing is `get_size` of the folder |
| `Remote.ListSiteBounded` | remote.py:68-87 | with non-negative sizes, `0 <= download_size <= size` for every folder |
| `Remote.ListSitesBounded` | remote.py:92-109 | with non-negative sizes, `0 <= total_download_size <= total_size` over all sites |
| `Remote.ListSiteNoneForbidden` | remote.py:58-89 | no task of a folder's listing has a forbidden id |
| `Remote.ListSitesNoneForbidden` | remote.py:92-109 | no task of the download list has a forbidden id |
| `Remote.ListSiteUncached` | remote.py:58-89 | with an empty cache everything is to be downloaded: `download_size == size` |
| `Remote.UpToDateListsNothing` | remote.py:67-70 | when every file's cached date equals its current date, nothing is listed and `download_size` is 0 |
| `Remote.DumpIsUpToDate` | remote.py:58-89 | the cache written from a tree (with distinct ids) is up to date for that tree |
| `Remote.CachedFileFound` | beep_downloader/cache.py:8-12 | in the cache written from a folder, each file's id finds that file's record |
| `Remote.RerunListsNothing` | remote.py:58-89 | rerunning on an unchanged folder with the cache written from it lists nothing |
| `Remote.RerunDownloadsNothing` | remote.py:92-109 | rerunning on unchanged sites with the cache written from them lists nothing and downloads 0 bytes |
| `Remote.ListSitesAppend` | remote.py:96-106 | the list of a concatenation of sites is the concatenation of their lists, sizes added, so its length is the sum of the per-site lengths |
| `Remote.SelectSites` | remote.py:39-51 | entries with `site` false and, unless `include_beep`, "BeeP channel" are skipped; the result holds only kept entries with distinct group ids; every kept group id is in it, holding the last kept entry with that id, as reassigning `structure[groupId]` does |
| `Utils.UnitIsUnique` | utils.py:6-15 | exactly one unit's range contains a count, and it is the unit `format_size` picks |
| `Utils.UnitOfMonotone` | utils.py:6-15 | a larger count never gets a smaller unit |
| `Utils.FormatSize` | utils.py:6-15 | the text always ends with the name of the chosen unit |
| `Utils.FormatSizeBytes` | utils.py:7-8 | below 1024 the text is the decimal digits of the count, which read back as the count, then "B" |
| `Utils.FormatSizeNegative` | utils.py:7-8 | a negative count is shown with its minus sign and "B" |
| `Utils.FormatSizeKilo` | utils.py:9-10 | from 1024 to just under 1024², the text is `n // 1024`, between 1 and 1023, then "KB" |
| `Utils.FormatSizeScaled` | utils.py:11-15 | from 1024² up the unit is MB, GB or TB; the text is a whole part, a point and one digit, within half a tenth of the exact quotient |
| `Utils.RoundHalfEven` | utils.py:11-15 | the nearest integer to the quotient, ties to the even one |
| `Decimal.IntToStringInjective` | beep_downloader/cache.py:15-16 | different folder ids give different keys `str(folderId)` |
| `Decimal.NatToStringInjective` | beep_downloader/cache.py:15-16 | different counts have different decimal texts |
| `Decimal.ParseNatToString` | utils.py:7-8 | the decimal text of a count reads back as that count |
| `DownloadUi.DownloadUI.constructor` | beep_downloader/download_ui.py:15-23 | `todo = num_files`, `doing = 0`, `downloaded = 0`, not silent, no snapshot yet, `digits` the number of decimal digits of `num_files` (1 for 0) |
| `Decimal.NatToStringLength` | beep_downloader/download_ui.py:20 | the length of the decimal text is `int(log10(n or 1)) + 1`: `10^(len-1) <= max(n, 1) < 10^len` |
| `DownloadUi.DownloadUI.StartDownload` | beep_downloader/download_ui.py:25-29 | `doing` goes up by one and `todo` is unchanged; the status line shows the new counts |
| `DownloadUi.DownloadUI.DoneDownload` | beep_downloader/download_ui.py:31-37 | `doing` and `todo` both go down by one, skipped or not |
| `DownloadUi.DownloadUI.FailDownload` | beep_downloader/download_ui.py:39-45 | `doing` goes down by one; `todo` goes down only when the failure is final |
| `DownloadUi.DownloadUI.PrintStatus` | beep_downloader/download_ui.py:47-53 | nothing when silent; otherwise the completed count `num_files - todo`, or a division by zero when there are no files |
| `DownloadUi.DownloadUI.Snapshot` | beep_downloader/download_ui.py:58-67 | the first call starts the clock, leaving the speed unchanged; later calls set the speed to bytes over time elapsed; every call that does not raise resets `downloaded` to 0 |
| `DownloadUi.DownloadUI.AddDownload` | beep_downloader/download_ui.py:69-70 | `downloaded` grows by the size; nothing else changes |
| `DownloadUi.RunCounts` | download_ui.py:25-45 | after any sequence of reports, `todo` is the number of files less those closed for good, and `doing` is the starts less the ends |
| `Download.FilenameInIsLeftmost` | beep_downloader/download.py:37-40 | `re.search(r'filename="([^"]+)"')`: no match exactly when no position starts a match; otherwise the group of the leftmost match, taken greedily up to the next quote |
| `Download.ExtensionNeedsDot` | beep_downloader/download.py:41 | `filename.rsplit(".")[1]` exists exactly when the name contains a dot; it holds no dot |
| `Paths.SplitHasSecondField` | beep_downloader/download.py:41 | splitting on a separator gives a second field exactly when the separator occurs |
| `Paths.SplitJoin` | beep_downloader/download.py:41 | joining the fields of a split with the separator gives back the text |
| `Download.FinalPath` | beep_downloader/download.py:36-43 | without a Content-Disposition header, or when the header names no file, the path is unchanged; there is no path (the `IndexError`) exactly when the named file has no dot |
| `Download.FinalPathEndsWithExtension` | beep_downloader/download.py:36-43 | when the header names a file with an extension, the final path starts with the given path, ends with the extension, and equals the given path exactly when the path already ends with it |
| `Download.StatusClassification` | beep_downloader/download.py:32-50 | 300–399 means the session expired and 400–499 unauthorized, both before anything is written; every other status, 5xx included, is saved |
| `Download.ConcatLength` | beep_downloader/download.py:47-50 | the bytes written are as many as the chunk lengths added up |
| `Download.ReportedIsWritten` | beep_downloader/download.py:47-50 | the bytes reported with `add_download` equal the bytes written; none are reported when the status raised |
| `Download.WriteChunks` | beep_downloader/download.py:46-50 | the loop writes the chunks in order and reports each non-empty one; no other counter changes |
| `Download.DoDownload` | beep_downloader/download.py:28-50 | the outcome is `AttemptOf` and `downloaded` grows by the reported bytes |
| `Download.Downloader.constructor` | beep_downloader/download.py:56-65 | every task is queued in order; no session, not done, `unfinished` is the number of tasks, and the books balance |
| `Download.SeededIsBalanced` | beep_downloader/download.py:62-65 | the freshly filled queue satisfies the bookkeeping invariant |
| `Download.Downloader.Take` | beep_downloader/download.py:71 | `todo.get()`: the head leaves the queue and is held by the worker; `unfinished` is unchanged |
| `Download.TakeKeepsBalance` | beep_downloader/download.py:71 | taking the head keeps every entry accounted for |
| `Download.Downloader.Begin` | beep_downloader/download.py:81-85 | after the wait for a session: the task is abandoned (one `task_done`) exactly when `done` is set; otherwise its download starts, it moves from held to being fetched, and `unfinished` is unchanged; the UI counts one more download in flight, and its byte count, silence, speed and snapshot stay as they were |
| `Download.StartKeepsBalance` | beep_downloader/download.py:85 | `start_download` moves a held task to the fetched ones and adds one download in flight, keeping the books balanced |
| `Download.Downloader.Complete` | beep_downloader/download.py:86-103 | the rest of a started step, whatever `done` and the session have become meanwhile: skipped when present and not overwriting; forbidden (id added, not requeued) on unauthorized; requeued at the tail with the session cleared on expiry; requeued with the session kept on any other failure; `unfinished` falls by one exactly when the item is not requeued; the UI counts one download fewer in flight and, unless requeued, one task fewer to do; its byte count grows by the bytes the fetch reported, and by nothing when the file is skipped; silence, speed and snapshot stay as they were |
| `Download.Downloader.Abandon` | beep_downloader/download.py:81-83 | when `done` is set, the taken item is abandoned with one `task_done`; queue, session and forbidden set are unchanged and the books stay balanced |
| `Download.Downloader.Conclude` | beep_downloader/download.py:84-103 | a started download ends as its outcome says: forbidden (id added), requeued (session dropped on expiry) or finished, with one `task_done`, and the books stay balanced; the UI counts one download fewer in flight, and one task fewer to do unless requeued; its byte count, silence, speed and snapshot stay as they were |
| `Download.Downloader.Finish` | beep_downloader/download.py:86-93 | a skipped, downloaded or forbidden item is reported done (or failed for good), a forbidden id joins the forbidden set, and `unfinished` falls by one; the UI counts one download fewer in flight and one task fewer to do; its byte count, silence, speed and snapshot stay as they were |
| `Download.Downloader.Settled` | beep_downloader/download.py:102-103 | the `finally` clause's `task_done` for an item settled for good: it moves from the fetched to the finished and `unfinished` falls by one |
| `Download.Downloader.PutBack` | beep_downloader/download.py:94-101 | a failed item is reported failed (not final), put back at the tail, and the session is dropped exactly on expiry; `unfinished` ends unchanged; the UI counts one download fewer in flight and the same tasks to do; its byte count, silence, speed and snapshot stay as they were |
| `Download.Downloader.Released` | beep_downloader/download.py:102-103 | the `task_done` for an item just put back: it is no longer being fetched and `unfinished` falls by one |
| `Download.FetchOutcome` | beep_downloader/download.py:86-101 | a started task is never abandoned; it is skipped exactly when the file exists and is not to be overwritten; otherwise it is requeued exactly on a session expiry (session dropped) or another failure, forbidden exactly on a refusal, and downloaded with the saved path and bytes |
| `Download.FinishKeepsBalance` | beep_downloader/download.py:88-93 | a finished item leaves the fetched entries, joins the finished ones, and takes one from `unfinished`, from the UI's `todo` and from the downloads in flight |
| `Download.AbandonKeepsBalance` | beep_downloader/download.py:81-83 | an item dropped after `done` is abandoned with one `task_done` |
| `Download.RequeueKeepsBalance` | beep_downloader/download.py:94-103 | a requeued item goes back to the tail, also after `done` was set; its `put` and `task_done` leave `unfinished` as it was |
| `Download.Downloader.Requeue` | beep_downloader/download.py:96 | `todo.put(item)` appends to the tail and adds one unfinished task |
| `Download.Downloader.Login` | beep_downloader/download.py:113-126 | the session becomes the login result and the UI is not silent afterwards; on failure `done` is set and every queued entry is removed with its own `task_done`, leaving the queue empty; the UI's counters, byte count, speed and snapshot stay as they were |
| `Download.Downloader.Drain` | beep_downloader/download.py:121-123 | after a failed login every queued entry is taken and marked done: the queue ends empty, `unfinished` falls by its length, and exactly its entries are abandoned |
| `Download.DrainKeepsBalance` | beep_downloader/download.py:117-124 | draining the queue abandons exactly its entries and keeps the books balanced |
| `Download.Downloader.StopWorkers` | beep_downloader/download.py:160-161 | one `None` per worker is put on the empty queue, each adding one unfinished task |
| `Download.PutStopKeepsBalance` | beep_downloader/download.py:160-161 | putting a stop marker keeps the books balanced |
| `Download.JoinedMeansSettled` | beep_downloader/download.py:159 | when `todo.join()` returns, nothing is queued, held or being fetched and no download is in flight; without a failed login every task was finished (downloaded, skipped or forbidden) and the UI's `todo` is 0 |
| `Scraper.ExtractSiteId` | beep_downloader/remote/scraper.py:54-56 | no id (the `AttributeError` of `res.group` on no match) exactly when the search finds no `groupId=` followed by a digit |
| `Scraper.ExtractSiteIdIsLeftmost` | beep_downloader/remote/scraper.py:54-56 | the id is read from the leftmost `groupId=` followed by a digit, as its maximal run of digits; there is none exactly when no position has one |
| `Scraper.ExtractSiteIdReadsWrittenId` | beep_downloader/remote/scraper.py:54-56 | a link that contains `groupId=` and a number not followed by a digit, with no earlier occurrence, yields that number |
| `Scraper.SizeFromCell` | beep_downloader/remote/scraper.py:128-141 | a missing size cell gives 0 |
| `Scraper.SizeOfWholeNumber` | beep_downloader/remote/scraper.py:131-137 | a whole number up to 2^53 followed by a unit character gives the number times 1024 for `k` and times 1 otherwise |
| `Scraper.Scale` | beep_downloader/remote/scraper.py:133-136 | the scale is 1024 exactly when the unit is `k`, and 1 for any other unit |
| `Scraper.SizeOfDigits` | beep_downloader/remote/scraper.py:131-137 | a text of digits (a number up to 2^53) and then one unit character gives the number the digits write, times 1024 for `k` and times 1 otherwise |
| `Scraper.SizeOfPlainText` | beep_downloader/remote/scraper.py:131-132 | a size text without whitespace or commas splits into its last character, the unit, and the rest, the number |
| `Scraper.NumberSizeOfDigits` | beep_downloader/remote/scraper.py:133-137 | `float()` of ASCII digits writing at most 2^53 is that number exactly, then scaled |
| `Scraper.DigitsAreFloatLiteral` | beep_downloader/remote/scraper.py:137 | a non-empty run of ASCII digits is a literal `float()` accepts |
| `Scraper.FloatLiteralChars` | beep_downloader/remote/scraper.py:137-139 | every character of a literal `float()` accepts is a digit, point, sign, underscore, `e` or a letter of `inf`/`nan`; any other ASCII character makes `float()` raise |
| `Scraper.SizeWithoutUnitDropsLastDigit` | beep_downloader/remote/scraper.py:131-137 | a bare number of two or more digits loses its last digit to the unit slot |
| `Scraper.LastDigitIsByteUnit` | beep_downloader/remote/scraper.py:132-136 | the last digit of a number is the last character of its decimal text and, as a unit, scales by 1 |
| `Scraper.SizeOfNonNumberIsZero` | beep_downloader/remote/scraper.py:137-139 | a number part holding an ASCII character that no float literal has falls back to size 0 |
| `Scraper.SizeOfNonLiteralIsZero` | beep_downloader/remote/scraper.py:131-139 | an ASCII number part that is no float literal (a lone sign or point, `--`, `tea`) falls back to size 0 |
| `Scraper.NumberSizeOfNonLiteral` | beep_downloader/remote/scraper.py:137-139 | `float()` raising on an ASCII rest gives size 0 whatever the unit |
| `Scraper.SizeOfLoneSign` | beep_downloader/remote/scraper.py:131-139 | the text `-` reads as size 0: the sign is taken for the unit and the empty rest makes `float()` raise |
| `Scraper.SizeOfSignAndUnit` | beep_downloader/remote/scraper.py:131-139 | a sign and a unit (`-k`, `--`) read as size 0 |
| `Scraper.LoneSignIsNoLiteral` | beep_downloader/remote/scraper.py:137-139 | `float("-")` raises, so the rest `-` gives 0 |
| `Scraper.FractionIsLiteral` | beep_downloader/remote/scraper.py:137 | `1.5` is a literal `float()` accepts but not a whole number, so its size is left unevaluated |
| `Scraper.SizeOfFraction` | beep_downloader/remote/scraper.py:131-137 | `1.5` and a unit is a size the model leaves unevaluated (`None`) |
| `Scraper.SizeOfFullWidthDigit` | beep_downloader/remote/scraper.py:131-137 | a full-width digit, which `float()` reads, is left unevaluated (`None`) rather than read as 0 |
| `Scraper.DateFromCell` | beep_downloader/remote/scraper.py:142-152 | a readable date gives its timestamp; a missing or unreadable one gives 0 |
| `Scraper.FileRecord` | beep_downloader/remote/scraper.py:154-162 | a file record has a non-negative size and an empty extension |
| `Scraper.FilesOfDescribesFileRows` | beep_downloader/remote/scraper.py:105-162 | one record per file row, in order, each with the group and folder ids passed in, the row's title and id, and the size and date fallbacks |
| `Scraper.ScrapedSizesNonNegative` | beep_downloader/remote/scraper.py:128-141 | every scraped size is non-negative, which is what `Remote.ListSiteBounded` needs |
| `Scraper.ExtractFiles` | beep_downloader/remote/scraper.py:103-162 | the loop over the rows appends exactly the records of `FilesOf` |

## Left out

- Threads and condition variables (beep_downloader/download.py:53-172) are not modelled. This covers the blocking `get`, the waits for a session, the printer and forbidden-files threads, and `join`. The thread actions are methods of `Download.Downloader`, each taken as one atomic step: `Take` (line 71), `Begin` (lines 81-85), `Complete` (lines 86-103, the fetch included), `Login` with its drain (lines 113-126) and `StopWorkers` (lines 160-161). Each keeps the bookkeeping invariant `Download.Balanced`, so it holds in any interleaving of these steps. Finer interleavings, inside one of these steps, are not modelled. Between `Begin` and `Complete` another worker may drop the session and the login may fail, drain the queue and set `done`; `Complete` requires neither a session nor `!done`, and a task it puts back after the drain stays balanced. The wait at lines 76-80 is not modelled: `Begin` does not read the session, so the model allows it at any time.
- The network is replaced by inputs:
  - An HTTP response is a `Response` value: status, optional Content-Disposition header, chunks, and whether the stream broke.
  - A login result is an `Option<Session>`.
  - `perform_beep_login`, `get_json`, `get_structure` and the pagination of the scraper's `get_user_sites` are not part of this model.
- `Download.Downloader.Login`: its `session` input is unconstrained. The login cache of `perform_beep_login` (beep_downloader/login.py:14-15), which hands back the same, possibly expired, session, is not modelled, so the model does not capture that a re-login can return the session that just expired.
- The filesystem is replaced by inputs. `os.path.exists` is the `onDisk` parameter. The content written is the `content` of a `Downloaded` outcome. `os.makedirs`, `get_cache`, `get_forbidden_files` and the JSON dumps are not modelled.
- A download whose stream breaks leaves a partial file on disk. The model only records the failure.
- Console output (colours, `thread_print`, the `%5.2f` percentage) is not modelled. `Status` records only what the status line shows.
- HTML parsing with BeautifulSoup is not modelled. A table row is given as a `Row` value. The recursion of `extract_folder` into subfolders, `extract_course_structure` and the folder dictionary are not modelled.
- Parsing a date with `strptime` and converting it through the local time zone are not modelled. A date cell is given already classified as a `DateCell`.
- `time.monotonic()` is the `now` parameter of `Snapshot`. The speed is a `real`, so floating-point rounding is not modelled.
- `Utils.FormatSize`: the `%.1f` of a float is modelled as exact round-half-even. That matches Python when the quotient's float is exact, which holds below 2^53 bytes. Rounding of larger counts is not modelled.
- `Utils.FormatSizeScaled`: its `%.1f` digits are exact round-half-even of the exact quotient, which matches Python only below 2^53 bytes; the float rounding of larger counts is not modelled.
- `Scraper.SizeFromCell`: of the number parts `float()` accepts, only ASCII whole numbers up to 2^53 are evaluated. A fraction, an exponent, a sign, underscores, `inf`, `nan` or a larger whole number gives `None`, meaning the value is not modelled: `float()` rounds those, and a fraction times 1024 need not be whole. Number parts `float()` rejects give 0 as the source does, judged by `Scraper.FloatLiteral`, a grammar of the ASCII literals `float()` accepts.
- `Scraper.SizeFromCell`: a number part holding a non-ASCII character gives `None` unless it also holds an ASCII character no float literal has. `float()` reads every Unicode decimal digit (a full-width `５` is 5); that conversion is not modelled.
- `Scraper.SizeOfWholeNumber`: it requires the number to be at most 2^53, above which `float()` may round it.
- `Scraper.SizeOfDigits`: it requires the number to be at most 2^53, above which `float()` may round it.
- `Scraper.SizeWithoutUnitDropsLastDigit`: it requires the number without its last digit to be at most 2^53, above which `float()` may round it.
- `Scraper.FilesOf`: it requires that every size cell is one `Scraper.SizeFromCell` evaluates, so a listing holding, say, a `12.3k` size is outside it.
- `Scraper.FileRecord`: it requires that the row's size cell is one `Scraper.SizeFromCell` evaluates.
- `Scraper.ExtractFiles`: it requires that every size cell is one `Scraper.SizeFromCell` evaluates.
- `Scraper.FilesOfDescribesFileRows`: it requires that every size cell is one `Scraper.SizeFromCell` evaluates.
- `Scraper.ScrapedSizesNonNegative`: it requires that every size cell is one `Scraper.SizeFromCell` evaluates. The source scrapes a `-5k` cell as -5120.0, which the model leaves unevaluated, so non-negativity holds only for the sizes the model evaluates.
- `Scraper.ExtractSiteId`: `\d` in Python also matches non-ASCII digits; the model uses ASCII digits only.
- `Scraper.ExtractSiteIdIsLeftmost`: `\d` is taken as ASCII digits only, so a run of non-ASCII digits after `groupId=` is not matched as Python would match it.
- `Scraper.ExtractSiteIdReadsWrittenId`: a non-ASCII digit following the number, which `\d+` and `int()` would take, is outside the model.
- `Remote.DownloadFileUrl`: it has no contract of its own. It is the `%` formatting of `DOWNLOAD_FILE_URL` with group id, folder id and title, and `Remote.FileNeedingDownloadIsListed` states that each task carries it.
- `Remote.SelectSites`: the order of the result (a dictionary keeps the position of a key's first insertion) is computed but not stated in the contract.
- `Remote.SelectSites`: a `site` value other than a boolean is not modelled; `SiteRecord.site` is `Option<bool>`, absent meaning true.
- `DownloadUi.DownloadUI.constructor`: `int(math.log10(n or 1)) + 1` is modelled as the exact digit count. Float rounding of `log10` near large powers of ten is not modelled.
- `remote.py` imports its cache lookups from a root `cache.py`, which is not part of this model. The identical functions of `beep_downloader/cache.py` are modelled instead.
- `beep_downloader/remote/json.py`, which provides `JsonRemote`, is not part of this model.
- The value of the structure dictionary (its JSON form) and the CLI in `beep_downloader/__main__.py` are not modelled. From the CLI only the cache dump that follows the downloads is modelled, by `Remote.CacheOf`.
- Sizes are mathematical integers. Python integers do not overflow, so no wrap-around is modelled.
