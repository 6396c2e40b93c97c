/**
 * The download side (beep_downloader/download.py): what one fetch does with
 * the server's answer (`_do_download`), and what one worker does to the
 * shared queue, forbidden set and session when it handles one item
 * (`download_thread`), together with the failure path of `login_thread`.
 * Threads and condition variables are not modelled: each method is one
 * step that a single thread takes on the shared state.
 */
module Download {
  import opened Wrappers
  import opened Entities
  import Paths
  import opened DownloadUi

  /* ---------------------------------------------------------------------- */
  /* The Content-Disposition filename and the extension rule                 */
  /* ---------------------------------------------------------------------- */

  /** The literal text the regular expression `filename="([^"]+)"` opens with. */
  const FilenameKey: string := "filename=\""

  /** The length of the longest prefix of `s` without a double quote. */
  function QuoteFreeRun(s: string): (n: nat)
    ensures n <= |s|
    ensures forall i :: 0 <= i < n ==> s[i] != '"'
    ensures n < |s| ==> s[n] == '"'
  {
    if s == [] || s[0] == '"' then 0 else 1 + QuoteFreeRun(s[1..])
  }

  /**
   * The regular expression matches at position `p`: `filename="`, then at
   * least one character other than a quote, then a quote. The group is the
   * whole run of non-quote characters, since `[^"]+` is greedy and only a
   * quote can follow it.
   */
  predicate MatchAt(h: string, p: nat) {
    && p + |FilenameKey| <= |h|
    && h[p..p + |FilenameKey|] == FilenameKey
    && var n := QuoteFreeRun(h[p + |FilenameKey|..]);
      1 <= n < |h| - p - |FilenameKey|
  }

  function GroupAt(h: string, p: nat): (name: string)
    requires MatchAt(h, p)
    ensures |name| >= 1 && '"' !in name
  {
    var start := p + |FilenameKey|;
    h[start..start + QuoteFreeRun(h[start..])]
  }

  function SearchFrom(h: string, p: nat): (r: Option<string>)
    ensures r.Some? ==> |r.value| >= 1 && '"' !in r.value
    decreases |h| - p
  {
    if p > |h| then None
    else if MatchAt(h, p) then Some(GroupAt(h, p))
    else SearchFrom(h, p + 1)
  }

  /**
   * `re.search(r'filename="([^"]+)"', header)`: the group of the leftmost
   * match, or None when the pattern matches nowhere.
   */
  function FilenameIn(h: string): (r: Option<string>)
    ensures r.Some? ==> |r.value| >= 1 && '"' !in r.value
  {
    SearchFrom(h, 0)
  }

  /** Searching from `p` finds nothing exactly when no match starts at `p` or later, and otherwise the leftmost one. */
  lemma {:induction false} SearchFromIsLeftmost(h: string, p: nat)
    ensures SearchFrom(h, p).None? <==> forall q :: p <= q <= |h| ==> !MatchAt(h, q)
    ensures SearchFrom(h, p).Some? ==>
              exists q :: p <= q <= |h| && MatchAt(h, q) && SearchFrom(h, p).value == GroupAt(h, q)
                          && forall q' :: p <= q' < q ==> !MatchAt(h, q')
    decreases |h| - p
  {
    if p > |h| {
      assert SearchFrom(h, p) == None;
    } else if MatchAt(h, p) {
      assert SearchFrom(h, p) == Some(GroupAt(h, p));
    } else {
      assert SearchFrom(h, p) == SearchFrom(h, p + 1);
      SearchFromIsLeftmost(h, p + 1);
      if SearchFrom(h, p + 1).Some? {
        var q :| p + 1 <= q <= |h| && MatchAt(h, q) && SearchFrom(h, p + 1).value == GroupAt(h, q)
                 && forall q' :: p + 1 <= q' < q ==> !MatchAt(h, q');
        assert forall q' :: p <= q' < q ==> !MatchAt(h, q');
      }
    }
  }

  /** The header names no file exactly when the pattern matches nowhere; otherwise the name is the group of the leftmost match. */
  lemma FilenameInIsLeftmost(h: string)
    ensures FilenameIn(h).None? <==> forall q :: 0 <= q <= |h| ==> !MatchAt(h, q)
    ensures FilenameIn(h).Some? ==>
              exists q :: 0 <= q <= |h| && MatchAt(h, q) && FilenameIn(h).value == GroupAt(h, q)
                          && forall q' :: 0 <= q' < q ==> !MatchAt(h, q')
  {
    SearchFromIsLeftmost(h, 0);
  }

  /**
   * `filename.rsplit(".")[1]`: with no limit, `rsplit` splits at every dot,
   * so this is the SECOND dot-separated field; a name without a dot raises
   * IndexError (None here).
   */
  function Extension(name: string): (r: Option<string>)
    ensures r.Some? ==> '.' !in r.value
  {
    var fields := Paths.Split(name, '.');
    if |fields| >= 2 then Some(fields[1]) else None
  }

  /** A file name yields an extension exactly when it contains a dot. */
  lemma ExtensionNeedsDot(name: string)
    ensures Extension(name).Some? <==> '.' in name
  {
    Paths.SplitHasSecondField(name, '.');
  }

  /**
   * The path `_do_download` writes to: when the Content-Disposition header
   * names a file, `"." + ext` is appended unless the path already ends with
   * `ext`. None when the named file has no dot (the IndexError).
   */
  function FinalPath(path: string, disposition: Option<string>): (r: Option<string>)
    ensures disposition.None? ==> r == Some(path)
    ensures disposition.Some? && FilenameIn(disposition.value).None? ==> r == Some(path)
    ensures r.None? <==> disposition.Some? && FilenameIn(disposition.value).Some?
                         && Extension(FilenameIn(disposition.value).value).None?
  {
    if disposition.None? then Some(path)
    else match FilenameIn(disposition.value)
      case None => Some(path)
      case Some(name) =>
        match Extension(name)
        case None => None
        case Some(ext) => Some(Paths.WithExtension(path, ext))
  }

  /** When a filename with a dot is found, the final path ends with its extension and adds nothing else if it already did. */
  lemma FinalPathEndsWithExtension(path: string, header: string, name: string, ext: string)
    requires FilenameIn(header) == Some(name) && Extension(name) == Some(ext)
    ensures FinalPath(path, Some(header)) == Some(Paths.WithExtension(path, ext))
    ensures Paths.EndsWith(FinalPath(path, Some(header)).value, ext)
    ensures FinalPath(path, Some(header)).value == path <==> Paths.EndsWith(path, ext)
    ensures Paths.StartsWith(FinalPath(path, Some(header)).value, path)
  {
    Paths.WithExtensionShape(path, ext);
  }

  /* ---------------------------------------------------------------------- */
  /* One fetch                                                               */
  /* ---------------------------------------------------------------------- */

  /**
   * What `session.get` gives back: nothing at all (a connection error), or
   * a status, an optional Content-Disposition header and the body chunks;
   * `broken` says the stream raises after those chunks.
   */
  datatype Response =
    | NoResponse
    | Response(status: int, disposition: Option<string>, chunks: seq<seq<bv8>>, broken: bool)

  /** How `_do_download` ends: the two exceptions it raises on purpose, any other exception, or the file written. */
  datatype Attempt = Expired | Denied | Failed | Saved(path: string, content: seq<bv8>)

  function Concat(chunks: seq<seq<bv8>>): seq<bv8> {
    if chunks == [] then [] else Concat(chunks[..|chunks| - 1]) + chunks[|chunks| - 1]
  }

  /** The number of bytes in the chunks, counted chunk by chunk. */
  function TotalLength(chunks: seq<seq<bv8>>): nat {
    if chunks == [] then 0 else TotalLength(chunks[..|chunks| - 1]) + |chunks[|chunks| - 1]|
  }

  /** The file written holds exactly as many bytes as the chunks add up to. */
  lemma {:induction false} ConcatLength(chunks: seq<seq<bv8>>)
    ensures |Concat(chunks)| == TotalLength(chunks)
  {
    if chunks != [] {
      ConcatLength(chunks[..|chunks| - 1]);
    }
  }

  /** The outcome of `_do_download(url, path, ...)` for a given response. */
  function AttemptOf(path: string, response: Response): Attempt {
    match response
    case NoResponse => Failed
    case Response(status, disposition, chunks, broken) =>
      if 300 <= status <= 399 then Expired
      else if 400 <= status <= 499 then Denied
      else match FinalPath(path, disposition)
        case None => Failed
        case Some(final) => if broken then Failed else Saved(final, Concat(chunks))
  }

  /**
   * 3xx is a session expiry and 4xx is unauthorized; every other status,
   * 5xx included, is taken as success and its body written (unless the
   * stream breaks or the named file has no dot).
   */
  lemma StatusClassification(path: string, response: Response)
    requires response.Response?
    ensures AttemptOf(path, response) == Expired <==> 300 <= response.status <= 399
    ensures AttemptOf(path, response) == Denied <==> 400 <= response.status <= 499
    ensures !(300 <= response.status <= 499) && FinalPath(path, response.disposition).Some? && !response.broken
            ==> AttemptOf(path, response) == Saved(FinalPath(path, response.disposition).value, Concat(response.chunks))
  {
  }

  /** The bytes `_do_download` reports through `ui.add_download`. */
  function Reported(path: string, response: Response): nat {
    if response.NoResponse? || 300 <= response.status <= 499 || FinalPath(path, response.disposition).None? then 0
    else |Concat(response.chunks)|
  }

  /** Whatever reaches the file is reported, byte for byte; a session expiry or refusal reports and writes nothing. */
  lemma ReportedIsWritten(path: string, response: Response)
    ensures AttemptOf(path, response).Saved? ==> Reported(path, response) == |AttemptOf(path, response).content|
    ensures AttemptOf(path, response) in {Expired, Denied} ==> Reported(path, response) == 0
  {
  }

  /**
   * The `for chunk in res.iter_content(...)` loop of `_do_download`: every
   * non-empty chunk is reported to the UI and written; empty ones are skipped.
   */
  method WriteChunks(chunks: seq<seq<bv8>>, ui: DownloadUI) returns (content: seq<bv8>)
    modifies ui
    ensures content == Concat(chunks)
    ensures ui.downloaded == old(ui.downloaded) + |content|
    ensures ui.todo == old(ui.todo) && ui.doing == old(ui.doing) && ui.silent == old(ui.silent)
    ensures ui.currentSpeed == old(ui.currentSpeed) && ui.lastSnapshot == old(ui.lastSnapshot)
  {
    content := [];
    for i := 0 to |chunks|
      invariant content == Concat(chunks[..i])
      invariant ui.downloaded == old(ui.downloaded) + |content|
      invariant ui.todo == old(ui.todo) && ui.doing == old(ui.doing) && ui.silent == old(ui.silent)
      invariant ui.currentSpeed == old(ui.currentSpeed) && ui.lastSnapshot == old(ui.lastSnapshot)
    {
      assert chunks[..i + 1][..i] == chunks[..i];
      if chunks[i] != [] {
        ui.AddDownload(|chunks[i]|);
        content := content + chunks[i];
      } else {
        assert content + chunks[i] == content;
      }
    }
    assert chunks[..|chunks|] == chunks;
  }

  /**
   * `_do_download(url, path, cookies, ui)`: classify the status, fix the
   * path from the Content-Disposition header, then write the chunks.
   */
  method DoDownload(path: string, response: Response, ui: DownloadUI) returns (attempt: Attempt)
    modifies ui
    ensures attempt == AttemptOf(path, response)
    ensures ui.downloaded == old(ui.downloaded) + Reported(path, response)
    ensures ui.todo == old(ui.todo) && ui.doing == old(ui.doing) && ui.silent == old(ui.silent)
    ensures ui.currentSpeed == old(ui.currentSpeed) && ui.lastSnapshot == old(ui.lastSnapshot)
  {
    if response.NoResponse? {
      return Failed;
    }
    if 300 <= response.status <= 399 {
      return Expired;
    }
    if 400 <= response.status <= 499 {
      return Denied;
    }
    var final := FinalPath(path, response.disposition);
    if final.None? {
      return Failed;
    }
    var content := WriteChunks(response.chunks, ui);
    if response.broken {
      return Failed;
    }
    attempt := Saved(final.value, content);
  }

  /* ---------------------------------------------------------------------- */
  /* The shared state of the workers                                         */
  /* ---------------------------------------------------------------------- */

  /** An entry of the `todo` queue: a download task, or the `None` that stops a worker. */
  datatype Entry = Job(task: Task) | Stop

  /** The cookie jar of a logged-in session. */
  datatype Session = Session(jar: string)

  /** How a worker's handling of one task ends. */
  datatype Handled =
    | Abandoned
    | Skipped
    | Downloaded(path: string, content: seq<bv8>)
    | Forbidden
    | Requeued(sessionExpired: bool)

  /** The queue entries for a list of tasks, in order. */
  function Jobs(tasks: seq<Task>): (r: seq<Entry>)
    ensures |r| == |tasks| && forall i :: 0 <= i < |tasks| ==> r[i] == Job(tasks[i])
  {
    seq(|tasks|, i requires 0 <= i < |tasks| => Job(tasks[i]))
  }

  /** `n` stop entries. */
  function Stops(n: nat): (m: multiset<Entry>)
    ensures m[Stop] == n && |m| == n
  {
    multiset{}[Stop := n]
  }

  /* ---------------------------------------------------------------------- */
  /* Where every entry is: the bookkeeping the workers keep balanced         */
  /* ---------------------------------------------------------------------- */

  /**
   * The whereabouts of the queue's entries besides the queue itself: the
   * tasks listed at the start, the entries a worker has taken and not yet
   * started (a stop entry is held for good: the worker leaves without
   * `task_done`), the tasks being fetched (between `start_download` and the
   * end of the `try`), the tasks finished (downloaded, skipped or
   * forbidden), the entries thrown away after the login failed, and the
   * number of stop entries put.
   */
  datatype Books = Books(
    tasks: multiset<Entry>,
    held: multiset<Entry>,
    fetching: multiset<Entry>,
    finished: multiset<Entry>,
    abandoned: multiset<Entry>,
    stopsPut: nat)

  /**
   * The invariant between any two thread actions: each entry ever put is in
   * exactly one place; the queue's unfinished count is the entries waiting,
   * held and being fetched; the UI counts the tasks not yet finished and
   * one download in flight per task being fetched; before `done` nothing is
   * abandoned.
   */
  ghost predicate Balanced(todo: seq<Entry>, unfinished: int, done: bool, b: Books, numFiles: int, uiTodo: int, uiDoing: int) {
    && multiset(todo) + b.held + b.fetching + b.finished + b.abandoned == b.tasks + Stops(b.stopsPut)
    && Stop !in b.tasks && Stop !in b.finished
    && unfinished == |todo| + |b.held| + |b.fetching|
    && numFiles == |b.tasks| && uiTodo == |b.tasks| - |b.finished| && uiDoing == |b.fetching|
    && (!done ==> b.abandoned == multiset{})
  }

  /** The queue seeded with the download list, before any worker runs, is balanced. */
  lemma SeededIsBalanced(toDownload: seq<Task>)
    ensures var q := Jobs(toDownload);
      Balanced(q, |toDownload|, false, Books(multiset(q), multiset{}, multiset{}, multiset{}, multiset{}, 0), |toDownload|, |toDownload|, 0)
  {
    var q := Jobs(toDownload);
    assert Stop !in q;
  }

  /** The books after a worker takes entry `e` from the queue. */
  function AfterTake(b: Books, e: Entry): Books {
    b.(held := b.held + multiset{e})
  }

  lemma TakeKeepsBalance(q: seq<Entry>, u: int, done: bool, b: Books, n: int, ut: int, ud: int)
    requires Balanced(q, u, done, b, n, ut, ud) && q != []
    ensures Balanced(q[1..], u, done, AfterTake(b, q[0]), n, ut, ud)
  {
    assert q == [q[0]] + q[1..];
  }

  /** The books after a worker starts fetching the task it holds. */
  function AfterStart(b: Books, t: Task): Books {
    b.(held := b.held - multiset{Job(t)}, fetching := b.fetching + multiset{Job(t)})
  }

  /** `start_download`: the task moves from held to fetched, and the UI counts one more download in flight. */
  lemma StartKeepsBalance(q: seq<Entry>, u: int, done: bool, b: Books, n: int, ut: int, ud: int, t: Task)
    requires Balanced(q, u, done, b, n, ut, ud) && Job(t) in b.held
    ensures Balanced(q, u, done, AfterStart(b, t), n, ut, ud + 1)
  {
    assert b.held == (b.held - multiset{Job(t)}) + multiset{Job(t)};
  }

  /** A fetched task that is downloaded, skipped or forbidden: one `task_done`, one file fewer to do, one download fewer in flight. */
  lemma FinishKeepsBalance(q: seq<Entry>, u: int, done: bool, b: Books, n: int, ut: int, ud: int, t: Task, result: Handled)
    requires Balanced(q, u, done, b, n, ut, ud) && Job(t) in b.fetching
    requires result.Skipped? || result.Downloaded? || result.Forbidden?
    ensures Settle(b, t, result) == b.(fetching := b.fetching - multiset{Job(t)}, finished := b.finished + multiset{Job(t)})
    ensures Balanced(q, u - 1, done, Settle(b, t, result), n, ut - 1, ud - 1)
  {
    assert b.fetching == (b.fetching - multiset{Job(t)}) + multiset{Job(t)};
  }

  /** A held task given up because `done` is set: one `task_done`, the UI unchanged. */
  lemma AbandonKeepsBalance(q: seq<Entry>, u: int, b: Books, n: int, ut: int, ud: int, t: Task)
    requires Balanced(q, u, true, b, n, ut, ud) && Job(t) in b.held
    ensures Settle(b, t, Abandoned) == b.(held := b.held - multiset{Job(t)}, abandoned := b.abandoned + multiset{Job(t)})
    ensures Balanced(q, u - 1, true, Settle(b, t, Abandoned), n, ut, ud)
  {
    assert b.held == (b.held - multiset{Job(t)}) + multiset{Job(t)};
  }

  /**
   * A fetched task put back at the tail: one `put` and one `task_done`, so
   * the count is unchanged. This also holds once `done` is set, as when the
   * login failed while the task was being fetched.
   */
  lemma RequeueKeepsBalance(q: seq<Entry>, u: int, done: bool, b: Books, n: int, ut: int, ud: int, t: Task, result: Handled)
    requires Balanced(q, u, done, b, n, ut, ud) && Job(t) in b.fetching && result.Requeued?
    ensures Settle(b, t, result) == b.(fetching := b.fetching - multiset{Job(t)})
    ensures Balanced(q + [Job(t)], u, done, Settle(b, t, result), n, ut, ud - 1)
  {
    assert b.fetching == (b.fetching - multiset{Job(t)}) + multiset{Job(t)};
  }

  /** The failed login empties the queue, one `task_done` per entry, and throws away what waited. */
  lemma DrainKeepsBalance(q: seq<Entry>, u: int, b: Books, n: int, ut: int, ud: int)
    requires Balanced(q, u, false, b, n, ut, ud)
    ensures Balanced([], u - |q|, true, b.(abandoned := b.abandoned + multiset(q)), n, ut, ud)
  {
  }

  /** A stop entry put on the queue adds to the count and to no task's place. */
  lemma PutStopKeepsBalance(q: seq<Entry>, u: int, done: bool, b: Books, n: int, ut: int, ud: int)
    requires Balanced(q, u, done, b, n, ut, ud)
    ensures Balanced(q + [Stop], u + 1, done, b.(stopsPut := b.stopsPut + 1), n, ut, ud)
  {
    calc {
      multiset(q + [Stop]) + b.held + b.fetching + b.finished + b.abandoned;
      == { assert multiset(q + [Stop]) == multiset(q) + multiset{Stop}; }
      (multiset(q) + b.held + b.fetching + b.finished + b.abandoned) + multiset{Stop};
      b.tasks + Stops(b.stopsPut) + multiset{Stop};
      == { assert Stops(b.stopsPut + 1) == Stops(b.stopsPut) + multiset{Stop}; }
      b.tasks + Stops(b.stopsPut + 1);
    }
  }

  /**
   * When `todo.join()` returns (no entry unfinished), the queue is empty, no
   * worker holds or fetches anything, no download is in flight, and every
   * task has been settled: finished, or thrown away after a failed login
   * (with any stop entries the failed login drained). If the login never
   * failed, no stop entry has been put, every task was downloaded, skipped
   * or forbidden and the UI shows all files done.
   */
  lemma JoinedMeansSettled(q: seq<Entry>, u: int, done: bool, b: Books, n: int, ut: int, ud: int)
    requires Balanced(q, u, done, b, n, ut, ud) && u == 0
    ensures q == [] && b.held == multiset{} && b.fetching == multiset{} && ud == 0
    ensures b.finished + b.abandoned == b.tasks + Stops(b.stopsPut)
    ensures !done ==> b.stopsPut == 0 && b.finished == b.tasks && ut == 0
  {
    assert |q| == 0 && |b.held| == 0 && |b.fetching| == 0;
    assert multiset(q) == multiset{};
    if !done {
      var lhs := multiset(q) + b.held + b.fetching + b.finished + b.abandoned;
      assert lhs[Stop] == (b.tasks + Stops(b.stopsPut))[Stop];
      assert lhs == b.finished;
    }
  }

  /**
   * How a started task's `try` ends: skipped when the file exists and is not
   * to be overwritten, else as the fetch came out.
   */
  function FetchOutcome(overwrite: bool, onDisk: bool, attempt: Attempt): (r: Handled)
    ensures !r.Abandoned?
    ensures r.Skipped? <==> !overwrite && onDisk
    ensures !r.Skipped? ==> (r.Requeued? <==> attempt.Expired? || attempt.Failed?) && (r == Requeued(true) <==> attempt.Expired?)
    ensures !r.Skipped? ==> (r.Forbidden? <==> attempt.Denied?)
    ensures !r.Skipped? && attempt.Saved? ==> r == Downloaded(attempt.path, attempt.content)
  {
    if !overwrite && onDisk then Skipped
    else match attempt
      case Expired => Requeued(true)
      case Failed => Requeued(false)
      case Denied => Forbidden
      case Saved(path, content) => Downloaded(path, content)
  }

  /** Where a settled task goes: from held to the abandoned, or from fetching back to the queue or to the finished. */
  function Settle(b: Books, t: Task, result: Handled): Books {
    if result.Abandoned? then b.(held := b.held - multiset{Job(t)}, abandoned := b.abandoned + multiset{Job(t)})
    else
      var released := b.(fetching := b.fetching - multiset{Job(t)});
      if result.Requeued? then released else released.(finished := b.finished + multiset{Job(t)})
  }

  /* ---------------------------------------------------------------------- */
  /* The shared state of `python_parallel_downloader`                        */
  /* ---------------------------------------------------------------------- */

  /**
   * The state `python_parallel_downloader` shares between its threads: the
   * queue, the forbidden set, the session and the `done` flag, with the
   * ghost books that account for every task.
   */
  class Downloader {
    var todo: seq<Entry>
    var forbidden: set<int>
    var cookies: Option<Session>
    var done: bool
    /** The queue's count of entries put and not yet marked `task_done`. */
    var unfinished: int
    const overwrite: bool
    const ui: DownloadUI
    ghost var books: Books

    ghost predicate Valid()
      reads this, ui
    {
      Balanced(todo, unfinished, done, books, ui.numFiles, ui.todo, ui.doing)
    }

    /** The start of `python_parallel_downloader`: the UI, and every task put on the queue in order. */
    constructor (toDownload: seq<Task>, overwrite: bool, forbidden: set<int>)
      ensures Valid() && fresh(ui)
      ensures todo == Jobs(toDownload) && unfinished == |toDownload|
      ensures this.forbidden == forbidden && cookies == None && !done && this.overwrite == overwrite
      ensures books == Books(multiset(todo), multiset{}, multiset{}, multiset{}, multiset{}, 0)
      ensures !ui.silent && ui.downloaded == 0
    {
      var queue: seq<Entry> := [];
      for i := 0 to |toDownload|
        invariant queue == Jobs(toDownload[..i])
      {
        assert Jobs(toDownload[..i + 1]) == Jobs(toDownload[..i]) + [Job(toDownload[i])];
        queue := queue + [Job(toDownload[i])];
      }
      assert toDownload[..|toDownload|] == toDownload;
      SeededIsBalanced(toDownload);
      ui := new DownloadUI(|toDownload|);
      todo := queue;
      unfinished := |toDownload|;
      this.forbidden := forbidden;
      cookies := None;
      done := false;
      this.overwrite := overwrite;
      books := Books(multiset(queue), multiset{}, multiset{}, multiset{}, multiset{}, 0);
    }

    /** `todo.get()` by a worker; None when the queue is empty (the worker would wait). */
    method Take() returns (entry: Option<Entry>)
      requires Valid()
      modifies this
      ensures Valid()
      ensures old(todo) == [] ==> entry == None && todo == [] && books == old(books)
      ensures old(todo) != [] ==> entry == Some(old(todo)[0]) && todo == old(todo)[1..] && books == AfterTake(old(books), old(todo)[0])
      ensures forbidden == old(forbidden) && cookies == old(cookies) && done == old(done) && unfinished == old(unfinished)
    {
      if todo == [] {
        return None;
      }
      var e := todo[0];
      TakeKeepsBalance(todo, unfinished, done, books, ui.numFiles, ui.todo, ui.doing);
      todo := todo[1..];
      books := AfterTake(books, e);
      entry := Some(e);
    }

    /** `todo.put(item)`: the task goes back at the tail of the queue. */
    method Requeue(t: Task)
      modifies this
      ensures todo == old(todo) + [Job(t)] && unfinished == old(unfinished) + 1
      ensures forbidden == old(forbidden) && cookies == old(cookies) && done == old(done) && books == old(books)
    {
      todo := todo + [Job(t)];
      unfinished := unfinished + 1;
    }

    /**
     * The start of `download_thread`'s work on a taken task, once it has
     * waited for a session: give the task up if `done` is set, else tell
     * the UI the download starts. The session is not read here, so another
     * worker may have dropped it since the wait.
     */
    method Begin(t: Task) returns (started: bool)
      requires Valid() && Job(t) in books.held
      modifies this, ui
      ensures Valid()
      ensures started == !old(done)
      ensures books == if started then AfterStart(old(books), t) else Settle(old(books), t, Abandoned)
      ensures unfinished == if started then old(unfinished) else old(unfinished) - 1
      ensures todo == old(todo) && done == old(done) && cookies == old(cookies) && forbidden == old(forbidden)
      ensures ui.doing == (if started then old(ui.doing) + 1 else old(ui.doing)) && ui.todo == old(ui.todo)
      ensures ui.downloaded == old(ui.downloaded) && ui.silent == old(ui.silent)
      ensures ui.currentSpeed == old(ui.currentSpeed) && ui.lastSnapshot == old(ui.lastSnapshot)
    {
      if done {
        Abandon(t);
        return false;
      }
      StartKeepsBalance(todo, unfinished, done, books, ui.numFiles, ui.todo, ui.doing, t);
      var _ := ui.StartDownload();
      books := AfterStart(books, t);
      return true;
    }

    /** `if done: todo.task_done()`: the worker gives the task up without fetching it. */
    method Abandon(t: Task)
      requires Valid() && done && Job(t) in books.held
      modifies this
      ensures Valid()
      ensures books == Settle(old(books), t, Abandoned)
      ensures todo == old(todo) && unfinished == old(unfinished) - 1
      ensures done == old(done) && cookies == old(cookies) && forbidden == old(forbidden)
    {
      unfinished := unfinished - 1;
      books := Settle(books, t, Abandoned);
      AbandonKeepsBalance(todo, old(unfinished), old(books), ui.numFiles, ui.todo, ui.doing, t);
    }

    /**
     * The rest of the `try` for a started task, run without any lock: skip
     * an existing file unless overwriting, else fetch it, then act on the
     * outcome. `onDisk` is what `os.path.exists(path)` answers and
     * `response` what the server sends. Other threads may have set `done`,
     * drained the queue or dropped the session meanwhile; the task still
     * gets exactly one `task_done`.
     */
    method Complete(t: Task, onDisk: bool, response: Response) returns (result: Handled)
      requires Valid() && Job(t) in books.fetching
      modifies this, ui
      ensures Valid()
      ensures result == FetchOutcome(overwrite, onDisk, AttemptOf(t.path, response))
      ensures books == Settle(old(books), t, result) && done == old(done)
      ensures todo == if result.Requeued? then old(todo) + [Job(t)] else old(todo)
      ensures unfinished == if result.Requeued? then old(unfinished) else old(unfinished) - 1
      ensures forbidden == if result.Forbidden? then old(forbidden) + {t.fileEntryId} else old(forbidden)
      ensures cookies == if result == Requeued(true) then None else old(cookies)
      ensures ui.doing == old(ui.doing) - 1 && ui.todo == (if result.Requeued? then old(ui.todo) else old(ui.todo) - 1)
      ensures ui.downloaded == old(ui.downloaded) + (if overwrite || !onDisk then Reported(t.path, response) else 0)
      ensures ui.silent == old(ui.silent) && ui.currentSpeed == old(ui.currentSpeed) && ui.lastSnapshot == old(ui.lastSnapshot)
    {
      if overwrite || !onDisk {
        var attempt := DoDownload(t.path, response, ui);
        result := FetchOutcome(overwrite, onDisk, attempt);
      } else {
        result := Skipped;
      }
      Conclude(t, result);
    }

    /**
     * The end of a started download: the UI report, the `except` clause's
     * action (forbid the file, or put the task back and, on a session
     * expiry, drop the cookies) and the `finally` clause's `task_done`.
     */
    method Conclude(t: Task, result: Handled)
      requires Valid() && Job(t) in books.fetching && !result.Abandoned?
      modifies this, ui
      ensures Valid()
      ensures books == Settle(old(books), t, result) && done == old(done)
      ensures todo == if result.Requeued? then old(todo) + [Job(t)] else old(todo)
      ensures unfinished == if result.Requeued? then old(unfinished) else old(unfinished) - 1
      ensures forbidden == if result.Forbidden? then old(forbidden) + {t.fileEntryId} else old(forbidden)
      ensures cookies == if result == Requeued(true) then None else old(cookies)
      ensures ui.doing == old(ui.doing) - 1 && ui.todo == (if result.Requeued? then old(ui.todo) else old(ui.todo) - 1)
      ensures ui.downloaded == old(ui.downloaded) && ui.silent == old(ui.silent)
      ensures ui.currentSpeed == old(ui.currentSpeed) && ui.lastSnapshot == old(ui.lastSnapshot)
    {
      if result.Requeued? {
        PutBack(t, result.sessionExpired);
      } else {
        Finish(t, result);
      }
    }

    /** A download that ended for good: reported done (or failed for good when forbidden), then `task_done`. */
    method Finish(t: Task, result: Handled)
      requires Valid() && Job(t) in books.fetching && (result.Skipped? || result.Downloaded? || result.Forbidden?)
      modifies this, ui
      ensures Valid()
      ensures books == Settle(old(books), t, result) && done == old(done)
      ensures todo == old(todo) && unfinished == old(unfinished) - 1 && cookies == old(cookies)
      ensures forbidden == if result.Forbidden? then old(forbidden) + {t.fileEntryId} else old(forbidden)
      ensures ui.doing == old(ui.doing) - 1 && ui.todo == old(ui.todo) - 1
      ensures ui.downloaded == old(ui.downloaded) && ui.silent == old(ui.silent)
      ensures ui.currentSpeed == old(ui.currentSpeed) && ui.lastSnapshot == old(ui.lastSnapshot)
    {
      if result.Forbidden? {
        var _ := ui.FailDownload(true);
        forbidden := forbidden + {t.fileEntryId};
      } else {
        var _ := ui.DoneDownload(result.Skipped?);
      }
      Settled(t, result);
    }

    /** The `finally` clause's `task_done` for a task settled for good. */
    method Settled(t: Task, result: Handled)
      requires Job(t) in books.fetching && (result.Skipped? || result.Downloaded? || result.Forbidden?)
      requires Balanced(todo, unfinished, done, books, ui.numFiles, ui.todo + 1, ui.doing + 1)
      modifies this
      ensures Valid()
      ensures books == Settle(old(books), t, result) && done == old(done)
      ensures todo == old(todo) && unfinished == old(unfinished) - 1
      ensures cookies == old(cookies) && forbidden == old(forbidden)
    {
      FinishKeepsBalance(todo, unfinished, done, books, ui.numFiles, ui.todo + 1, ui.doing + 1, t, result);
      unfinished := unfinished - 1;
      books := Settle(books, t, result);
    }

    /**
     * A download that failed for now: reported failed, the task put back
     * (and the cookies dropped on a session expiry), then `task_done`. After
     * a failed login this puts a task on the queue the drain has emptied.
     */
    method PutBack(t: Task, sessionExpired: bool)
      requires Valid() && Job(t) in books.fetching
      modifies this, ui
      ensures Valid()
      ensures books == Settle(old(books), t, Requeued(sessionExpired)) && done == old(done)
      ensures todo == old(todo) + [Job(t)] && unfinished == old(unfinished) && forbidden == old(forbidden)
      ensures cookies == if sessionExpired then None else old(cookies)
      ensures ui.doing == old(ui.doing) - 1 && ui.todo == old(ui.todo)
      ensures ui.downloaded == old(ui.downloaded) && ui.silent == old(ui.silent)
      ensures ui.currentSpeed == old(ui.currentSpeed) && ui.lastSnapshot == old(ui.lastSnapshot)
    {
      var _ := ui.FailDownload(false);
      Requeue(t);
      if sessionExpired {
        cookies := None;
      }
      Released(t, Requeued(sessionExpired));
    }

    /** The `finally` clause's `task_done` for a task just put back at the tail of the queue. */
    method Released(t: Task, result: Handled)
      requires Job(t) in books.fetching && result.Requeued?
      requires todo != [] && todo[|todo| - 1] == Job(t)
      requires Balanced(todo[..|todo| - 1], unfinished - 1, done, books, ui.numFiles, ui.todo, ui.doing + 1)
      modifies this
      ensures Valid()
      ensures books == Settle(old(books), t, result) && done == old(done)
      ensures todo == old(todo) && unfinished == old(unfinished) - 1
      ensures cookies == old(cookies) && forbidden == old(forbidden)
    {
      var q := todo[..|todo| - 1];
      assert todo == q + [Job(t)];
      unfinished := unfinished - 1;
      books := Settle(books, t, result);
      RequeueKeepsBalance(q, unfinished, done, old(books), ui.numFiles, ui.todo, ui.doing + 1, t, result);
    }

    /**
     * One login attempt of `login_thread`, taken when the session is gone.
     * On failure `done` is set and every entry still queued is removed, each
     * with its own `task_done`, so the queue ends empty.
     */
    method Login(session: Option<Session>)
      requires Valid() && cookies.None? && !done
      modifies this, ui
      ensures Valid()
      ensures cookies == session && !ui.silent && forbidden == old(forbidden)
      ensures session.Some? ==> !done && todo == old(todo) && unfinished == old(unfinished) && books == old(books)
      ensures session.None? ==>
                (done && todo == [] && unfinished == old(unfinished) - |old(todo)|
                 && books == old(books).(abandoned := old(books).abandoned + multiset(old(todo))))
      ensures ui.todo == old(ui.todo) && ui.doing == old(ui.doing) && ui.downloaded == old(ui.downloaded)
      ensures ui.currentSpeed == old(ui.currentSpeed) && ui.lastSnapshot == old(ui.lastSnapshot)
    {
      ui.silent := true;
      cookies := session;
      ui.silent := false;
      if session.None? {
        done := true;
        Drain();
      }
    }

    /** `while not todo.empty(): todo.get(); todo.task_done()` after the login failed. */
    method Drain()
      requires done && Balanced(todo, unfinished, false, books, ui.numFiles, ui.todo, ui.doing)
      modifies this
      ensures Valid()
      ensures todo == [] && unfinished == old(unfinished) - |old(todo)|
      ensures books == old(books).(abandoned := old(books).abandoned + multiset(old(todo)))
      ensures done && cookies == old(cookies) && forbidden == old(forbidden)
    {
      ghost var i := 0;
      while todo != []
        invariant 0 <= i <= |old(todo)| && todo == old(todo)[i..]
        invariant books == old(books).(abandoned := old(books).abandoned + multiset(old(todo)[..i]))
        invariant unfinished == old(unfinished) - i
        invariant done && cookies == old(cookies) && forbidden == old(forbidden)
        decreases |todo|
      {
        var e := todo[0];
        assert old(todo)[..i + 1] == old(todo)[..i] + [e];
        todo := todo[1..];
        unfinished := unfinished - 1;
        books := books.(abandoned := books.abandoned + multiset{e});
        i := i + 1;
      }
      assert old(todo)[..i] == old(todo);
      DrainKeepsBalance(old(todo), old(unfinished), old(books), ui.numFiles, ui.todo, ui.doing);
    }

    /**
     * After `todo.join()` has returned (no entry is unfinished), one `None`
     * per worker is put on the queue.
     */
    method StopWorkers(parallel: nat)
      requires Valid() && unfinished == 0
      modifies this
      ensures Valid()
      ensures todo == seq(parallel, _ => Stop) && unfinished == parallel
      ensures forbidden == old(forbidden) && cookies == old(cookies) && done == old(done)
      ensures books == old(books).(stopsPut := old(books).stopsPut + parallel)
    {
      JoinedMeansSettled(todo, unfinished, done, books, ui.numFiles, ui.todo, ui.doing);
      for k := 0 to parallel
        invariant todo == seq(k, _ => Stop) && unfinished == k && books == old(books).(stopsPut := old(books).stopsPut + k)
        invariant forbidden == old(forbidden) && cookies == old(cookies) && done == old(done)
        invariant Balanced(todo, unfinished, done, books, ui.numFiles, ui.todo, ui.doing)
      {
        PutStopKeepsBalance(todo, unfinished, done, books, ui.numFiles, ui.todo, ui.doing);
        assert seq(k + 1, _ => Stop) == seq(k, _ => Stop) + [Stop];
        todo := todo + [Stop];
        unfinished := unfinished + 1;
        books := books.(stopsPut := books.stopsPut + 1);
      }
    }
  }
}
