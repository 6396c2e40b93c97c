/**
 * The progress counters of `DownloadUI` (beep_downloader/download_ui.py and
 * its copy download_ui.py): how many files are still to be done, how many
 * downloads are in flight, and the bytes received since the last speed
 * snapshot.
 */
module DownloadUi {
  import opened Wrappers
  import Decimal

  /* ---------------------------------------------------------------------- */
  /* The counters as values, and what a sequence of reports does to them     */
  /* ---------------------------------------------------------------------- */

  /** One report a worker makes to the UI. */
  datatype Event = Start | Done(skipped: bool) | Fail(terminal: bool)

  datatype Counters = Counters(todo: int, doing: int)

  function Step(c: Counters, e: Event): Counters {
    match e
    case Start => Counters(c.todo, c.doing + 1)
    case Done(_) => Counters(c.todo - 1, c.doing - 1)
    case Fail(terminal) => Counters(if terminal then c.todo - 1 else c.todo, c.doing - 1)
  }

  function Run(c: Counters, events: seq<Event>): Counters {
    if events == [] then c else Step(Run(c, events[..|events| - 1]), events[|events| - 1])
  }

  /** How many reports say a download started. */
  function Starts(events: seq<Event>): nat {
    if events == [] then 0 else Starts(events[..|events| - 1]) + (if events[|events| - 1].Start? then 1 else 0)
  }

  /** How many reports say a download ended, well or badly. */
  function Ends(events: seq<Event>): nat {
    if events == [] then 0 else Ends(events[..|events| - 1]) + (if events[|events| - 1].Start? then 0 else 1)
  }

  /** How many reports close a file for good: every completion, and the failures marked `done`. */
  function Closed(events: seq<Event>): nat {
    if events == [] then 0
    else
      var e := events[|events| - 1];
      Closed(events[..|events| - 1]) + (if e.Done? || (e.Fail? && e.terminal) then 1 else 0)
  }

  /**
   * Whatever the reports, `todo` is the number of files less those closed
   * for good, and `doing` is the number of starts less the number of ends.
   */
  lemma {:induction false} RunCounts(numFiles: nat, events: seq<Event>)
    ensures Run(Counters(numFiles, 0), events) == Counters(numFiles - Closed(events), Starts(events) - Ends(events))
  {
    if events != [] {
      RunCounts(numFiles, events[..|events| - 1]);
    }
  }

  /** What `print_status` emits. */
  datatype Status =
    | Silent
      /** `done / self.num_files` with no files raises ZeroDivisionError. */
    | DivisionByZero
    | Line(completed: int, total: nat, active: int)

  class DownloadUI {
    const numFiles: nat
    /** The width of the completed count: the number of decimal digits of `num_files`. */
    const digits: nat
    var todo: int
    var doing: int
    var silent: bool
    var downloaded: int
    var currentSpeed: real
    var lastSnapshot: Option<real>

    /** `DownloadUI(num_files)`. */
    constructor (numFiles: nat)
      ensures this.numFiles == numFiles && todo == numFiles && doing == 0
      ensures !silent && downloaded == 0 && currentSpeed == 0.0 && lastSnapshot == None
      ensures digits == |Decimal.NatToString(numFiles)|
    {
      this.numFiles := numFiles;
      todo := numFiles;
      doing := 0;
      silent := false;
      digits := |Decimal.NatToString(numFiles)|;
      downloaded := 0;
      currentSpeed := 0.0;
      lastSnapshot := None;
    }

    /** `print_status`: nothing when silent, else the completed count `num_files - todo`. */
    method PrintStatus() returns (status: Status)
      ensures silent ==> status == Silent
      ensures !silent && numFiles == 0 ==> status == DivisionByZero
      ensures !silent && numFiles > 0 ==> status == Line(numFiles - todo, numFiles, doing)
    {
      if silent {
        return Silent;
      }
      var done := numFiles - todo;
      if numFiles == 0 {
        return DivisionByZero;
      }
      status := Line(done, numFiles, doing);
    }

    /** `start_download`: one more download in flight, `todo` unchanged. */
    method StartDownload() returns (status: Status)
      modifies this
      ensures Counters(todo, doing) == Step(Counters(old(todo), old(doing)), Start)
      ensures doing == old(doing) + 1 && todo == old(todo)
      ensures silent == old(silent) && downloaded == old(downloaded)
      ensures currentSpeed == old(currentSpeed) && lastSnapshot == old(lastSnapshot)
      ensures status == (if silent then Silent else if numFiles == 0 then DivisionByZero else Line(numFiles - todo, numFiles, doing))
    {
      doing := doing + 1;
      status := PrintStatus();
    }

    /** `done_download`: the download ends and the file is closed, skipped or not. */
    method DoneDownload(skipped: bool) returns (status: Status)
      modifies this
      ensures Counters(todo, doing) == Step(Counters(old(todo), old(doing)), Done(skipped))
      ensures doing == old(doing) - 1 && todo == old(todo) - 1
      ensures silent == old(silent) && downloaded == old(downloaded)
      ensures currentSpeed == old(currentSpeed) && lastSnapshot == old(lastSnapshot)
      ensures status == (if silent then Silent else if numFiles == 0 then DivisionByZero else Line(numFiles - todo, numFiles, doing))
    {
      doing := doing - 1;
      todo := todo - 1;
      status := PrintStatus();
    }

    /** `fail_download`: the download ends; the file is closed only when the failure is final (`done=True`). */
    method FailDownload(terminal: bool) returns (status: Status)
      modifies this
      ensures Counters(todo, doing) == Step(Counters(old(todo), old(doing)), Fail(terminal))
      ensures doing == old(doing) - 1
      ensures todo == if terminal then old(todo) - 1 else old(todo)
      ensures silent == old(silent) && downloaded == old(downloaded)
      ensures currentSpeed == old(currentSpeed) && lastSnapshot == old(lastSnapshot)
      ensures status == (if silent then Silent else if numFiles == 0 then DivisionByZero else Line(numFiles - todo, numFiles, doing))
    {
      doing := doing - 1;
      if terminal {
        todo := todo - 1;
      }
      status := PrintStatus();
    }

    /** `add_download(size)`: bytes received since the last snapshot. */
    method AddDownload(size: int)
      modifies this
      ensures downloaded == old(downloaded) + size
      ensures todo == old(todo) && doing == old(doing) && silent == old(silent)
      ensures currentSpeed == old(currentSpeed) && lastSnapshot == old(lastSnapshot)
    {
      downloaded := downloaded + size;
    }

    /**
     * `snapshot()`, with the monotonic clock reading `now` as a parameter.
     * The first call only starts the clock. Later calls set the speed to the
     * bytes received over the time elapsed; an elapsed time of zero raises
     * ZeroDivisionError (`raised`) before anything is changed.
     */
    method Snapshot(now: real) returns (raised: bool)
      modifies this
      ensures old(lastSnapshot).None? ==> !raised && lastSnapshot == Some(now) && downloaded == 0 && currentSpeed == old(currentSpeed)
      ensures old(lastSnapshot).Some? && now == old(lastSnapshot).value ==>
                (raised && lastSnapshot == old(lastSnapshot) && downloaded == old(downloaded) && currentSpeed == old(currentSpeed))
      ensures old(lastSnapshot).Some? && now != old(lastSnapshot).value ==>
                (!raised && lastSnapshot == Some(now) && downloaded == 0
                 && currentSpeed == old(downloaded) as real / (now - old(lastSnapshot).value))
      ensures todo == old(todo) && doing == old(doing) && silent == old(silent)
    {
      if lastSnapshot.None? {
        lastSnapshot := Some(now);
        downloaded := 0;
        return false;
      }
      var delta := now - lastSnapshot.value;
      if delta == 0.0 {
        return true;
      }
      currentSpeed := downloaded as real / delta;
      lastSnapshot := Some(now);
      downloaded := 0;
      raised := false;
    }
  }
}
