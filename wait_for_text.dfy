/**
 * `wait_for_text.py`: every half second the windows whose titles contain
 * the filter are searched for a control whose text contains the query,
 * until one does or the timeout runs out.
 */
module WaitForText {
  import opened Wrappers
  import opened Desktop
  import opened FindText
  import Text

  /** A scan hits: a window whose title contains the filter, untitled ones included, holds a control the query hits. */
  predicate ScanHits(windows: seq<Window>, query: string, filter: string)
  {
    FirstTextHit(WindowsMatching(windows, filter), query, false, 0).Some?
  }

  /** One scan: the windows kept by the filter, then the nested search without skipping untitled windows. */
  method Scan(desktop: seq<Window>, query: string, filter: string) returns (hit: bool)
    ensures hit == ScanHits(desktop, query, filter)
  {
    var windows := MatchingWindows(desktop, filter);
    var h := Search(windows, query, false);
    hit := h.Some?;
  }

  /** Whether the `k`-th scan hits. */
  function ScanAt(desktop: nat -> seq<Window>, query: string, filter: string): nat -> bool
  {
    (k: nat) => ScanHits(desktop(k), query, filter)
  }
  /**
   * A run as intended, leaving at the first scan that hits (`RunAsWritten`
   * below is the run the script performs), with arguments query, window
   * filter and an optional timeout. `desktop(k)` is the desktop at the `k`-th scan and `clock(k)` the
   * milliseconds elapsed before it. Usage and exit 1 with fewer than two
   * arguments; exit 1 when the timeout is no integer; otherwise exit 0 at
   * the first scan that hits, and 1 once the elapsed time reaches the
   * timeout.
   */
  method Run(argv: Argv, desktop: nat -> seq<Window>, clock: nat -> int) returns (exit: int, polls: nat)
    requires PollingClock(clock)
    ensures |argv| < 3 || TimeoutArg(argv, 3).None? ==> exit == 1 && polls == 0
    ensures |argv| >= 3 && TimeoutArg(argv, 3).Some? ==>
      var limit := TimeoutArg(argv, 3).value * 1000;
      (forall k :: 0 <= k < polls ==> clock(k) < limit && !ScanAt(desktop, argv[1], argv[2])(k)) &&
      (exit == 0 <==> clock(polls) < limit) &&
      (exit == 0 ==> ScanHits(desktop(polls), argv[1], argv[2]))
    ensures exit == 0 || exit == 1
  {
    if |argv| < 3 {
      return 1, 0;
    }
    var timeout := TimeoutArg(argv, 3);
    if timeout.None? {
      return 1, 0;
    }
    var limit := timeout.value * 1000;
    ghost var hits := ScanAt(desktop, argv[1], argv[2]);
    polls := 0;
    while clock(polls) < limit
      invariant forall k :: 0 <= k < polls ==> clock(k) < limit && !hits(k)
      decreases limit - clock(polls)
    {
      var hit := Scan(desktop(polls), argv[1], argv[2]);
      if hit {
        return 0, polls;
      }
      assert PollStep(clock, polls);
      polls := polls + 1;
    }
    return 1, polls;
  }

  /** Unlike `find_text.py`, a wait also looks into untitled windows, but only when the filter is empty, since a non-empty filter is in no empty title. */
  lemma UntitledOnlyWithEmptyFilter(windows: seq<Window>, filter: string, w: Window)
    requires w in WindowsMatching(windows, filter) && w.title == ""
    ensures Text.Lower(filter) == ""
  {
    var t := Text.Lower(w.title);
    assert t == "";
    assert Text.Contains(t, Text.Lower(filter));
  }



  /** The as-written loop: scan after scan, whatever they find, until the elapsed time reaches `limit`. */
  method ScanUntil(desktop: nat -> seq<Window>, clock: nat -> int, query: string, filter: string, limit: int)
    returns (polls: nat, found: seq<bool>)
    requires PollingClock(clock)
    ensures (forall k :: 0 <= k < polls ==> clock(k) < limit) && clock(polls) >= limit
    ensures |found| == polls && forall k :: 0 <= k < polls ==> found[k] == ScanAt(desktop, query, filter)(k)
  {
    ghost var hits := ScanAt(desktop, query, filter);
    polls, found := 0, [];
    while clock(polls) < limit
      invariant forall k :: 0 <= k < polls ==> clock(k) < limit
      invariant |found| == polls && forall k :: 0 <= k < polls ==> found[k] == hits(k)
      decreases limit - clock(polls)
    {
      var hit := Scan(desktop(polls), query, filter);
      RecordedStep(found, hits, hit);
      found := found + [hit];
      assert PollStep(clock, polls);
      polls := polls + 1;
    }
  }

  /** Recording the next scan's outcome keeps the record equal to the outcomes so far. */
  lemma RecordedStep(found: seq<bool>, hits: nat -> bool, hit: bool)
    requires forall k :: 0 <= k < |found| ==> found[k] == hits(k)
    requires hit == hits(|found|)
    ensures forall k :: 0 <= k < |found| + 1 ==> (found + [hit])[k] == hits(k)
  {
  }

  /**
   * The script as written: `sys.exit(0)` after a hit raises `SystemExit`
   * inside a bare `except:`, which swallows it. A hit is reported and the
   * scan goes on, scan after scan, until the timeout, and the run always
   * ends in "Timeout" with exit 1. `found[k]` tells whether the `k`-th scan
   * hit and printed "Found".
   */
  method RunAsWritten(argv: Argv, desktop: nat -> seq<Window>, clock: nat -> int) returns (exit: int, polls: nat, found: seq<bool>)
    requires PollingClock(clock)
    ensures |argv| < 3 || TimeoutArg(argv, 3).None? ==> polls == 0 && found == []
    ensures |argv| >= 3 && TimeoutArg(argv, 3).Some? ==>
      var limit := TimeoutArg(argv, 3).value * 1000;
      (forall k :: 0 <= k < polls ==> clock(k) < limit) && clock(polls) >= limit
      && |found| == polls && forall k :: 0 <= k < polls ==> found[k] == ScanAt(desktop, argv[1], argv[2])(k)
    ensures exit == 1
  {
    found := [];
    if |argv| < 3 {
      return 1, 0, found;
    }
    var timeout := TimeoutArg(argv, 3);
    if timeout.None? {
      return 1, 0, found;
    }
    polls, found := ScanUntil(desktop, clock, argv[1], argv[2], timeout.value * 1000);
    return 1, polls, found;
  }

  /** The clock of scans taking no time beyond their half-second sleeps. */
  function HalfSeconds(): nat -> int
  {
    (k: nat) => k * PollMs
  }

  /**
   * Waiting 30 seconds for "save" in Notepad on a desktop that shows it
   * from the start: the first scan, at time 0, hits, so the intended run
   * exits 0 at once, while the run as written reports it and exits 1.
   */
  lemma SaveShownAtOnce()
    ensures PollingClock(HalfSeconds()) && HalfSeconds()(0) < 30 * 1000
    ensures TimeoutArg(["wait_for_text.py", "save", "notepad"], 3) == Some(30)
    ensures ScanHits(NotepadWithSave(), "save", "notepad")
  {
    HalfSecondsPolls();
    NotepadShowsSave();
  }

  lemma HalfSecondsPolls()
    ensures PollingClock(HalfSeconds())
  {
    forall k: nat
      ensures PollStep(HalfSeconds(), k)
    {
    }
  }

  /** Notepad is kept by the filter "notepad", and its Save button is hit by "save". */
  lemma NotepadShowsSave()
    ensures ScanHits(NotepadWithSave(), "save", "notepad")
  {
    var ws := NotepadWithSave();
    assert Text.Lower("Notepad") == "notepad";
    assert Text.OccursAt(Text.Lower(ws[0].title), Text.Lower("notepad"), 0);
    assert ws[0] in WindowsMatching(ws, "notepad");
    assert WindowsMatching(ws, "notepad") == ws;
    SaveFoundYetNotFound();
  }
}
