/**
 * `screenshot.py`: capture the screen into the `openclaw-screenshots`
 * folder, first deleting all but the 20 most recently modified earlier
 * screenshots, and print the new file's path (never the image itself).
 *
 * The folder is a map from file name to modification time in
 * milliseconds; the order `os.listdir` lists it in, the clock, and the
 * failures of the capture, of a removal and of the save are inputs.
 */
module Screenshot {
  import opened Wrappers
  import Text
  import Seqs

  const Prefix := "screenshot-"
  const KeepCount := 20

  /** The files cleanup considers: `f.startswith('screenshot-')`. */
  predicate IsShot(name: string)
  {
    Text.StartsWith(name, Prefix)
  }

  /** `f'screenshot-{timestamp}.jpg'`, the timestamp in epoch milliseconds. */
  function ShotName(nowMs: nat): (name: string)
    ensures IsShot(name) && Text.EndsWith(name, ".jpg")
  {
    Prefix + Text.NatToString(nowMs) + ".jpg"
  }

  /** Screenshots taken at distinct instants have distinct names. */
  lemma ShotNameInjective(a: nat, b: nat)
    ensures ShotName(a) == ShotName(b) ==> a == b
  {
    var x, y := ShotName(a), ShotName(b);
    assert x[|Prefix|..|x| - 4] == Text.NatToString(a);
    assert y[|Prefix|..|y| - 4] == Text.NatToString(b);
  }

  function Names(s: seq<string>): set<string>
  {
    set n | n in s
  }

  /** One more element of a prefix adds its name. */
  lemma NamesStep(s: seq<string>, i: nat)
    requires i < |s|
    ensures Names(s[..i + 1]) == Names(s[..i]) + {s[i]}
  {
    assert s[..i + 1] == s[..i] + [s[i]];
  }

  /** A sequence names at most as many files as it is long. */
  lemma {:induction false} NamesBounded(s: seq<string>)
    ensures |Names(s)| <= |s|
  {
    if |s| > 0 {
      var front := s[..|s| - 1];
      NamesBounded(front);
      assert Names(s) == Names(front) + {s[|s| - 1]};
    }
  }

  /** The names of the screenshots in a folder. */
  function Shots(files: map<string, int>): set<string>
  {
    set n | n in files && IsShot(n)
  }

  /** Oldest first by modification time. */
  predicate ByMtime(s: seq<string>, mtime: map<string, int>)
    requires forall n :: n in s ==> n in mtime
  {
    forall i, j :: 0 <= i < j < |s| ==> mtime[s[i]] <= mtime[s[j]]
  }

  /** `x` placed after every name of `s` modified no later than it. */
  function Insert(x: string, s: seq<string>, mtime: map<string, int>): (r: seq<string>)
    requires x in mtime && forall n :: n in s ==> n in mtime
    ensures multiset(r) == multiset(s) + multiset{x}
    ensures forall n :: n in r <==> n in s || n == x
  {
    if |s| == 0 || mtime[s[|s| - 1]] <= mtime[x] then s + [x]
    else
      var front := s[..|s| - 1];
      assert s == front + [s[|s| - 1]];
      Insert(x, front, mtime) + [s[|s| - 1]]
  }

  lemma {:induction false} InsertByMtime(x: string, s: seq<string>, mtime: map<string, int>)
    requires x in mtime && forall n :: n in s ==> n in mtime
    requires ByMtime(s, mtime)
    ensures ByMtime(Insert(x, s, mtime), mtime)
  {
    if |s| > 0 && mtime[s[|s| - 1]] > mtime[x] {
      var front, last := s[..|s| - 1], s[|s| - 1];
      InsertByMtime(x, front, mtime);
      var r := Insert(x, front, mtime);
      forall n | n in r
        ensures mtime[n] <= mtime[last]
      {
        if n != x {
          var k :| 0 <= k < |front| && front[k] == n;
          assert s[k] == n;
        }
      }
      assert Insert(x, s, mtime) == r + [last];
    }
  }

  /** `sorted(files, key=getmtime)`: a permutation of the names, oldest first (equal times in listing order). */
  function SortByMtime(names: seq<string>, mtime: map<string, int>): (r: seq<string>)
    requires forall n :: n in names ==> n in mtime
    ensures multiset(r) == multiset(names)
    ensures forall n :: n in r ==> n in mtime
    ensures ByMtime(r, mtime)
  {
    if |names| == 0 then []
    else
      var front := names[..|names| - 1];
      var x := names[|names| - 1];
      assert names == front + [x];
      var sorted := SortByMtime(front, mtime);
      assert forall n :: n in sorted ==> n in multiset(sorted);
      InsertByMtime(x, sorted, mtime);
      Insert(x, sorted, mtime)
  }

  /** `files[:-20]`: all but the 20 newest; none when at most 20. */
  function Doomed(sorted: seq<string>): (r: seq<string>)
    ensures |sorted| <= KeepCount ==> r == []
    ensures |sorted| > KeepCount ==> |r| == |sorted| - KeepCount && r == sorted[..|r|]
  {
    if |sorted| > KeepCount then sorted[..|sorted| - KeepCount] else []
  }

  /** The screenshots cleanup keeps: the 20 newest. */
  function Kept(sorted: seq<string>): (r: seq<string>)
    ensures |r| <= KeepCount && sorted == Doomed(sorted) + r
  {
    sorted[|Doomed(sorted)|..]
  }

  /** Every screenshot deleted is modified no later than every one kept. */
  lemma DoomedNotNewer(sorted: seq<string>, mtime: map<string, int>, d: nat, k: nat)
    requires forall n :: n in sorted ==> n in mtime
    requires ByMtime(sorted, mtime)
    requires d < |Doomed(sorted)| && k < |Kept(sorted)|
    ensures mtime[Doomed(sorted)[d]] <= mtime[Kept(sorted)[k]]
  {
    assert Doomed(sorted)[d] == sorted[d];
    assert Kept(sorted)[k] == sorted[|Doomed(sorted)| + k];
  }

  /** `os.listdir` lists each file of the folder once. */
  ghost predicate Lists(listing: seq<string>, files: map<string, int>)
  {
    (forall n :: n in listing <==> n in files)
    && forall i, j :: 0 <= i < j < |listing| ==> listing[i] != listing[j]
  }

  /** The screenshots in listing order, then sorted oldest first. */
  function SortedShots(listing: seq<string>, files: map<string, int>): (r: seq<string>)
    requires Lists(listing, files)
    ensures multiset(r) == multiset(Seqs.Filter(listing, IsShot))
    ensures forall n :: n in r <==> n in files && IsShot(n)
    ensures ByMtime(r, files)
  {
    var shots := Seqs.Filter(listing, IsShot);
    var r := SortByMtime(shots, files);
    assert forall n :: n in r <==> n in multiset(shots);
    r
  }

  /**
   * The files left by cleanup: the doomed screenshots removed in order,
   * until the removal numbered `failAt` raises and the rest are skipped.
   * No other file is touched, and no kept file changes.
   */
  function Cleaned(files: map<string, int>, listing: seq<string>, failAt: Option<nat>): (r: map<string, int>)
    requires Lists(listing, files)
    ensures r.Keys <= files.Keys && forall n :: n in r ==> r[n] == files[n]
    ensures forall n :: n in files && !IsShot(n) ==> n in r
    ensures failAt.None? ==> forall n :: n in Doomed(SortedShots(listing, files)) ==> n !in r
  {
    files - Names(Removed(Doomed(SortedShots(listing, files)), failAt))
  }

  /** The doomed names actually removed: those before the removal numbered `failAt`, or all of them. */
  function Removed(doomed: seq<string>, failAt: Option<nat>): (r: seq<string>)
    ensures failAt.Some? && failAt.value < |doomed| ==> r == doomed[..failAt.value]
    ensures failAt.None? || failAt.value >= |doomed| ==> r == doomed
  {
    if failAt.Some? && failAt.value < |doomed| then doomed[..failAt.value] else doomed
  }

  /** A cleanup that does not fail leaves exactly the 20 newest screenshots, or all of them when there are fewer. */
  lemma CleanedKeepsNewest(files: map<string, int>, listing: seq<string>)
    requires Lists(listing, files)
    ensures Shots(Cleaned(files, listing, None)) == Names(Kept(SortedShots(listing, files)))
    ensures |Shots(Cleaned(files, listing, None))| <= KeepCount
  {
    var sorted := SortedShots(listing, files);
    var doomed, kept := Doomed(sorted), Kept(sorted);
    var c := Cleaned(files, listing, None);
    SortedShotsDistinct(listing, files);
    KeptNotDoomed(sorted);
    assert c == files - Names(doomed);
    forall n
      ensures n in Shots(c) <==> n in Names(kept)
    {
      assert n in sorted <==> n in doomed || n in kept;
    }
    NamesBounded(kept);
  }

  /** `os.listdir` names no file twice, so the sorted screenshots hold no name twice either. */
  lemma SortedShotsDistinct(listing: seq<string>, files: map<string, int>)
    requires Lists(listing, files)
    ensures var sorted := SortedShots(listing, files);
      forall i, j :: 0 <= i < j < |sorted| ==> sorted[i] != sorted[j]
  {
    DistinctFilter(listing, IsShot);
    DistinctPermutation(Seqs.Filter(listing, IsShot), SortedShots(listing, files));
  }

  /** In a sequence without repeats, no name kept is also deleted. */
  lemma KeptNotDoomed(sorted: seq<string>)
    requires forall i, j :: 0 <= i < j < |sorted| ==> sorted[i] != sorted[j]
    ensures forall n :: n in Kept(sorted) ==> n !in Doomed(sorted)
  {
    var doomed, kept := Doomed(sorted), Kept(sorted);
    forall n | n in kept
      ensures n !in doomed
    {
      var k :| 0 <= k < |kept| && kept[k] == n;
      assert sorted[|doomed| + k] == n;
      forall d | 0 <= d < |doomed|
        ensures doomed[d] != n
      {
        assert doomed[d] == sorted[d];
      }
    }
  }

  /** Filtering a sequence of distinct names keeps them distinct. */
  lemma {:induction false} DistinctFilter(xs: seq<string>, p: string -> bool)
    requires forall i, j :: 0 <= i < j < |xs| ==> xs[i] != xs[j]
    ensures forall n :: n in Seqs.Filter(xs, p) ==> multiset(Seqs.Filter(xs, p))[n] == 1
  {
    if |xs| > 0 {
      var front, x := xs[..|xs| - 1], xs[|xs| - 1];
      DistinctFilter(front, p);
      assert xs == front + [x];
      Seqs.FilterAppend(front, [x], p);
      assert x !in front;
    }
  }

  /** A sequence with the multiset of a duplicate-free one holds no name twice. */
  lemma DistinctPermutation(shots: seq<string>, sorted: seq<string>)
    requires multiset(sorted) == multiset(shots)
    requires forall n :: n in shots ==> multiset(shots)[n] == 1
    ensures forall i, j :: 0 <= i < j < |sorted| ==> sorted[i] != sorted[j]
  {
    forall i, j | 0 <= i < j < |sorted|
      ensures sorted[i] != sorted[j]
    {
      var n, rest := sorted[i], sorted[i + 1..];
      assert n in multiset(shots);
      assert sorted == sorted[..i] + [n] + rest;
      assert multiset(rest)[n] == 0;
      assert sorted[j] == rest[j - i - 1];
      assert sorted[j] in multiset(rest);
    }
  }

  /**
   * After a run whose cleanup did not fail, the folder holds at most 21
   * screenshots: the 20 kept and the new one.
   */
  lemma AtMostTwentyOneRemain(files: map<string, int>, listing: seq<string>, nowMs: nat)
    requires Lists(listing, files)
    ensures |Shots(Cleaned(files, listing, None)[ShotName(nowMs) := nowMs])| <= KeepCount + 1
  {
    var c := Cleaned(files, listing, None);
    CleanedKeepsNewest(files, listing);
    assert Shots(c[ShotName(nowMs) := nowMs]) <= Shots(c) + {ShotName(nowMs)};
    SubsetCard(Shots(c[ShotName(nowMs) := nowMs]), Shots(c) + {ShotName(nowMs)});
  }

  lemma SubsetCard(a: set<string>, b: set<string>)
    requires a <= b
    ensures |a| <= |b|
  {
    assert b == a + (b - a);
  }

  /** `os.path.join(screenshot_dir, filename)` with the Windows separator. */
  function PathIn(dir: string, name: string): (path: string)
    ensures Text.EndsWith(path, name)
  {
    dir + "\\" + name
  }

  /** The screenshot folder, by file name and modification time. */
  class Folder {
    var files: map<string, int>

    constructor(files0: map<string, int>)
      ensures files == files0
    {
      files := files0;
    }

    /** The cleanup block: the doomed screenshots removed one by one, stopping where a removal raises. */
    method Cleanup(listing: seq<string>, failAt: Option<nat>)
      requires Lists(listing, files)
      modifies this
      ensures files == Cleaned(old(files), listing, failAt)
    {
      var doomed := Doomed(SortedShots(listing, files));
      RemoveInOrder(doomed, failAt);
    }

    /** The removal loop: the names deleted in order until the removal numbered `failAt` raises. */
    method RemoveInOrder(doomed: seq<string>, failAt: Option<nat>)
      modifies this
      ensures files == old(files) - Names(Removed(doomed, failAt))
    {
      ghost var start := files;
      var i := 0;
      while i < |doomed|
        invariant 0 <= i <= |doomed|
        invariant failAt.Some? ==> i <= failAt.value
        invariant files == start - Names(doomed[..i])
      {
        if failAt == Some(i) {
          break;
        }
        NamesStep(doomed, i);
        files := files - {doomed[i]};
        i := i + 1;
      }
      assert doomed[..|doomed|] == doomed;
      assert doomed[..i] == Removed(doomed, failAt);
    }

    /**
     * The whole script: a failed capture changes nothing and reports the
     * error; otherwise cleanup runs, its failure ignored, and the new
     * screenshot is saved under its timestamped name and its path
     * printed, unless the save fails.
     */
    method Capture(listing: seq<string>, failAt: Option<nat>, captureError: Option<string>, saveError: Option<string>,
                   nowMs: nat, dir: string, width: nat, height: nat)
      returns (exit: int, out: seq<string>, err: seq<string>)
      requires Lists(listing, files)
      modifies this
      ensures captureError.Some? ==> files == old(files) && exit == 1 && out == [] && err == ["Error: " + captureError.value]
      ensures captureError.None? && saveError.Some? ==>
        files == Cleaned(old(files), listing, failAt) && exit == 1 && out == [] && err == ["Error: " + saveError.value]
      ensures captureError.None? && saveError.None? ==>
        files == Cleaned(old(files), listing, failAt)[ShotName(nowMs) := nowMs] && exit == 0 && err == []
        && out == ["Screenshot saved: " + PathIn(dir, ShotName(nowMs)),
                   "Screen size: " + Text.NatToString(width) + "x" + Text.NatToString(height),
                   "To view this screenshot, use the read tool on the file path above.",
                   "To show the user, include [screenshot: " + PathIn(dir, ShotName(nowMs)) + "] in your response."]
    {
      if captureError.Some? {
        return 1, [], ["Error: " + captureError.value];
      }
      Cleanup(listing, failAt);
      var name := ShotName(nowMs);
      var path := PathIn(dir, name);
      if saveError.Some? {
        return 1, [], ["Error: " + saveError.value];
      }
      files := files[name := nowMs];
      exit, err := 0, [];
      out := ["Screenshot saved: " + path,
              "Screen size: " + Text.NatToString(width) + "x" + Text.NatToString(height),
              "To view this screenshot, use the read tool on the file path above.",
              "To show the user, include [screenshot: " + path + "] in your response."];
    }
  }
}
