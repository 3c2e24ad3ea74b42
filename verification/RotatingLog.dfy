/** A rotating log over a map from file number to bytes. */
module RotatingLog {
  import opened Wrappers

  type Byte = b: nat | b < 256

  type Bytes = seq<Byte>

  /** The log's files: 0 is the current one, and `n` the `n`-th rotated one. */
  type Files = map<nat, Bytes>

  /** The files, and how much the current one holds while it is open. */
  datatype Log = Log(files: Files, open: Option<nat>)

  /** Nothing moves without a source, and a target is overwritten. */
  function Renamed(files: Files, from: nat, to: nat): Files {
    if from in files then (files - {from})[to := files[from]] else files
  }

  function Created(files: Files): Files {
    if 0 in files then files else files[0 := []]
  }

  /** Rotated files `n - 1` down to 1, each renamed to the next number. */
  function Shifted(files: Files, n: nat): Files
    decreases n
  {
    if n <= 1 then files else Shifted(Renamed(files, n - 1, n), n - 1)
  }

  function Rotated(files: Files, keep: nat): Files {
    Created(Renamed(Shifted(files, keep), 0, 1))
  }

  /** The log as its current file is open, whoever wrote it before. */
  function Opened(log: Log): Log {
    if log.open.Some? then log
    else Log(Created(log.files), Some(if 0 in log.files then |log.files[0]| else 0))
  }

  function Appended(log: Log, buf: Bytes): Log
    requires log.open.Some? && 0 in log.files
  {
    Log(log.files[0 := log.files[0] + buf], Some(log.open.value + |buf|))
  }

  /** An open log has its current file, and counts its bytes. */
  ghost predicate Counts(log: Log) {
    log.open.Some? ==> 0 in log.files && log.open.value == |log.files[0]|
  }

  /** The log after one write. */
  function Wrote(log: Log, buf: Bytes, limit: nat, keep: nat): Log
    requires Counts(log)
  {
    var open := Opened(log);
    if open.open.value + |buf| > limit then Appended(Log(Rotated(open.files, keep), Some(0)), buf)
    else Appended(open, buf)
  }

  class Rotating {
    const limit: nat
    const keep: nat
    var files: Files
    var open: Option<nat>

    function Value(): Log
      reads this
    {
      Log(files, open)
    }

    /** A new process: nothing is open, and the files are what earlier ones left. */
    constructor (limit: nat, keep: nat, files: Files)
      ensures this.limit == limit && this.keep == keep && Value() == Log(files, None)
    {
      this.limit, this.keep, this.files, this.open := limit, keep, files, None;
    }

    method RenameAway(from: nat, to: nat)
      modifies this`files
      ensures files == Renamed(old(files), from, to)
    {
      if from in files {
        files := (files - {from})[to := files[from]];
      }
    }

    method OpenAppend()
      modifies this`files
      ensures files == Created(old(files))
    {
      if 0 !in files {
        files := files[0 := []];
      }
    }

    method Rotate()
      modifies this
      ensures Value() == Log(Rotated(old(files), keep), Some(0))
    {
      open := None;
      var n := keep;
      while n > 1
        invariant Shifted(files, n) == Shifted(old(files), keep)
      {
        n := n - 1;
        RenameAway(n, n + 1);
      }
      RenameAway(0, 1);
      OpenAppend();
      open := Some(0);
    }

    method Write(buf: Bytes)
      requires Counts(Value())
      modifies this
      ensures Value() == Wrote(old(Value()), buf, limit, keep) && Counts(Value())
    {
      if open.None? {
        var written := if 0 in files then |files[0]| else 0;
        OpenAppend();
        open := Some(written);
      }
      if open.value + |buf| > limit {
        Rotate();
      }
      files := files[0 := files[0] + buf];
      open := Some(open.value + |buf|);
    }
  }

  // ----- what a rotation does to each file -----

  function Get(files: Files, n: nat): Option<Bytes> {
    if n in files then Some(files[n]) else None
  }

  lemma {:induction false} ShiftedEach(files: Files, n: nat, j: nat)
    ensures Get(Shifted(files, n), j) ==
            if n <= 1 || j == 0 || j > n then Get(files, j)
            else if j == 1 then None
            else if j == n && n - 1 !in files then Get(files, n)
            else Get(files, j - 1)
    decreases n
  {
    if n > 1 {
      ShiftedEach(Renamed(files, n - 1, n), n - 1, j);
    }
  }

  // ----- runs -----

  /** A process writes, or it stops and another one starts. */
  datatype Event = Write(buf: Bytes) | Restart

  function After(events: seq<Event>, limit: nat, keep: nat): (log: Log)
    ensures Counts(log)
  {
    if events == [] then Log(map[], None)
    else
      var log := After(events[..|events| - 1], limit, keep);
      match events[|events| - 1]
      case Write(buf) => Wrote(log, buf, limit, keep)
      case Restart => Log(log.files, None)
  }

  function Writes(events: seq<Event>): seq<Bytes> {
    if events == [] then []
    else
      var before := Writes(events[..|events| - 1]);
      match events[|events| - 1]
      case Write(buf) => before + [buf]
      case Restart => before
  }

  function Joined(bufs: seq<Bytes>): Bytes {
    if bufs == [] then [] else Joined(bufs[..|bufs| - 1]) + bufs[|bufs| - 1]
  }

  lemma {:induction false} JoinedParts(a: seq<Bytes>, b: seq<Bytes>)
    ensures Joined(a + b) == Joined(a) + Joined(b)
    decreases |b|
  {
    if b == [] {
      assert a + b == a;
    } else {
      assert (a + b)[..|a + b| - 1] == a + b[..|b| - 1];
      JoinedParts(a, b[..|b| - 1]);
    }
  }

  /** A write goes to the last file unless it would take it over the limit. */
  function Next(writes: seq<Bytes>, starts: seq<nat>, buf: Bytes, limit: nat): seq<nat>
    requires starts != [] && starts[|starts| - 1] <= |writes|
  {
    if |Joined(writes[starts[|starts| - 1]..])| + |buf| > limit then starts + [|writes|] else starts
  }

  /** The plain account of what goes where: for each file there ever was, the number of writes before its first. */
  function Starts(writes: seq<Bytes>, limit: nat): (starts: seq<nat>)
    ensures starts == [] <==> writes == []
    ensures forall k | 0 <= k < |starts| :: starts[k] <= |writes|
    ensures forall j, k | 0 <= j <= k < |starts| :: starts[j] <= starts[k]
    ensures starts != [] ==> starts[0] == 0
  {
    if writes == [] then []
    else
      var front := writes[..|writes| - 1];
      Next(front, if front == [] then [0] else Starts(front, limit), writes[|writes| - 1], limit)
  }

  /** The writes of the `k`-th file. */
  function Part(writes: seq<Bytes>, starts: seq<nat>, k: nat): seq<Bytes>
    requires k < |starts|
    requires forall j | 0 <= j < |starts| :: starts[j] <= |writes|
    requires forall i, j | 0 <= i <= j < |starts| :: starts[i] <= starts[j]
  {
    writes[starts[k]..if k + 1 < |starts| then starts[k + 1] else |writes|]
  }

  /** How many files are left of `made`: the current one and the rotated ones that are kept, at least one. */
  function Left(made: nat, keep: nat): nat {
    var kept := if keep == 0 then 1 else keep;
    if made <= kept then made else kept + 1
  }

  /** The files hold the last of the parts, the newest in the current one. */
  ghost predicate Holds(files: Files, writes: seq<Bytes>, limit: nat, keep: nat) {
    var starts := Starts(writes, limit);
    && (forall i: nat :: i in files <==> i < Left(|starts|, keep))
    && (forall i | i in files :: files[i] == Joined(Part(writes, starts, |starts| - 1 - i)))
  }

  lemma StartsNext(writes: seq<Bytes>, buf: Bytes, limit: nat)
    requires writes != []
    ensures Starts(writes + [buf], limit) == Next(writes, Starts(writes, limit), buf, limit)
  {
    hide Next;
    var more := writes + [buf];
    assert more[..|more| - 1] == writes && more[|more| - 1] == buf;
  }

  lemma StartsMore(writes: seq<Bytes>, buf: Bytes, limit: nat)
    requires writes != []
    ensures var starts := Starts(writes, limit);
            Starts(writes + [buf], limit) ==
            if |Joined(Part(writes, starts, |starts| - 1))| + |buf| > limit then starts + [|writes|] else starts
  {
    hide Joined, Starts;
    var starts := Starts(writes, limit);
    StartsNext(writes, buf, limit);
    assert writes[starts[|starts| - 1]..] == Part(writes, starts, |starts| - 1);
  }

  /** A new write goes to the last part or to one of its own, and leaves the others alone. */
  lemma PartsMore(writes: seq<Bytes>, buf: Bytes, starts: seq<nat>, after: seq<nat>, k: nat)
    requires k < |starts|
    requires forall j | 0 <= j < |starts| :: starts[j] <= |writes|
    requires forall i, j | 0 <= i <= j < |starts| :: starts[i] <= starts[j]
    requires after == starts || after == starts + [|writes|]
    ensures Part(writes + [buf], after, k) == if k + 1 == |after| then Part(writes, starts, k) + [buf]
            else Part(writes, starts, k)
    ensures after != starts ==> Part(writes + [buf], after, |starts|) == [buf]
  {
  }

  lemma RotatedEach(files: Files, keep: nat, n: nat, i: nat)
    requires forall j: nat :: j in files <==> j < n
    requires 0 < n <= (if keep == 0 then 1 else keep) + 1
    ensures Get(Rotated(files, keep), i) == if i == 0 then Some([]) else if i < Left(n + 1, keep) then Get(files, i - 1)
            else None
  {
    ShiftedEach(files, keep, i);
    ShiftedEach(files, keep, 0);
    ShiftedEach(files, keep, 1);
  }

  lemma WriteStays(files: Files, writes: seq<Bytes>, buf: Bytes, limit: nat, keep: nat)
    requires writes != [] && Holds(files, writes, limit, keep) && 0 in files
    requires |files[0]| + |buf| <= limit
    ensures Holds(files[0 := files[0] + buf], writes + [buf], limit, keep)
  {
    hide Starts, Joined, Part;
    var starts := Starts(writes, limit);
    var more := writes + [buf];
    var m := |starts| - 1;
    assert files[0] == Joined(Part(writes, starts, m - 0));
    StartsMore(writes, buf, limit);
    var after := files[0 := files[0] + buf];
    forall i | i in after ensures after[i] == Joined(Part(more, starts, m - i)) {
      PartsMore(writes, buf, starts, starts, m - i);
      JoinedMore(Part(writes, starts, m), buf);
    }
  }

  lemma WriteRotates(files: Files, writes: seq<Bytes>, buf: Bytes, limit: nat, keep: nat)
    requires writes != [] && Holds(files, writes, limit, keep) && 0 in files
    requires |files[0]| + |buf| > limit
    ensures 0 in Rotated(files, keep) && Rotated(files, keep)[0] == []
    ensures Holds(Rotated(files, keep)[0 := buf], writes + [buf], limit, keep)
  {
    hide Starts, Joined, Part, Rotated;
    var starts := Starts(writes, limit);
    var more, after := writes + [buf], starts + [|writes|];
    var m := |starts|;
    assert files[0] == Joined(Part(writes, starts, m - 1 - 0));
    StartsMore(writes, buf, limit);
    RotatedEach(files, keep, Left(m, keep), 0);
    assert Starts(more, limit) == after;
    var rotated := Rotated(files, keep)[0 := buf];
    forall i: nat ensures i in rotated <==> i < Left(m + 1, keep) {
      RotatedEach(files, keep, Left(m, keep), i);
    }
    forall i | i in rotated ensures rotated[i] == Joined(Part(more, after, m - i)) {
      RotatedEach(files, keep, Left(m, keep), i);
      if i == 0 {
        PartsMore(writes, buf, starts, after, 0);
        JoinedMore([], buf);
      } else {
        PartsMore(writes, buf, starts, after, m - i);
      }
    }
  }

  /** One write keeps the files in step with the plain account. */
  lemma WriteHolds(log: Log, writes: seq<Bytes>, buf: Bytes, limit: nat, keep: nat)
    requires writes != [] && Counts(log) && Holds(log.files, writes, limit, keep)
    ensures Holds(Wrote(log, buf, limit, keep).files, writes + [buf], limit, keep)
  {
    hide Starts, Rotated, Joined, Part;
    assert 0 in log.files;
    if |log.files[0]| + |buf| <= limit {
      WriteStays(log.files, writes, buf, limit, keep);
    } else {
      WriteRotates(log.files, writes, buf, limit, keep);
      assert [] + buf == buf;
    }
  }

  lemma StartsOfOne(buf: Bytes, limit: nat)
    ensures Starts([buf], limit) == if |buf| > limit then [0, 0] else [0]
    ensures Joined([buf]) == buf && Joined([]) == []
  {
    assert [buf][..0] == [];
    JoinedMore([], buf);
  }

  lemma RotatedOnce(keep: nat)
    ensures Rotated(map[0 := []], keep) == map[0 := [], 1 := []]
  {
    hide Rotated;
    var one: Files := map[0 := []];
    assert forall j: nat :: j in one <==> j < 1;
    RotatedEach(one, keep, 1, 0);
    RotatedEach(one, keep, 1, 1);
    forall i: nat ensures i in Rotated(one, keep) <==> i < 2 {
      RotatedEach(one, keep, 1, i);
    }
  }

  /** The first write of all finds no file. */
  lemma FirstWriteHolds(log: Log, buf: Bytes, limit: nat, keep: nat)
    requires log.files == map[] && Counts(log)
    ensures Holds(Wrote(log, buf, limit, keep).files, [buf], limit, keep)
  {
    hide Rotated, Starts, Joined;
    assert Created(log.files) == map[0 := []];
    RotatedOnce(keep);
    StartsOfOne(buf, limit);
    assert [] + buf == buf;
    var files := Wrote(log, buf, limit, keep).files;
    if |buf| > limit {
      assert files == map[0 := buf, 1 := []];
      assert Part([buf], [0, 0], 1) == [buf] && Part([buf], [0, 0], 0) == [];
    } else {
      assert files == map[0 := buf];
      assert Part([buf], [0], 0) == [buf];
    }
  }

  /** After any run the files are the last parts of the plain account, and the count is the current file's length. */
  lemma {:induction false} FilesHoldTheLastParts(events: seq<Event>, limit: nat, keep: nat)
    ensures Holds(After(events, limit, keep).files, Writes(events), limit, keep)
  {
    hide Wrote, Starts;
    if events == [] {
      assert After(events, limit, keep).files == map[] && Writes(events) == [];
      assert Starts([], limit) == [];
    } else {
      var front := events[..|events| - 1];
      FilesHoldTheLastParts(front, limit, keep);
      match events[|events| - 1]
      case Write(buf) =>
        var log := After(front, limit, keep);
        if Writes(front) == [] {
          assert log.files == map[];
          assert [] + [buf] == [buf];
          FirstWriteHolds(log, buf, limit, keep);
        } else {
          WriteHolds(log, Writes(front), buf, limit, keep);
        }
      case Restart =>
    }
  }

  lemma JoinedMore(bufs: seq<Bytes>, buf: Bytes)
    ensures Joined(bufs + [buf]) == Joined(bufs) + buf
    ensures bufs == [] ==> Joined([buf]) == buf && Joined(bufs) == []
  {
    assert (bufs + [buf])[..|bufs|] == bufs;
    assert [] + [buf] == [buf];
  }

  /** The `k`-th file keeps the limit, unless it is a single write. */
  ghost predicate Fits(writes: seq<Bytes>, limit: nat, k: nat)
    requires k < |Starts(writes, limit)|
  {
    var part := Part(writes, Starts(writes, limit), k);
    |Joined(part)| <= limit || |part| == 1
  }

  /** It was left only for a write it had no room for. */
  ghost predicate Fills(writes: seq<Bytes>, limit: nat, k: nat)
    requires k + 1 < |Starts(writes, limit)|
  {
    var starts := Starts(writes, limit);
    starts[k + 1] < |writes| && |Joined(Part(writes, starts, k))| + |writes[starts[k + 1]]| > limit
  }

  ghost predicate WellCut(writes: seq<Bytes>, limit: nat) {
    && (forall k: nat | k < |Starts(writes, limit)| :: Fits(writes, limit, k))
    && (forall k: nat | k + 1 < |Starts(writes, limit)| :: Fills(writes, limit, k))
  }

  lemma {:induction false} StartsAreWellCut(writes: seq<Bytes>, limit: nat)
    ensures WellCut(writes, limit)
    decreases |writes|
  {
    if |writes| == 1 {
      FirstCut(writes[0], limit);
      assert writes == [writes[0]];
    } else if |writes| > 1 {
      var front, buf := writes[..|writes| - 1], writes[|writes| - 1];
      StartsAreWellCut(front, limit);
      assert writes == front + [buf];
      OneMoreCut(front, buf, limit);
    }
  }

  lemma FirstCut(buf: Bytes, limit: nat)
    ensures WellCut([buf], limit)
  {
    assert [buf][..0] == [] && [buf][0..1] == [buf] && [buf][0..0] == [];
    JoinedMore([], buf);
    assert Joined([]) == [];
  }

  lemma OneMoreFits(front: seq<Bytes>, buf: Bytes, limit: nat, k: nat)
    requires front != [] && WellCut(front, limit) && k < |Starts(front + [buf], limit)|
    ensures Fits(front + [buf], limit, k)
  {
    hide Starts, Joined, Part;
    var starts, after := Starts(front, limit), Starts(front + [buf], limit);
    var m := |starts| - 1;
    StartsMore(front, buf, limit);
    if k <= m {
      assert Fits(front, limit, k);
      PartsMore(front, buf, starts, after, k);
      JoinedMore(Part(front, starts, m), buf);
    } else {
      PartsMore(front, buf, starts, after, 0);
    }
  }

  lemma OneMoreFills(front: seq<Bytes>, buf: Bytes, limit: nat, k: nat)
    requires front != [] && WellCut(front, limit) && k + 1 < |Starts(front + [buf], limit)|
    ensures Fills(front + [buf], limit, k)
  {
    hide Starts, Joined, Part;
    var starts, after := Starts(front, limit), Starts(front + [buf], limit);
    StartsMore(front, buf, limit);
    PartsMore(front, buf, starts, after, k);
    if k + 1 < |starts| {
      assert Fills(front, limit, k);
      assert (front + [buf])[starts[k + 1]] == front[starts[k + 1]];
    } else {
      assert after[k + 1] == |front| && (front + [buf])[|front|] == buf;
    }
  }

  lemma OneMoreCut(front: seq<Bytes>, buf: Bytes, limit: nat)
    requires front != [] && WellCut(front, limit)
    ensures WellCut(front + [buf], limit)
  {
    hide Starts, Fits, Fills;
    forall k: nat | k < |Starts(front + [buf], limit)| ensures Fits(front + [buf], limit, k) {
      OneMoreFits(front, buf, limit, k);
    }
    forall k: nat | k + 1 < |Starts(front + [buf], limit)| ensures Fills(front + [buf], limit, k) {
      OneMoreFills(front, buf, limit, k);
    }
  }

  /** The files numbered below `n`, read oldest first. */
  function OldestFirst(files: Files, n: nat): Bytes
    requires forall i: nat | i < n :: i in files
  {
    if n == 0 then [] else files[n - 1] + OldestFirst(files, n - 1)
  }

  /** Where the last `n` parts begin. */
  function FirstOf(writes: seq<Bytes>, limit: nat, n: nat): (first: nat)
    requires n <= |Starts(writes, limit)|
    ensures first <= |writes|
  {
    var starts := Starts(writes, limit);
    if n == 0 then |writes| else starts[|starts| - n]
  }

  lemma FirstPartOf(writes: seq<Bytes>, limit: nat, n: nat)
    requires 0 < n <= |Starts(writes, limit)|
    ensures var starts := Starts(writes, limit);
            Joined(writes[FirstOf(writes, limit, n)..])
            == Joined(Part(writes, starts, |starts| - n)) + Joined(writes[FirstOf(writes, limit, n - 1)..])
  {
    hide Starts, Joined;
    var starts := Starts(writes, limit);
    var here, next := FirstOf(writes, limit, n), FirstOf(writes, limit, n - 1);
    assert Part(writes, starts, |starts| - n) == writes[here..next];
    assert writes[here..] == writes[here..next] + writes[next..];
    JoinedParts(writes[here..next], writes[next..]);
  }

  lemma HeldPart(files: Files, writes: seq<Bytes>, limit: nat, keep: nat, i: nat)
    requires Holds(files, writes, limit, keep) && i < Left(|Starts(writes, limit)|, keep)
    ensures var starts := Starts(writes, limit);
            i < |starts| && i in files && files[i] == Joined(Part(writes, starts, |starts| - 1 - i))
  {
    hide Starts, Joined, Part;
  }

  lemma HeldFiles(files: Files, writes: seq<Bytes>, limit: nat, keep: nat, n: nat)
    requires Holds(files, writes, limit, keep) && n <= Left(|Starts(writes, limit)|, keep)
    ensures n <= |Starts(writes, limit)| && forall i: nat | i < n :: i in files
  {
    hide Starts, Joined, Part;
  }

  lemma {:induction false} LastPartsJoined(files: Files, writes: seq<Bytes>, limit: nat, keep: nat, n: nat)
    requires Holds(files, writes, limit, keep) && n <= Left(|Starts(writes, limit)|, keep)
    ensures n <= |Starts(writes, limit)| && forall i: nat | i < n :: i in files
    ensures OldestFirst(files, n) == Joined(writes[FirstOf(writes, limit, n)..])
  {
    hide Starts, Part, Holds, Left;
    HeldFiles(files, writes, limit, keep, n);
    if n == 0 {
      assert writes[|writes|..] == [];
    } else {
      hide FirstOf, Joined;
      LastPartsJoined(files, writes, limit, keep, n - 1);
      HeldPart(files, writes, limit, keep, n - 1);
      FirstPartOf(writes, limit, n);
    }
  }

  /**
   * From an empty directory, over any writes and restarts: the files are numbered without gaps,
   * as many as there ever were up to `keep` and one more (two, when none is to be kept); read
   * oldest first they are the last writes, whole and in order, and nothing else; and the bytes
   * that are counted are there.
   */
  lemma TheFilesAreTheTail(events: seq<Event>, limit: nat, keep: nat) returns (n: nat, first: nat)
    ensures var log := After(events, limit, keep);
            && n == Left(|Starts(Writes(events), limit)|, keep)
            && (forall i: nat :: i in log.files <==> i < n)
            && first <= |Writes(events)|
            && OldestFirst(log.files, n) == Joined(Writes(events)[first..])
            && Joined(Writes(events)) == Joined(Writes(events)[..first]) + OldestFirst(log.files, n)
            && (log.open.Some? ==> 0 in log.files && log.open.value == |log.files[0]|)
  {
    hide Starts, Joined;
    var log, writes := After(events, limit, keep), Writes(events);
    var starts := Starts(writes, limit);
    FilesHoldTheLastParts(events, limit, keep);
    n := Left(|starts|, keep);
    first := FirstOf(writes, limit, n);
    LastPartsJoined(log.files, writes, limit, keep, n);
    assert writes == writes[..first] + writes[first..];
    JoinedParts(writes[..first], writes[first..]);
  }

  /**
   * No write is split over two files: each holds a run of whole writes, within the limit or a
   * single write; and each file but the current one was left for a write it had no room for.
   */
  lemma NoWriteIsSplit(events: seq<Event>, limit: nat, keep: nat, i: nat) returns (from: nat, to: nat)
    requires i in After(events, limit, keep).files
    ensures var file, writes := After(events, limit, keep).files[i], Writes(events);
            && from <= to <= |writes|
            && file == Joined(writes[from..to])
            && (|file| <= limit || to == from + 1)
            && (i == 0 ==> to == |writes|)
            && (i > 0 ==> to < |writes| && |file| + |writes[to]| > limit)
  {
    hide Starts, Joined;
    var writes := Writes(events);
    var starts := Starts(writes, limit);
    FilesHoldTheLastParts(events, limit, keep);
    StartsAreWellCut(writes, limit);
    var k: nat := |starts| - 1 - i;
    assert Fits(writes, limit, k) && (i > 0 ==> Fills(writes, limit, k));
    from := starts[k];
    to := if i == 0 then |writes| else starts[k + 1];
    assert Part(writes, starts, k) == writes[from..to];
  }

  /** There has been a second file exactly when everything written goes over the limit. */
  lemma {:induction false} OneFileIffItFits(writes: seq<Bytes>, limit: nat)
    ensures |Starts(writes, limit)| <= 1 <==> |Joined(writes)| <= limit
    decreases |writes|
  {
    hide Starts, Joined;
    if writes == [] {
      StartsOfOne([], limit);
    } else if |writes| == 1 {
      StartsOfOne(writes[0], limit);
      assert writes == [writes[0]];
    } else {
      var front, buf := writes[..|writes| - 1], writes[|writes| - 1];
      assert writes == front + [buf];
      OneFileIffItFits(front, limit);
      StartsMore(front, buf, limit);
      JoinedMore(front, buf);
      if |Starts(front, limit)| == 1 {
        assert Part(front, Starts(front, limit), 0) == front;
      }
    }
  }

  /** At most `keep` rotated files are left exactly when some are to be kept, or nothing was ever rotated. */
  lemma KeepsNoMoreThanAskedIff(events: seq<Event>, limit: nat, keep: nat)
    ensures (forall i: nat | i in After(events, limit, keep).files :: i <= keep) <==>
            keep > 0 || |Joined(Writes(events))| <= limit
  {
    hide Starts, Joined, After;
    FilesHoldTheLastParts(events, limit, keep);
    OneFileIffItFits(Writes(events), limit);
    var files := After(events, limit, keep).files;
    var n := Left(|Starts(Writes(events), limit)|, keep);
    if keep == 0 && n == 2 {
      var one: nat := 1;
      assert one in files;
    }
  }

  /** Two bytes into a log of one byte that keeps no rotated file: it keeps one. */
  lemma KeepingNoneKeepsOne()
    ensures After([Write([1]), Write([2])], 1, 0).files == map[0 := [2], 1 := [1]]
  {
    var events := [Write([1]), Write([2])];
    assert events[..1] == [Write([1])] && events[..1][..0] == [] && [] + [1] == [1] && [] + [2] == [2];
    assert After(events[..1], 1, 0).files == map[0 := [1]];
    var log := After(events[..1], 1, 0);
    assert Rotated(log.files, 0) == map[0 := [], 1 := [1]];
  }
}
