/**
src/sinks/file_sink.cpp: a file that rotates by renaming. The file system is a map from paths to contents; its
operations succeed. Records are whatever text a format or formatter makes of one event.
*/
module FileSink {
  import opened Text
  import opened Json
  import opened Events
  import opened EventReader
  import opened Framing

  type Files = map<string, string>

  /** The open file is generation 0; generation i > 0 is the file with ".i" after its name. */
  function Name(path: string, i: nat): string {
    if i == 0 then path else path + "." + Decimal(i)
  }

  lemma NamesDiffer(path: string, i: nat, j: nat)
    requires i != j
    ensures Name(path, i) != Name(path, j)
  {
    if i > 0 && j > 0 && Name(path, i) == Name(path, j) {
      assert Name(path, i)[|path| + 1..] == Decimal(i) && Name(path, j)[|path| + 1..] == Decimal(j);
      DecimalValue(i);
      DecimalValue(j);
    } else {
      assert |Name(path, if i > 0 then i else j)| > |path|;
    }
  }

  /** The path, a dot and the number. */
  lemma RotatedName(path: string, i: nat)
    requires i > 0
    ensures var name := Name(path, i); var digits := name[|path| + 1..];
            && |name| > |path| + 1 && name[..|path|] == path && name[|path|] == '.'
            && AllDigits(digits) && digits[0] != '0' && DigitsValue(digits) == i
    ensures Name(path, 1) == path + ".1" && Name(path, 10) == path + ".10"
  {
    var name := Name(path, i);
    assert name[|path| + 1..] == Decimal(i);
    DecimalValue(i);
    FirstDigit(i);
  }

  lemma {:induction false} FirstDigit(n: nat)
    requires n > 0
    ensures Decimal(n) != "" && Decimal(n)[0] != '0'
  {
    if n >= 10 {
      FirstDigit(n / 10);
    }
  }

  /** What `a` holds at p is what `b` holds at q, absence included. */
  predicate Same(a: Files, p: string, b: Files, q: string) {
    (p in a <==> q in b) && (p in a ==> a[p] == b[q])
  }

  ghost predicate Ours(path: string, n: nat, p: string) {
    exists i: nat :: i <= n && p == Name(path, i)
  }

  /** Every generation has moved up by one, the last one is gone, and no other file is touched. */
  ghost predicate MovedUp(before: Files, after: Files, path: string, n: nat) {
    && (forall j: nat :: 1 <= j <= n ==> Same(after, Name(path, j), before, Name(path, j - 1)))
    && (n > 0 ==> path !in after)
    && (forall p :: !Ours(path, n, p) ==> Same(after, p, before, p))
  }

  /** The renaming loop when generations above i have their new contents. */
  ghost predicate Midway(before: Files, now: Files, path: string, n: nat, i: nat) {
    && (forall j: nat :: i < j <= n ==> Same(now, Name(path, j), before, Name(path, j - 1)))
    && (forall j: nat :: j < i || i == n == j ==> Same(now, Name(path, j), before, Name(path, j)))
    && (i < n ==> Name(path, i) !in now)
    && (forall p :: !Ours(path, n, p) ==> Same(now, p, before, p))
  }

  function Remove(fs: Files, p: string): Files {
    map q | q in fs && q != p :: fs[q]
  }

  function Rename(fs: Files, source: string, target: string): Files
    requires source in fs
  {
    Remove(fs, source)[target := fs[source]]
  }

  /** One turn of the loop. */
  function MoveOne(fs: Files, path: string, n: nat, i: nat): Files
    requires 1 <= i <= n
  {
    var cleared := if i == n then Remove(fs, Name(path, i)) else fs;
    if Name(path, i - 1) in cleared then Rename(cleared, Name(path, i - 1), Name(path, i)) else cleared
  }

  lemma MoveOneSame(fs: Files, path: string, n: nat, i: nat, p: string)
    requires 1 <= i <= n && (i < n ==> Name(path, i) !in fs)
    ensures p == Name(path, i) ==> Same(MoveOne(fs, path, n, i), p, fs, Name(path, i - 1))
    ensures p == Name(path, i - 1) ==> p !in MoveOne(fs, path, n, i)
    ensures p != Name(path, i) && p != Name(path, i - 1) ==> Same(MoveOne(fs, path, n, i), p, fs, p)
  {
    NamesDiffer(path, i, i - 1);
  }

  lemma MoveStep(before: Files, now: Files, path: string, n: nat, i: nat)
    requires 1 <= i <= n && Midway(before, now, path, n, i)
    ensures Midway(before, MoveOne(now, path, n, i), path, n, i - 1)
  {
    var next := MoveOne(now, path, n, i);
    forall j: nat | i - 1 < j <= n ensures Same(next, Name(path, j), before, Name(path, j - 1)) {
      MoveOneSame(now, path, n, i, Name(path, j));
      if j > i {
        NamesDiffer(path, j, i);
        NamesDiffer(path, j, i - 1);
      }
    }
    forall j: nat | j < i - 1 ensures Same(next, Name(path, j), before, Name(path, j)) {
      MoveOneSame(now, path, n, i, Name(path, j));
      NamesDiffer(path, j, i);
      NamesDiffer(path, j, i - 1);
    }
    MoveOneSame(now, path, n, i, Name(path, i - 1));
    forall p | !Ours(path, n, p) ensures Same(next, p, before, p) {
      assert p != Name(path, i) && p != Name(path, i - 1);
      MoveOneSame(now, path, n, i, p);
    }
  }

  // The simple view: generations of whole records, newest first.

  /** All records the generations hold, oldest first. */
  function Held(generations: seq<seq<string>>): seq<string> {
    if generations == [] then [] else Held(generations[1..]) + generations[0]
  }

  lemma {:induction false} HeldSplit(a: seq<seq<string>>, b: seq<seq<string>>)
    ensures Held(a + b) == Held(b) + Held(a)
  {
    if a == [] {
      assert a + b == b;
    } else {
      HeldSplit(a[1..], b);
      assert (a + b)[1..] == a[1..] + b;
    }
  }

  /** A generation is rotated away as soon as, and not before, it has reached the size limit. */
  predicate JustFull(records: seq<string>, limit: nat) {
    records != [] && |Concat(records)| >= limit && |Concat(records[..|records| - 1])| < limit
  }

  /** The open generation was below the limit before its last record. */
  predicate NotOverfull(records: seq<string>, limit: nat) {
    records != [] ==> |Concat(records[..|records| - 1])| < limit
  }

  function Rotated(generations: seq<seq<string>>, n: nat): seq<seq<string>> {
    [[]] + if |generations| <= n then generations else generations[..n]
  }

  /** What falls off the end. */
  function Lost(generations: seq<seq<string>>, n: nat): seq<string> {
    if |generations| <= n then [] else Held(generations[n..])
  }

  lemma RotatedHeld(generations: seq<seq<string>>, n: nat)
    ensures Lost(generations, n) + Held(Rotated(generations, n)) == Held(generations)
  {
    var kept := if |generations| <= n then generations else generations[..n];
    assert ([[]] + kept)[1..] == kept;
    if |generations| > n {
      HeldSplit(generations[..n], generations[n..]);
      assert generations[..n] + generations[n..] == generations;
    }
  }

  /** The files on disk, oldest first, one after the other. */
  function OnDisk(fs: Files, path: string, k: nat): string {
    (if Name(path, k) in fs then fs[Name(path, k)] else "") + if k == 0 then "" else OnDisk(fs, path, k - 1)
  }

  /** Generation i of the view is file i on disk. */
  ghost predicate Stored(fs: Files, path: string, generations: seq<seq<string>>) {
    forall i: nat :: i < |generations| ==> Name(path, i) in fs && fs[Name(path, i)] == Concat(generations[i])
  }

  lemma {:induction false} OnDiskIs(fs: Files, path: string, generations: seq<seq<string>>, k: nat)
    requires Stored(fs, path, generations) && k < |generations|
    ensures OnDisk(fs, path, k) == Concat(Held(generations[..k + 1]))
  {
    HeldSplit(generations[..k], [generations[k]]);
    assert generations[..k] + [generations[k]] == generations[..k + 1];
    assert [generations[k]][1..] == [];
    assert Held([generations[k]]) == [] + generations[k] == generations[k];
    ConcatAppend(generations[k], Held(generations[..k]));
    if k > 0 {
      OnDiskIs(fs, path, generations, k - 1);
    }
  }

  /** The view after a rotation is stored by the files after it. */
  lemma RotatedStored(before: Files, after: Files, path: string, generations: seq<seq<string>>, n: nat)
    requires Stored(before, path, generations) && generations != []
    requires MovedUp(before, after, path, n)
    ensures Stored(after[path := ""], path, Rotated(generations, n))
  {
    var view, now := Rotated(generations, n), after[path := ""];
    forall i: nat | i < |view| ensures Name(path, i) in now && now[Name(path, i)] == Concat(view[i]) {
      if i > 0 {
        NamesDiffer(path, i, 0);
        assert view[i] == generations[i - 1];
        assert Same(after, Name(path, i), before, Name(path, i - 1));
      }
    }
  }

  /** From index `count` on the files are those that were there `r` rotations ago, that many indices lower. */
  ghost predicate Shifted(initial: Files, fs: Files, path: string, count: nat, n: nat, r: nat) {
    forall i: nat :: count <= i <= n && r < i ==> Same(fs, Name(path, i), initial, Name(path, i - r))
  }

  /** How many generations there are after a rotation. */
  function Longer(count: nat, n: nat): nat {
    if count <= n then count + 1 else n + 1
  }

  lemma RotatedLength(generations: seq<seq<string>>, n: nat)
    ensures |Rotated(generations, n)| == Longer(|generations|, n)
  {
  }

  lemma RotatedShifted(initial: Files, before: Files, after: Files, path: string, count: nat, n: nat, r: nat)
    requires MovedUp(before, after, path, n) && 1 <= count && Shifted(initial, before, path, count, n, r)
    ensures Shifted(initial, after[path := ""], path, Longer(count, n), n, r + 1)
  {
    forall i: nat | Longer(count, n) <= i <= n && r + 1 < i
      ensures Same(after[path := ""], Name(path, i), initial, Name(path, i - (r + 1)))
    {
      NamesDiffer(path, i, 0);
      assert Same(after, Name(path, i), before, Name(path, i - 1));
      assert Same(before, Name(path, i - 1), initial, Name(path, i - 1 - r));
    }
  }

  /** The view after a record. */
  function Written(generations: seq<seq<string>>, record: string): seq<seq<string>>
    requires generations != []
  {
    [generations[0] + [record]] + generations[1..]
  }

  lemma WriteStored(fs: Files, path: string, generations: seq<seq<string>>, record: string)
    requires generations != [] && Stored(fs, path, generations) && path in fs
    ensures Stored(fs[path := fs[path] + record], path, Written(generations, record))
    ensures Held(Written(generations, record)) == Held(generations) + [record]
  {
    var view, now := Written(generations, record), fs[path := fs[path] + record];
    ConcatAppend(generations[0], [record]);
    ConcatOne(record);
    assert Name(path, 0) == path;
    forall i: nat | i < |view| ensures Name(path, i) in now && now[Name(path, i)] == Concat(view[i]) {
      if i > 0 {
        NamesDiffer(path, i, 0);
        assert view[i] == generations[i];
      }
    }
    assert view[1..] == generations[1..];
  }

  lemma WriteShifted(initial: Files, fs: Files, path: string, count: nat, n: nat, r: nat, text: string)
    requires 1 <= count && Shifted(initial, fs, path, count, n, r)
    ensures Shifted(initial, fs[path := text], path, count, n, r)
  {
    forall i: nat | count <= i <= n && r < i
      ensures Same(fs[path := text], Name(path, i), initial, Name(path, i - r))
    {
      NamesDiffer(path, i, 0);
    }
  }

  /** The generations after `r` rotations that keep `n` of them. */
  ghost predicate ViewOk(generations: seq<seq<string>>, forgotten: seq<string>, r: nat, n: nat, limit: nat) {
    && |generations| == 1 + (if r < n then r else n)
    && (forall i :: 1 <= i < |generations| ==> JustFull(generations[i], limit))
    && (limit > 0 ==> NotOverfull(generations[0], limit))
    && (limit == 0 ==> r == 0)
    && (r <= n ==> forgotten == [])
  }

  /** Rotating the view forgets nothing but what falls off, and keeps every rotated generation just full. */
  lemma RotatedView(generations: seq<seq<string>>, forgotten: seq<string>, r: nat, n: nat, limit: nat)
    requires ViewOk(generations, forgotten, r, n, limit) && 0 < limit <= |Concat(generations[0])|
    ensures ViewOk(Rotated(generations, n), forgotten + Lost(generations, n), r + 1, n, limit)
    ensures forgotten + Lost(generations, n) + Held(Rotated(generations, n)) == forgotten + Held(generations)
    ensures Rotated(generations, n)[0] == [] && Concat([]) == ""
  {
    RotatedHeld(generations, n);
    RotatedLength(generations, n);
    assert generations[0] != [];
    forall i | 1 <= i < |Rotated(generations, n)| ensures JustFull(Rotated(generations, n)[i], limit) {
      assert Rotated(generations, n)[i] == generations[i - 1];
    }
  }

  lemma WrittenView(generations: seq<seq<string>>, forgotten: seq<string>, r: nat, n: nat, limit: nat, record: string)
    requires ViewOk(generations, forgotten, r, n, limit) && (limit > 0 ==> |Concat(generations[0])| < limit)
    ensures ViewOk(Written(generations, record), forgotten, r, n, limit)
  {
    var records := generations[0] + [record];
    assert records[..|records| - 1] == generations[0];
  }

  lemma OpenKeeps(before: Files, after: Files, path: string, n: nat)
    requires MovedUp(before, after, path, n)
    ensures forall p :: !Ours(path, n, p) ==> Same(after[path := ""], p, before, p)
  {
    assert Name(path, 0) == path;
    assert Ours(path, n, path);
  }

  /** On disk: the rotated view, the older files after it, and everybody else's files as they were. */
  lemma AfterRotation(initial: Files, before: Files, moved: Files, path: string, generations: seq<seq<string>>,
                      n: nat, r: nat)
    requires MovedUp(before, moved, path, n) && generations != [] && Stored(before, path, generations)
    requires Shifted(initial, before, path, |generations|, n, r)
    ensures Stored(moved[path := ""], path, Rotated(generations, n))
    ensures Shifted(initial, moved[path := ""], path, |Rotated(generations, n)|, n, r + 1)
    ensures forall p :: !Ours(path, n, p) ==> Same(moved[path := ""], p, before, p)
  {
    RotatedStored(before, moved, path, generations, n);
    RotatedShifted(initial, before, moved, path, |generations|, n, r);
    RotatedLength(generations, n);
    OpenKeeps(before, moved, path, n);
  }

  class FileSink {
    const path: string
    const limit: nat        // max_file_size; 0 means no rotation
    const maxFiles: nat
    var fs: Files
    var append: bool

    ghost const initial: Files              // what was on disk before the constructor ran
    ghost var generations: seq<seq<string>>
    ghost var forgotten: seq<string>        // records in generations that fell off the end
    ghost var rotations: nat

    /** Every record ever written, in order. */
    ghost function History(): seq<string>
      reads this
    {
      forgotten + Held(generations)
    }

    ghost predicate Valid()
      reads this
    {
      && Stored(fs, path, generations)
      && ViewOk(generations, forgotten, rotations, maxFiles, limit)
      && Shifted(initial, fs, path, |generations|, maxFiles, rotations)
    }

    /** The file is truncated; files that an earlier process has rotated stay where they are. */
    constructor (path: string, limit: nat, maxFiles: nat, existing: Files)
      ensures Valid() && History() == [] && rotations == 0
      ensures this.path == path && this.limit == limit && this.maxFiles == maxFiles
      ensures fs == existing[path := ""] && initial == existing
    {
      this.path, this.limit, this.maxFiles := path, limit, maxFiles;
      append := false;
      fs := existing[path := ""];
      initial := existing;
      generations := [[]];
      forgotten := [];
      rotations := 0;
      new;
      WriteShifted(existing, existing, path, 1, maxFiles, 0, "");
      assert Held([[]]) == Held([[]][1..]) + [] == [];
    }

    method OpenFile()
      modifies this`fs
      ensures fs == old(fs)[path := if append && path in old(fs) then old(fs)[path] else ""]
    {
      if !append || path !in fs {
        fs := fs[path := ""];
      }
    }

    /** The loop of rotate_if_needed, from the highest number down. */
    method MoveFiles()
      modifies this`fs
      ensures MovedUp(old(fs), fs, path, maxFiles)
    {
      var i := maxFiles;
      while i > 0
        invariant 0 <= i <= maxFiles
        invariant Midway(old(fs), fs, path, maxFiles, i)
      {
        MoveStep(old(fs), fs, path, maxFiles, i);
        ghost var next := MoveOne(fs, path, maxFiles, i);
        var target := Name(path, i);
        if i == maxFiles {
          fs := Remove(fs, target);
        }
        if i > 1 {
          var source := Name(path, i - 1);
          if source in fs {
            fs := Rename(fs, source, target);
          }
        } else {
          var source := path;
          if source in fs {
            fs := Rename(fs, source, target);
          }
        }
        assert fs == next;
        i := i - 1;
      }
    }

    method RotateIfNeeded()
      requires Valid()
      modifies this`fs, this`append, this`generations, this`forgotten, this`rotations
      ensures Valid() && History() == old(History())
      ensures rotations == old(rotations) + if limit > 0 && |Concat(old(generations)[0])| >= limit then 1 else 0
      ensures limit > 0 ==> |Concat(generations[0])| < limit
      ensures forall p :: !Ours(path, maxFiles, p) ==> Same(fs, p, old(fs), p)
    {
      assert Name(path, 0) in fs;
      if limit == 0 {
        return;
      }
      var currentSize := |fs[path]|;
      if currentSize < limit {
        return;
      }
      ghost var before := fs;
      MoveFiles();
      AfterRotation(initial, before, fs, path, generations, maxFiles, rotations);
      append := false;
      OpenFile();
      RotatedView(generations, forgotten, rotations, maxFiles, limit);
      forgotten := forgotten + Lost(generations, maxFiles);
      generations := Rotated(generations, maxFiles);
      rotations := rotations + 1;
    }

    /** One record: it goes whole into the open generation, after a rotation if that one is full. */
    method Write(record: string)
      requires Valid()
      modifies this`fs, this`append, this`generations, this`forgotten, this`rotations
      ensures Valid() && History() == old(History()) + [record]
      ensures rotations == old(rotations) + if limit > 0 && |Concat(old(generations)[0])| >= limit then 1 else 0
      ensures forall p :: !Ours(path, maxFiles, p) ==> Same(fs, p, old(fs), p)
    {
      RotateIfNeeded();
      assert Name(path, 0) == path && Ours(path, maxFiles, path);
      WriteStored(fs, path, generations, record);
      WriteShifted(initial, fs, path, |generations|, maxFiles, rotations, fs[path] + record);
      WrittenView(generations, forgotten, rotations, maxFiles, limit, record);
      fs := fs[path := fs[path] + record];
      generations := Written(generations, record);
    }

    /** What a reader of the directory finds after any run of writes. */
    lemma WhatIsOnDisk()
      requires Valid()
      ensures OnDisk(fs, path, |generations| - 1) == Concat(Held(generations))
      ensures History() == forgotten + Held(generations)
      ensures forall i: nat :: rotations < i <= maxFiles ==> Same(fs, Name(path, i), initial, Name(path, i - rotations))
      ensures forall i: nat :: 1 <= i <= maxFiles && i <= rotations ==>
        Name(path, i) in fs && JustFull(generations[i], limit) && fs[Name(path, i)] == Concat(generations[i])
      ensures rotations <= maxFiles ==> forgotten == []
    {
      OnDiskIs(fs, path, generations, |generations| - 1);
      assert generations[..|generations|] == generations;
      FilesAre(initial, fs, path, generations, forgotten, rotations, maxFiles, limit);
    }
  }

  /** The first files are the generations, the others what was there before, moved up. */
  lemma FilesAre(initial: Files, fs: Files, path: string, generations: seq<seq<string>>, forgotten: seq<string>,
                 r: nat, n: nat, limit: nat)
    requires Stored(fs, path, generations) && ViewOk(generations, forgotten, r, n, limit)
    requires Shifted(initial, fs, path, |generations|, n, r)
    ensures forall i: nat :: r < i <= n ==> Same(fs, Name(path, i), initial, Name(path, i - r))
    ensures forall i: nat :: 1 <= i <= n && i <= r ==>
              Name(path, i) in fs && JustFull(generations[i], limit) && fs[Name(path, i)] == Concat(generations[i])
  {
  }

  lemma OnDiskLatest(fs: Files, path: string, generations: seq<seq<string>>, forgotten: seq<string>,
                     events: seq<Event>)
    requires Stored(fs, path, generations) && generations != []
    requires forgotten + Held(generations) == Records(events)
    ensures |forgotten| <= |events|
    ensures OnDisk(fs, path, |generations| - 1) == Concat(Records(events[|forgotten|..])) + ""
  {
    LatestRecords(forgotten, Held(generations), events);
    OnDiskIs(fs, path, generations, |generations| - 1);
    assert generations[..|generations|] == generations;
    assert OnDisk(fs, path, |generations| - 1) + "" == OnDisk(fs, path, |generations| - 1);
  }

  lemma LatestRecords(forgotten: seq<string>, held: seq<string>, events: seq<Event>)
    requires forgotten + held == Records(events)
    ensures |forgotten| <= |events| && held == Records(events[|forgotten|..])
  {
    var k := |forgotten|;
    assert |forgotten + held| == |events|;
    assert (forgotten + held)[k..] == held;
    assert Records(events)[k..] == Records(events[k..]);
  }

  /**
  With one JSON record an event, the files read one after the other, oldest first, split into exactly the records
  of the latest events: rotation has cut none of them, and only whole old generations are gone.
  */
  lemma FilesReadBack(fs: Files, path: string, generations: seq<seq<string>>, forgotten: seq<string>,
                      events: seq<Event>)
    requires Stored(fs, path, generations) && generations != []
    requires forgotten + Held(generations) == Records(events)
    ensures |forgotten| <= |events|
    ensures var left := events[|forgotten|..];
            var lines := Split(OnDisk(fs, path, |generations| - 1));
            && |lines| == |left| + 1
            && lines[|left|] == ""
            && forall i :: 0 <= i < |left| ==> ReadEvent(lines[i]) == Some(EventMeaning(left[i]))
  {
    OnDiskLatest(fs, path, generations, forgotten, events);
    StreamReads(events[|forgotten|..], "");
  }
}
