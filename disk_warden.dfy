/**
 * The disk-space warden `LocalRecordSession.checkDiskSize`: before a new
 * segment file is opened, recorded `.3gp`/`.mp4` files are deleted, oldest
 * name first, until the volume's available bytes plus the reclaimed bytes
 * reach a reserve threshold.
 *
 * The volume statistics (`StatFs`), the directory listing (`File.list`),
 * each file's kind and length and whether its `File.delete` succeeds are
 * inputs. Every successful delete is followed by one media-index refresh of
 * that file, so the deleted entries are also the refresh notifications.
 */
module DiskWarden {
  import opened Common
  import opened NameOrder

  /** One name returned by `File.list`, with what the platform reports about it. */
  datatype Entry = Entry(name: string, isDirectory: bool, length: nat, deletable: bool)

  /** What `File.canWrite`, `StatFs` and `Context.externalMediaDirs` report. */
  datatype Volume = Volume(writable: bool, totalBytes: nat, availableBytes: nat, mediaDirCount: nat)

  datatype WardenOutcome =
    | NotWritable             // the directory is not writable: nothing is looked at
    | SpaceSufficient         // available bytes already reach the threshold
    | ListingFailed           // `File.list` returned null: the call fails with an exception
    | Swept(deleted: seq<Entry>)  // the entries deleted, in the order they were deleted

  /** The fixed part of the reserve: 1 GiB. */
  const ReserveFloor: nat := 1073741824

  /** The reserve threshold: 1 GiB, plus a tenth of the volume when at most one
      external media directory exists (no removable card). */
  function Threshold(totalBytes: nat, mediaDirCount: nat): (t: nat)
    ensures ReserveFloor <= t <= ReserveFloor + totalBytes / 10
    ensures t == ReserveFloor <==> mediaDirCount > 1 || totalBytes < 10
    ensures mediaDirCount <= 1 ==> t - ReserveFloor == totalBytes / 10
  {
    if mediaDirCount <= 1 then ReserveFloor + totalBytes / 10 else ReserveFloor
  }

  // ---------------------------------------------------------------------------
  // File names and extensions

  /** The text after the last '.' of `name`, or the whole name if it has no '.'. */
  function AfterLastDot(name: string): (r: string)
  {
    if name == [] then []
    else if name[|name| - 1] == '.' then []
    else AfterLastDot(name[..|name| - 1]) + [name[|name| - 1]]
  }

  /** Kotlin's `File.extension`: the text after the last '.', empty when there is none. */
  function Extension(name: string): (ext: string)
  {
    if '.' in name then AfterLastDot(name) else []
  }

  /** The extension is the part of the name after its last dot. */
  lemma {:induction false} AfterLastDotIsSuffix(name: string)
    ensures var r := AfterLastDot(name);
            && '.' !in r
            && |r| <= |name| && r == name[|name| - |r|..]
            && (|r| < |name| ==> name[|name| - |r| - 1] == '.')
  {
    if name != [] && name[|name| - 1] != '.' {
      var init := name[..|name| - 1];
      var c := name[|name| - 1];
      AfterLastDotIsSuffix(init);
      var r' := AfterLastDot(init);
      var r := AfterLastDot(name);
      assert r == r' + [c];
      assert name == init + [c];
      assert r == name[|name| - |r|..] by {
        assert init[|init| - |r'|..] + [c] == name[|name| - |r'| - 1..];
      }
      assert |r| < |name| ==> name[|name| - |r| - 1] == init[|init| - |r'| - 1];
    }
  }

  /** `File.extension` of a name with a dot is what follows its last dot; of a
      name without one, empty. */
  lemma ExtensionAfterLastDot(name: string)
    ensures var ext := Extension(name);
            && '.' !in ext
            && ('.' in name ==> |ext| < |name| && name[|name| - |ext| - 1] == '.' && name[|name| - |ext|..] == ext)
            && ('.' !in name ==> ext == [])
  {
    AfterLastDotIsSuffix(name);
  }

  /** `Char.toLowerCase` on the letters A-Z; other characters are kept (no other
      character lower-cases to one of the letters compared below). */
  function LowerChar(c: char): char
  {
    if 'A' <= c <= 'Z' then (c as int + 32) as char else c
  }

  /** `ext.toLowerCase()` is `3gp` or `mp4`. */
  predicate IsVideoExtension(ext: string)
  {
    && |ext| == 3
    && ((LowerChar(ext[0]) == '3' && LowerChar(ext[1]) == 'g' && LowerChar(ext[2]) == 'p')
        || (LowerChar(ext[0]) == 'm' && LowerChar(ext[1]) == 'p' && LowerChar(ext[2]) == '4'))
  }

  /** A deletion candidate: not a directory, and its name ends in a dot and a
      lower-cased `3gp` or `mp4`. `CandidateIsExtensionTest` shows this is the
      test `File.extension.toLowerCase()` is `3gp` or `mp4`. */
  predicate IsCandidate(e: Entry)
  {
    && !e.isDirectory
    && |e.name| >= 4
    && e.name[|e.name| - 4] == '.'
    && IsVideoExtension(e.name[|e.name| - 3..])
  }

  /** The candidate test reads the extension as `File.extension` does. */
  lemma CandidateIsExtensionTest(e: Entry)
    ensures IsCandidate(e) <==> !e.isDirectory && IsVideoExtension(Extension(e.name))
  {
    var name := e.name;
    var n := |name|;
    ExtensionAfterLastDot(name);
    var ext := Extension(name);
    if IsVideoExtension(ext) {
      assert '.' in name;
      assert name[n - 4] == '.' && name[n - 3..] == ext;
    }
    if n >= 4 && name[n - 4] == '.' && IsVideoExtension(name[n - 3..]) {
      var last := name[n - 3..];
      assert '.' !in last by {
        forall j | 0 <= j < 3 ensures last[j] != '.' {
          assert LowerChar(last[j]) != '.';
        }
      }
      assert name[n - 4] in name;
      assert ext == last;
    }
  }

  /** The files the recorder itself writes, `<timestamp>.3gp`, are always
      candidates: their extension is `3gp`. */
  lemma {:induction false} SegmentNamesAreCandidates(stem: string)
    ensures Extension(stem + ".3gp") == "3gp"
    ensures IsCandidate(Entry(stem + ".3gp", false, 0, true))
  {
    var name := stem + ".3gp";
    var n := |name|;
    assert name[n - 4] == '.' && name[n - 3] == '3' && name[n - 2] == 'g' && name[n - 1] == 'p';
    assert '.' in name;
    ExtensionAfterLastDot(name);
    var ext := Extension(name);
    assert |ext| == 3;
    assert ext == name[n - 3..] == "3gp";
  }

  // ---------------------------------------------------------------------------
  // Sorting the listing by name (`ArrayList.sortWith` with `compareTo`)

  predicate SortedByName(s: seq<Entry>)
  {
    forall i, j :: 0 <= i < j < |s| ==> NameLe(s[i].name, s[j].name)
  }

  /** Places `e` before the first entry whose name it does not exceed. */
  function InsertByName(e: Entry, s: seq<Entry>): seq<Entry>
  {
    if s == [] then [e]
    else if NameLe(e.name, s[0].name) then [e] + s
    else [s[0]] + InsertByName(e, s[1..])
  }

  /** The listing in ascending name order (an insertion sort). */
  function SortByName(s: seq<Entry>): seq<Entry>
  {
    if s == [] then [] else InsertByName(s[0], SortByName(s[1..]))
  }

  /** Inserting adds exactly `e` to the entries. */
  lemma {:induction false} InsertByNamePermutation(e: Entry, s: seq<Entry>)
    ensures multiset(InsertByName(e, s)) == multiset(s) + multiset{e}
  {
    if s != [] && !NameLe(e.name, s[0].name) {
      InsertByNamePermutation(e, s[1..]);
      assert s == [s[0]] + s[1..];
    }
  }

  /** Inserting into a sorted listing keeps it sorted. */
  lemma {:induction false} InsertByNameSorted(e: Entry, s: seq<Entry>)
    requires SortedByName(s)
    ensures SortedByName(InsertByName(e, s))
  {
    if s == [] {
    } else if NameLe(e.name, s[0].name) {
      forall k | 0 < k < |s| ensures NameLe(e.name, s[k].name) {
        NameLeTransitive(e.name, s[0].name, s[k].name);
      }
    } else {
      NameLeTotal(e.name, s[0].name);
      var tail := s[1..];
      assert SortedByName(tail) by {
        forall i, j | 0 <= i < j < |tail| ensures NameLe(tail[i].name, tail[j].name) {
          assert tail[i] == s[i + 1] && tail[j] == s[j + 1];
        }
      }
      InsertByNameSorted(e, tail);
      InsertByNamePermutation(e, tail);
      var rest := InsertByName(e, tail);
      forall k | 0 <= k < |rest| ensures NameLe(s[0].name, rest[k].name) {
        assert rest[k] in multiset(rest);
        if rest[k] != e {
          assert rest[k] in multiset(tail);
          var m :| 0 <= m < |tail| && tail[m] == rest[k];
          assert s[m + 1] == rest[k];
        }
      }
      SortedCons(s[0], rest);
    }
  }

  /** An entry that precedes every entry of a sorted listing can go in front of it. */
  lemma SortedCons(x: Entry, s: seq<Entry>)
    requires SortedByName(s)
    requires forall k :: 0 <= k < |s| ==> NameLe(x.name, s[k].name)
    ensures SortedByName([x] + s)
  {
    var r := [x] + s;
    forall i, j | 0 <= i < j < |r| ensures NameLe(r[i].name, r[j].name) {
      if i == 0 {
        assert r[j] == s[j - 1];
      } else {
        assert r[i] == s[i - 1] && r[j] == s[j - 1];
      }
    }
  }

  /** Sorting yields the listing's entries, each once, in ascending name order. */
  lemma {:induction false} SortByNameSortedPermutation(s: seq<Entry>)
    ensures SortedByName(SortByName(s))
    ensures multiset(SortByName(s)) == multiset(s)
  {
    if s != [] {
      SortByNameSortedPermutation(s[1..]);
      InsertByNameSorted(s[0], SortByName(s[1..]));
      InsertByNamePermutation(s[0], SortByName(s[1..]));
      assert s == [s[0]] + s[1..];
    }
  }

  // ---------------------------------------------------------------------------
  // The sweep

  /** A file the sweep deletes when it reaches it: a candidate whose
      `File.delete` succeeds. */
  predicate Removable(e: Entry)
  {
    IsCandidate(e) && e.deletable
  }

  /** The deletes of the sweep loop over `entries` in order, starting from
      `bytes` available: an entry that is not `removable` (a non-candidate, or
      a failed delete) adds nothing, and the loop stops right after the delete
      that brings the running total to the threshold. The sweep is stated for
      any test `removable`; `Warden` uses `Removable`. */
  function Sweep(entries: seq<Entry>, removable: Entry -> bool, bytes: int, threshold: int): seq<Entry>
    decreases |entries|
  {
    if entries == [] then []
    else if !removable(entries[0]) then Sweep(entries[1..], removable, bytes, threshold)
    else if bytes + entries[0].length >= threshold then [entries[0]]
    else [entries[0]] + Sweep(entries[1..], removable, bytes + entries[0].length, threshold)
  }

  /** The `removable` entries, in listing order. */
  function Deletable(entries: seq<Entry>, removable: Entry -> bool): seq<Entry>
  {
    if entries == [] then []
    else (if removable(entries[0]) then [entries[0]] else []) + Deletable(entries[1..], removable)
  }

  /** Every deletable entry is a `removable` entry of the listing. */
  lemma {:induction false} DeletableAreCandidates(entries: seq<Entry>, removable: Entry -> bool)
    ensures forall x :: x in Deletable(entries, removable) ==> x in entries && removable(x)
  {
    if entries != [] {
      DeletableAreCandidates(entries[1..], removable);
    }
  }

  /** Bytes reclaimed by deleting `d`. */
  function Reclaimed(d: seq<Entry>): nat
  {
    if d == [] then 0 else d[0].length + Reclaimed(d[1..])
  }

  /** What `checkDiskSize` does, as a function of what the platform reports. */
  function Warden(volume: Volume, listing: Option<seq<Entry>>): WardenOutcome
  {
    var threshold := Threshold(volume.totalBytes, volume.mediaDirCount);
    if !volume.writable then NotWritable
    else if volume.availableBytes >= threshold then SpaceSufficient
    else if listing.None? then ListingFailed
    else Swept(Sweep(SortByName(listing.value), Removable, volume.availableBytes, threshold))
  }

  /** One step of the sweep, on a listing split into its head and the rest. */
  lemma SweepStep(e: Entry, rest: seq<Entry>, removable: Entry -> bool, bytes: int, threshold: int)
    ensures Sweep([e] + rest, removable, bytes, threshold) ==
      if !removable(e) then Sweep(rest, removable, bytes, threshold)
      else if bytes + e.length >= threshold then [e]
      else [e] + Sweep(rest, removable, bytes + e.length, threshold)
  {
    assert ([e] + rest)[0] == e;
    assert ([e] + rest)[1..] == rest;
  }

  lemma AppendAssociative(a: seq<Entry>, b: seq<Entry>, c: seq<Entry>)
    ensures a + (b + c) == (a + b) + c
  {
  }

  /** `checkDiskSize`, with its loop over the sorted listing and the running
      `bytes` counter. */
  method CheckDiskSize(volume: Volume, listing: Option<seq<Entry>>) returns (outcome: WardenOutcome)
    ensures outcome == Warden(volume, listing)
  {
    if !volume.writable {
      return NotWritable;
    }
    var minSize := ReserveFloor;
    if volume.mediaDirCount <= 1 {
      minSize := minSize + volume.totalBytes / 10;
    }
    if volume.availableBytes >= minSize {
      return SpaceSufficient;
    }
    if listing.None? {
      return ListingFailed;
    }
    var fileList := SortByName(listing.value);
    var deleted := DeleteUntilReserve(fileList, volume.availableBytes, minSize);
    return Swept(deleted);
  }

  /** The loop of `checkDiskSize` over the sorted listing: delete candidates
      in order, adding each deleted file's length to the running `bytes`, and
      stop once `bytes` reaches `minSize`. */
  method DeleteUntilReserve(fileList: seq<Entry>, availableBytes: nat, minSize: nat) returns (deleted: seq<Entry>)
    requires availableBytes < minSize
    ensures deleted == Sweep(fileList, Removable, availableBytes, minSize)
  {
    var bytes := availableBytes;
    deleted := [];
    var i := 0;
    while i < |fileList|
      invariant 0 <= i <= |fileList|
      invariant bytes < minSize
      invariant deleted + Sweep(fileList[i..], Removable, bytes, minSize) == Sweep(fileList, Removable, availableBytes, minSize)
    {
      var file := fileList[i];
      ghost var tail := fileList[i + 1..];
      assert fileList[i..] == [file] + tail;
      SweepStep(file, tail, Removable, bytes, minSize);
      if IsCandidate(file) && file.deletable {
        if bytes + file.length >= minSize {
          deleted := deleted + [file];
          return;
        }
        AppendAssociative(deleted, [file], Sweep(tail, Removable, bytes + file.length, minSize));
        deleted := deleted + [file];
        bytes := bytes + file.length;
      }
      i := i + 1;
    }
    assert fileList[i..] == [];
  }

  // ---------------------------------------------------------------------------
  // Properties of the sweep

  /** The sweep deletes a prefix of the removable entries. */
  lemma {:induction false} SweepIsPrefix(entries: seq<Entry>, removable: Entry -> bool, bytes: int, threshold: int)
    ensures var d := Sweep(entries, removable, bytes, threshold);
            var c := Deletable(entries, removable);
            |d| <= |c| && d == c[..|d|]
  {
    if entries != [] {
      var e := entries[0];
      var rest := entries[1..];
      if !removable(e) {
        SweepIsPrefix(rest, removable, bytes, threshold);
        assert Sweep(entries, removable, bytes, threshold) == Sweep(rest, removable, bytes, threshold);
        assert Deletable(entries, removable) == Deletable(rest, removable);
      } else if bytes + e.length < threshold {
        SweepIsPrefix(rest, removable, bytes + e.length, threshold);
        var d' := Sweep(rest, removable, bytes + e.length, threshold);
        var c' := Deletable(rest, removable);
        assert Deletable(entries, removable) == [e] + c';
        assert Deletable(entries, removable)[..|d'| + 1] == [e] + c'[..|d'|];
      } else {
        assert Deletable(entries, removable)[..1] == [e];
      }
    }
  }

  /** A sweep that stops before the last deletable candidate has restored the reserve. */
  lemma {:induction false} SweepStopsAtThreshold(entries: seq<Entry>, removable: Entry -> bool, bytes: int, threshold: int)
    requires bytes < threshold
    ensures var d := Sweep(entries, removable, bytes, threshold);
            |d| < |Deletable(entries, removable)| ==> bytes + Reclaimed(d) >= threshold
  {
    if entries != [] {
      var e := entries[0];
      var rest := entries[1..];
      if !removable(e) {
        SweepStopsAtThreshold(rest, removable, bytes, threshold);
        assert Sweep(entries, removable, bytes, threshold) == Sweep(rest, removable, bytes, threshold);
        assert Deletable(entries, removable) == Deletable(rest, removable);
      } else if bytes + e.length < threshold {
        SweepStopsAtThreshold(rest, removable, bytes + e.length, threshold);
        var d' := Sweep(rest, removable, bytes + e.length, threshold);
        assert Deletable(entries, removable) == [e] + Deletable(rest, removable);
        assert Reclaimed([e] + d') == e.length + Reclaimed(d');
      } else {
        assert Reclaimed([e]) == e.length;
      }
    }
  }

  /** No shorter prefix of the removable entries would have restored the reserve. */
  lemma {:induction false} SweepIsShortest(entries: seq<Entry>, removable: Entry -> bool, bytes: int, threshold: int)
    requires bytes < threshold
    ensures var d := Sweep(entries, removable, bytes, threshold);
            var c := Deletable(entries, removable);
            forall j :: 0 <= j < |d| && j <= |c| ==> bytes + Reclaimed(c[..j]) < threshold
  {
    if entries != [] {
      var e := entries[0];
      var rest := entries[1..];
      var d := Sweep(entries, removable, bytes, threshold);
      var c := Deletable(entries, removable);
      if !removable(e) {
        SweepIsShortest(rest, removable, bytes, threshold);
        assert d == Sweep(rest, removable, bytes, threshold);
        assert c == Deletable(rest, removable);
      } else {
        var c' := Deletable(rest, removable);
        assert c == [e] + c';
        assert c[..0] == [];
        if bytes + e.length < threshold {
          SweepIsShortest(rest, removable, bytes + e.length, threshold);
          var d' := Sweep(rest, removable, bytes + e.length, threshold);
          assert d == [e] + d';
          forall j | 1 <= j < |d| && j <= |c| ensures bytes + Reclaimed(c[..j]) < threshold {
            assert c[..j] == [e] + c'[..j - 1];
            assert Reclaimed(c[..j]) == e.length + Reclaimed(c'[..j - 1]);
          }
        }
      }
    }
  }

  /** The sweep deletes the shortest prefix of the removable entries whose
      reclaimed bytes restore the reserve, or all of them when none does. */
  lemma {:induction false} SweepIsShortestPrefix(entries: seq<Entry>, removable: Entry -> bool, bytes: int, threshold: int)
    requires bytes < threshold
    ensures var d := Sweep(entries, removable, bytes, threshold);
            var c := Deletable(entries, removable);
            && |d| <= |c| && d == c[..|d|]
            && (|d| < |c| ==> bytes + Reclaimed(d) >= threshold)
            && (forall j :: 0 <= j < |d| ==> bytes + Reclaimed(c[..j]) < threshold)
  {
    SweepIsPrefix(entries, removable, bytes, threshold);
    SweepStopsAtThreshold(entries, removable, bytes, threshold);
    SweepIsShortest(entries, removable, bytes, threshold);
  }

  /** The sweep deletes only candidates whose delete succeeded, each one an entry of the listing. */
  lemma {:induction false} SweepDeletesOnlyCandidates(entries: seq<Entry>, removable: Entry -> bool, bytes: int, threshold: int)
    requires bytes < threshold
    ensures forall x :: x in Sweep(entries, removable, bytes, threshold) ==> x in entries && removable(x)
  {
    SweepIsShortestPrefix(entries, removable, bytes, threshold);
    DeletableAreCandidates(entries, removable);
    var d := Sweep(entries, removable, bytes, threshold);
    var c := Deletable(entries, removable);
    forall x | x in d ensures x in entries && removable(x) {
      var k :| 0 <= k < |d| && d[k] == x;
      assert c[k] == x;
    }
  }

  /** Keeping only some entries of a name-sorted listing leaves them sorted. */
  lemma {:induction false} DeletableSorted(entries: seq<Entry>, removable: Entry -> bool)
    requires SortedByName(entries)
    ensures SortedByName(Deletable(entries, removable))
  {
    if entries != [] {
      var rest := entries[1..];
      assert SortedByName(rest) by {
        forall i, j | 0 <= i < j < |rest| ensures NameLe(rest[i].name, rest[j].name) {
          assert rest[i] == entries[i + 1] && rest[j] == entries[j + 1];
        }
      }
      DeletableSorted(rest, removable);
      DeletableAreCandidates(rest, removable);
      var d' := Deletable(rest, removable);
      forall k | 0 <= k < |d'| ensures NameLe(entries[0].name, d'[k].name) {
        assert d'[k] in d';
        var m :| 0 <= m < |rest| && rest[m] == d'[k];
        assert entries[m + 1] == d'[k];
      }
    }
  }

  /** The warden never deletes anything when the directory is not writable or the
      volume already has the reserve; otherwise it deletes exactly the shortest
      prefix (in ascending name order) of the removable entries that restores
      the reserve, or all of them, and only candidates of the listing. */
  lemma WardenPolicy(volume: Volume, listing: Option<seq<Entry>>)
    ensures var threshold := Threshold(volume.totalBytes, volume.mediaDirCount);
            var outcome := Warden(volume, listing);
            && (outcome.Swept? <==> volume.writable && volume.availableBytes < threshold && listing.Some?)
            && (outcome.Swept? ==>
                  var c := Deletable(SortByName(listing.value), Removable);
                  var d := outcome.deleted;
                  && |d| <= |c| && d == c[..|d|]
                  && (|d| < |c| ==> volume.availableBytes + Reclaimed(d) >= threshold)
                  && (forall j :: 0 <= j < |d| ==> volume.availableBytes + Reclaimed(c[..j]) < threshold)
                  && (forall x :: x in d ==> x in listing.value && IsCandidate(x) && x.deletable)
                  && (forall i, j :: 0 <= i < j < |d| ==> NameLe(d[i].name, d[j].name)))
  {
    var threshold := Threshold(volume.totalBytes, volume.mediaDirCount);
    if volume.writable && volume.availableBytes < threshold && listing.Some? {
      var sorted := SortByName(listing.value);
      SortByNameSortedPermutation(listing.value);
      SweepIsShortestPrefix(sorted, Removable, volume.availableBytes, threshold);
      SweepDeletesOnlyCandidates(sorted, Removable, volume.availableBytes, threshold);
      DeletableSorted(sorted, Removable);
      var d := Sweep(sorted, Removable, volume.availableBytes, threshold);
      var c := Deletable(sorted, Removable);
      forall x | x in d ensures x in listing.value {
        assert x in multiset(sorted);
      }
      forall i, j | 0 <= i < j < |d| ensures NameLe(d[i].name, d[j].name) {
        assert d[i] == c[i] && d[j] == c[j];
      }
    }
  }
}
