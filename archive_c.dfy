/** The archive extractor of source/main.c: the skip list, `make_file_path`,
    which creates the directories on the way to a file, and `extract_package`,
    which writes every entry that is not skipped.

    The archive library is not modelled: an archive is whether it opens and
    the names of its entries in index order. The outcome of writing an entry
    is ignored by the source, so an entry that is written is only recorded. */
module ArchiveC {
  import opened FileSystem

  /** `skip_file_list`: the entry names that are never written. */
  const SkipFileList: seq<string> :=
    ["manifest.install", "info.json", "versions.json", "screen1.png", "screen2.png"]

  /** An entry is skipped when its whole name equals one of the skip list's names. */
  predicate IsSkipped(name: string)
    ensures IsSkipped(name) ==> 9 <= |name| <= 16 && '/' !in name
  {
    name in SkipFileList
  }

  /** No name on the skip list contains a '/', so the test matches top-level names only. */
  lemma NestedNamesNotSkipped(name: string)
    requires '/' in name
    ensures !IsSkipped(name)
  {
    forall k | 0 <= k < |SkipFileList|
      ensures '/' !in SkipFileList[k]
    {
      assert SkipFileList[k] in SkipFileList;
    }
  }

  /** The outcome of a run of `mkdir` calls: whether it got through, the file
      system after it, and the number of calls made. */
  datatype PathOutcome = PathOutcome(ok: bool, fs: FileMap, calls: nat)

  /** The `mkdir` calls of `make_file_path` on `ps` in order: a call that fails
      with EEXIST is passed over, any other failure ends the run unsuccessfully. */
  function MkdirAll(fs: FileMap, denied: set<string>, ps: seq<string>): (r: PathOutcome)
    ensures r.calls <= |ps|
    ensures r.ok ==> r.calls == |ps|
    ensures !r.ok ==> 1 <= r.calls
    decreases ps
  {
    if ps == [] then PathOutcome(true, fs, 0)
    else
      match Mkdir(fs, denied, ps[0])
      case Made(fs1) =>
        var rest := MkdirAll(fs1, denied, ps[1..]);
        PathOutcome(rest.ok, rest.fs, 1 + rest.calls)
      case Failed(e) =>
        if e == EExist then
          var rest := MkdirAll(fs, denied, ps[1..]);
          PathOutcome(rest.ok, rest.fs, 1 + rest.calls)
        else PathOutcome(false, fs, 1)
  }

  /** A run of `mkdir` calls keeps every existing object, adds only directories
      at the paths it was given, and keeps the file system a tree. */
  lemma {:induction false} MkdirAllGrows(fs: FileMap, denied: set<string>, ps: seq<string>)
    ensures var r := MkdirAll(fs, denied, ps);
      && (forall p :: p in fs ==> p in r.fs && r.fs[p] == fs[p])
      && (forall p :: p in r.fs && p !in fs ==> r.fs[p] == Dir && p in ps[..r.calls])
      && (Tree(fs) ==> Tree(r.fs))
    decreases ps
  {
    if ps != [] {
      var made := Mkdir(fs, denied, ps[0]);
      if made.Made? || made.errno == EExist {
        var fs1 := if made.Made? then made.fs else fs;
        if made.Made? {
          MkdirKeepsTree(fs, denied, ps[0]);
        }
        MkdirAllGrows(fs1, denied, ps[1..]);
        var rest := MkdirAll(fs1, denied, ps[1..]);
        assert forall p :: p in ps[1..][..rest.calls] ==> p in ps[..rest.calls + 1];
      }
    }
  }

  /** One `mkdir` call followed by the rest of the run. */
  lemma MkdirAllCons(fs: FileMap, denied: set<string>, p: string, rest: seq<string>)
    ensures var made := Mkdir(fs, denied, p);
      var after := if made.Made? then made.fs else fs;
      var r := MkdirAll(after, denied, rest);
      MkdirAll(fs, denied, [p] + rest) ==
        if made.Failed? && made.errno != EExist then PathOutcome(false, fs, 1)
        else PathOutcome(r.ok, r.fs, 1 + r.calls)
  {
    assert ([p] + rest)[1..] == rest;
  }

  /** The scan for separators moves on by one character. */
  lemma SlashPrefixesStep(s: string, from: nat)
    requires from < |s|
    ensures SlashPrefixes(s, from) == (if s[from] == '/' then [s[..from]] else []) + SlashPrefixes(s, from + 1)
  {
  }

  /** A run that got through, followed by one more call. */
  lemma {:induction false} MkdirAllSnoc(fs: FileMap, denied: set<string>, ps: seq<string>, p: string)
    requires MkdirAll(fs, denied, ps).ok
    ensures var m := MkdirAll(fs, denied, ps);
      var made := Mkdir(m.fs, denied, p);
      MkdirAll(fs, denied, ps + [p]) ==
        if made.Failed? && made.errno != EExist then PathOutcome(false, m.fs, |ps| + 1)
        else PathOutcome(true, if made.Made? then made.fs else m.fs, |ps| + 1)
    decreases ps
  {
    if ps == [] {
      assert ps + [p] == [p] + [];
      MkdirAllCons(fs, denied, p, []);
    } else {
      assert ps == [ps[0]] + ps[1..];
      assert ps + [p] == [ps[0]] + (ps[1..] + [p]);
      MkdirAllCons(fs, denied, ps[0], ps[1..]);
      MkdirAllCons(fs, denied, ps[0], ps[1..] + [p]);
      var made := Mkdir(fs, denied, ps[0]);
      MkdirAllSnoc(if made.Made? then made.fs else fs, denied, ps[1..], p);
    }
  }

  /** A run that failed makes no further call. */
  lemma {:induction false} MkdirAllStops(fs: FileMap, denied: set<string>, ps: seq<string>, rest: seq<string>)
    requires !MkdirAll(fs, denied, ps).ok
    ensures MkdirAll(fs, denied, ps + rest) == MkdirAll(fs, denied, ps)
    decreases ps
  {
    assert ps == [ps[0]] + ps[1..];
    assert ps + rest == [ps[0]] + (ps[1..] + rest);
    MkdirAllCons(fs, denied, ps[0], ps[1..]);
    MkdirAllCons(fs, denied, ps[0], ps[1..] + rest);
    var made := Mkdir(fs, denied, ps[0]);
    if made.Made? || made.errno == EExist {
      MkdirAllStops(if made.Made? then made.fs else fs, denied, ps[1..], rest);
    }
  }

  /** One `mkdir` call of `make_file_path` after a run that got through; an
      EEXIST failure counts as success. */
  method MkdirNext(fs: FileMap, denied: set<string>, calls: seq<string>, fs1: FileMap, prefix: string)
    returns (fs2: FileMap, err: bool)
    requires MkdirAll(fs, denied, calls) == PathOutcome(true, fs1, |calls|)
    ensures MkdirAll(fs, denied, calls + [prefix]) == PathOutcome(!err, fs2, |calls| + 1)
  {
    MkdirAllSnoc(fs, denied, calls, prefix);
    var made := Mkdir(fs1, denied, prefix);
    err := made.Failed? && made.errno != EExist;
    fs2 := if made.Made? then made.fs else fs1;
  }

  /** Where the scan of `make_file_path` stops, at the end of the name or at a
      failed call, the calls made are the whole run of the reference. */
  lemma ScanEnds(fs: FileMap, denied: set<string>, name: string, calls: seq<string>, i: nat,
                 err: bool, fs': FileMap)
    requires calls + SlashPrefixes(name, i) == SlashPrefixes(name, 1)
    requires MkdirAll(fs, denied, calls) == PathOutcome(!err, fs', |calls|)
    requires err || i >= |name|
    ensures !err <==> MkdirAll(fs, denied, SlashPrefixes(name, 1)).ok
    ensures fs' == MkdirAll(fs, denied, SlashPrefixes(name, 1)).fs
    ensures calls == SlashPrefixes(name, 1)[..MkdirAll(fs, denied, SlashPrefixes(name, 1)).calls]
  {
    var all := SlashPrefixes(name, 1);
    if err {
      MkdirAllStops(fs, denied, calls, SlashPrefixes(name, i));
      assert all[..|calls|] == calls;
    } else {
      assert SlashPrefixes(name, i) == [];
      assert all == calls;
    }
  }

  /** `make_file_path(name)`: `mkdir` on every prefix of `name` that ends just
      before a '/' after index 0, shortest first, until one fails with an error
      other than EEXIST. Returns 1 when none did and 0 otherwise; `calls` lists
      the paths given to `mkdir`. */
  method MakeFilePath(fs: FileMap, denied: set<string>, name: CString)
    returns (ok: int, fs': FileMap, calls: seq<string>)
    ensures ok == 0 || ok == 1
    ensures ok == 1 <==> MkdirAll(fs, denied, SlashPrefixes(name, 1)).ok
    ensures fs' == MkdirAll(fs, denied, SlashPrefixes(name, 1)).fs
    ensures calls == SlashPrefixes(name, 1)[..MkdirAll(fs, denied, SlashPrefixes(name, 1)).calls]
  {
    ghost var all := SlashPrefixes(name, 1);
    fs' := fs;
    calls := [];
    var err := false;
    var i := 1;
    while i < |name| && !err
      invariant 1 <= i && (i <= |name| || i == 1)
      invariant calls + SlashPrefixes(name, i) == all
      invariant MkdirAll(fs, denied, calls) == PathOutcome(!err, fs', |calls|)
    {
      SlashPrefixesStep(name, i);
      if name[i] == '/' {
        var prefix := name[..i];
        assert calls + [prefix] + SlashPrefixes(name, i + 1) == all;
        fs', err := MkdirNext(fs, denied, calls, fs', prefix);
        calls := calls + [prefix];
      } else {
        assert SlashPrefixes(name, i) == SlashPrefixes(name, i + 1);
      }
      i := i + 1;
    }
    ScanEnds(fs, denied, name, calls, i, err, fs');
    ok := if err then 0 else 1;
  }

  /** The `mkdir` calls of `make_file_path` are on proper prefixes of the name
      that end at a '/', shortest first; the last component is never created. */
  lemma CallsAreParents(fs: FileMap, denied: set<string>, name: string)
    ensures var calls := SlashPrefixes(name, 1)[..MkdirAll(fs, denied, SlashPrefixes(name, 1)).calls];
      && (forall k :: 0 <= k < |calls| ==>
            1 <= |calls[k]| < |name| && name[|calls[k]|] == '/' && calls[k] == name[..|calls[k]|])
      && (forall k, l :: 0 <= k < l < |calls| ==> |calls[k]| < |calls[l]|)
      && name !in calls
  {
    SlashPrefixesShape(name, 1);
  }

  /** `make_file_path` gets through when none of the prefixes it visits is
      denied or is a file: the directories already made are parents of the next. */
  lemma {:induction false} PrefixesSucceed(fs: FileMap, denied: set<string>, s: string, from: nat)
    requires 1 <= from
    requires forall k :: 1 <= k < from && k < |s| && s[k] == '/' ==> Stat(fs, s[..k]) == Some(Dir)
    requires forall k :: from <= k < |s| && s[k] == '/' ==>
      s[..k] !in denied && Stat(fs, s[..k]) != Some(File)
    ensures MkdirAll(fs, denied, SlashPrefixes(s, from)).ok
    decreases |s| - from
  {
    if from < |s| {
      if s[from] != '/' {
        PrefixesSucceed(fs, denied, s, from + 1);
      } else {
        var prefix := s[..from];
        var ps := SlashPrefixes(s, from);
        assert ps == [prefix] + SlashPrefixes(s, from + 1);
        assert ps[1..] == SlashPrefixes(s, from + 1);
        assert ParentsAreDirs(fs, prefix) by {
          forall j | 1 <= j < |prefix| && prefix[j] == '/'
            ensures Stat(fs, prefix[..j]) == Some(Dir)
          {
            assert prefix[..j] == s[..j];
          }
        }
        var made := Mkdir(fs, denied, prefix);
        var fs1 := if made.Made? then made.fs else fs;
        assert Stat(fs1, prefix) == Some(Dir);
        forall k | from < k < |s| && s[k] == '/'
          ensures Stat(fs1, s[..k]) == Stat(fs, s[..k])
        {
          assert |s[..k]| != |prefix|;
        }
        forall k | 1 <= k < from && s[k] == '/'
          ensures Stat(fs1, s[..k]) == Some(Dir)
        {
          assert |s[..k]| != |prefix|;
        }
        PrefixesSucceed(fs1, denied, s, from + 1);
      }
    }
  }

  /** A name with no '/' after index 0 makes no `mkdir` call and succeeds. */
  lemma NoSlashNoCalls(fs: FileMap, denied: set<string>, name: string)
    requires forall j :: 1 <= j < |name| ==> name[j] != '/'
    ensures MkdirAll(fs, denied, SlashPrefixes(name, 1)) == PathOutcome(true, fs, 0)
  {
    NoSlashNoPrefixes(name, 1);
  }

  /** The archive as `extract_package` sees it. */
  datatype Archive = Archive(opens: bool, names: seq<CString>)

  /** The outcome of extracting entries: the file system and the names written, in order. */
  datatype Extraction = Extraction(fs: FileMap, written: seq<string>)

  /** The names that are not on the skip list, in order. */
  function Unskipped(names: seq<string>): (r: seq<string>)
    ensures forall n :: n in r <==> n in names && !IsSkipped(n)
  {
    if names == [] then []
    else (if IsSkipped(names[0]) then [] else [names[0]]) + Unskipped(names[1..])
  }

  /** `a` is `b` with some elements left out. */
  predicate Subsequence(a: seq<string>, b: seq<string>)
  {
    a == [] || (b != [] && ((a[0] == b[0] && Subsequence(a[1..], b[1..])) || Subsequence(a, b[1..])))
  }

  /** The entries from the first on: a skipped entry is passed over; any other
      is written when `make_file_path` returns 1 for it. */
  function ExtractAll(fs: FileMap, denied: set<string>, names: seq<CString>): (r: Extraction)
    ensures |r.written| <= |names|
    // an archive of skipped entries writes nothing and creates no directory
    ensures (forall k :: 0 <= k < |names| ==> IsSkipped(names[k])) ==> r == Extraction(fs, [])
    decreases names
  {
    if names == [] then Extraction(fs, [])
    else if IsSkipped(names[0]) then
      ExtractAll(fs, denied, names[1..])
    else
      var m := MkdirAll(fs, denied, SlashPrefixes(names[0], 1));
      var rest := ExtractAll(m.fs, denied, names[1..]);
      var written := (if m.ok then [names[0]] else []) + rest.written;
      Extraction(rest.fs, written)
  }

  /** Extraction keeps every existing object, adds only directories, and keeps
      the file system a tree. */
  lemma {:induction false} ExtractAllGrows(fs: FileMap, denied: set<string>, names: seq<CString>)
    ensures var r := ExtractAll(fs, denied, names);
      && (forall p :: p in fs ==> p in r.fs && r.fs[p] == fs[p])
      && (forall p :: p in r.fs && p !in fs ==> r.fs[p] == Dir)
      && (Tree(fs) ==> Tree(r.fs))
    decreases names
  {
    if names != [] {
      if IsSkipped(names[0]) {
        ExtractAllGrows(fs, denied, names[1..]);
      } else {
        var m := MkdirAll(fs, denied, SlashPrefixes(names[0], 1));
        MkdirAllGrows(fs, denied, SlashPrefixes(names[0], 1));
        ExtractAllGrows(m.fs, denied, names[1..]);
      }
    }
  }

  /** The names written are among the entries that are not skipped, in archive order. */
  lemma {:induction false} WrittenInOrder(fs: FileMap, denied: set<string>, names: seq<CString>)
    ensures Subsequence(ExtractAll(fs, denied, names).written, Unskipped(names))
    decreases names
  {
    if names != [] {
      var u := Unskipped(names);
      var w := ExtractAll(fs, denied, names).written;
      if IsSkipped(names[0]) {
        assert u == Unskipped(names[1..]);
        WrittenInOrder(fs, denied, names[1..]);
      } else {
        var m := MkdirAll(fs, denied, SlashPrefixes(names[0], 1));
        var rest := ExtractAll(m.fs, denied, names[1..]).written;
        WrittenInOrder(m.fs, denied, names[1..]);
        assert u == [names[0]] + Unskipped(names[1..]);
        assert u[1..] == Unskipped(names[1..]);
        if m.ok {
          assert w == [names[0]] + rest;
          assert w[1..] == rest;
        } else {
          assert w == rest;
        }
      }
    }
  }

  /** The skip test of `extract_package`: `skip |=` over the whole list. */
  method SkipTest(name: string) returns (skip: bool)
    ensures skip <==> IsSkipped(name)
  {
    skip := false;
    var j := 0;
    while j < |SkipFileList|
      invariant j <= |SkipFileList|
      invariant skip <==> name in SkipFileList[..j]
    {
      assert SkipFileList[..j + 1] == SkipFileList[..j] + [SkipFileList[j]];
      skip := skip || name == SkipFileList[j];
      j := j + 1;
    }
    assert SkipFileList[..j] == SkipFileList;
  }

  /** One more entry after an extraction: a skipped entry changes nothing,
      any other makes its parent directories and is written when they are made. */
  function ExtractOne(e: Extraction, denied: set<string>, name: CString): (r: Extraction)
    ensures e.written <= r.written && |r.written| <= |e.written| + 1
    ensures |r.written| == |e.written| + 1 ==> !IsSkipped(name) && r.written[|e.written|] == name
    ensures IsSkipped(name) ==> r == e
  {
    if IsSkipped(name) then e
    else
      var m := MkdirAll(e.fs, denied, SlashPrefixes(name, 1));
      Extraction(m.fs, e.written + (if m.ok then [name] else []))
  }

  /** The body of the entry loop of `extract_package`: skips a listed name,
      otherwise makes the parent directories and writes the entry when
      `make_file_path` returns 1. */
  method ExtractEntry(fs: FileMap, written: seq<string>, denied: set<string>, name: CString)
    returns (fs': FileMap, written': seq<string>)
    ensures Extraction(fs', written') == ExtractOne(Extraction(fs, written), denied, name)
  {
    fs', written' := fs, written;
    var skip := SkipTest(name);
    if !skip {
      var made, fs2, _ := MakeFilePath(fs, denied, name);
      fs' := fs2;
      if made == 1 {
        written' := written + [name];
      } else {
        assert written + [] == written;
      }
    }
  }

  /** Extracting one more entry continues the extraction of the earlier ones. */
  lemma {:induction false} ExtractAllSnoc(fs: FileMap, denied: set<string>, names: seq<CString>, name: CString)
    ensures ExtractAll(fs, denied, names + [name]) == ExtractOne(ExtractAll(fs, denied, names), denied, name)
    decreases names
  {
    if names == [] {
      assert names + [name] == [name];
      assert [name][1..] == [];
    } else {
      var all := names + [name];
      assert all[0] == names[0] && all[1..] == names[1..] + [name];
      if IsSkipped(names[0]) {
        ExtractAllSnoc(fs, denied, names[1..], name);
      } else {
        var m := MkdirAll(fs, denied, SlashPrefixes(names[0], 1));
        ExtractAllSnoc(m.fs, denied, names[1..], name);
        var head: seq<CString> := if m.ok then [names[0]] else [];
        var r := ExtractAll(m.fs, denied, names[1..]);
        var w2: seq<CString> := if IsSkipped(name) then [] else
          (if MkdirAll(r.fs, denied, SlashPrefixes(name, 1)).ok then [name] else []);
        assert ExtractOne(r, denied, name).written == r.written + w2;
        assert head + (r.written + w2) == (head + r.written) + w2;
      }
    }
  }

  /** `extract_package(path)`: visits every entry in index order and writes
      it when it is not skipped and `make_file_path` returned 1 for it. An
      archive that does not open has no entries to visit. */
  method ExtractPackage(fs: FileMap, denied: set<string>, zip: Archive)
    returns (fs': FileMap, written: seq<string>)
    ensures Extraction(fs', written) ==
      if zip.opens then ExtractAll(fs, denied, zip.names) else Extraction(fs, [])
  {
    fs' := fs;
    written := [];
    if !zip.opens {
      return;
    }
    var names := zip.names;
    var i := 0;
    while i < |names|
      invariant i <= |names|
      invariant Extraction(fs', written) == ExtractAll(fs, denied, names[..i])
    {
      assert names[..i + 1] == names[..i] + [names[i]];
      ExtractAllSnoc(fs, denied, names[..i], names[i]);
      fs', written := ExtractEntry(fs', written, denied, names[i]);
      i := i + 1;
    }
    assert names[..i] == names;
  }

  /** When no directory on the way to any entry is denied or is a file, every
      entry that is not skipped is written, in order. */
  lemma {:induction false} AllWritten(fs: FileMap, denied: set<string>, names: seq<CString>)
    requires forall i, k :: 0 <= i < |names| && 1 <= k < |names[i]| && names[i][k] == '/' ==>
      names[i][..k] !in denied && Stat(fs, names[i][..k]) != Some(File)
    ensures ExtractAll(fs, denied, names).written == Unskipped(names)
    decreases names
  {
    if names != [] {
      var tail := names[1..];
      if IsSkipped(names[0]) {
        AllWritten(fs, denied, tail);
      } else {
        PrefixesSucceed(fs, denied, names[0], 1);
        var m := MkdirAll(fs, denied, SlashPrefixes(names[0], 1));
        MkdirAllGrows(fs, denied, SlashPrefixes(names[0], 1));
        forall i, k | 0 <= i < |tail| && 1 <= k < |tail[i]| && tail[i][k] == '/'
          ensures tail[i][..k] !in denied && Stat(m.fs, tail[i][..k]) != Some(File)
        {
          assert tail[i] == names[i + 1];
        }
        AllWritten(m.fs, denied, tail);
      }
    }
  }

  /** The separators of `a/b/c.txt` after its first character end `a` and `a/b`. */
  lemma NestedPrefixes()
    ensures SlashPrefixes("a/b/c.txt", 1) == ["a", "a/b"]
  {
    var s := "a/b/c.txt";
    assert s[..1] == "a" && s[..3] == "a/b";
    NoSlashNoPrefixes(s, 4);
  }

  /** On an empty card, `mkdir("a")` then `mkdir("a/b")` both succeed. */
  lemma NestedMkdirs()
    ensures MkdirAll(map[], {}, ["a", "a/b"]) == PathOutcome(true, map["a" := Dir, "a/b" := Dir], 2)
  {
    var ps := ["a", "a/b"];
    assert ps[1..] == ["a/b"] && ps[1..][1..] == [];
    var fs1 := map["a" := Dir];
    assert Mkdir(map[], {}, "a") == Made(fs1) by {
      assert ParentsAreDirs(map[], "a");
    }
    assert Mkdir(fs1, {}, "a/b") == Made(fs1["a/b" := Dir]) by {
      assert "a/b"[..1] == "a";
      assert ParentsAreDirs(fs1, "a/b");
    }
    assert MkdirAll(fs1, {}, ps[1..]) == PathOutcome(true, fs1["a/b" := Dir], 1);
  }

  /** A nested name makes its two parent directories, outermost first. */
  lemma NestedEntry()
    ensures MkdirAll(map[], {}, SlashPrefixes("a/b/c.txt", 1))
      == PathOutcome(true, map["a" := Dir, "a/b" := Dir], 2)
  {
    NestedPrefixes();
    NestedMkdirs();
  }
}
