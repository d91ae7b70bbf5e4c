/** The archive extractor of source/main.cpp: `mkdir_p`, which creates a
    directory and every directory on the way to it, and `extract_package`,
    which walks the entries of a ZIP archive and writes its files.

    The archive library is not modelled: an archive is the outcome of
    opening it and, per entry, its name, whether it is a directory, and the
    outcomes of reading its header and of extracting it. */
module ArchiveCpp {
  import opened FileSystem

  /** MAX_FILENAME: the size of the buffer `mkdir_p` copies its argument into. */
  const MaxFilename := 256

  /** The path `mkdir_p` works on: its argument without one trailing '/'. */
  function Trimmed(dir: string): (t: string)
    requires dir != ""
    ensures t == dir || (dir[|dir| - 1] == '/' && dir == t + "/")
    ensures |t| >= |dir| - 1
  {
    if dir[|dir| - 1] == '/' then dir[..|dir| - 1] else dir
  }

  /** `mkdir_p` gives up on `t`: it is a file, or it is missing and cannot be made. */
  predicate Blocked(fs: FileMap, denied: set<string>, t: string)
  {
    Stat(fs, t) == Some(File) || (Stat(fs, t).None? && (t == "" || t in denied))
  }

  /** No directory on the way to `t`, and not `t` itself, blocks `mkdir_p`. */
  predicate Clear(fs: FileMap, denied: set<string>, t: string)
  {
    && (forall j :: 1 <= j < |t| && t[j] == '/' ==> !Blocked(fs, denied, t[..j]))
    && !Blocked(fs, denied, t)
  }

  /** `fs'` is `fs` plus directories at prefixes `t[..k]` of `t` with `1 <= k <= bound`
      that end at a '/' or at the end of `t`, and nothing else changed. */
  predicate GrowsAlong(fs: FileMap, fs': FileMap, t: string, bound: nat)
  {
    && (forall p :: p in fs ==> p in fs' && fs'[p] == fs[p])
    && (forall p :: p in fs' && p !in fs ==>
          fs'[p] == Dir && 1 <= |p| <= bound && p <= t && (|p| == |t| || t[|p|] == '/'))
  }

  /** `fs'` is `fs` plus directories, and nothing else changed. */
  predicate AddsDirs(fs: FileMap, fs': FileMap)
  {
    && (forall p :: p in fs ==> p in fs' && fs'[p] == fs[p])
    && (forall p :: p in fs' && p !in fs ==> fs'[p] == Dir)
  }

  lemma AddsDirsTrans(fs: FileMap, fs1: FileMap, fs2: FileMap)
    requires AddsDirs(fs, fs1) && AddsDirs(fs1, fs2)
    ensures AddsDirs(fs, fs2)
  {
  }

  /** `fs'` keeps every directory of `fs`. */
  lemma DirsKept(fs: FileMap, fs': FileMap, t: string)
    requires AddsDirs(fs, fs') && Stat(fs, t) == Some(Dir)
    ensures Stat(fs', t) == Some(Dir)
  {
  }

  /** Adding directories unblocks nothing that was blocked and blocks nothing
      that was clear. */
  lemma ClearKept(fs: FileMap, fs': FileMap, denied: set<string>, t: string)
    requires AddsDirs(fs, fs') && Clear(fs, denied, t)
    ensures Clear(fs', denied, t)
  {
    forall j | 1 <= j < |t| && t[j] == '/'
      ensures !Blocked(fs', denied, t[..j])
    {
      assert !Blocked(fs, denied, t[..j]);
    }
  }

  /** The "test path" step `mkdir_p` performs on each path: a directory is
      accepted, a missing path is created, anything else fails. */
  method TestPath(fs: FileMap, denied: set<string>, t: string) returns (ok: bool, fs': FileMap)
    ensures ParentsAreDirs(fs, t) ==> (ok <==> !Blocked(fs, denied, t))
    ensures ok ==> Stat(fs', t) == Some(Dir)
    ensures fs' == fs || (Stat(fs, t).None? && fs' == fs[t := Dir])
    ensures Tree(fs) ==> Tree(fs')
  {
    var st := Stat(fs, t);
    if st.None? {
      var made := Mkdir(fs, denied, t);
      if made.Failed? {
        return false, fs;
      }
      if Tree(fs) {
        MkdirKeepsTree(fs, denied, t);
      }
      return true, made.fs;
    } else if st.value != Dir {
      return false, fs;
    }
    return true, fs;
  }

  /** The recursive part of `mkdir_p`: the "test path" step on every prefix of
      `tmp` that ends just before a '/' after index 0, shortest first, stopping
      at the first failure. */
  method MakeParents(fs: FileMap, denied: set<string>, tmp: string) returns (ok: bool, fs': FileMap)
    ensures GrowsAlong(fs, fs', tmp, |tmp|)
    ensures Stat(fs', tmp) == Stat(fs, tmp)
    ensures ok <==> forall j :: 1 <= j < |tmp| && tmp[j] == '/' ==> !Blocked(fs, denied, tmp[..j])
    ensures ok ==> ParentsAreDirs(fs', tmp)
    ensures Tree(fs) ==> Tree(fs')
  {
    fs' := fs;
    var i := 1;
    while i < |tmp|
      invariant 1 <= i && (i <= |tmp| || i == 1)
      invariant GrowsAlong(fs, fs', tmp, i - 1)
      invariant Stat(fs', tmp) == Stat(fs, tmp)
      invariant forall j :: 1 <= j < i && tmp[j] == '/' ==>
        Stat(fs', tmp[..j]) == Some(Dir) && !Blocked(fs, denied, tmp[..j])
      invariant Tree(fs) ==> Tree(fs')
    {
      if tmp[i] == '/' {
        var prefix := tmp[..i];
        assert Stat(fs', prefix) == Stat(fs, prefix);
        assert ParentsAreDirs(fs', prefix) by {
          forall j | 1 <= j < |prefix| && prefix[j] == '/'
            ensures Stat(fs', prefix[..j]) == Some(Dir)
          {
            assert prefix[..j] == tmp[..j];
          }
        }
        var stepOk, fs2 := TestPath(fs', denied, prefix);
        if !stepOk {
          return false, fs';
        }
        fs' := fs2;
      }
      i := i + 1;
    }
    return true, fs';
  }

  /** `mkdir_p(dir, mode)`: returns 0 when `dir` (less one trailing '/') ends up a
      directory together with every directory on the way to it, and -1 otherwise. */
  method MkdirP(fs: FileMap, denied: set<string>, dir: CString) returns (r: int, fs': FileMap)
    ensures r == 0 || r == -1
    ensures |dir| == 0 || |dir| >= MaxFilename ==> r == -1 && fs' == fs
    ensures 0 < |dir| < MaxFilename && Stat(fs, Trimmed(dir)) == Some(Dir) ==> r == 0 && fs' == fs
    ensures 0 < |dir| < MaxFilename ==> GrowsAlong(fs, fs', Trimmed(dir), |Trimmed(dir)|)
    ensures r == 0 <==>
      0 < |dir| < MaxFilename && (Stat(fs, Trimmed(dir)) == Some(Dir) || Clear(fs, denied, Trimmed(dir)))
    ensures r == 0 && Tree(fs) ==> ParentsAreDirs(fs', Trimmed(dir)) && Stat(fs', Trimmed(dir)) == Some(Dir)
    ensures Tree(fs) ==> Tree(fs')
  {
    if |dir| == 0 || |dir| >= MaxFilename {
      return -1, fs;
    }
    var tmp := dir;
    if tmp[|tmp| - 1] == '/' {
      tmp := tmp[..|tmp| - 1];
    }
    assert tmp == Trimmed(dir);
    if Stat(fs, tmp) == Some(Dir) {
      return 0, fs;
    }
    var parentsOk, fs1 := MakeParents(fs, denied, tmp);
    if !parentsOk {
      return -1, fs1;
    }
    assert Stat(fs1, tmp) == Stat(fs, tmp);
    var ok, fs2 := TestPath(fs1, denied, tmp);
    if !ok {
      return -1, fs1;
    }
    return 0, fs2;
  }

  /** One archive entry as `extract_package` sees it. */
  datatype Entry = Entry(name: CString, isDir: bool, statOk: bool, extractOk: bool)

  /** An archive: whether it opens, and its entries in index order. */
  datatype Archive = Archive(opens: bool, entries: seq<Entry>)

  /** `strrchr(s, '/')` as an index: the last '/' in `s`, or -1 when there is none. */
  function LastSlash(s: string): (k: int)
    ensures -1 <= k < |s|
    ensures k >= 0 ==> s[k] == '/'
    ensures forall j :: k < j < |s| ==> s[j] != '/'
  {
    if s == [] then -1
    else if s[|s| - 1] == '/' then |s| - 1
    else LastSlash(s[..|s| - 1])
  }

  /** An entry ends `extract_package` with -1: its header cannot be read, or it
      is a file that cannot be extracted. */
  predicate Fails(e: Entry)
    // a directory entry fails only when its header cannot be read
    ensures e.isDir ==> (Fails(e) <==> !e.statOk)
    ensures e.statOk && e.extractOk ==> !Fails(e)
  {
    !e.statOk || (!e.isDir && !e.extractOk)
  }

  /** The index of the first failing entry, or the number of entries. */
  function FirstBad(es: seq<Entry>): (k: nat)
    ensures k <= |es|
    ensures forall j :: 0 <= j < k ==> !Fails(es[j])
    ensures k < |es| ==> Fails(es[k])
  {
    if es == [] then 0
    else if Fails(es[0]) then 0
    else 1 + FirstBad(es[1..])
  }

  /** The names of the entries that are not directories, in index order. */
  function FileNames(es: seq<Entry>): (r: seq<string>)
    ensures |r| <= |es|
    ensures forall n :: n in r ==> exists e :: e in es && !e.isDir && e.name == n
  {
    if es == [] then []
    else
      var front := FileNames(es[..|es| - 1]);
      assert forall e :: e in es[..|es| - 1] ==> e in es;
      front + (if es[|es| - 1].isDir then [] else [es[|es| - 1].name])
  }

  /** One more entry adds its name to the file names when it is not a directory. */
  lemma FileNamesSnoc(es: seq<Entry>, k: nat)
    requires k < |es|
    ensures FileNames(es[..k + 1]) == FileNames(es[..k]) + (if es[k].isDir then [] else [es[k].name])
  {
    assert es[..k + 1][..k] == es[..k];
  }

  /** The directory `extract_package` creates for a file entry: the name up to
      its last '/', less one trailing '/'. */
  function ParentOf(name: CString): (d: string)
    requires 0 < LastSlash(name)
    ensures |d| < |name| && d <= name
    ensures |d| == LastSlash(name) || (|d| == LastSlash(name) - 1 && name[|d|] == '/')
  {
    Trimmed(name[..LastSlash(name)])
  }

  /** The parent of `name` is a directory in `fs'` whenever `mkdir_p` could make
      it in `fs`: it fits the buffer and nothing on the way to it blocks. */
  predicate ParentMade(fs: FileMap, denied: set<string>, fs': FileMap, name: CString)
  {
    0 < LastSlash(name) < MaxFilename && Clear(fs, denied, ParentOf(name)) ==>
      Stat(fs', ParentOf(name)) == Some(Dir)
  }

  /** Every file entry before index `k` had its parent directory made, when
      that was possible. */
  predicate ParentsMade(fs: FileMap, denied: set<string>, fs': FileMap, es: seq<Entry>, k: nat)
  {
    forall j :: 0 <= j < k && j < |es| && !es[j].isDir ==> ParentMade(fs, denied, fs', es[j].name)
  }

  /** Every object of `fs'` that is not in `fs` is a leading part of the parent
      directory of one of the first `n` entries that is a file with a '/'
      after index 0: directory entries create nothing. */
  predicate OnlyParentsBefore(fs: FileMap, fs': FileMap, es: seq<Entry>, n: nat)
  {
    forall p :: p in fs' && p !in fs ==>
      exists j :: 0 <= j < n && j < |es| && !es[j].isDir && 0 < LastSlash(es[j].name) && p <= ParentOf(es[j].name)
  }

  /** The parent directory step of `extract_package` for a file entry: `mkdir_p`
      on the name up to its last '/', when it has one; the result is ignored. */
  method MakeParentDir(fs: FileMap, denied: set<string>, name: CString) returns (fs': FileMap)
    ensures 0 < LastSlash(name) ==> GrowsAlong(fs, fs', ParentOf(name), LastSlash(name))
    ensures LastSlash(name) <= 0 || LastSlash(name) >= MaxFilename ==> fs' == fs
    ensures Tree(fs) ==> ParentMade(fs, denied, fs', name)
    ensures AddsDirs(fs, fs')
    ensures Tree(fs) ==> Tree(fs')
  {
    var last := LastSlash(name);
    fs' := fs;
    if last >= 0 {
      var parent: CString := name[..last];
      var _, made := MkdirP(fs, denied, parent);
      fs' := made;
    }
  }

  /** The entry loop of `extract_package` on an archive that opened: handles
      the entries in index order and stops at the first one that fails.
      Returns the index it stopped at. */
  method ExtractEntries(fs: FileMap, denied: set<string>, es: seq<Entry>)
    returns (k: nat, fs': FileMap, written: seq<string>)
    ensures k == FirstBad(es)
    ensures written == FileNames(es[..k])
    ensures AddsDirs(fs, fs')
    ensures Tree(fs) ==> Tree(fs')
    ensures Tree(fs) ==> ParentsMade(fs, denied, fs', es, k)
    // only the parents of the file entries handled, the failing one included, appear
    ensures OnlyParentsBefore(fs, fs', es, k + 1)
  {
    fs' := fs;
    written := [];
    k := 0;
    while k < |es|
      invariant k <= |es|
      invariant forall j :: 0 <= j < k ==> !Fails(es[j])
      invariant written == FileNames(es[..k])
      invariant AddsDirs(fs, fs')
      invariant Tree(fs) ==> Tree(fs')
      invariant Tree(fs) ==> ParentsMade(fs, denied, fs', es, k)
      invariant OnlyParentsBefore(fs, fs', es, k)
    {
      var e := es[k];
      FileNamesSnoc(es, k);
      if !e.statOk {
        OnlyParentsMore(fs, fs', es, k);
        break;
      }
      if !e.isDir {
        fs' := MakeEntryParent(fs, denied, fs', es, k);
        if !e.extractOk {
          break;
        }
        written := written + [e.name];
      }
      k := k + 1;
    }
    if k == |es| {
      OnlyParentsMore(fs, fs', es, k);
    }
    FirstBadIs(es, k);
  }

  /** The bound on new objects holds for any longer prefix of the entries. */
  lemma OnlyParentsMore(fs: FileMap, fs': FileMap, es: seq<Entry>, n: nat)
    requires OnlyParentsBefore(fs, fs', es, n)
    ensures OnlyParentsBefore(fs, fs', es, n + 1)
  {
  }

  /** The parent directory step for file entry `k` inside the entry loop: keeps
      what the loop has established for the entries before it. */
  method MakeEntryParent(fs: FileMap, denied: set<string>, fs1: FileMap, es: seq<Entry>, k: nat)
    returns (fs2: FileMap)
    requires k < |es| && AddsDirs(fs, fs1) && (Tree(fs) ==> Tree(fs1))
    requires Tree(fs) ==> ParentsMade(fs, denied, fs1, es, k)
    requires !es[k].isDir && OnlyParentsBefore(fs, fs1, es, k)
    ensures AddsDirs(fs, fs2) && (Tree(fs) ==> Tree(fs2))
    ensures Tree(fs) ==> ParentsMade(fs, denied, fs2, es, k + 1)
    ensures OnlyParentsBefore(fs, fs2, es, k + 1)
  {
    var name := es[k].name;
    fs2 := MakeParentDir(fs1, denied, name);
    forall p | p in fs2 && p !in fs
      ensures exists j ::
        0 <= j < k + 1 && j < |es| && !es[j].isDir && 0 < LastSlash(es[j].name) && p <= ParentOf(es[j].name)
    {
      if p !in fs1 {
        assert 0 < LastSlash(name) && p <= ParentOf(name);
      }
    }
    if Tree(fs) {
      ParentsStillMade(fs, denied, fs1, fs2, es, k);
    }
    AddsDirsTrans(fs, fs1, fs2);
  }

  /** One more `mkdir_p` on the parent of entry `k` keeps the parents made for
      the earlier entries and makes the parent of entry `k`. */
  lemma ParentsStillMade(fs: FileMap, denied: set<string>, fs1: FileMap, fs2: FileMap, es: seq<Entry>, k: nat)
    requires k < |es| && AddsDirs(fs, fs1) && AddsDirs(fs1, fs2) && Tree(fs1)
    requires ParentMade(fs1, denied, fs2, es[k].name)
    requires ParentsMade(fs, denied, fs1, es, k)
    ensures ParentsMade(fs, denied, fs2, es, k + 1)
  {
    forall j | 0 <= j < k + 1 && !es[j].isDir
      ensures ParentMade(fs, denied, fs2, es[j].name)
    {
      var name := es[j].name;
      if 0 < LastSlash(name) < MaxFilename && Clear(fs, denied, ParentOf(name)) {
        if j < k {
          DirsKept(fs1, fs2, ParentOf(name));
        } else {
          ClearKept(fs, fs1, denied, ParentOf(name));
        }
      }
    }
  }

  /** The first failing entry is the one a scan stops at. */
  lemma {:induction false} FirstBadIs(es: seq<Entry>, k: nat)
    requires k <= |es|
    requires forall j :: 0 <= j < k ==> !Fails(es[j])
    requires k < |es| ==> Fails(es[k])
    ensures FirstBad(es) == k
  {
  }

  /** `extract_package(zipfile)`: returns 0 when the archive opens and every entry is
      handled, and -1 at the first entry that fails; `written` lists the files
      extracted, in order. Directory entries are never written, and the result
      of creating a file's parent directory is ignored. */
  method ExtractPackage(fs: FileMap, denied: set<string>, zip: Archive)
    returns (r: int, fs': FileMap, written: seq<string>)
    ensures r == 0 || r == -1
    ensures r == 0 <==> zip.opens && FirstBad(zip.entries) == |zip.entries|
    ensures written == if zip.opens then FileNames(zip.entries[..FirstBad(zip.entries)]) else []
    ensures AddsDirs(fs, fs')
    ensures Tree(fs) ==> Tree(fs')
    // every file extracted had its parent directory made, when that was possible
    ensures zip.opens && Tree(fs) ==> ParentsMade(fs, denied, fs', zip.entries, FirstBad(zip.entries))
    // an archive that does not open changes nothing; otherwise only the parents
    // of the file entries up to the first failing one appear
    ensures !zip.opens ==> fs' == fs
    ensures OnlyParentsBefore(fs, fs', zip.entries, FirstBad(zip.entries) + 1)
  {
    if !zip.opens {
      return -1, fs, [];
    }
    var k;
    k, fs', written := ExtractEntries(fs, denied, zip.entries);
    r := if k == |zip.entries| then 0 else -1;
  }
}
