/** An abstract stand-in for the storage device the installer writes to.

    The file system is a flat map from path strings to the kind of object
    found there. `stat` looks a path up; `mkdir` either creates a directory
    or fails with an error number. Paths are compared as strings: no
    normalisation of repeated or trailing separators is done, and the empty
    path never names an object. `mkdir` fails when the path is empty, when a
    directory on the way to it is missing or is a file, and when the path
    already exists; the remaining reasons for it to fail (a read-only medium,
    a device error) are abstracted by a set `denied` of paths on which it
    fails with some other error number. Files written by archive extraction
    are reported in the extractor's trace and are not entered in the map. */
module FileSystem {

  datatype Option<T> = None | Some(value: T)

  /** The characters of a NUL-terminated C string, before its terminator. */
  type CString = s: string | '\0' !in s

  datatype Kind = Dir | File

  type FileMap = map<string, Kind>

  /** The error numbers `mkdir` can leave in `errno` that the installer tells apart. */
  datatype Errno = EExist | ENoEnt | ENotDir | EOther

  /** Outcome of one `mkdir` call: success with the new file system, or -1 with `errno`. */
  datatype MkdirResult = Made(fs: FileMap) | Failed(errno: Errno)

  /** `stat(path)`: the kind of the object at `path`, or None when it does not exist. */
  function Stat(fs: FileMap, path: string): (r: Option<Kind>)
    ensures r.Some? <==> path != "" && path in fs
    ensures r.Some? ==> r.value == fs[path]
  {
    if path != "" && path in fs then Some(fs[path]) else None
  }

  /** Every directory on the way to `path`, that is every prefix of it that ends
      just before a '/' after index 0, is a directory. */
  predicate ParentsAreDirs(fs: FileMap, path: string)
  {
    forall j :: 1 <= j < |path| && path[j] == '/' ==> Stat(fs, path[..j]) == Some(Dir)
  }

  /** The shape of a real file system: every object's parents are directories. */
  predicate Tree(fs: FileMap)
  {
    forall p :: p in fs ==> ParentsAreDirs(fs, p)
  }

  /** `mkdir(path, mode)`: fails with ENOENT on the empty path or a missing
      parent, with ENOTDIR when a parent is a file, with EEXIST on an existing
      object, with another error on a denied path, and otherwise adds a
      directory and nothing else. */
  function Mkdir(fs: FileMap, denied: set<string>, path: string): (r: MkdirResult)
    ensures r.Made? <==>
      path != "" && ParentsAreDirs(fs, path) && Stat(fs, path).None? && path !in denied
    ensures r.Made? ==> r.fs == fs[path := Dir]
    ensures r == Failed(EExist) <==> ParentsAreDirs(fs, path) && Stat(fs, path).Some?
  {
    if path == "" then Failed(ENoEnt)
    else if exists j | 1 <= j < |path| && path[j] == '/' :: Stat(fs, path[..j]) == Some(File) then Failed(ENotDir)
    else if !ParentsAreDirs(fs, path) then Failed(ENoEnt)
    else if path in fs then Failed(EExist)
    else if path in denied then Failed(EOther)
    else Made(fs[path := Dir])
  }

  /** A successful `mkdir` keeps the file system a tree. */
  lemma MkdirKeepsTree(fs: FileMap, denied: set<string>, path: string)
    requires Mkdir(fs, denied, path).Made?
    ensures Tree(fs) ==> Tree(Mkdir(fs, denied, path).fs)
  {
    if !Tree(fs) {
      return;
    }
    var fs' := Mkdir(fs, denied, path).fs;
    forall p | p in fs'
      ensures ParentsAreDirs(fs', p)
    {
      forall j | 1 <= j < |p| && p[j] == '/'
        ensures Stat(fs', p[..j]) == Some(Dir)
      {
        if p == path {
          assert Stat(fs, p[..j]) == Some(Dir);
        } else {
          assert ParentsAreDirs(fs, p);
          assert Stat(fs, p[..j]) == Some(Dir);
        }
      }
    }
  }

  /** The prefixes `s[..j]` of `s` that end just before a '/' at an index `j >= from`,
      shortest first: the paths a left-to-right scan for separators visits. */
  function SlashPrefixes(s: string, from: nat): (r: seq<string>)
    ensures from <= |s| ==> from + |r| <= |s|
    decreases |s| - from
  {
    if from >= |s| then []
    else if s[from] == '/' then [s[..from]] + SlashPrefixes(s, from + 1)
    else SlashPrefixes(s, from + 1)
  }

  /** Every prefix the scan visits ends before a '/' at or after `from`. */
  lemma {:induction false} SlashPrefixesEndAtSlash(s: string, from: nat)
    ensures forall p :: p in SlashPrefixes(s, from) ==>
      from <= |p| < |s| && s[|p|] == '/' && p == s[..|p|]
    decreases |s| - from
  {
    if from < |s| {
      SlashPrefixesEndAtSlash(s, from + 1);
    }
  }

  /** The scan visits every prefix ending before a '/' at or after `from`. */
  lemma {:induction false} SlashPrefixesComplete(s: string, from: nat)
    ensures forall j :: from <= j < |s| && s[j] == '/' ==> s[..j] in SlashPrefixes(s, from)
    decreases |s| - from
  {
    if from < |s| {
      SlashPrefixesComplete(s, from + 1);
    }
  }

  /** The scan visits the prefixes shortest first. */
  lemma {:induction false} SlashPrefixesIncreasing(s: string, from: nat)
    ensures forall i, k :: 0 <= i < k < |SlashPrefixes(s, from)| ==>
      |SlashPrefixes(s, from)[i]| < |SlashPrefixes(s, from)[k]|
    decreases |s| - from
  {
    if from < |s| {
      SlashPrefixesIncreasing(s, from + 1);
      SlashPrefixesEndAtSlash(s, from + 1);
      var tail := SlashPrefixes(s, from + 1);
      if s[from] == '/' {
        var r := [s[..from]] + tail;
        assert r == SlashPrefixes(s, from);
        forall i, k | 0 <= i < k < |r|
          ensures |r[i]| < |r[k]|
        {
          assert r[k] == tail[k - 1];
          assert tail[k - 1] in tail;
          if i > 0 {
            assert r[i] == tail[i - 1];
          } else {
            assert |r[i]| == from;
          }
        }
      } else {
        assert tail == SlashPrefixes(s, from);
      }
    }
  }

  /** The scan visits exactly the prefixes ending before a '/' at or after
      `from`, each a proper prefix of `s`, shortest first. */
  lemma SlashPrefixesShape(s: string, from: nat)
    ensures var r := SlashPrefixes(s, from);
      && (forall i :: 0 <= i < |r| ==> from <= |r[i]| < |s| && s[|r[i]|] == '/' && r[i] == s[..|r[i]|])
      && (forall i, k :: 0 <= i < k < |r| ==> |r[i]| < |r[k]|)
      && (forall j :: from <= j < |s| && s[j] == '/' ==> s[..j] in r)
  {
    SlashPrefixesEndAtSlash(s, from);
    SlashPrefixesComplete(s, from);
    SlashPrefixesIncreasing(s, from);
  }

  /** A path with no '/' at or after `from` has no slash prefixes to visit. */
  lemma {:induction false} NoSlashNoPrefixes(s: string, from: nat)
    requires forall j :: from <= j < |s| ==> s[j] != '/'
    ensures SlashPrefixes(s, from) == []
    decreases |s| - from
  {
    if from < |s| {
      NoSlashNoPrefixes(s, from + 1);
    }
  }
}
