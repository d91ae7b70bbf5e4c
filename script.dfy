/** The install scripts shared by source/main.cpp and source/main.c.

    Every install branch of both programs is a straight-line run of the same
    pattern: call `downloadFile`; if it returned 1, `goto done`; otherwise
    optionally call `extract_package` on the downloaded archive and go on to
    the next package; after the last package `remove` the temporary archives.
    A profile lists the packages of one branch. What happens inside each
    `downloadFile` call (library initialisation, the local file opening, the
    transfer) is an input of the model; the performed calls are its output,
    as a trace of actions. */
module Script {

  /** What the environment decides during one `downloadFile` call. */
  datatype Transfer = Transfer(globalInitOk: bool, easyInitOk: bool, fileOpens: bool, performOk: bool)

  /** The return code of `downloadFile`. */
  function DownloadFile(t: Transfer): (code: int)
    ensures code == 0 || code == 1
    // 1 exactly when a library initialisation or the transfer itself failed
    ensures code == 1 <==> !t.globalInitOk || !t.easyInitOk || (t.fileOpens && !t.performOk)
    // a destination that cannot be opened is reported as success
    ensures !t.fileOpens ==> (code == 0 <==> t.globalInitOk && t.easyInitOk)
  {
    if !t.globalInitOk then 1
    else if !t.easyInitOk then 1
    else if t.fileOpens && !t.performOk then 1
    else 0
  }

  /** One call the script makes on the outside world. */
  datatype Action =
    | Download(url: string, path: string, cert: string)
    | Extract(archive: string)
    | Remove(path: string)

  /** One package of a profile: where it comes from, where it goes, which
      certificate bundle checks the server, and whether it is an archive to unpack. */
  datatype Package = Package(url: string, path: string, cert: string, unpack: bool)

  /** An install branch: its packages in order and the archives removed at the end. */
  datatype Profile = Profile(packages: seq<Package>, cleanup: seq<string>)

  /** The cleanup of a profile removes exactly the archives it unpacks, each
      once: downloaded files that are not archives are kept. */
  predicate CleansUnpacked(p: Profile)
  {
    UnpackedAreRemoved(p) && RemovesOnlyPackages(p) && RemovesOnce(p)
  }

  /** A package's file is on the cleanup list exactly when it is unpacked. */
  predicate UnpackedAreRemoved(p: Profile)
  {
    forall i :: 0 <= i < |p.packages| ==> (p.packages[i].unpack <==> p.packages[i].path in p.cleanup)
  }

  /** Every file on the cleanup list is one a package downloads. */
  predicate RemovesOnlyPackages(p: Profile)
  {
    forall path :: path in p.cleanup ==> exists i :: 0 <= i < |p.packages| && p.packages[i].path == path
  }

  /** No file is on the cleanup list twice. */
  predicate RemovesOnce(p: Profile)
  {
    forall i, j :: 0 <= i < j < |p.cleanup| ==> p.cleanup[i] != p.cleanup[j]
  }

  function Fetch(p: Package): Action
  {
    Download(p.url, p.path, p.cert)
  }

  /** The calls made for a package whose download succeeded. */
  function PackageActions(p: Package): (r: seq<Action>)
    ensures |r| == if p.unpack then 2 else 1
    ensures r[0] == Fetch(p)
    ensures p.unpack ==> r[1] == Extract(p.path)
  {
    [Fetch(p)] + (if p.unpack then [Extract(p.path)] else [])
  }

  /** The calls made for a list of packages that all downloaded successfully. */
  function Completed(ps: seq<Package>): (r: seq<Action>)
    ensures |r| >= |ps|
    ensures forall i :: 0 <= i < |r| ==> !r[i].Remove?
  {
    if ps == [] then [] else PackageActions(ps[0]) + Completed(ps[1..])
  }

  function Removes(paths: seq<string>): (r: seq<Action>)
    ensures |r| == |paths|
    ensures forall i :: 0 <= i < |r| ==> r[i] == Remove(paths[i])
  {
    if paths == [] then [] else [Remove(paths[0])] + Removes(paths[1..])
  }

  /** The index of the first download that returns 1, or the number of downloads. */
  function FirstFailure(outcomes: seq<Transfer>): (k: nat)
    ensures k <= |outcomes|
    ensures forall j :: 0 <= j < k ==> DownloadFile(outcomes[j]) == 0
    ensures k < |outcomes| ==> DownloadFile(outcomes[k]) == 1
  {
    if outcomes == [] then 0
    else if DownloadFile(outcomes[0]) == 1 then 0
    else 1 + FirstFailure(outcomes[1..])
  }

  datatype Run = Run(trace: seq<Action>, finished: bool)

  /** The download/extract part of a script, `goto done` on the first failed download. */
  function RunPackages(ps: seq<Package>, outcomes: seq<Transfer>): (r: Run)
    requires |outcomes| == |ps|
    ensures r.finished <==> FirstFailure(outcomes) == |ps|
    ensures r.finished ==> r.trace == Completed(ps)
    ensures !r.finished ==>
      var k := FirstFailure(outcomes);
      r.trace == Completed(ps[..k]) + [Fetch(ps[k])]
  {
    if ps == [] then Run([], true)
    else if DownloadFile(outcomes[0]) == 1 then
      assert ps[..0] == [];
      Run([Fetch(ps[0])], false)
    else
      var rest := RunPackages(ps[1..], outcomes[1..]);
      var k := FirstFailure(outcomes);
      assert k == 1 + FirstFailure(outcomes[1..]);
      assert k <= |ps| ==> ps[..k][1..] == ps[1..][..k - 1];
      Run(PackageActions(ps[0]) + rest.trace, rest.finished)
  }

  /** A whole install branch: the packages, then the cleanup when every download succeeded. */
  function RunProfile(p: Profile, outcomes: seq<Transfer>): (trace: seq<Action>)
    requires |outcomes| == |p.packages|
    ensures FirstFailure(outcomes) == |p.packages| ==>
      trace == Completed(p.packages) + Removes(p.cleanup)
    ensures FirstFailure(outcomes) < |p.packages| ==>
      var k := FirstFailure(outcomes);
      trace == Completed(p.packages[..k]) + [Fetch(p.packages[k])]
    // a remove happens only when every download returned 0
    ensures (exists i :: 0 <= i < |trace| && trace[i].Remove?) ==>
      forall j :: 0 <= j < |outcomes| ==> DownloadFile(outcomes[j]) == 0
  {
    var run := RunPackages(p.packages, outcomes);
    if run.finished then run.trace + Removes(p.cleanup) else run.trace
  }

  /** When every download succeeds, the trace ends with the cleanup. */
  lemma CleanupLast(p: Profile, outcomes: seq<Transfer>)
    requires |outcomes| == |p.packages| && FirstFailure(outcomes) == |p.packages|
    ensures |RunProfile(p, outcomes)| >= |p.cleanup|
    ensures RunProfile(p, outcomes)[|RunProfile(p, outcomes)| - |p.cleanup|..] == Removes(p.cleanup)
    ensures forall path :: path in p.cleanup ==> Remove(path) in RunProfile(p, outcomes)
  {
    var trace := RunProfile(p, outcomes);
    var c := Completed(p.packages);
    var r := Removes(p.cleanup);
    assert trace == c + r;
    assert trace[|c|..] == r;
    forall path | path in p.cleanup
      ensures Remove(path) in trace
    {
      var i :| 0 <= i < |p.cleanup| && p.cleanup[i] == path;
      assert trace[|c| + i] == r[i];
    }
  }

  /** When a download fails, the trace holds no `remove` at all. */
  lemma NoRemoveAfterFailure(p: Profile, outcomes: seq<Transfer>)
    requires |outcomes| == |p.packages| && FirstFailure(outcomes) < |p.packages|
    ensures forall i :: 0 <= i < |RunProfile(p, outcomes)| ==> !RunProfile(p, outcomes)[i].Remove?
  {
    var trace := RunProfile(p, outcomes);
    var k := FirstFailure(outcomes);
    var c := Completed(p.packages[..k]);
    assert trace == c + [Fetch(p.packages[k])];
    forall i | 0 <= i < |trace|
      ensures !trace[i].Remove?
    {
      if i < |c| {
        assert trace[i] == c[i];
      } else {
        assert trace[i] == Fetch(p.packages[k]);
      }
    }
  }

  /** The cleanup comes last, and an archive of the cleanup list is removed
      exactly when every download returned 0. */
  lemma CleanupAtEnd(p: Profile, outcomes: seq<Transfer>)
    requires |outcomes| == |p.packages|
    ensures FirstFailure(outcomes) == |p.packages| ==>
      |RunProfile(p, outcomes)| >= |p.cleanup| &&
      RunProfile(p, outcomes)[|RunProfile(p, outcomes)| - |p.cleanup|..] == Removes(p.cleanup)
    ensures forall path :: path in p.cleanup ==>
      (Remove(path) in RunProfile(p, outcomes) <==> FirstFailure(outcomes) == |p.packages|)
  {
    if FirstFailure(outcomes) == |p.packages| {
      CleanupLast(p, outcomes);
    } else {
      NoRemoveAfterFailure(p, outcomes);
    }
  }

  /** The number of `downloadFile` calls in a trace. */
  function DownloadCount(trace: seq<Action>): nat
  {
    if trace == [] then 0
    else (if trace[0].Download? then 1 else 0) + DownloadCount(trace[1..])
  }

  lemma {:induction false} DownloadCountAppend(a: seq<Action>, b: seq<Action>)
    ensures DownloadCount(a + b) == DownloadCount(a) + DownloadCount(b)
  {
    if a == [] {
      assert a + b == b;
    } else {
      assert (a + b)[1..] == a[1..] + b;
      DownloadCountAppend(a[1..], b);
    }
  }

  lemma {:induction false} CompletedDownloadCount(ps: seq<Package>)
    ensures DownloadCount(Completed(ps)) == |ps|
  {
    if ps != [] {
      var first := PackageActions(ps[0]);
      DownloadCountAppend(first, Completed(ps[1..]));
      assert first[1..] == (if ps[0].unpack then [Extract(ps[0].path)] else []);
      CompletedDownloadCount(ps[1..]);
    }
  }

  lemma {:induction false} RemovesDownloadCount(paths: seq<string>)
    ensures DownloadCount(Removes(paths)) == 0
  {
    if paths != [] {
      RemovesDownloadCount(paths[1..]);
    }
  }

  /** A script attempts the downloads up to and including the first failed one,
      and no download after it. */
  lemma DownloadsAttempted(p: Profile, outcomes: seq<Transfer>)
    requires |outcomes| == |p.packages|
    ensures var k := FirstFailure(outcomes);
      DownloadCount(RunProfile(p, outcomes)) == if k == |p.packages| then k else k + 1
  {
    var k := FirstFailure(outcomes);
    if k == |p.packages| {
      DownloadCountAppend(Completed(p.packages), Removes(p.cleanup));
      CompletedDownloadCount(p.packages);
      RemovesDownloadCount(p.cleanup);
    } else {
      DownloadCountAppend(Completed(p.packages[..k]), [Fetch(p.packages[k])]);
      CompletedDownloadCount(p.packages[..k]);
    }
  }
}
