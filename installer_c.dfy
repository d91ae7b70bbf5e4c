/** The non-interactive installer of source/main.c: one fixed install script,
    then the `done` path. */
module InstallerC {
  import opened Lifecycle
  import opened Script
  import opened Session
  import InstallerCpp

  /** The script of `main`: Tiramisu, its signature patches, the App Store and SaveMii. */
  const Setup := Profile(
    [ Package(InstallerCpp.TiramisuUrl, "/vol/external01/tiramisu.zip", InstallerCpp.GithubCert, true),
      Package(InstallerCpp.SigpatchesUrl,
        "/vol/external01/wiiu/environments/tiramisu/modules/setup/01_sigpatches.rpx",
        InstallerCpp.GithubCert, false),
      Package(InstallerCpp.AppStoreUrl, "/vol/external01/appstore.zip", InstallerCpp.WiiubruCert, true),
      Package("https://wiiubru.com/appstore/zips/SaveMiiModWUTPort.zip",
        "/vol/external01/savemii.zip", InstallerCpp.WiiubruCert, true) ],
    ["/vol/external01/tiramisu.zip", "/vol/external01/appstore.zip", "/vol/external01/savemii.zip"])

  /** The script is the Tiramisu branch of the interactive installer except for
      the server SaveMii is fetched from. */
  lemma SetupIsTiramisuBranch()
    ensures Setup.cleanup == InstallerCpp.Tiramisu.cleanup
    ensures Setup.packages[..3] == InstallerCpp.Tiramisu.packages[..3]
    ensures Setup.packages[3] == InstallerCpp.Tiramisu.packages[3].(url := Setup.packages[3].url)
    ensures Setup.packages[3].url != InstallerCpp.Tiramisu.packages[3].url
  {
    assert |Setup.packages[3].url| == 55;
    assert |InstallerCpp.Tiramisu.packages[3].url| == 59;
  }

  /** The script has four packages, and the three archives unpacked are the ones removed. */
  lemma SetupProfile()
    ensures |Setup.packages| == 4 && |Setup.cleanup| == 3
    ensures CleansUnpacked(Setup)
  {
    var ps := Setup.packages;
    assert ps[0].path == Setup.cleanup[0] && ps[2].path == Setup.cleanup[1]
      && ps[3].path == Setup.cleanup[2];
    assert |ps[1].path| == 74;
  }

  /** The script stops at the first download that returns 1; the archives are
      removed only when all four downloads succeeded, and then all three are. */
  lemma SetupCleanup(outcomes: seq<Transfer>)
    requires |outcomes| == 4
    ensures var trace := RunProfile(Setup, outcomes);
      && ((forall j :: 0 <= j < 4 ==> DownloadFile(outcomes[j]) == 0) <==>
            Remove("/vol/external01/savemii.zip") in trace)
      && ((forall j :: 0 <= j < 4 ==> DownloadFile(outcomes[j]) == 0) ==>
            |trace| >= 3 && trace[|trace| - 3..] == [Remove("/vol/external01/tiramisu.zip"),
              Remove("/vol/external01/appstore.zip"), Remove("/vol/external01/savemii.zip")])
      && DownloadCount(trace) <= 4
  {
    DownloadsAttempted(Setup, outcomes);
    var trace := RunProfile(Setup, outcomes);
    var k := FirstFailure(outcomes);
    if k == 4 {
      CleanupLast(Setup, outcomes);
      assert Setup.cleanup[2] in Setup.cleanup;
      assert Removes(Setup.cleanup) == [Remove("/vol/external01/tiramisu.zip"),
        Remove("/vol/external01/appstore.zip"), Remove("/vol/external01/savemii.zip")];
    } else {
      NoRemoveAfterFailure(Setup, outcomes);
      assert DownloadFile(outcomes[k]) == 1;
    }
  }

  /** `main`: `initState` leaves the application RUNNING, the script runs, and
      the `done` path waits for the home button and shuts down. */
  method Run(outcomes: seq<Transfer>, frames: seq<Frame>, shutdown: seq<Status>)
    returns (trace: seq<Action>, closed: bool)
    requires |outcomes| == 4 && Exiting in shutdown
    ensures trace == RunProfile(Setup, outcomes)
    ensures closed <==> WaitRun(Running, frames).closed
  {
    var app := new App();
    trace := RunProfile(Setup, outcomes);
    var used;
    closed, used := Done(app, frames, shutdown);
  }
}
