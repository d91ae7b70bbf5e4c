/** The interactive installer of source/main.cpp: the main menu, the Aroma
    feature menu, the three install branches and the `done` path.

    Every branch is a profile of the shared install script; the Aroma
    profile depends on the ticked features. The environment supplies the
    frames the menus read and the outcome of every download. */
module InstallerCpp {
  import opened Lifecycle
  import opened Menu
  import opened Script
  import opened Session

  const TiramisuUrl := "https://github.com/wiiu-env/Tiramisu/releases/download/v0.1/"
    + "environmentloader-7194938+wiiu-nanddumper-payload-5c5ec09+fw_img_"
    + "loader-c2da326+payloadloaderinstaller-98367a9+tiramisu-7b881d3."
    + "zip"
  const SigpatchesUrl := "https://github.com/marco-calautti/SigpatchesModuleWiiU/"
    + "releases/latest/download/01_sigpatches.rpx"
  const AppStoreUrl := "http://wiiubru.com/appstore/zips/appstore.zip"

  const GithubCert := "romfs:/github-com.pem"
  const WiiubruCert := "romfs:/wiiubru-com.pem"
  const HacksGuideCert := "romfs:/wiiu-hacks-guide.pem"
  const ForyourCafeCert := "romfs:/foryour-cafe.pem"

  /** Menu item 0: Tiramisu, its signature patches, the App Store and SaveMii. */
  const Tiramisu := Profile(
    [ Package(TiramisuUrl, "/vol/external01/tiramisu.zip", GithubCert, true),
      Package(SigpatchesUrl,
        "/vol/external01/wiiu/environments/tiramisu/modules/setup/01_sigpatches.rpx", GithubCert, false),
      Package(AppStoreUrl, "/vol/external01/appstore.zip", WiiubruCert, true),
      Package("https://wiiu.cdn.fortheusers.org/zips/SaveMiiModWUTPort.zip",
        "/vol/external01/savemii.zip", WiiubruCert, true) ],
    ["/vol/external01/tiramisu.zip", "/vol/external01/appstore.zip", "/vol/external01/savemii.zip"])

  /** Menu item 1: Tiramisu and the vWii tools. */
  const VWii := Profile(
    [ Package(TiramisuUrl, "/vol/external01/tiramisu.zip", GithubCert, true),
      Package("https://github.com/Xpl0itU/vwii-compat-installer/releases/download/v1.2/compat_installer.rpx",
        "/vol/external01/wiiu/apps/compat-installer.rpx", GithubCert, false),
      Package("https://wiiu.hacks.guide/docs/files/Patched_IOS80_Installer_for_vWii.zip",
        "/vol/external01/Patched_IOS80_Installer_for_vWii.zip", HacksGuideCert, true),
      Package("https://wiiu.hacks.guide/docs/files/d2x_cIOS_Installer.zip",
        "/vol/external01/d2x_cIOS_Installer.zip", HacksGuideCert, true) ],
    ["/vol/external01/tiramisu.zip", "/vol/external01/Patched_IOS80_Installer_for_vWii.zip",
     "/vol/external01/d2x_cIOS_Installer.zip"])

  /** Menu item 2: Aroma with the payloads and plugins ticked in the feature menu. */
  function Aroma(f: Features): (p: Profile)
    ensures |p.packages| == 6 && |p.cleanup| == 5
    ensures p.packages[0].url == PayloadUrl(f) && p.packages[2].url == PluginUrl(f)
    ensures forall i :: 0 <= i < |p.packages| ==> (p.packages[i].unpack <==> i != 3)
  {
    AromaWith(PayloadUrl(f), PluginUrl(f))
  }

  /** The Aroma profile for given payload and plugin URLs. */
  function AromaWith(payloads: string, plugins: string): (p: Profile)
    ensures |p.packages| == 6 && |p.cleanup| == 5
    ensures p.packages[0].url == payloads && p.packages[2].url == plugins
  {
    Profile(
      [ Package(payloads, "/vol/external01/payloads.zip", ForyourCafeCert, true),
        Package("https://aroma.foryour.cafe/api/download?packages=base-aroma",
          "/vol/external01/base.zip", ForyourCafeCert, true),
        Package(plugins, "/vol/external01/plugins.zip", ForyourCafeCert, true),
        Package(SigpatchesUrl,
          "/vol/external01/wiiu/environments/aroma/modules/setup/01_sigpatches.rpx", GithubCert, false),
        Package(AppStoreUrl, "/vol/external01/appstore.zip", WiiubruCert, true),
        Package("https://wiiu.cdn.fortheusers.org/zips/SaveMiiModWUTPort-wuhb.zip",
          "/vol/external01/savemii.zip", WiiubruCert, true) ],
      ["/vol/external01/payloads.zip", "/vol/external01/base.zip", "/vol/external01/plugins.zip",
       "/vol/external01/appstore.zip", "/vol/external01/savemii.zip"])
  }

  /** Tiramisu: four packages, and the three archives unpacked are the ones removed. */
  lemma TiramisuProfile()
    ensures |Tiramisu.packages| == 4 && |Tiramisu.cleanup| == 3
    ensures CleansUnpacked(Tiramisu)
  {
    var ps := Tiramisu.packages;
    assert ps[0].path == Tiramisu.cleanup[0] && ps[2].path == Tiramisu.cleanup[1]
      && ps[3].path == Tiramisu.cleanup[2];
    assert |ps[1].path| == 74;
  }

  /** vWii: four packages, and the three archives unpacked are the ones removed. */
  lemma VWiiProfile()
    ensures |VWii.packages| == 4 && |VWii.cleanup| == 3
    ensures CleansUnpacked(VWii)
  {
    var ps := VWii.packages;
    assert ps[0].path == VWii.cleanup[0] && ps[2].path == VWii.cleanup[1]
      && ps[3].path == VWii.cleanup[2];
    assert |ps[1].path| == 46;
  }

  /** Aroma, whatever is ticked: the five archives unpacked are the ones removed. */
  lemma AromaProfile(f: Features)
    ensures CleansUnpacked(Aroma(f))
  {
    AromaWithProfile(PayloadUrl(f), PluginUrl(f));
  }

  /** The cleanup of the Aroma profile does not depend on the URLs. */
  lemma AromaWithProfile(payloads: string, plugins: string)
    ensures CleansUnpacked(AromaWith(payloads, plugins))
  {
    AromaRemovesUnpacked(payloads, plugins);
    AromaRemovesPackages(payloads, plugins);
  }

  /** The Aroma cleanup list holds the files of exactly the unpacked packages. */
  lemma AromaRemovesUnpacked(payloads: string, plugins: string)
    ensures UnpackedAreRemoved(AromaWith(payloads, plugins))
  {
    var p := AromaWith(payloads, plugins);
    var ps := p.packages;
    assert ps[0].path == p.cleanup[0] && ps[1].path == p.cleanup[1] && ps[2].path == p.cleanup[2]
      && ps[4].path == p.cleanup[3] && ps[5].path == p.cleanup[4];
    assert |ps[3].path| == 71;
  }

  /** The Aroma cleanup list names only files the profile downloads. */
  lemma AromaRemovesPackages(payloads: string, plugins: string)
    ensures RemovesOnlyPackages(AromaWith(payloads, plugins))
  {
    var p := AromaWith(payloads, plugins);
    var ps := p.packages;
    assert ps[0].path == p.cleanup[0] && ps[1].path == p.cleanup[1] && ps[2].path == p.cleanup[2]
      && ps[4].path == p.cleanup[3] && ps[5].path == p.cleanup[4];
  }

  /** How a menu loop ends: a button that leaves it, `AppRunning` reporting
      false, or the end of the frames given to the model. */
  datatype Exit = Pressed | Closed | Exhausted

  /** The triggers of each frame, in order. */
  function Triggers(frames: seq<Frame>): (r: seq<set<Button>>)
    ensures |r| == |frames|
    ensures forall i :: 0 <= i < |r| ==> r[i] == frames[i].triggers
  {
    if frames == [] then [] else [frames[0].triggers] + Triggers(frames[1..])
  }

  /** The triggers of the first `n + 1` frames: those of the first frame, then
      those of the next `n`. */
  lemma TriggersCons(frames: seq<Frame>, n: nat)
    requires n < |frames|
    ensures Triggers(frames[..n + 1]) == [frames[0].triggers] + Triggers(frames[1..][..n])
  {
    assert frames[..n + 1][1..] == frames[1..][..n];
  }

  /** Where the main menu loop ends: the lifecycle state, the cursor, the
      number of frames read and the way out. */
  datatype MainOutcome = MainOutcome(state: AppState, cursor: int, used: nat, exit: Exit)

  /** The main menu loop: poll the lifecycle, then move the cursor, then leave on A. */
  function MainMenuRun(s: AppState, c: int, frames: seq<Frame>): (r: MainOutcome)
    ensures 0 <= c <= MainLast ==> 0 <= r.cursor <= MainLast
    ensures r.used <= |frames|
    ensures r.exit == Exhausted ==> r.used == |frames|
    ensures r.exit != Exhausted ==> 1 <= r.used
    ensures r.exit == Closed ==> r.state == Stopping
    ensures r.exit == Pressed ==> r.state != Stopping
    ensures r.exit == Pressed ==> A in frames[r.used - 1].triggers
    decreases frames
  {
    if frames == [] then MainOutcome(s, c, 0, Exhausted)
    else
      var s1 := Poll(s, frames[0]);
      if !AsBool(s1) then MainOutcome(s1, c, 1, Closed)
      else
        var c1 := CursorStep(c, MainLast, frames[0].triggers);
        if A in frames[0].triggers then MainOutcome(s1, c1, 1, Pressed)
        else
          var rest := MainMenuRun(s1, c1, frames[1..]);
          MainOutcome(rest.state, rest.cursor, 1 + rest.used, rest.exit)
  }

  /** A main menu run that starts after `n` frames were read. */
  function MainAfter(n: nat, r: MainOutcome): MainOutcome
  {
    r.(used := n + r.used)
  }

  /** Where the feature menu loop ends: as for the main menu, plus the checkboxes. */
  datatype FeatureOutcome = FeatureOutcome(state: AppState, cursor: int, features: Features, used: nat, exit: Exit)

  /** The feature menu loop: poll the lifecycle, move the cursor, toggle the
      checkbox under the cursor on A, and leave on PLUS. */
  function FeatureMenuRun(s: AppState, c: int, f: Features, frames: seq<Frame>): (r: FeatureOutcome)
    ensures 0 <= c <= FeatureLast ==> 0 <= r.cursor <= FeatureLast
    ensures r.used <= |frames|
    ensures r.exit == Exhausted ==> r.used == |frames|
    ensures r.exit != Exhausted ==> 1 <= r.used
    ensures r.exit == Closed ==> r.state == Stopping
    ensures r.exit == Pressed ==> r.state != Stopping
    ensures r.exit == Pressed ==> Plus in frames[r.used - 1].triggers
    decreases frames
  {
    if frames == [] then FeatureOutcome(s, c, f, 0, Exhausted)
    else
      var s1 := Poll(s, frames[0]);
      if !AsBool(s1) then FeatureOutcome(s1, c, f, 1, Closed)
      else
        var c1 := CursorStep(c, FeatureLast, frames[0].triggers);
        var f1 := if A in frames[0].triggers then Toggle(f, c1) else f;
        if Plus in frames[0].triggers then FeatureOutcome(s1, c1, f1, 1, Pressed)
        else
          var rest := FeatureMenuRun(s1, c1, f1, frames[1..]);
          FeatureOutcome(rest.state, rest.cursor, rest.features, 1 + rest.used, rest.exit)
  }

  /** A feature menu run that starts after `n` frames were read. */
  function FeatureAfter(n: nat, r: FeatureOutcome): FeatureOutcome
  {
    r.(used := n + r.used)
  }

  /** The main menu reads no frame after the first A trigger it sees while running. */
  lemma {:induction false} MainMenuStopsAtA(s: AppState, c: int, frames: seq<Frame>)
    ensures var r := MainMenuRun(s, c, frames);
      forall j :: 0 <= j < r.used - 1 ==> A !in frames[j].triggers
    decreases frames
  {
    if frames != [] && AsBool(Poll(s, frames[0])) && A !in frames[0].triggers {
      var c1 := CursorStep(c, MainLast, frames[0].triggers);
      MainMenuStopsAtA(Poll(s, frames[0]), c1, frames[1..]);
    }
  }

  /** The frames of a main menu run that moved the cursor: all frames read,
      except the one on which `AppRunning` reported false. */
  function MovedFrames(r: MainOutcome): nat
  {
    if r.exit == Closed && r.used > 0 then r.used - 1 else r.used
  }

  /** The cursor of the main menu is the cursor movement of every frame read
      while running; the frame on which `AppRunning` reports false moves nothing. */
  lemma {:induction false} MainMenuCursor(s: AppState, c: int, frames: seq<Frame>)
    ensures MainMenuRun(s, c, frames).cursor ==
      CursorAfter(c, MainLast, Triggers(frames[..MovedFrames(MainMenuRun(s, c, frames))]))
    decreases frames
  {
    var r := MainMenuRun(s, c, frames);
    if frames != [] {
      var s1 := Poll(s, frames[0]);
      var c1 := CursorStep(c, MainLast, frames[0].triggers);
      if !AsBool(s1) {
        assert Triggers(frames[..0]) == [];
      } else if A in frames[0].triggers {
        assert Triggers(frames[..1]) == [frames[0].triggers];
      } else {
        MainMenuCursor(s1, c1, frames[1..]);
        var rest := MainMenuRun(s1, c1, frames[1..]);
        assert r == MainOutcome(rest.state, rest.cursor, 1 + rest.used, rest.exit);
        var n := MovedFrames(rest);
        assert MovedFrames(r) == n + 1;
        TriggersCons(frames, n);
        var ts := Triggers(frames[1..][..n]);
        assert ([frames[0].triggers] + ts)[1..] == ts;
        assert CursorAfter(c, MainLast, [frames[0].triggers] + ts) == CursorAfter(c1, MainLast, ts);
      }
    } else {
      assert frames[..0] == [];
    }
  }

  /** The feature menu reads no frame after the first PLUS trigger it sees while running. */
  lemma {:induction false} FeatureMenuStopsAtPlus(s: AppState, c: int, f: Features, frames: seq<Frame>)
    ensures var r := FeatureMenuRun(s, c, f, frames);
      forall j :: 0 <= j < r.used - 1 ==> Plus !in frames[j].triggers
    decreases frames
  {
    if frames != [] && AsBool(Poll(s, frames[0])) && Plus !in frames[0].triggers {
      var c1 := CursorStep(c, FeatureLast, frames[0].triggers);
      var f1 := if A in frames[0].triggers then Toggle(f, c1) else f;
      FeatureMenuStopsAtPlus(Poll(s, frames[0]), c1, f1, frames[1..]);
    }
  }

  /** Without an A trigger no checkbox of the feature menu changes. */
  lemma {:induction false} NoAKeepsFeatures(s: AppState, c: int, f: Features, frames: seq<Frame>)
    requires forall j :: 0 <= j < |frames| ==> A !in frames[j].triggers
    ensures FeatureMenuRun(s, c, f, frames).features == f
    decreases frames
  {
    if frames != [] && AsBool(Poll(s, frames[0])) && Plus !in frames[0].triggers {
      NoAKeepsFeatures(Poll(s, frames[0]), CursorStep(c, FeatureLast, frames[0].triggers), f, frames[1..]);
    }
  }

  /** The install branch `main` takes after the menus: none unless the main menu
      was left with A, otherwise the profile under the cursor; the Aroma branch
      downloads whatever the feature menu left ticked, however that menu ended.
      `outcomes` holds one download outcome per download of the longest branch. */
  function Branch(s: AppState, c: int, frames: seq<Frame>, outcomes: seq<Transfer>): (trace: seq<Action>)
    requires |outcomes| >= 6
    ensures trace != [] ==> MainMenuRun(s, c, frames).exit == Pressed
  {
    var m := MainMenuRun(s, c, frames);
    if m.exit != Pressed then []
    else if m.cursor == 0 then RunProfile(Tiramisu, outcomes[..4])
    else if m.cursor == 1 then RunProfile(VWii, outcomes[..4])
    else if m.cursor == 2 then
      var fm := FeatureMenuRun(m.state, 0, NoFeatures, frames[m.used..]);
      RunProfile(Aroma(fm.features), outcomes[..6])
    else []
  }

  /** Where the menus leave `main`: the lifecycle state, `cursorPos` and the
      number of frames read. */
  datatype MenusOutcome = MenusOutcome(state: AppState, cursor: int, used: nat)

  /** The main menu and, when it was left with A on Aroma, the feature menu
      on the frames that follow. */
  function MenusRun(s: AppState, c: int, frames: seq<Frame>): (r: MenusOutcome)
    ensures r.used <= |frames|
    ensures r.used >= MainMenuRun(s, c, frames).used
    ensures 0 <= c <= MainLast ==> 0 <= r.cursor <= FeatureLast
    // the feature menu runs, and resets the cursor, only after A on the Aroma line
    ensures r.used > MainMenuRun(s, c, frames).used ==>
      MainMenuRun(s, c, frames).exit == Pressed && MainMenuRun(s, c, frames).cursor == 2
  {
    var m := MainMenuRun(s, c, frames);
    if m.exit == Pressed && m.cursor == 2 then
      var fm := FeatureMenuRun(m.state, 0, NoFeatures, frames[m.used..]);
      MenusOutcome(fm.state, fm.cursor, m.used + fm.used)
    else MenusOutcome(m.state, m.cursor, m.used)
  }

  /** An install branch runs exactly when the main menu was left with A: any
      other way out of the menu performs no action. */
  lemma BranchOnlyOnA(s: AppState, c: int, frames: seq<Frame>, outcomes: seq<Transfer>)
    requires |outcomes| >= 6
    requires 0 <= c <= MainLast
    ensures var m := MainMenuRun(s, c, frames);
      Branch(s, c, frames, outcomes) != [] <==> m.exit == Pressed && A in frames[m.used - 1].triggers
  {
    var m := MainMenuRun(s, c, frames);
    if m.exit == Pressed {
      if m.cursor == 0 {
        FirstActionIsFirstDownload(Tiramisu, outcomes[..4]);
      } else if m.cursor == 1 {
        FirstActionIsFirstDownload(VWii, outcomes[..4]);
      } else {
        var fm := FeatureMenuRun(m.state, 0, NoFeatures, frames[m.used..]);
        FirstActionIsFirstDownload(Aroma(fm.features), outcomes[..6]);
      }
    }
  }

  /** The first action of any branch is the download of its first package. */
  lemma FirstActionIsFirstDownload(p: Profile, outcomes: seq<Transfer>)
    requires |outcomes| == |p.packages| && p.packages != []
    ensures var trace := RunProfile(p, outcomes);
      trace != [] && trace[0] == Fetch(p.packages[0])
  {
    var k := FirstFailure(outcomes);
    var ps := p.packages;
    if k == |ps| {
      assert Completed(ps) == PackageActions(ps[0]) + Completed(ps[1..]);
    } else if k == 0 {
      assert ps[..k] == [];
    } else {
      assert Completed(ps[..k]) == PackageActions(ps[0]) + Completed(ps[..k][1..]);
    }
  }

  /** With every download succeeding, the Tiramisu branch downloads and
      unpacks its four packages in order, then removes its three archives. */
  lemma TiramisuInstalls(outcomes: seq<Transfer>)
    requires |outcomes| == 4
    requires forall j :: 0 <= j < 4 ==> DownloadFile(outcomes[j]) == 0
    ensures RunProfile(Tiramisu, outcomes) == [
      Download(TiramisuUrl, "/vol/external01/tiramisu.zip", GithubCert),
      Extract("/vol/external01/tiramisu.zip"),
      Download(SigpatchesUrl,
        "/vol/external01/wiiu/environments/tiramisu/modules/setup/01_sigpatches.rpx", GithubCert),
      Download(AppStoreUrl, "/vol/external01/appstore.zip", WiiubruCert),
      Extract("/vol/external01/appstore.zip"),
      Download("https://wiiu.cdn.fortheusers.org/zips/SaveMiiModWUTPort.zip",
        "/vol/external01/savemii.zip", WiiubruCert),
      Extract("/vol/external01/savemii.zip"),
      Remove("/vol/external01/tiramisu.zip"),
      Remove("/vol/external01/appstore.zip"),
      Remove("/vol/external01/savemii.zip")]
  {
    var ps := Tiramisu.packages;
    assert FirstFailure(outcomes) == 4;
    assert Completed(ps[3..]) == PackageActions(ps[3]) + Completed(ps[3..][1..]);
    assert Completed(ps[2..]) == PackageActions(ps[2]) + Completed(ps[2..][1..]);
    assert ps[2..][1..] == ps[3..];
    assert Completed(ps[1..]) == PackageActions(ps[1]) + Completed(ps[1..][1..]);
    assert ps[1..][1..] == ps[2..];
    assert ps[3..][1..] == [];
  }

  /** When the compat installer fails to download in the vWii branch, nothing
      after that download happens: no more downloads and no cleanup. */
  lemma VWiiStopsAtFailure(outcomes: seq<Transfer>)
    requires |outcomes| == 4
    requires DownloadFile(outcomes[0]) == 0 && DownloadFile(outcomes[1]) == 1
    ensures RunProfile(VWii, outcomes) == [
      Download(TiramisuUrl, "/vol/external01/tiramisu.zip", GithubCert),
      Extract("/vol/external01/tiramisu.zip"),
      Download("https://github.com/Xpl0itU/vwii-compat-installer/releases/download/v1.2/compat_installer.rpx",
        "/vol/external01/wiiu/apps/compat-installer.rpx", GithubCert)]
  {
    var ps := VWii.packages;
    assert FirstFailure(outcomes) == 1;
    assert ps[..1] == [ps[0]];
    assert Completed(ps[..1]) == PackageActions(ps[0]) + Completed(ps[..1][1..]);
  }

  /** The state of `main`: the static `cursorPos` and the lifecycle object. */
  class Installer {
    var cursorPos: int
    const app: App

    /** Program start: `cursorPos` is 0 and `initState` leaves the application RUNNING. */
    constructor ()
      ensures cursorPos == 0 && fresh(app) && app.state == Running
    {
      cursorPos := 0;
      app := new App();
    }

    /** The main menu loop of `main`. */
    method MainMenu(frames: seq<Frame>) returns (used: nat, exit: Exit)
      modifies this, app
      ensures MainOutcome(app.state, cursorPos, used, exit) == MainMenuRun(old(app.state), old(cursorPos), frames)
    {
      ghost var final := MainMenuRun(app.state, cursorPos, frames);
      used := 0;
      exit := Exhausted;
      while used < |frames|
        invariant used <= |frames|
        invariant final == MainAfter(used, MainMenuRun(app.state, cursorPos, frames[used..]))
      {
        var f := frames[used];
        assert frames[used..][0] == f && frames[used..][1..] == frames[used + 1..];
        ghost var c0 := cursorPos;
        ghost var here := MainMenuRun(app.state, c0, frames[used..]);
        var running := PollFrame(app, f);
        used := used + 1;
        if !running {
          assert here == MainOutcome(app.state, c0, 1, Closed);
          exit := Closed;
          return;
        }
        if Down in f.triggers && cursorPos != MainLast {
          cursorPos := cursorPos + 1;
        }
        if Up in f.triggers && cursorPos != 0 {
          cursorPos := cursorPos - 1;
        }
        assert cursorPos == CursorStep(c0, MainLast, f.triggers);
        if A in f.triggers {
          assert here == MainOutcome(app.state, cursorPos, 1, Pressed);
          exit := Pressed;
          return;
        }
        assert here == MainAfter(1, MainMenuRun(app.state, cursorPos, frames[used..]));
      }
    }

    /** The feature menu loop of the Aroma branch; the cursor starts again at 0. */
    method FeatureMenu(frames: seq<Frame>) returns (features: Features, used: nat, exit: Exit)
      modifies this, app
      ensures FeatureOutcome(app.state, cursorPos, features, used, exit)
        == FeatureMenuRun(old(app.state), 0, NoFeatures, frames)
    {
      cursorPos := 0;
      features := NoFeatures;
      ghost var final := FeatureMenuRun(app.state, 0, NoFeatures, frames);
      used := 0;
      exit := Exhausted;
      while used < |frames|
        invariant used <= |frames|
        invariant final == FeatureAfter(used, FeatureMenuRun(app.state, cursorPos, features, frames[used..]))
      {
        var f := frames[used];
        assert frames[used..][0] == f && frames[used..][1..] == frames[used + 1..];
        ghost var c0 := cursorPos;
        ghost var here := FeatureMenuRun(app.state, c0, features, frames[used..]);
        var running := PollFrame(app, f);
        used := used + 1;
        if !running {
          assert here == FeatureOutcome(app.state, c0, features, 1, Closed);
          exit := Closed;
          return;
        }
        if Down in f.triggers && cursorPos != FeatureLast {
          cursorPos := cursorPos + 1;
        }
        if Up in f.triggers && cursorPos != 0 {
          cursorPos := cursorPos - 1;
        }
        assert cursorPos == CursorStep(c0, FeatureLast, f.triggers);
        if A in f.triggers {
          features := Toggle(features, cursorPos);
        }
        if Plus in f.triggers {
          assert here == FeatureOutcome(app.state, cursorPos, features, 1, Pressed);
          exit := Pressed;
          return;
        }
        assert here == FeatureAfter(1, FeatureMenuRun(app.state, cursorPos, features, frames[used..]));
      }
    }

    /** `main` from the menus to the `done` label: the branch chosen, run as
        its install script. Returns the actions performed and the number of
        frames the menus read. */
    method Install(frames: seq<Frame>, outcomes: seq<Transfer>) returns (trace: seq<Action>, used: nat)
      requires |outcomes| >= 6
      modifies this, app
      ensures trace == Branch(old(app.state), old(cursorPos), frames, outcomes)
      ensures MenusOutcome(app.state, cursorPos, used) == MenusRun(old(app.state), old(cursorPos), frames)
    {
      var exit;
      used, exit := MainMenu(frames);
      trace := [];
      if exit == Pressed {
        if cursorPos == 0 {
          trace := RunProfile(Tiramisu, outcomes[..4]);
        } else if cursorPos == 1 {
          trace := RunProfile(VWii, outcomes[..4]);
        } else if cursorPos == 2 {
          var features, more, _ := FeatureMenu(frames[used..]);
          used := used + more;
          trace := RunProfile(Aroma(features), outcomes[..6]);
        }
      }
    }

    /** The whole of `main`: the menus, the install branch, then the `done`
        path on the frames that follow. */
    method Run(frames: seq<Frame>, outcomes: seq<Transfer>, shutdown: seq<Status>)
      returns (trace: seq<Action>, closed: bool)
      requires |outcomes| >= 6 && Exiting in shutdown
      modifies this, app
      ensures trace == Branch(old(app.state), old(cursorPos), frames, outcomes)
      // the wait of the `done` path starts where the menus left the lifecycle
      ensures closed <==> WaitRun(MenusRun(old(app.state), old(cursorPos), frames).state,
        frames[MenusRun(old(app.state), old(cursorPos), frames).used..]).closed
      ensures closed ==> app.state == Stopped
    {
      var used;
      trace, used := Install(frames, outcomes);
      var waited;
      closed, waited := Done(app, frames[used..], shutdown);
    }
  }
}
