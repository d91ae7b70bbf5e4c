/** The frames a running installer goes through, and the `done` path shared by
    source/main.cpp and source/main.c: wait while `AppRunning` reports true,
    then `shutdownState`.

    A frame is one turn of a polling loop: whether the home-button callback
    fired since the previous turn, the status the platform reports to
    `AppRunning`, and the buttons triggered on the game pad. The installer
    runs on the main core. */
module Session {
  import opened Lifecycle
  import opened Menu

  datatype Frame = Frame(home: bool, status: Status, triggers: set<Button>)

  /** The lifecycle state after one frame: the home-button callback, when it
      fired, then one `AppRunning` call on the main core. */
  function Poll(s: AppState, f: Frame): (r: AppState)
    ensures f.home && f.status != Exiting ==> r == Stopping
    ensures f.status == Exiting ==> r == Stopped
    ensures !f.home ==> r == Step(s, f.status, true)
  {
    Step(if f.home then Stopping else s, f.status, true)
  }

  /** One frame of a polling loop on the lifecycle object. */
  method PollFrame(app: App, f: Frame) returns (running: bool)
    modifies app
    ensures app.state == Poll(old(app.state), f)
    ensures running <==> app.state != Stopping
  {
    if f.home {
      var _ := app.HomeButtonCallback();
    }
    running := app.AppRunning(f.status, true);
  }

  /** How a wait on the lifecycle ends: after `used` frames, with `closed` when
      `AppRunning` reported false, and with the state reached. */
  datatype Wait = Wait(state: AppState, used: nat, closed: bool)

  /** `while (AppRunning()) { }` over the frames, first frame first. */
  function WaitRun(s: AppState, frames: seq<Frame>): (r: Wait)
    ensures r.used <= |frames|
    ensures r.closed ==> r.state == Stopping && 1 <= r.used
    ensures !r.closed ==> r.used == |frames|
    decreases frames
  {
    if frames == [] then Wait(s, 0, false)
    else
      var s1 := Poll(s, frames[0]);
      if !AsBool(s1) then Wait(s1, 1, true)
      else
        var rest := WaitRun(s1, frames[1..]);
        Wait(rest.state, 1 + rest.used, rest.closed)
  }

  /** The wait ends at the first frame whose home press is not followed by
      EXITING, and no earlier. */
  lemma {:induction false} WaitEndsAtHome(s: AppState, frames: seq<Frame>, k: nat)
    requires s != Stopping
    requires k < |frames| && frames[k].home && frames[k].status != Exiting
    requires forall j :: 0 <= j < k ==> !frames[j].home
    ensures WaitRun(s, frames).closed && WaitRun(s, frames).used == k + 1
    decreases k
  {
    var s1 := Poll(s, frames[0]);
    if k > 0 {
      assert s1 == Step(s, frames[0].status, true);
      WaitEndsAtHome(s1, frames[1..], k - 1);
    }
  }

  /** Started anywhere but STOPPING, the wait never ends without a home press:
      `AppRunning` reports false only in STOPPING, and only the callback enters it. */
  lemma {:induction false} NoHomeNeverCloses(s: AppState, frames: seq<Frame>)
    requires s != Stopping
    requires forall j :: 0 <= j < |frames| ==> !frames[j].home
    ensures !WaitRun(s, frames).closed
    decreases frames
  {
    if frames != [] {
      NoHomeNeverCloses(Poll(s, frames[0]), frames[1..]);
    }
  }

  /** Once STOPPED, the wait never ends unless the home-button callback fires:
      `AppRunning` keeps reporting true. */
  lemma {:induction false} StoppedWaitsForHome(frames: seq<Frame>)
    requires forall j :: 0 <= j < |frames| ==> !frames[j].home
    ensures WaitRun(Stopped, frames) == Wait(Stopped, |frames|, false)
    decreases frames
  {
    if frames != [] {
      StoppedWaitsForHome(frames[1..]);
    }
  }

  /** The `done` path: wait while `AppRunning` reports true; once it reports
      false, `shutdownState` launches the system menu and polls until the
      state is STOPPED. `shutdown` is what the platform reports during that
      last loop. Returns whether the wait ended within the given frames. */
  method Done(app: App, frames: seq<Frame>, shutdown: seq<Status>) returns (closed: bool, used: nat)
    requires Exiting in shutdown
    modifies app
    ensures WaitRun(old(app.state), frames) == Wait(if closed then Stopping else app.state, used, closed)
    ensures closed ==> app.state == Stopped
  {
    ghost var final := WaitRun(app.state, frames);
    used := 0;
    closed := false;
    while used < |frames|
      invariant used <= |frames|
      invariant var rest := WaitRun(app.state, frames[used..]);
        final == Wait(rest.state, used + rest.used, rest.closed)
    {
      assert frames[used..][1..] == frames[used + 1..];
      var running := PollFrame(app, frames[used]);
      used := used + 1;
      if !running {
        closed := true;
        break;
      }
    }
    if closed {
      var _ := app.ShutdownState(shutdown);
    }
  }
}
