/** The application lifecycle gate of source/state.cpp.

    A single process-wide state is overwritten by the home-button callback
    and by `AppRunning`, which asks the platform for its current process
    status and folds it into the state. The status the platform reports and
    whether the call runs on the main core are inputs of the model. */
module Lifecycle {

  /** APP_STATE, in enumerator order: STOPPING is 0. */
  datatype AppState = Stopping | Stopped | Running | Background | Returning

  /** The statuses ProcUIProcessMessages reports. */
  datatype Status = Exiting | ReleaseForeground | InForeground | InBackground

  /** The enumerator value of a state. */
  function Ordinal(s: AppState): (n: int)
    ensures 0 <= n <= 4
    ensures n == 0 <==> s == Stopping
  {
    match s
    case Stopping => 0
    case Stopped => 1
    case Running => 2
    case Background => 3
    case Returning => 4
  }

  /** The conversion of the state to `bool` done by `return app;`: zero is false. */
  function AsBool(s: AppState): (b: bool)
    ensures b <==> s != Stopping
  {
    Ordinal(s) != 0
  }

  /** The transition `AppRunning` performs for one reported status. */
  function Step(s: AppState, status: Status, isMainCore: bool): (r: AppState)
    // off the main core, or once STOPPED, nothing changes
    ensures !isMainCore || s == Stopped ==> r == s
    // EXITING stops any state that is not yet STOPPED
    ensures isMainCore && s != Stopped && status == Exiting ==> r == Stopped
    // STOPPED is reached only through EXITING
    ensures r == Stopped ==> s == Stopped || (isMainCore && status == Exiting)
    // only EXITING leaves STOPPING, and no status leads into it
    ensures s == Stopping && status != Exiting ==> r == Stopping
    ensures r == Stopping ==> s == Stopping
    // foreground notifications
    ensures isMainCore && status == InForeground && s == Background ==> r == Returning
    ensures isMainCore && status == InForeground && (s == Running || s == Returning) ==> r == Running
    // background notifications
    ensures isMainCore && (status == ReleaseForeground || status == InBackground) && s != Stopping && s != Stopped
      ==> r == Background
  {
    if !isMainCore || s == Stopped then s
    else match status
      case Exiting => Stopped
      case ReleaseForeground => if s != Stopping then Background else s
      case InForeground => if s == Stopping then s else if s == Background then Returning else Running
      case InBackground => if s != Stopping then Background else s
  }

  /** The process-wide lifecycle state `app`. */
  class App {
    var state: AppState

    /** The static initialiser: the application starts RUNNING. */
    constructor ()
      ensures state == Running
    {
      state := Running;
    }

    /** The callback registered for a denied home-button press. */
    method HomeButtonCallback() returns (r: int)
      modifies this
      ensures state == Stopping && r == 0
    {
      state := Stopping;
      r := 0;
    }

    /** `AppRunning`: fold the reported status into the state and report the
        state as a `bool`, which is false exactly in STOPPING. */
    method AppRunning(status: Status, isMainCore: bool) returns (running: bool)
      modifies this
      ensures state == Step(old(state), status, isMainCore)
      ensures running <==> state != Stopping
      ensures running == AsBool(state)
    {
      if isMainCore && state != Stopped {
        match status
        case Exiting =>
          state := Stopped;
        case ReleaseForeground =>
          if state != Stopping {
            state := Background;
          }
        case InForeground =>
          if state != Stopping {
            if state == Background {
              state := Returning;
            } else {
              state := Running;
            }
          }
        case InBackground =>
          if state != Stopping {
            state := Background;
          }
      }
      running := AsBool(state);
    }

    /** `shutdownState`: poll on the main core until the state is STOPPED.
        `feed` is the sequence of statuses the platform reports; the loop ends
        only if an EXITING arrives, which the platform sends after the system
        menu has been launched. Returns the number of polls made. */
    method ShutdownState(feed: seq<Status>) returns (polls: nat)
      requires state == Stopped || Exiting in feed
      modifies this
      ensures state == Stopped
      ensures polls <= |feed|
      ensures old(state) == Stopped ==> polls == 0
      ensures old(state) != Stopped ==>
        1 <= polls && feed[polls - 1] == Exiting && Exiting !in feed[..polls - 1]
    {
      polls := 0;
      while state != Stopped
        invariant polls <= |feed|
        invariant state == Stopped || Exiting in feed[polls..]
        invariant old(state) == Stopped ==> polls == 0 && state == Stopped
        invariant state != Stopped ==> Exiting !in feed[..polls]
        invariant old(state) != Stopped && state == Stopped ==>
          1 <= polls && feed[polls - 1] == Exiting && Exiting !in feed[..polls - 1]
        decreases |feed| - polls
      {
        assert feed[..polls + 1] == feed[..polls] + [feed[polls]];
        var _ := AppRunning(feed[polls], true);
        polls := polls + 1;
      }
    }
  }
}
