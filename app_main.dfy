/**
 * The meeting app's `main`: the single-instance check for SSO launches at
 * start-up, and the exit-code and persisted-status decision after the
 * event loop returns. The clock and the updater are parameters and events.
 */
module AppMain {
  import opened ConfigStore

  /** How the command line asked the app to run; only an SSO launch is treated specially. */
  datatype RunType = SsoLaunch | OtherLaunch

  /** The exit code the updater asks for when it wants the app relaunched. */
  const RelaunchCode := 773

  const LastExceptionTimeKey := "lastExceptionTime"
  const LastMeetingStatusKey := "lastMeetingStatus"

  /** What happens after the event loop returns `ret` with the meeting in `meetingStatus`. */
  datatype ExitPlan =
    | RecordInterruptedMeeting   // a clean exit in the middle of a meeting: remember when and in which state
    | LaunchUpdater              // the updater's relaunch code
    | RecordNormalExit           // everything else: the last status becomes 1

  function ExitPlanFor(ret: int, meetingStatus: int): (p: ExitPlan)
    ensures p == RecordInterruptedMeeting <==> ret == 0 && (meetingStatus == 3 || meetingStatus == 4)
    ensures p == LaunchUpdater <==> ret == RelaunchCode
    ensures p == RecordNormalExit <==> ret != RelaunchCode && !(ret == 0 && (meetingStatus == 3 || meetingStatus == 4))
  {
    if ret == 0 && (meetingStatus == 3 || meetingStatus == 4) then RecordInterruptedMeeting
    else if ret == RelaunchCode then LaunchUpdater
    else RecordNormalExit
  }

  class Launcher {
    /** The settings store the app persists its last state in. */
    var config: Store
    /** Whether this instance listens for later launches. */
    var listening: bool
    /** SSO arguments handed to an already running instance. */
    var forwarded: seq<seq<string>>
    /** Whether the updater was asked to relaunch the app. */
    var updaterLaunched: bool

    constructor (config: Store)
      ensures this.config == config && !listening && forwarded == [] && !updaterLaunched
    {
      this.config := config;
      listening, forwarded, updaterLaunched := false, [], false;
    }

    /**
     * The start-up check: an SSO launch while another instance answers
     * forwards its arguments to that instance and ends with exit code 0;
     * anything else makes this instance listen and carries on.
     */
    method Start(runType: RunType, otherInstanceRunning: bool, ssoArguments: seq<string>) returns (earlyExit: bool)
      modifies this
      ensures earlyExit <==> runType == SsoLaunch && otherInstanceRunning
      ensures earlyExit ==> forwarded == old(forwarded) + [ssoArguments] && listening == old(listening)
      ensures !earlyExit ==> forwarded == old(forwarded) && listening
      ensures config == old(config) && updaterLaunched == old(updaterLaunched)
    {
      if runType == SsoLaunch && otherInstanceRunning {
        forwarded := forwarded + [ssoArguments];
        return true;
      }
      listening := true;
      return false;
    }

    /**
     * The decision after `exec` returns `ret`; `now` is the current time in
     * seconds since the epoch. Only the relaunch path starts the updater,
     * and only the normal path hands `ret` on.
     */
    method OnExit(ret: int, meetingStatus: int, now: int) returns (exitCode: int)
      modifies this
      ensures listening == old(listening) && forwarded == old(forwarded)
      ensures match ExitPlanFor(ret, meetingStatus)
        case RecordInterruptedMeeting =>
          && exitCode == 0 && updaterLaunched == old(updaterLaunched)
          && config == old(config)[LastExceptionTimeKey := Number(now)][LastMeetingStatusKey := Number(meetingStatus)]
        case LaunchUpdater =>
          exitCode == 0 && updaterLaunched && config == old(config)
        case RecordNormalExit =>
          && exitCode == ret && updaterLaunched == old(updaterLaunched)
          && config == old(config)[LastMeetingStatusKey := Number(1)]
    {
      if ret == 0 && (meetingStatus == 3 || meetingStatus == 4) {
        config := config[LastExceptionTimeKey := Number(now)];
        config := config[LastMeetingStatusKey := Number(meetingStatus)];
        return 0;
      }
      if RelaunchCode == ret {
        updaterLaunched := true;
        return 0;
      }
      config := config[LastMeetingStatusKey := Number(1)];
      return ret;
    }
  }
}
