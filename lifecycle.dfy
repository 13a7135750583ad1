/**
 * The start-up and tear-down sequence of the C screen reader's `main`, as a trace of the
 * resource steps it takes: loading the settings, initialising COM, creating the voice,
 * installing the keyboard hook, starting the monitor thread, and releasing all of them again.
 */
module Lifecycle {
  import opened Wrappers
  import opened UserConfig

  /** The resource steps of the process lifecycle. */
  datatype Step =
    | SettingsLoaded
    | ComInitialized
    | VoiceCreated
    | HookInstalled
    | ThreadStarted
    | MessageLoopExited
    | ThreadStopRequested
    | ThreadJoined
    | HookRemoved
    | VoiceReleased
    | ComUninitialized

  /** What the platform does at each start-up step of `main`. */
  datatype StartupHost = StartupHost(
    config: ConfigFile,
    layout: Layout,
    comInitializes: bool,
    voiceCreated: bool,
    hookInstalled: bool,
    threadCreated: bool)

  /** A whole run of `main`: the steps taken, and its exit code (`None`: it never returns). */
  datatype Run = Run(steps: seq<Step>, exit: Option<int>)

  function InitTtsSteps(comInitializes: bool, voiceCreated: bool): (r: seq<Step>)
  {
    if !comInitializes then []
    else if voiceCreated then [ComInitialized, VoiceCreated]
    else [ComInitialized, ComUninitialized]
  }

  /** `Cleanup`: unhook a non-null hook, release a non-null voice, always uninitialise COM. */
  function CleanupSteps(hook: bool, voice: bool): (r: seq<Step>)
    ensures r != [] && r[|r| - 1] == ComUninitialized
  {
    (if hook then [HookRemoved] else []) + (if voice then [VoiceReleased] else []) + [ComUninitialized]
  }

  /** True when one of the three fatal start-up steps fails. */
  predicate StartupFails(loads: bool, h: StartupHost)
  {
    !loads || !h.comInitializes || !h.voiceCreated || !h.hookInstalled
  }

  /**
   * What follows the message loop: stopping and joining the monitor thread when `stopsThread`
   * (the corrected shutdown) and it was started, then `Cleanup` with both handles set.
   */
  function TeardownSteps(threadStarted: bool, stopsThread: bool): (r: seq<Step>)
  {
    [MessageLoopExited]
    + (if threadStarted && stopsThread then [ThreadStopRequested, ThreadJoined] else [])
    + CleanupSteps(true, true)
  }

  /**
   * The steps of `main` up to installing the hook, given whether the settings load succeeds:
   * each fatal failure ends them, and a failed hook installation is followed by `Cleanup`.
   */
  function StartupSteps(loads: bool, h: StartupHost): (r: seq<Step>)
    ensures r == [] <==> !loads
    ensures r != [] ==> r[0] == SettingsLoaded
  {
    if !loads then []
    else if !(h.comInitializes && h.voiceCreated) then
      [SettingsLoaded] + InitTtsSteps(h.comInitializes, h.voiceCreated)
    else if !h.hookInstalled then
      [SettingsLoaded] + InitTtsSteps(true, true) + CleanupSteps(false, true)
    else
      [SettingsLoaded] + InitTtsSteps(true, true) + [HookInstalled]
  }

  /** The steps of `main`: start-up, then the monitor thread, the message loop and tear-down. */
  function MainSteps(loads: bool, h: StartupHost, stopsThread: bool): (r: seq<Step>)
    ensures StartupFails(loads, h) ==> r == StartupSteps(loads, h)
    ensures !StartupFails(loads, h) ==> r != [] && r[|r| - 1] == ComUninitialized
  {
    StartupSteps(loads, h)
    + if StartupFails(loads, h) then []
      else (if h.threadCreated then [ThreadStarted] else []) + TeardownSteps(h.threadCreated, stopsThread)
  }

  /**
   * The exit code of `main`: 1 after a fatal start-up step; otherwise 0, except that without a
   * stop signal the final wait for a running monitor thread never ends (`None`).
   */
  function MainExit(loads: bool, h: StartupHost, stopsThread: bool): (r: Option<int>)
    ensures r == Some(1) <==> StartupFails(loads, h)
    ensures r.None? <==> !StartupFails(loads, h) && h.threadCreated && !stopsThread
  {
    if StartupFails(loads, h) then Some(1)
    else if h.threadCreated && !stopsThread then None
    else Some(0)
  }

  /**
   * `main` as written: the loader compares the text-mode read count with the file size, and
   * `WaitForSingleObject(hUIThread, INFINITE)` waits for a loop that has no exit.
   */
  function MainRunAsWritten(h: StartupHost): (r: Run)
    ensures r.exit.None? <==> !StartupFails(LoadedSettingsAsWritten(h.config, h.layout).Some?, h) && h.threadCreated
  {
    var loads := LoadedSettingsAsWritten(h.config, h.layout).Some?;
    Run(MainSteps(loads, h, false), MainExit(loads, h, false))
  }

  /**
   * `main` corrected: the loader fails only on a genuine read error, and after the message loop
   * the monitor thread is told to stop and joined before anything is released.
   */
  function MainRun(h: StartupHost): (r: Run)
    ensures r.exit == Some(0) || r.exit == Some(1)
  {
    var loads := LoadedSettings(h.config, h.layout).Some?;
    Run(MainSteps(loads, h, true), MainExit(loads, h, true))
  }

  /**
   * `main` returns 1 exactly when loading the settings, initialising speech or installing the
   * hook fails, and 0 otherwise; whether the monitor thread starts does not matter.
   */
  lemma MainExitCode(h: StartupHost)
    ensures MainRun(h).exit == Some(if StartupFails(LoadedSettings(h.config, h.layout).Some?, h) then 1 else 0)
    ensures MainRun(h).exit == MainRun(h.(threadCreated := !h.threadCreated)).exit
  {
  }

  /** A resource is released in a trace exactly when it was acquired there. */
  predicate Released(s: seq<Step>, acquire: Step, release: Step)
  {
    acquire in s <==> release in s
  }

  /** Every resource of the process that a trace acquires, it also releases. */
  predicate ReleasesAll(s: seq<Step>)
  {
    && Released(s, ComInitialized, ComUninitialized)
    && Released(s, VoiceCreated, VoiceReleased)
    && Released(s, HookInstalled, HookRemoved)
    && Released(s, ThreadStarted, ThreadJoined)
  }

  /** `Cleanup` unhooks exactly when it holds a hook, releases exactly when it holds a voice. */
  lemma CleanupReleasesHeldHandles(hook: bool, voice: bool)
    ensures HookRemoved in CleanupSteps(hook, voice) <==> hook
    ensures VoiceReleased in CleanupSteps(hook, voice) <==> voice
  {
  }

  /**
   * Start-up installs the hook exactly when none of its fatal steps fails, and it never starts
   * or joins the monitor thread.
   */
  lemma StartupInstallsHookUnlessFatal(loads: bool, h: StartupHost)
    ensures HookInstalled in StartupSteps(loads, h) <==> !StartupFails(loads, h)
    ensures ThreadStarted !in StartupSteps(loads, h) && ThreadJoined !in StartupSteps(loads, h)
  {
  }

  /** `main` initialises COM exactly when it later uninitialises it. */
  lemma MainReleasesCom(loads: bool, h: StartupHost)
    ensures Released(MainSteps(loads, h, true), ComInitialized, ComUninitialized)
  {
  }

  /** `main` creates a voice exactly when it later releases one. */
  lemma MainReleasesVoice(loads: bool, h: StartupHost)
    ensures Released(MainSteps(loads, h, true), VoiceCreated, VoiceReleased)
  {
  }

  /** `main` installs the hook exactly when it later removes it: `Cleanup` never unhooks a null hook. */
  lemma MainReleasesHook(loads: bool, h: StartupHost)
    ensures Released(MainSteps(loads, h, true), HookInstalled, HookRemoved)
  {
  }

  /** With the corrected shutdown, a started monitor thread is always joined. */
  lemma MainJoinsThread(loads: bool, h: StartupHost)
    ensures Released(MainSteps(loads, h, true), ThreadStarted, ThreadJoined)
  {
    StartupInstallsHookUnlessFatal(loads, h);
    if StartupFails(loads, h) {
      assert MainSteps(loads, h, true) == StartupSteps(loads, h);
    } else if h.threadCreated {
      MainJoinsBeforeReleasing(loads, h);
    } else {
      assert MainSteps(loads, h, true)
        == StartupSteps(loads, h) + [MessageLoopExited, HookRemoved, VoiceReleased, ComUninitialized];
    }
  }

  /**
   * With the corrected shutdown, whatever `main` acquires (COM, the voice, the hook, the
   * monitor thread) it releases again, whichever start-up step fails.
   */
  lemma MainReleasesWhatItAcquires(loads: bool, h: StartupHost)
    ensures ReleasesAll(MainSteps(loads, h, true))
  {
    MainReleasesCom(loads, h);
    MainReleasesVoice(loads, h);
    MainReleasesHook(loads, h);
    MainJoinsThread(loads, h);
  }

  /**
   * As written, a successful start-up with the monitor thread running never returns, and the
   * voice is released while that thread has not been joined.
   */
  lemma MainHangsAsWritten(h: StartupHost)
    requires !StartupFails(LoadedSettingsAsWritten(h.config, h.layout).Some?, h) && h.threadCreated
    ensures MainRunAsWritten(h).exit == None
    ensures ThreadStarted in MainRunAsWritten(h).steps && ThreadJoined !in MainRunAsWritten(h).steps
    ensures VoiceReleased in MainRunAsWritten(h).steps && !ReleasesAll(MainRunAsWritten(h).steps)
  {
  }

  /**
   * As written, after a successful start with the thread running, `main` unhooks, releases the
   * voice and uninitialises COM while the thread it never stops goes on running.
   */
  lemma MainReleasesUnderRunningThreadAsWritten(loads: bool, h: StartupHost)
    requires !StartupFails(loads, h) && h.threadCreated
    ensures MainSteps(loads, h, false) == StartupSteps(loads, h)
              + [ThreadStarted, MessageLoopExited, HookRemoved, VoiceReleased, ComUninitialized]
  {
  }

  /**
   * Corrected: after a successful start with the thread running, the thread is told to stop and
   * joined before the hook, the voice and COM are released, in that order.
   */
  lemma MainJoinsBeforeReleasing(loads: bool, h: StartupHost)
    requires !StartupFails(loads, h) && h.threadCreated
    ensures MainSteps(loads, h, true) == StartupSteps(loads, h)
              + [ThreadStarted, MessageLoopExited, ThreadStopRequested, ThreadJoined,
                 HookRemoved, VoiceReleased, ComUninitialized]
  {
  }

  /** Corrected: `main` always returns, and a started monitor thread is joined. */
  lemma MainAlwaysReturns(h: StartupHost)
    ensures MainRun(h).exit.Some?
    ensures ThreadStarted in MainRun(h).steps ==> ThreadJoined in MainRun(h).steps
  {
    MainJoinsThread(LoadedSettings(h.config, h.layout).Some?, h);
  }

  /**
   * As written, a config file with Windows line endings aborts start-up with exit code 1,
   * where the corrected loader starts normally.
   */
  lemma CrlfConfigAbortsAsWritten(h: StartupHost)
    requires h.config.Present? && h.config.allocates && !h.config.ioError && HasCrlf(h.config.contents)
    requires h.comInitializes && h.voiceCreated && h.hookInstalled
    ensures MainRunAsWritten(h).exit == Some(1)
    ensures MainRun(h).exit == Some(0)
  {
    CrlfConfigFailsAsWritten(h.config.contents, h.config.parsed, h.layout);
  }
}
