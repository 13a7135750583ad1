/**
 * The C screen reader's global state and the code that drives it: the speech guard
 * `SpeakText`, the keyboard-layout detector, the low-level keyboard hook callback, the settings
 * loader, and the start-up and tear-down sequence of `main`.  Speech is recorded as a sequence
 * of utterances; the lifecycle is recorded as a trace of the resource steps taken.
 */
module ScreenReader {
  import opened Wrappers
  import opened UserConfig
  import opened KeyClassifier
  import opened Lifecycle

  const LayoutChangedPhrase: string := "키보드 언어가 변경되었습니다."

  /** One request accepted by the speech engine: the text and the settings applied to it. */
  datatype Utterance = Utterance(text: string, speechRate: real, volume: real)

  /** The fields of the hook's arguments the callback looks at. */
  datatype KeyEvent = KeyEvent(nCode: int, wParam: int, vkCode: int)

  /**
   * Where a structured exception interrupts the guarded block of the hook, if anywhere:
   * while classifying (before anything is spoken), or after the classification, before the
   * layout check.
   */
  datatype Fault = NoFault | FaultInClassifier | FaultInLocaleCheck

  /** The call `CallNextHookEx` receives: the event passed on unchanged. */
  datatype NextHook = CallNextHook(nCode: int, wParam: int, vkCode: int)

  /** The hook handles only key-down events with a non-negative hook code. */
  predicate Handled(ev: KeyEvent)
  {
    ev.nCode >= 0 && ev.wParam == WM_KEYDOWN
  }

  /** What one `SpeakText` call submits: nothing when there is no voice object. */
  function Speech(s: UserSettings, voiceReady: bool, text: string): (r: seq<Utterance>)
  {
    if voiceReady then [Utterance(text, s.speechRate, s.volume)] else []
  }

  /** The layout comparison: the new settings, and whether the layout changed. */
  function LocaleCheck(s: UserSettings, current: Layout): (r: (UserSettings, bool))
    ensures r.0.keyboardLayout == current
    ensures r.0.speechRate == s.speechRate && r.0.volume == s.volume && r.0.pollInterval == s.pollInterval
    ensures r.1 <==> current != s.keyboardLayout
  {
    if current != s.keyboardLayout then (s.(keyboardLayout := current), true) else (s, false)
  }

  /** The speech the classification of one event produces. */
  function ClassifiedSpeech(s: UserSettings, voiceReady: bool, vk: int, host: HostView): (r: seq<Utterance>)
  {
    match Classify(vk, host)
    case Some(phrase) => Speech(s, voiceReady, phrase)
    case None => []
  }

  /** The speech the layout check produces. */
  function LocaleSpeech(s: UserSettings, voiceReady: bool, current: Layout): (r: seq<Utterance>)
  {
    if LocaleCheck(s, current).1 then Speech(LocaleCheck(s, current).0, voiceReady, LayoutChangedPhrase) else []
  }

  /** The settings after one hook invocation and the utterances it submits, in order. */
  function KeyEventEffect(s: UserSettings, voiceReady: bool, ev: KeyEvent, host: HostView,
                          current: Layout, fault: Fault): (r: (UserSettings, seq<Utterance>))
    ensures r.0 == if Handled(ev) && fault.NoFault? then LocaleCheck(s, current).0 else s
    ensures |r.1| <= 2 && (!voiceReady ==> r.1 == [])
    ensures forall i | 0 <= i < |r.1| :: r.1[i].speechRate == s.speechRate && r.1[i].volume == s.volume
  {
    if !Handled(ev) || fault == FaultInClassifier then
      (s, [])
    else if fault == FaultInLocaleCheck then
      (s, ClassifiedSpeech(s, voiceReady, ev.vkCode, host))
    else
      (LocaleCheck(s, current).0,
       ClassifiedSpeech(s, voiceReady, ev.vkCode, host) + LocaleSpeech(s, voiceReady, current))
  }

  /** How many utterances carry the given text. */
  function CountText(u: seq<Utterance>, text: string): (n: nat)
    ensures n <= |u|
  {
    if u == [] then 0 else (if u[0].text == text then 1 else 0) + CountText(u[1..], text)
  }

  lemma {:induction false} CountTextAppend(a: seq<Utterance>, b: seq<Utterance>, text: string)
    ensures CountText(a + b, text) == CountText(a, text) + CountText(b, text)
  {
    if a == [] {
      assert a + b == b;
    } else {
      assert (a + b)[1..] == a[1..] + b;
      CountTextAppend(a[1..], b, text);
    }
  }

  /** The layout announcement is never the phrase of a classified key. */
  lemma LayoutPhraseNeverClassified(vk: int, host: HostView)
    ensures Classify(vk, host) != Some(LayoutChangedPhrase)
  {
    assert LayoutChangedPhrase[0] == '키' && WindowPrefix[0] == '현';
    NoPhraseOutsideClassifier(vk, host, LayoutChangedPhrase);
  }

  /** Events other than key-downs with a non-negative code produce no speech and no layout check. */
  lemma UnhandledEventChangesNothing(s: UserSettings, voiceReady: bool, ev: KeyEvent, host: HostView,
                                     current: Layout, fault: Fault)
    requires !Handled(ev)
    ensures KeyEventEffect(s, voiceReady, ev, host, current, fault) == (s, [])
  {
  }

  /**
   * Enter, Space, Backspace or Escape pressed with a voice and no layout change: exactly one
   * utterance, the key's fixed phrase with the current settings, and the settings unchanged.
   */
  lemma NamedKeySpokenOnce(s: UserSettings, ev: KeyEvent, host: HostView)
    requires Handled(ev) && ev.vkCode in {VK_RETURN, VK_SPACE, VK_BACK, VK_ESCAPE}
    ensures KeyEventEffect(s, true, ev, host, s.keyboardLayout, NoFault)
         == (s, [Utterance(NamedKeyPhrase(ev.vkCode).value, s.speechRate, s.volume)])
  {
    NamedKeysIgnoreHost(ev.vkCode, host);
    var phrase := NamedKeyPhrase(ev.vkCode).value;
    assert Classify(ev.vkCode, host) == Some(phrase);
    assert ClassifiedSpeech(s, true, ev.vkCode, host) == [Utterance(phrase, s.speechRate, s.volume)];
    assert LocaleCheck(s, s.keyboardLayout) == (s, false);
    assert LocaleSpeech(s, true, s.keyboardLayout) == [];
    var u := [Utterance(phrase, s.speechRate, s.volume)];
    assert u + [] == u;
    assert KeyEventEffect(s, true, ev, host, s.keyboardLayout, NoFault) == (s, u + []);
  }

  /**
   * Without a fault, the layout check runs after the classification: the key's speech comes
   * first, the layout announcement (if any) last, and the stored layout becomes the current one.
   */
  lemma LocaleCheckFollowsClassification(s: UserSettings, voiceReady: bool, ev: KeyEvent, host: HostView,
                                         current: Layout)
    requires Handled(ev)
    ensures var r := KeyEventEffect(s, voiceReady, ev, host, current, NoFault);
      && r.0 == s.(keyboardLayout := current)
      && r.1 == ClassifiedSpeech(s, voiceReady, ev.vkCode, host) + LocaleSpeech(s, voiceReady, current)
      && |LocaleSpeech(s, voiceReady, current)| == (if voiceReady && current != s.keyboardLayout then 1 else 0)
  {
  }

  /** A fault while classifying leaves everything as it was; the event is still passed on. */
  lemma ClassifierFaultChangesNothing(s: UserSettings, voiceReady: bool, ev: KeyEvent, host: HostView,
                                      current: Layout)
    ensures KeyEventEffect(s, voiceReady, ev, host, current, FaultInClassifier) == (s, [])
  {
  }

  /**
   * Two successive key-downs while the layout is `current`: the change is announced exactly
   * once (when there is a change and a voice), and the second event leaves the settings alone.
   */
  lemma LayoutChangeAnnouncedOnce(s: UserSettings, voiceReady: bool, current: Layout,
                                  e1: KeyEvent, h1: HostView, e2: KeyEvent, h2: HostView)
    requires Handled(e1)
    ensures var r1 := KeyEventEffect(s, voiceReady, e1, h1, current, NoFault);
            var r2 := KeyEventEffect(r1.0, voiceReady, e2, h2, current, NoFault);
      && r2.0 == r1.0
      && CountText(r1.1 + r2.1, LayoutChangedPhrase)
         == (if voiceReady && current != s.keyboardLayout then 1 else 0)
  {
    var r1 := KeyEventEffect(s, voiceReady, e1, h1, current, NoFault);
    var r2 := KeyEventEffect(r1.0, voiceReady, e2, h2, current, NoFault);
    LayoutPhraseNeverClassified(e1.vkCode, h1);
    LayoutPhraseNeverClassified(e2.vkCode, h2);
    var c1 := ClassifiedSpeech(s, voiceReady, e1.vkCode, h1);
    var l1 := LocaleSpeech(s, voiceReady, current);
    assert CountText(c1, LayoutChangedPhrase) == 0;
    assert CountText(l1, LayoutChangedPhrase) == |l1|;
    CountTextAppend(c1, l1, LayoutChangedPhrase);
    if Handled(e2) {
      var c2 := ClassifiedSpeech(r1.0, voiceReady, e2.vkCode, h2);
      assert LocaleSpeech(r1.0, voiceReady, current) == [];
      assert r2.1 == c2 + [];
      assert CountText(c2, LayoutChangedPhrase) == 0;
    }
    assert CountText(r2.1, LayoutChangedPhrase) == 0;
    CountTextAppend(r1.1, r2.1, LayoutChangedPhrase);
  }

  /** Checking the layout twice in a row with no change in between: the second check does nothing. */
  lemma LocaleCheckIdempotent(s: UserSettings, current: Layout)
    ensures LocaleCheck(LocaleCheck(s, current).0, current) == (LocaleCheck(s, current).0, false)
    ensures LocaleSpeech(LocaleCheck(s, current).0, true, current) == []
  {
  }

  // ---------------------------------------------------------------------------------------
  // The process state

  /** The globals of the C program: `g_Settings`, `g_pVoice`, `g_hKeyboardHook`. */
  class ReaderProcess {
    var settings: UserSettings
    var voice: bool               // g_pVoice != NULL
    var hook: bool                // g_hKeyboardHook != NULL
    var spoken: seq<Utterance>    // every request the speech engine accepted, in order
    var trace: seq<Step>          // the lifecycle steps taken, in order

    /** The process at start: static storage zero-initialised, nothing spoken, nothing done. */
    constructor ()
      ensures settings == UserSettings(0.0, 0.0, 0, 0)
      ensures !voice && !hook && spoken == [] && trace == []
    {
      settings := UserSettings(0.0, 0.0, 0, 0);
      voice, hook := false, false;
      spoken, trace := [], [];
    }

    /** Submits `text` with the current rate and volume, unless there is no voice object. */
    method SpeakText(text: string)
      modifies this`spoken
      ensures voice ==> spoken == old(spoken) + [Utterance(text, settings.speechRate, settings.volume)]
      ensures !voice ==> spoken == old(spoken)
    {
      if !voice {
        return;
      }
      spoken := spoken + [Utterance(text, settings.speechRate, settings.volume)];
    }

    /**
     * Compares the active layout with the stored one; on a change, stores it and announces it
     * once.  A second call with the same layout changes nothing.
     */
    method UpdateKeyboardLayout(current: Layout)
      modifies this`settings, this`spoken
      ensures settings == old(settings).(keyboardLayout := current)
      ensures spoken == old(spoken) + LocaleSpeech(old(settings), voice, current)
    {
      if current != settings.keyboardLayout {
        settings := settings.(keyboardLayout := current);
        SpeakText(LayoutChangedPhrase);
      }
    }

    /**
     * The hook callback: classify a key-down, speak the phrase, check the layout, and always
     * pass the event on unchanged, also after a fault.
     */
    method KeyboardProc(ev: KeyEvent, host: HostView, current: Layout, fault: Fault) returns (next: NextHook)
      modifies this`settings, this`spoken
      ensures next == CallNextHook(ev.nCode, ev.wParam, ev.vkCode)
      ensures settings == KeyEventEffect(old(settings), voice, ev, host, current, fault).0
      ensures spoken == old(spoken) + KeyEventEffect(old(settings), voice, ev, host, current, fault).1
    {
      if Handled(ev) && fault != FaultInClassifier {
        var phrase := Classify(ev.vkCode, host);
        if phrase.Some? {
          SpeakText(phrase.value);
        }
        if fault != FaultInLocaleCheck {
          UpdateKeyboardLayout(current);
        }
      }
      next := CallNextHook(ev.nCode, ev.wParam, ev.vkCode);
    }

    /**
     * Loads the settings from config.json (with the read check corrected): FALSE, with the
     * settings untouched, only when allocation or reading fails; otherwise every field is set,
     * the layout to the active one.
     */
    method LoadUserSettings(file: ConfigFile, current: Layout) returns (ok: bool)
      modifies this`settings, this`trace
      ensures ok <==> LoadedSettings(file, current).Some?
      ensures settings == LoadedSettings(file, current).GetOr(old(settings))
      ensures trace == old(trace) + (if ok then [SettingsLoaded] else [])
    {
      match file {
        case Missing =>
          settings := settings.(speechRate := DefaultSpeechRate, volume := DefaultVolume,
                                pollInterval := DefaultPollInterval, keyboardLayout := current);
        case Present(_, allocates, ioError, parsed) =>
          if !allocates || ioError {
            return false;
          }
          match parsed {
            case None =>
              settings := settings.(speechRate := DefaultSpeechRate, volume := DefaultVolume,
                                    pollInterval := DefaultPollInterval, keyboardLayout := current);
            case Some(doc) =>
              settings := settings.(speechRate := doc.speechRate.GetOr(DefaultSpeechRate));
              settings := settings.(volume := doc.volume.GetOr(DefaultVolume));
              settings := settings.(pollInterval := doc.pollInterval.GetOr(DefaultPollInterval));
              settings := settings.(keyboardLayout := current);
          }
      }
      trace := trace + [SettingsLoaded];
      ok := true;
    }

    /** Initialises COM and creates the voice; on a creation failure COM is uninitialised again. */
    method InitTTS(comInitializes: bool, voiceCreated: bool) returns (ok: bool)
      modifies this`voice, this`trace
      ensures ok == (comInitializes && voiceCreated)
      ensures voice == if comInitializes then voiceCreated else old(voice)
      ensures trace == old(trace) + InitTtsSteps(comInitializes, voiceCreated)
    {
      if !comInitializes {
        return false;
      }
      trace := trace + [ComInitialized];
      voice := voiceCreated;
      if !voice {
        trace := trace + [ComUninitialized];
        return false;
      }
      trace := trace + [VoiceCreated];
      ok := true;
    }

    /** Installs the low-level keyboard hook; the handle is null when installation fails. */
    method SetKeyboardHook(installs: bool) returns (ok: bool)
      modifies this`hook, this`trace
      ensures ok == installs && hook == installs
      ensures trace == old(trace) + (if installs then [HookInstalled] else [])
    {
      hook := installs;
      if !hook {
        return false;
      }
      trace := trace + [HookInstalled];
      ok := true;
    }

    /** Starts the monitor thread; a failure is only logged. */
    method StartMonitorThread(created: bool) returns (started: bool)
      modifies this`trace
      ensures started == created
      ensures trace == old(trace) + (if created then [ThreadStarted] else [])
    {
      started := created;
      if started {
        trace := trace + [ThreadStarted];
      }
    }

    /** Signals the monitor thread to stop and waits until it has. */
    method StopMonitorThread()
      modifies this`trace
      ensures trace == old(trace) + [ThreadStopRequested, ThreadJoined]
    {
      trace := trace + [ThreadStopRequested];
      trace := trace + [ThreadJoined];
    }

    /** The message loop, up to the point where it exits. */
    method RunMessageLoop()
      modifies this`trace
      ensures trace == old(trace) + [MessageLoopExited]
    {
      trace := trace + [MessageLoopExited];
    }

    /** Releases what is held: the hook if non-null, the voice if non-null, then COM. */
    method Cleanup()
      modifies this`trace
      ensures trace == old(trace) + CleanupSteps(hook, voice)
    {
      if hook {
        trace := trace + [HookRemoved];
      }
      if voice {
        trace := trace + [VoiceReleased];
      }
      trace := trace + [ComUninitialized];
    }

    /**
     * The fatal start-up steps of `main`: loading the settings, initialising speech and
     * installing the hook, cleaning up when only the hook fails.
     */
    method StartUp(h: StartupHost) returns (ok: bool)
      modifies this
      ensures ok <==> !StartupFails(LoadedSettings(h.config, h.layout).Some?, h)
      ensures trace == old(trace) + StartupSteps(LoadedSettings(h.config, h.layout).Some?, h)
      ensures settings == LoadedSettings(h.config, h.layout).GetOr(old(settings))
      ensures spoken == old(spoken)
      ensures voice == if LoadedSettings(h.config, h.layout).Some? && h.comInitializes then h.voiceCreated else old(voice)
      ensures hook == if LoadedSettings(h.config, h.layout).Some? && h.comInitializes && h.voiceCreated
                      then h.hookInstalled else old(hook)
    {
      ok := LoadUserSettings(h.config, h.layout);
      if !ok {
        return;
      }
      ok := InitTTS(h.comInitializes, h.voiceCreated);
      if !ok {
        return;
      }
      ok := SetKeyboardHook(h.hookInstalled);
      if !ok {
        Cleanup();
      }
    }

    /**
     * `main` (with the corrected loader and shutdown): start-up with its early returns, the
     * monitor thread, the message loop, then stopping the thread and cleaning up.
     */
    method RunMain(h: StartupHost) returns (exit: int)
      modifies this
      ensures MainRun(h).exit == Some(exit)
      ensures trace == old(trace) + MainRun(h).steps
      ensures settings == LoadedSettings(h.config, h.layout).GetOr(old(settings))
      ensures spoken == old(spoken)
      ensures voice == if LoadedSettings(h.config, h.layout).Some? && h.comInitializes then h.voiceCreated else old(voice)
      ensures hook == if LoadedSettings(h.config, h.layout).Some? && h.comInitializes && h.voiceCreated
                      then h.hookInstalled else old(hook)
    {
      var ok := StartUp(h);
      if !ok {
        return 1;
      }
      ghost var t1 := trace;
      var thread := StartMonitorThread(h.threadCreated);
      RunMessageLoop();
      if thread {
        StopMonitorThread();
      }
      Cleanup();
      assert trace == t1 + ((if thread then [ThreadStarted] else []) + TeardownSteps(thread, true));
      exit := 0;
    }
  }
}
