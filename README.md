# Korean screen reader: the decision logic, modelled in Dafny

The repository holds a small Windows screen reader in two forms. One is a C program (`cJson.c`) with these parts:

- a low-level keyboard hook that speaks key presses in Korean;
- a keyboard-layout change detector;
- settings loaded from `config.json`;
- a start-up and tear-down sequence around SAPI, the hook and a polling thread.

The other is a pair of Python programs:

- `src.py`: a UI Automation focus handler, a keyboard listener with a table of Korean key names, and the choice of a Korean voice;
- `test.py`: a polling focus monitor, `focus_monitor_thread`. The file defines it, but its `__main__` block (test.py:75-84) never starts it; only a mouse-position debug thread runs there.

This project models the decision logic on top of the platform calls and proves properties about it. Every platform query is an input of the model. This covers the cursor and window lookups, the window title, `ToUnicode`, the active layout, the UI Automation properties and what the file system and cJSON report. Speech is recorded as a growing sequence of utterances.

Modules:

- `UserConfig` (`user_config.dfy`): the settings record and what `LoadUserSettings` derives from the config file.
- `KeyClassifier` (`key_classifier.dfy`): the switch of `KeyboardProc`, i.e. which phrase a key-down is spoken as. `Classify` uses the corrected, length-bounded F1 formatting `F1Phrase`; `F1PhraseUnbounded` is the F1 formatting as written.
- `Lifecycle` (`lifecycle.dfy`): `main` as a trace of resource steps and an exit code.
- `ScreenReader` (`screen_reader.dfy`): the C program's globals as the class `ReaderProcess`. Its methods are `SpeakText`, `UpdateKeyboardLayout`, `KeyboardProc`, `LoadUserSettings`, `InitTTS`, `SetKeyboardHook`, `StartMonitorThread`, `StopMonitorThread`, `RunMessageLoop`, `Cleanup` and the start-up and run of `main`. `ReaderProcess` models the corrected program: the F1 phrase is formatted with a length bound and the settings loader fails only on a genuine read error (see "## Findings"). The code as written is modelled by separate functions in `KeyClassifier`, `UserConfig` and `Lifecycle`. The module also has the per-event effect functions these methods are proved against.
- `SpeechEngine` (`speech_engine.dfy`): the pyttsx3 engine as a class with its properties and the texts it has spoken.
- `Announcer` (`announcer.dfy`): the "speak only new, non-empty text" rule that both Python programs share, and its properties over any run.
- `KoreanReader` (`korean_reader.dfy`): `src.py`, meaning the voice selection, the key-name table, the focus text and the classes `FocusChangeHandler` and `KoreanScreenReader`.
- `FocusMonitor` (`focus_monitor.dfy`): `test.py`'s `init_tts` and `focus_monitor_thread` (defined there but never started), as the class `Monitor` with one method per poll and one for the loop.
- `Wrappers` (`wrappers.dfy`): `Option`.

Not every configuration problem is recoverable: `LoadUserSettings` returns FALSE when the buffer cannot be allocated or the read comes up short, and `main` then exits with 1. The hook acts on `WM_KEYDOWN` only; every other message, `WM_SYSKEYDOWN` included, is only forwarded.

## Model

| member | source | states |
|---|---|---|
| UserConfig.Defaults | cJson.c:57-60 | every "use defaults" path sets rate 1.0, volume 1.0, poll interval 5000 and the active layout |
| UserConfig.FromDocument | cJson.c:96-106 | the layout becomes the active one; each field comes from its own member |
| UserConfig.TextModeRead | cJson.c:53-74 | a text-mode read delivers fewer characters than the file holds exactly when the file contains CR LF |
| UserConfig.LoadedSettings | cJson.c:52-111 | (corrected read check) FALSE exactly on an allocation or read error; a parsed document gives the per-field result; a missing file or a parse error gives the defaults; every TRUE path stores the active layout |
| UserConfig.LoadedSettingsAsWritten | cJson.c:52-111 | as written: no settings exactly when the file is present and the buffer cannot be allocated, the read fails or the text-mode read comes up short because of CR LF; every success stores the active layout |
| UserConfig.MissingFileGivesDefaults | cJson.c:53-61 | a missing file gives rate 1.0, volume 1.0, poll 5000 and success |
| UserConfig.ParseErrorLikeMissingFile | cJson.c:84-93 | a parse error gives exactly what a missing file gives |
| UserConfig.EmptyDocumentLikeMissingFile | cJson.c:96-106 | a document with no numeric member gives the same settings as a missing file |
| UserConfig.FieldsDefaultIndependently | cJson.c:96-103 | each field depends only on its own member, and takes the parsed number when there is one |
| UserConfig.CrlfConfigFailsAsWritten | cJson.c:53-79 | as written, any CR LF in the file makes the load return FALSE |
| UserConfig.CrlfExampleFailsAsWritten | cJson.c:74-79 | as written, the file `{` CR LF `}` fails to load |
| UserConfig.LineEndingsDoNotMatter | cJson.c:52-111 | corrected: the outcome of the load does not depend on the file's raw contents, so CR LF endings cannot make it fail |
| UserConfig.CorrectionOnlyAffectsCrlf | cJson.c:52-111 | the corrected loader agrees with the written one on every file without CR LF |
| KeyClassifier.CString | cJson.c:231-235 | the spoken text is the buffer up to its first NUL |
| KeyClassifier.NamedKeyPhrase | cJson.c:211-226 | exactly Enter, Space, Backspace and Escape have a fixed phrase |
| KeyClassifier.WindowLabel | cJson.c:200-203 | the label is the title as `GetWindowText` copies it (at most 255 characters), or "정보 없음" when nothing is copied |
| KeyClassifier.F1PhraseUnbounded | cJson.c:204 | the unbounded phrase is "현재 창: " followed by the label, and for titles of 255 characters or more it has the prefix's length plus 255 |
| KeyClassifier.F1Phrase | cJson.c:204 | (bounded formatting) the phrase fits the 256-character buffer, starts with "현재 창: ", is a prefix of the unbounded phrase, and equals it when that fits |
| KeyClassifier.TranslatedText | cJson.c:229-237 | the spoken translation is a prefix of what `ToUnicode` stored, at most 4 characters |
| KeyClassifier.Classify | cJson.c:193-241 | (corrected F1 formatting) any phrase fits the 256-character buffer; no phrase only for a key without a fixed phrase; a phrase of a key that is neither F1 nor named has at most 4 characters |
| KeyClassifier.NamedKeysIgnoreHost | cJson.c:211-226 | the four named keys are spoken as "엔터", "스페이스", "백스페이스" and "이스케이프", whatever the host reports |
| KeyClassifier.F1Behaviour | cJson.c:194-208 | (corrected) F1 speaks exactly when the cursor and window lookups both succeed; for a title of 249 characters or fewer it speaks "현재 창: " plus the title, or plus "정보 없음" for an empty title |
| KeyClassifier.TranslatedKeyBehaviour | cJson.c:227-240 | any other key is spoken exactly when `ToUnicode` returns more than 0, and then as the whole translation |
| KeyClassifier.WholeTranslationSpoken | cJson.c:231-235 | a translation of up to 4 characters without a NUL is spoken untruncated |
| KeyClassifier.NoPhraseOutsideClassifier | cJson.c:193-240 | no key is classified as a text longer than 4 characters that is neither a named phrase nor starts like the F1 prefix |
| KeyClassifier.F1PhraseOverflows | cJson.c:190-204 | as written, a title of 250 or more characters formats more than the 256-character buffer holds |
| KeyClassifier.F1PhraseFits | cJson.c:190-204 | corrected: the F1 phrase plus NUL always fits, and titles of 249 characters or fewer are not cut |
| ScreenReader.Handled | cJson.c:188 | the hook acts only on a `WM_KEYDOWN` event with a non-negative hook code |
| ScreenReader.Speech | cJson.c:135-151 | one `SpeakText` call: the text with the current rate and volume when there is a voice object, nothing otherwise |
| ScreenReader.ClassifiedSpeech | cJson.c:193-241 | (corrected F1 formatting) the speech of the classified phrase, and nothing for a key that has no phrase |
| ScreenReader.LocaleSpeech | cJson.c:156-163 | the layout announcement, spoken with the updated settings exactly when the layout changed |
| ScreenReader.LocaleCheck | cJson.c:156-163 | the stored layout becomes the current one; the other fields are kept; it reports a change exactly when the layouts differ |
| ScreenReader.KeyEventEffect | cJson.c:187-250 | (corrected F1 formatting) a handled event without a fault runs the layout check, any other leaves the settings as they were; at most two utterances, none without a voice, each with the current rate and volume |
| ScreenReader.LayoutPhraseNeverClassified | cJson.c:160 | no key event is ever classified as the layout announcement |
| ScreenReader.UnhandledEventChangesNothing | cJson.c:188-249 | an event that is not a key-down with `nCode >= 0` produces no speech and no layout check |
| ScreenReader.NamedKeySpokenOnce | cJson.c:211-226 | a named key with no layout change gives exactly one utterance (its phrase) and leaves the settings unchanged |
| ScreenReader.LocaleCheckFollowsClassification | cJson.c:242-243 | without a fault, the layout check runs after the key's speech and stores the current layout; it announces at most once |
| ScreenReader.ClassifierFaultChangesNothing | cJson.c:192-247 | a fault while classifying leaves the settings and the speech as they were |
| ScreenReader.LayoutChangeAnnouncedOnce | cJson.c:156-163 | two events under the same layout announce the change exactly once (when there is a change and a voice), and the second event changes nothing |
| ScreenReader.LocaleCheckIdempotent | cJson.c:156-163 | a second check with no change in between changes nothing and speaks nothing |
| ScreenReader.ReaderProcess.constructor | cJson.c:20-30 | the globals start zeroed: no voice, no hook, nothing spoken |
| ScreenReader.ReaderProcess.SpeakText | cJson.c:135-151 | the text is submitted with the current rate and volume when there is a voice, and nothing happens otherwise |
| ScreenReader.ReaderProcess.UpdateKeyboardLayout | cJson.c:156-163 | stores the current layout and appends exactly the layout speech of `LocaleSpeech` |
| ScreenReader.ReaderProcess.KeyboardProc | cJson.c:187-250 | (corrected F1 formatting) the new settings and the speech appended are those of `KeyEventEffect`; every path forwards the unchanged event |
| ScreenReader.ReaderProcess.LoadUserSettings | cJson.c:52-111 | (corrected read check) returns TRUE exactly when `LoadedSettings` succeeds; the settings are untouched on FALSE |
| ScreenReader.ReaderProcess.InitTTS | cJson.c:116-130 | succeeds exactly when COM initialises and the voice is created; COM is uninitialised again after a voice failure |
| ScreenReader.ReaderProcess.SetKeyboardHook | cJson.c:255-263 | succeeds exactly when the hook is installed; the handle is null otherwise |
| ScreenReader.ReaderProcess.StartMonitorThread | cJson.c:313-318 | reports whether the thread was created; a failure adds no step and is not fatal |
| ScreenReader.ReaderProcess.StopMonitorThread | cJson.c:326-329 | (corrected) the thread is told to stop, then joined |
| ScreenReader.ReaderProcess.RunMessageLoop | cJson.c:268-274 | the loop returns control once it exits |
| ScreenReader.ReaderProcess.Cleanup | cJson.c:279-288 | unhooks only a non-null hook, releases only a non-null voice, always uninitialises COM |
| ScreenReader.ReaderProcess.StartUp | cJson.c:293-310 | (corrected read check) succeeds exactly when loading, initialising speech and hooking all succeed; a failed hook is followed by `Cleanup` |
| ScreenReader.ReaderProcess.RunMain | cJson.c:293-332 | (corrected) the exit code and the step trace are those of `MainRun` |
| Lifecycle.InitTtsSteps | cJson.c:116-130 | `InitTTS`: nothing when COM fails to initialise; COM then the voice on success; COM and then `CoUninitialize` when the voice cannot be created |
| Lifecycle.TeardownSteps | cJson.c:320-329 | after the message loop: the stop and join of a started thread only when it is told to stop (the corrected shutdown), then `Cleanup` with both handles held |
| Lifecycle.CleanupSteps | cJson.c:279-288 | `Cleanup` always ends by uninitialising COM |
| Lifecycle.CleanupReleasesHeldHandles | cJson.c:279-288 | `Cleanup` unhooks exactly when it holds a hook and releases exactly when it holds a voice |
| Lifecycle.StartupSteps | cJson.c:295-310 | start-up takes no step when loading fails, and otherwise starts by loading the settings |
| Lifecycle.StartupInstallsHookUnlessFatal | cJson.c:295-310 | the hook is installed exactly when no fatal step fails; start-up neither starts nor joins the thread |
| Lifecycle.MainSteps | cJson.c:293-332 | a fatal start-up failure ends the trace; otherwise it ends by uninitialising COM |
| Lifecycle.MainExit | cJson.c:293-332 | 1 exactly on a fatal start-up failure; no return exactly when start-up succeeds, the thread runs and is never told to stop |
| Lifecycle.MainRunAsWritten | cJson.c:293-332 | as written, `main` never returns exactly when start-up succeeds and the thread was created |
| Lifecycle.MainRun | cJson.c:293-332 | corrected, `main` always returns 0 or 1 |
| Lifecycle.MainExitCode | cJson.c:293-332 | `main` returns 1 exactly when one of the three fatal steps fails, and 0 otherwise, whether or not the thread starts |
| Lifecycle.MainReleasesCom | cJson.c:116-130 | COM is uninitialised exactly when it was initialised |
| Lifecycle.MainReleasesVoice | cJson.c:279-288 | the voice is released exactly when it was created |
| Lifecycle.MainReleasesHook | cJson.c:279-282 | the hook is removed exactly when it was installed |
| Lifecycle.MainJoinsThread | cJson.c:313-329 | (corrected) the monitor thread is joined exactly when it was started |
| Lifecycle.MainReleasesWhatItAcquires | cJson.c:279-332 | (corrected) COM, the voice, the hook and the thread are each released exactly when acquired, whichever step fails |
| Lifecycle.MainHangsAsWritten | cJson.c:168-182 | as written, a successful start with a running thread never returns, and the voice is released while the thread is never joined |
| Lifecycle.MainReleasesUnderRunningThreadAsWritten | cJson.c:324-329 | as written, after a successful start with the thread running, the trace ends with the message loop exiting, then the hook, the voice and COM being released, and no stop or join |
| Lifecycle.MainJoinsBeforeReleasing | cJson.c:324-329 | corrected, after a successful start with the thread running, the thread is told to stop and joined before the hook, the voice and COM are released, in that order |
| Lifecycle.MainAlwaysReturns | cJson.c:324-329 | corrected: `main` always returns, and a started thread is joined |
| Lifecycle.CrlfConfigAbortsAsWritten | cJson.c:295-298 | as written, a CR LF config file makes `main` return 1; corrected, it starts and returns 0 |
| Announcer.IsNew | src.py:25 | a text is new when it is non-empty and differs from the text spoken last (also test.py:64) |
| Announcer.Announce | src.py:25-29 | a text is spoken exactly when it is observed, non-empty, new and its speech succeeds; it then becomes the last text, and otherwise the last text is kept |
| Announcer.AnnounceAll | test.py:56-72 | a run of attempts speaks at most one text per attempt, and an empty run keeps the last text and speaks nothing |
| Announcer.AnnounceAllEnds | test.py:56-72 | over any run: nothing empty is spoken, the first text spoken differs from the initial last text, and the last text ends as the last one spoken (unchanged when nothing is spoken) |
| Announcer.AnnounceAllNeverRepeats | test.py:63-67 | over any run, no text is spoken twice in a row |
| Announcer.AnnounceAllSpeaksObservedTexts | test.py:56-67 | every spoken text is the text of an attempt whose speech succeeded |
| Announcer.RepeatedObservationSpokenOnce | src.py:25-29 | the same observation twice in a row is spoken at most once |
| KoreanReader.Lower | src.py:46 | lower-cases each ASCII letter and keeps the length |
| KoreanReader.IsKoreanVoice | src.py:46 | a voice is Korean when its id contains "ko_" or its lower-cased name contains "korean" |
| KoreanReader.FirstKoreanVoice | src.py:45-49 | the result is a Korean voice with no Korean voice before it, or none when no voice is Korean |
| KoreanReader.SelectedVoice | src.py:43-50 | with no Korean voice the current voice is kept; otherwise the selection is the id of some Korean voice of the list |
| KoreanReader.FirstKoreanVoiceIsUnique | src.py:45-49 | any Korean voice with no Korean voice before it is the one chosen |
| KoreanReader.FirstKoreanVoiceKeptByAppend | src.py:45-49 | voices listed after a Korean voice do not change the choice |
| KoreanReader.FirstKoreanVoiceFromAppended | src.py:45-50 | when the first voices hold none, the choice is the first Korean voice among the later ones, or none when they hold none either |
| KoreanReader.KoreanLocaleIdMatches | src.py:46 | an id containing "ko_" is Korean, whatever the name |
| KoreanReader.KoreanNameMatches | src.py:46 | a name containing "Korean" is Korean, whatever the id |
| KoreanReader.KeyPhrase | src.py:56-77 | a one-character name is spoken as itself, a table name as its phrase, and any other name as itself |
| KoreanReader.KeyPhraseIsTableLookup | src.py:61-77 | the whole mapping is `special_keys.get(name, name)`, because no table key has one character |
| KoreanReader.KeyPhraseNonEmpty | src.py:56-77 | a non-empty key name is never spoken as the empty text |
| KoreanReader.KeyPhrasesAgreeWithHook | src.py:62-71 | enter, space, backspace and esc get the same phrases as in the C keyboard hook |
| KoreanReader.FocusText | src.py:24 | "{type}: {name}" when the name is non-empty, otherwise the type; empty exactly when both are |
| KoreanReader.FocusAttempt | src.py:21-31 | a failed read is an exception before speaking; otherwise the focus text is observed |
| KoreanReader.BlankElementIsSilent | src.py:24-25 | an element with no type and no name is never announced |
| KoreanReader.RefocusIsSilent | src.py:25 | an element whose text was spoken last is not announced and does not change the last text |
| KoreanReader.FocusChangeHandler.constructor | src.py:15-18 | `last_spoken` starts empty |
| KoreanReader.FocusChangeHandler.HandleFocusChangedEvent | src.py:20-31 | updates `last_spoken` and the engine's speech exactly as `Announce` says |
| KoreanReader.KoreanScreenReader.constructor | src.py:34-41 | a fresh engine at rate 180 with the first Korean voice selected (else the default), and a handler on the same engine |
| KoreanReader.KoreanScreenReader.SetKoreanVoice | src.py:43-50 | selects the first Korean voice's id, and leaves the voice unchanged when none matches |
| KoreanReader.KoreanScreenReader.OnKey | src.py:54-80 | speaks exactly `KeyPhrase` of the key name |
| FocusMonitor.TextToRead | test.py:59-61 | the name when it is non-empty, otherwise the value or ""; empty exactly when both are missing or empty |
| FocusMonitor.TickAttempt | test.py:57-70 | a failing control read is an exception before speaking; otherwise the text to read is observed |
| FocusMonitor.TickAttempts | test.py:56-72 | one attempt per poll, in order |
| FocusMonitor.MonitorNeverRepeats | test.py:53-72 | starting from `last_text = ""`, the monitor never speaks an empty text, nor the same text twice in a row |
| FocusMonitor.InitTts | test.py:16-20 | a fresh engine with rate 180 and volume 1.0 |
| FocusMonitor.Monitor.constructor | test.py:54 | `last_text` starts empty |
| FocusMonitor.Monitor.MonitorTick | test.py:57-72 | updates `last_text` and the speech exactly as `Announce` says; an exception leaves `last_text` unchanged |
| FocusMonitor.Monitor.Run | test.py:56-72 | a run of polls updates `last_text` and the speech as `AnnounceAll` says |

## Left out

- File and console I/O, logging (`LogMessage`, `print`) and timestamps: they do not change any decision.
- The COM and SAPI calls, the pyttsx3 engine internals and asynchronous speech: speech is an append to a sequence. A failed SAPI `Speak` is only logged, so it is not modelled.
- `SpeakText`'s float-to-integer conversion of the rate and volume: the model stores each utterance with the `real` settings it was spoken with.
- The null-text check of `SpeakText`: the C code never passes a null text.
- `UserConfig.UserSettings`: the `float` fields are `real`, and `(DWORD)` of an out-of-range or negative number is not modelled. The parsed poll interval is taken as a natural number.
- A poll interval of 0 is accepted, as in the code.
- cJSON parsing, `fopen`, `ftell` and `fread`: they are inputs (`ConfigFile`). A Ctrl-Z ending a text-mode read early is not modelled; only CR LF translation is.
- `KeyClassifier.WindowLabel`, `KeyClassifier.TranslatedText`, `KeyClassifier.F1Phrase` and `KeyClassifier.F1PhraseOverflows`: assume a Unicode build (`TCHAR` is `wchar_t`). A UTF-16 surrogate pair, two code units in the source, is one character in the model. So the limits of the 255-unit title copy, the 4-unit `ToUnicode` buffer and the 256-unit `feedback` buffer are counted in characters, not in code units.
- The structured-exception handlers: a fault is modelled at two points of the guarded block, before the classification speaks and before the layout check. A fault inside `SpeakText` itself is not modelled separately.
- `GetMessage` returning -1, message dispatch, `CallNextHookEx` chaining and hook registration: the message loop is one step of the trace, and forwarding is the returned `NextHook` value.
- `UIUpdateMonitorThread`'s sleep-and-announce loop, and all concurrency: the thread is a start step and, in the corrected version, a stop-and-join step. The utterances it would speak are not in the model.
- `Lifecycle.ReleasesAll`: states, for each resource, that it is released exactly when it is acquired. It does not state the order in which resources are released.
- `KoreanReader.Lower`: `str.lower()` is modelled for ASCII letters only.
- `KoreanReader.FocusChangeHandler.HandleFocusChangedEvent` and `FocusMonitor.Monitor.MonitorTick`: an exception while speaking is modelled as nothing spoken. A partly spoken text is not modelled.
- The UI Automation event registration, `PumpWaitingMessages`, `keyboard.on_press`, `mouse_position_debug`, `keyboard_hook` and `initialize` in the Python programs: these are platform plumbing, and `initialize` only speaks a fixed greeting.
- `FocusMonitor.Monitor.Run`: the `while True` loop, with its half-second sleep, is modelled over a finite run of polls.
- `proto.c` and `proto.js` are not part of this model: they are thin wrappers around the platform and the browser.

## Findings

| source | as written | input that shows it | evidently intended | confidence | as-written member | corrected member |
|---|---|---|---|---|---|---|
| cJson.c:190-204 | `_stprintf` formats "현재 창: " plus a title of up to 255 characters into `feedback[256]` | F1 over a window whose title has 250 or more characters | a length-bounded format that stays inside the buffer | high, not executed | KeyClassifier.F1PhraseOverflows | KeyClassifier.F1PhraseFits |
| cJson.c:53-79 | the file is opened in text mode, and `fread`'s count is compared with the byte size from `ftell` | a config.json that uses CR LF line endings, e.g. `{` CR LF `}` | the read fails only on a genuine read error | high, not executed | UserConfig.CrlfConfigFailsAsWritten | UserConfig.LoadedSettings |
| cJson.c:168-182, 324-329 | `main` calls `Cleanup` and then waits `INFINITE` for a thread whose loop never ends | any run in which the thread was created and the message loop exits | stop the thread, join it, then release the voice and COM, and return | high, not executed | Lifecycle.MainHangsAsWritten | Lifecycle.MainJoinsBeforeReleasing |
