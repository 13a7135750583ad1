/**
 * The Python screen reader: a UI Automation focus handler that announces the newly focused
 * element, a keyboard listener that speaks each pressed key (Korean phrases for the special
 * keys), and the start-up choice of a Korean voice.
 */
module KoreanReader {
  import opened Wrappers
  import opened Announcer
  import opened SpeechEngine
  import KeyClassifier

  /** The speech rate set on the engine at start-up. */
  const StartupRate: int := 180

  // ---------------------------------------------------------------- voice selection

  /** ASCII lower-casing of one character; other characters are kept. */
  function LowerChar(c: char): (r: char)
  {
    if 'A' <= c <= 'Z' then (c as int + 32) as char else c
  }

  /** `str.lower()` restricted to ASCII letters. */
  function Lower(s: string): (r: string)
    ensures |r| == |s|
    ensures forall i | 0 <= i < |s| :: r[i] == LowerChar(s[i])
    decreases |s|
  {
    if s == [] then [] else [LowerChar(s[0])] + Lower(s[1..])
  }

  /** `sub` occurs in `s` starting at index `i`. */
  predicate OccursAt(s: string, sub: string, i: int)
  {
    0 <= i && i + |sub| <= |s| && s[i..i + |sub|] == sub
  }

  /** Python's substring test `sub in s`. */
  predicate Contains(s: string, sub: string)
  {
    exists i | 0 <= i <= |s| - |sub| :: OccursAt(s, sub, i)
  }

  /** A voice is taken as Korean when its id contains "ko_" or its lower-cased name contains "korean". */
  predicate IsKoreanVoice(v: Voice)
  {
    Contains(v.id, "ko_") || Contains(Lower(v.name), "korean")
  }

  /** The index of the first Korean voice of the list, if any. */
  function FirstKoreanVoice(voices: seq<Voice>): (r: Option<nat>)
    ensures r.Some? ==> r.value < |voices| && IsKoreanVoice(voices[r.value])
    ensures r.Some? ==> forall j | 0 <= j < r.value :: !IsKoreanVoice(voices[j])
    ensures r.None? <==> forall j | 0 <= j < |voices| :: !IsKoreanVoice(voices[j])
    decreases |voices|
  {
    if voices == [] then None
    else if IsKoreanVoice(voices[0]) then Some(0)
    else match FirstKoreanVoice(voices[1..])
      case None => None
      case Some(i) => Some(i + 1)
  }

  /** The voice property after the selection: the first Korean voice's id, or `current` when none matches. */
  function SelectedVoice(voices: seq<Voice>, current: Option<string>): (r: Option<string>)
    ensures (forall v | v in voices :: !IsKoreanVoice(v)) ==> r == current
    ensures (exists v | v in voices :: IsKoreanVoice(v)) ==> r.Some? && exists v | v in voices :: IsKoreanVoice(v) && r.value == v.id
  {
    match FirstKoreanVoice(voices)
    case Some(i) => Some(voices[i].id)
    case None => current
  }

  /** Any index that is Korean with no Korean voice before it is the one `FirstKoreanVoice` finds. */
  lemma {:induction false} FirstKoreanVoiceIsUnique(voices: seq<Voice>, k: nat)
    requires k < |voices| && IsKoreanVoice(voices[k])
    requires forall j | 0 <= j < k :: !IsKoreanVoice(voices[j])
    ensures FirstKoreanVoice(voices) == Some(k)
    decreases k
  {
    if k > 0 {
      var rest := voices[1..];
      assert !IsKoreanVoice(voices[0]);
      assert rest[k - 1] == voices[k];
      forall j | 0 <= j < k - 1
        ensures !IsKoreanVoice(rest[j])
      {
        assert rest[j] == voices[j + 1];
      }
      FirstKoreanVoiceIsUnique(rest, k - 1);
    }
  }

  /** An index into a sublist, moved past the `n` voices in front of it. */
  function Shift(i: Option<nat>, n: nat): (r: Option<nat>)
  {
    match i
    case None => None
    case Some(k) => Some(n + k)
  }

  /** Voices listed after a Korean voice do not change the choice. */
  lemma {:induction false} FirstKoreanVoiceKeptByAppend(a: seq<Voice>, b: seq<Voice>)
    requires FirstKoreanVoice(a).Some?
    ensures FirstKoreanVoice(a + b) == FirstKoreanVoice(a)
    decreases |a|
  {
    assert (a + b)[0] == a[0];
    if !IsKoreanVoice(a[0]) {
      assert (a + b)[1..] == a[1..] + b;
      FirstKoreanVoiceKeptByAppend(a[1..], b);
    }
  }

  /** When none of the first voices is Korean, the choice is the first Korean voice of the rest, moved past them. */
  lemma {:induction false} FirstKoreanVoiceFromAppended(a: seq<Voice>, b: seq<Voice>)
    requires FirstKoreanVoice(a).None?
    ensures FirstKoreanVoice(a + b) == Shift(FirstKoreanVoice(b), |a|)
    decreases |a|
  {
    if a == [] {
      assert a + b == b;
    } else {
      assert (a + b)[0] == a[0];
      assert (a + b)[1..] == a[1..] + b;
      FirstKoreanVoiceFromAppended(a[1..], b);
    }
  }

  /** A voice whose id names the Korean locale with an underscore is chosen by its id alone. */
  lemma KoreanLocaleIdMatches(prefix: string, suffix: string, name: string)
    ensures IsKoreanVoice(Voice(prefix + "ko_" + suffix, name))
  {
    var id := prefix + "ko_" + suffix;
    assert id[|prefix|..|prefix| + 3] == "ko_";
    assert OccursAt(id, "ko_", |prefix|);
  }

  /** A voice whose name says "Korean" in any ASCII capitalisation is chosen by its name. */
  lemma KoreanNameMatches(id: string, before: string, after: string)
    ensures IsKoreanVoice(Voice(id, before + "Korean" + after))
  {
    var name := before + "Korean" + after;
    var lower := Lower(name);
    assert LowerChar('K') == 'k' && LowerChar('o') == 'o' && LowerChar('r') == 'r';
    assert LowerChar('e') == 'e' && LowerChar('a') == 'a' && LowerChar('n') == 'n';
    assert lower[|before|..|before| + 6] == "korean" by {
      forall i | 0 <= i < 6
        ensures lower[|before| + i] == "korean"[i]
      {
        var c := name[|before| + i];
        assert c == "Korean"[i];
        assert lower[|before| + i] == LowerChar(c);
      }
    }
    assert OccursAt(lower, "korean", |before|);
  }

  // ---------------------------------------------------------------- key names

  /** The Korean phrases of the keyboard listener's special keys. */
  const SpecialKeys: map<string, string> := map[
    "space" := "스페이스",
    "enter" := "엔터",
    "backspace" := "백스페이스",
    "tab" := "탭",
    "shift" := "쉬프트",
    "ctrl" := "컨트롤",
    "alt" := "알트",
    "delete" := "딜리트",
    "caps lock" := "캡스락",
    "esc" := "이스케이프",
    "up" := "위 방향키",
    "down" := "아래 방향키",
    "left" := "왼쪽 방향키",
    "right" := "오른쪽 방향키"
  ]

  /** What the keyboard listener speaks for a key name. */
  function KeyPhrase(keyName: string): (r: string)
    ensures |keyName| == 1 ==> r == keyName
    ensures |keyName| != 1 && keyName in SpecialKeys ==> r == SpecialKeys[keyName]
    ensures |keyName| != 1 && keyName !in SpecialKeys ==> r == keyName
  {
    if |keyName| == 1 then keyName
    else if keyName in SpecialKeys then SpecialKeys[keyName]
    else keyName
  }

  /**
   * No special key has a one-character name, so the phrase is just the table lookup with the
   * name itself as the fallback.
   */
  lemma KeyPhraseIsTableLookup(keyName: string)
    ensures KeyPhrase(keyName) == if keyName in SpecialKeys then SpecialKeys[keyName] else keyName
  {
    if keyName in SpecialKeys {
      assert |keyName| > 1;
    }
  }

  /** A key with a name is never spoken as the empty text. */
  lemma KeyPhraseNonEmpty(keyName: string)
    requires keyName != ""
    ensures KeyPhrase(keyName) != ""
  {
  }

  /** Enter, Space, Backspace and Escape are spoken with the same phrases as the C keyboard hook. */
  lemma KeyPhrasesAgreeWithHook()
    ensures KeyPhrase("enter") == KeyClassifier.NamedKeyPhrase(KeyClassifier.VK_RETURN).value
    ensures KeyPhrase("space") == KeyClassifier.NamedKeyPhrase(KeyClassifier.VK_SPACE).value
    ensures KeyPhrase("backspace") == KeyClassifier.NamedKeyPhrase(KeyClassifier.VK_BACK).value
    ensures KeyPhrase("esc") == KeyClassifier.NamedKeyPhrase(KeyClassifier.VK_ESCAPE).value
  {
  }

  // ---------------------------------------------------------------- focus changes

  /** The focused element a focus-changed event carries; reading its properties may raise. */
  datatype ElementRead = ReadRaises | Element(controlType: string, name: string)

  /** The text announced for an element: its localized control type, then ": " and its name if it has one. */
  function FocusText(controlType: string, name: string): (r: string)
    ensures r == "" <==> controlType == "" && name == ""
    ensures name == "" ==> r == controlType
    ensures name != "" ==> |r| == |controlType| + 2 + |name| && r[..|controlType|] == controlType
    ensures name != "" ==> r[|controlType|..|controlType| + 2] == ": " && r[|controlType| + 2..] == name
  {
    if name != "" then controlType + ": " + name else controlType
  }

  /** The announcement attempt one focus-changed event makes. */
  function FocusAttempt(sender: ElementRead, speechFails: bool): (a: Attempt)
    ensures sender.ReadRaises? <==> a.Raised?
    ensures sender.Element? ==> a == Observed(FocusText(sender.controlType, sender.name), speechFails)
  {
    match sender
    case ReadRaises => Raised
    case Element(controlType, name) => Observed(FocusText(controlType, name), speechFails)
  }

  /** An element with neither a control type nor a name is never announced. */
  lemma BlankElementIsSilent(last: string, speechFails: bool)
    ensures Announce(last, FocusAttempt(Element("", ""), speechFails)).1 == []
  {
  }

  /** Moving the focus to an element whose text was spoken last speaks nothing and keeps the last text. */
  lemma RefocusIsSilent(last: string, controlType: string, name: string, speechFails: bool)
    requires FocusText(controlType, name) == last
    ensures Announce(last, FocusAttempt(Element(controlType, name), speechFails)) == (last, [])
  {
  }

  /** The UI Automation focus-changed handler: it remembers the text it spoke last. */
  class FocusChangeHandler {
    const engine: Engine
    var lastSpoken: string

    constructor (engine: Engine)
      ensures this.engine == engine && lastSpoken == ""
    {
      this.engine := engine;
      lastSpoken := "";
    }

    /**
     * Announce the newly focused element when its text is non-empty and differs from the one
     * spoken last; an exception while reading the element or speaking leaves everything as it was.
     */
    method HandleFocusChangedEvent(sender: ElementRead, speechFails: bool)
      modifies this`lastSpoken, engine`spoken
      ensures lastSpoken == Announce(old(lastSpoken), FocusAttempt(sender, speechFails)).0
      ensures engine.spoken == old(engine.spoken) + Announce(old(lastSpoken), FocusAttempt(sender, speechFails)).1
    {
      if sender.ReadRaises? {
        return;
      }
      var text := FocusText(sender.controlType, sender.name);
      if text != "" && text != lastSpoken {
        if speechFails {
          return;
        }
        engine.Say(text);
        lastSpoken := text;
      }
    }
  }

  // ---------------------------------------------------------------- the reader

  /** The reader: one engine shared by the keyboard listener and the focus handler. */
  class KoreanScreenReader {
    const engine: Engine
    const focusHandler: FocusChangeHandler

    /** A fresh engine at rate 180 with the Korean voice selected, and a handler on that engine. */
    constructor (voices: seq<Voice>)
      ensures fresh(engine) && fresh(focusHandler)
      ensures engine.voices == voices && engine.spoken == []
      ensures engine.rate == Some(StartupRate) && engine.volume == None
      ensures engine.voice == SelectedVoice(voices, None)
      ensures focusHandler.engine == engine && focusHandler.lastSpoken == ""
    {
      var e := new Engine(voices);
      e.SetRate(StartupRate);
      engine := e;
      focusHandler := new FocusChangeHandler(e);
      new;
      SetKoreanVoice();
    }

    /** Select the first Korean voice the engine lists; keep the current voice when there is none. */
    method SetKoreanVoice()
      modifies engine`voice
      ensures engine.voice == SelectedVoice(engine.voices, old(engine.voice))
    {
      var voices := engine.voices;
      var k := 0;
      while k < |voices|
        invariant 0 <= k <= |voices|
        invariant forall j | 0 <= j < k :: !IsKoreanVoice(voices[j])
        invariant engine.voice == old(engine.voice)
      {
        var voice := voices[k];
        if Contains(voice.id, "ko_") || Contains(Lower(voice.name), "korean") {
          engine.SetVoice(voice.id);
          FirstKoreanVoiceIsUnique(voices, k);
          return;
        }
        k := k + 1;
      }
    }

    /** The keyboard listener: speak the pressed key's phrase. */
    method OnKey(keyName: string)
      modifies engine`spoken
      ensures engine.spoken == old(engine.spoken) + [KeyPhrase(keyName)]
    {
      if |keyName| == 1 {
        engine.Say(keyName);
      } else {
        var koreanKey := if keyName in SpecialKeys then SpecialKeys[keyName] else keyName;
        engine.Say(koreanKey);
      }
    }
  }
}
