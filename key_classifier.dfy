/**
 * The classification step of the C keyboard hook (`KeyboardProc`'s switch): which phrase, if
 * any, a key-down event is spoken as.  Every platform query the switch makes (cursor position,
 * window under the cursor, its title, the keyboard state, `ToUnicode`) is an input.
 */
module KeyClassifier {
  import opened Wrappers

  const WM_KEYDOWN: int := 0x0100

  const VK_BACK: int := 0x08
  const VK_RETURN: int := 0x0D
  const VK_ESCAPE: int := 0x1B
  const VK_SPACE: int := 0x20
  const VK_F1: int := 0x70

  /** `wchar_t feedback[256]`: the buffer the F1 phrase is formatted into. */
  const FeedbackCapacity: nat := 256
  /** `TCHAR windowText[256]`: `GetWindowText` copies at most 255 characters into it. */
  const WindowTextCapacity: nat := 256
  /** The buffer size passed to `ToUnicode`. */
  const TranslationCapacity: nat := 4

  const EnterPhrase: string := "엔터"
  const SpacePhrase: string := "스페이스"
  const BackspacePhrase: string := "백스페이스"
  const EscapePhrase: string := "이스케이프"
  const WindowPrefix: string := "현재 창: "
  const NoInformation: string := "정보 없음"

  /** The answers of the platform queries the hook makes while classifying one event. */
  datatype HostView = HostView(
    cursorFound: bool,          // GetCursorPos succeeded
    windowFound: bool,          // WindowFromPoint returned a window
    windowTitle: string,        // the full title of that window
    keyboardStateRead: bool,    // GetKeyboardState succeeded
    toUnicodeResult: int,       // the value ToUnicode returned
    toUnicodeChars: seq<char>)  // the characters ToUnicode stored in its buffer

  /** The first `n` elements of `s`, or all of `s` when it is shorter. */
  function Take(s: seq<char>, n: nat): (r: seq<char>)
    ensures |r| == if |s| < n then |s| else n
    ensures r == s[..|r|]
  {
    if |s| <= n then s else s[..n]
  }

  /** The NUL-terminated string a wide-character buffer holds. */
  function CString(buf: seq<char>): (s: string)
    ensures |s| <= |buf| && s == buf[..|s|]
    ensures forall i :: 0 <= i < |s| ==> s[i] != '\0'
    ensures |s| < |buf| ==> buf[|s|] == '\0'
  {
    if buf == [] || buf[0] == '\0' then [] else [buf[0]] + CString(buf[1..])
  }

  /** The fixed phrase of the four keys the switch names. */
  function NamedKeyPhrase(vk: int): (r: Option<string>)
    ensures r.Some? <==> vk in {VK_RETURN, VK_SPACE, VK_BACK, VK_ESCAPE}
  {
    if vk == VK_RETURN then Some(EnterPhrase)
    else if vk == VK_SPACE then Some(SpacePhrase)
    else if vk == VK_BACK then Some(BackspacePhrase)
    else if vk == VK_ESCAPE then Some(EscapePhrase)
    else None
  }

  /**
   * The label F1 reads: what `GetWindowText` copies, or the "no information" phrase when it
   * copies nothing.
   */
  function WindowLabel(title: string): (r: string)
    ensures 0 < |r| < WindowTextCapacity
    ensures title == [] ==> r == NoInformation
    ensures title != [] ==> r == Take(title, WindowTextCapacity - 1)
  {
    var copied := Take(title, WindowTextCapacity - 1);
    if copied == [] then NoInformation else copied
  }

  /** What `_stprintf(feedback, "현재 창: %s", windowText)` writes, before its NUL. */
  function F1PhraseUnbounded(title: string): (r: string)
    ensures |r| == |WindowPrefix| + |WindowLabel(title)| && r[..|WindowPrefix|] == WindowPrefix
    ensures |title| >= WindowTextCapacity - 1 ==> |r| == |WindowPrefix| + WindowTextCapacity - 1
  {
    WindowPrefix + WindowLabel(title)
  }

  /**
   * The F1 phrase with the formatting bounded by the feedback buffer, as a length-checked
   * `_sntprintf` would produce it: at most 255 characters, then the NUL.
   */
  function F1Phrase(title: string): (r: string)
    ensures |r| < FeedbackCapacity && |r| <= |F1PhraseUnbounded(title)|
    ensures r == F1PhraseUnbounded(title)[..|r|]
    ensures |F1PhraseUnbounded(title)| < FeedbackCapacity ==> r == F1PhraseUnbounded(title)
    ensures |r| >= |WindowPrefix| && r[..|WindowPrefix|] == WindowPrefix
  {
    Take(WindowPrefix + WindowLabel(title), FeedbackCapacity - 1)
  }

  /** What an unresolved-key translation is spoken as: the buffer's string, at most four characters. */
  function TranslatedText(chars: seq<char>): (r: string)
    ensures |r| <= TranslationCapacity && |r| <= |chars|
    ensures r == chars[..|r|]
  {
    CString(Take(chars, TranslationCapacity))
  }

  /**
   * The phrase a key-down event is spoken as, or `None` for silence: F1 reads the window under
   * the cursor, the four named keys their phrase, any other key the characters `ToUnicode`
   * produced when it reported at least one.
   */
  function Classify(vk: int, host: HostView): (r: Option<string>)
    ensures r.Some? ==> |r.value| < FeedbackCapacity
    ensures r.None? ==> NamedKeyPhrase(vk).None?
    ensures vk != VK_F1 && r.Some? && NamedKeyPhrase(vk).None? ==> |r.value| <= TranslationCapacity
  {
    if vk == VK_F1 then
      if host.cursorFound && host.windowFound then Some(F1Phrase(host.windowTitle)) else None
    else if NamedKeyPhrase(vk).Some? then
      NamedKeyPhrase(vk)
    else if host.keyboardStateRead && host.toUnicodeResult > 0 then
      Some(TranslatedText(host.toUnicodeChars))
    else
      None
  }

  /** Enter, Space, Backspace and Escape are spoken as their fixed phrase, whatever the host reports. */
  lemma NamedKeysIgnoreHost(vk: int, host: HostView)
    requires vk in {VK_RETURN, VK_SPACE, VK_BACK, VK_ESCAPE}
    ensures Classify(vk, host) == NamedKeyPhrase(vk)
    ensures vk == VK_RETURN ==> Classify(vk, host) == Some("엔터")
    ensures vk == VK_SPACE ==> Classify(vk, host) == Some("스페이스")
    ensures vk == VK_BACK ==> Classify(vk, host) == Some("백스페이스")
    ensures vk == VK_ESCAPE ==> Classify(vk, host) == Some("이스케이프")
  {
  }

  /**
   * F1 speaks only when both the cursor and the window lookups succeed, and then speaks
   * "현재 창: " followed by the title, or by "정보 없음" for an empty title.
   */
  lemma F1Behaviour(host: HostView)
    ensures Classify(VK_F1, host).Some? <==> host.cursorFound && host.windowFound
    ensures host.cursorFound && host.windowFound && host.windowTitle == [] ==>
              Classify(VK_F1, host) == Some(WindowPrefix + NoInformation)
    ensures host.cursorFound && host.windowFound && |host.windowTitle| <= 249 ==>
              Classify(VK_F1, host) == Some(WindowPrefix + WindowLabel(host.windowTitle))
  {
    if host.cursorFound && host.windowFound && |host.windowTitle| <= 249 {
      assert |WindowPrefix + WindowLabel(host.windowTitle)| < FeedbackCapacity;
    }
    if host.cursorFound && host.windowFound && host.windowTitle == [] {
      assert |WindowPrefix + NoInformation| < FeedbackCapacity;
    }
  }

  /**
   * Any other key is spoken exactly when `ToUnicode` reports at least one character, and then
   * as the whole translation (up to four characters), not just its first character.
   */
  lemma TranslatedKeyBehaviour(vk: int, host: HostView)
    requires vk != VK_F1 && vk !in {VK_RETURN, VK_SPACE, VK_BACK, VK_ESCAPE}
    ensures Classify(vk, host).Some? <==> host.keyboardStateRead && host.toUnicodeResult > 0
    ensures Classify(vk, host).Some? ==> Classify(vk, host).value == TranslatedText(host.toUnicodeChars)
  {
  }

  /** A translation of up to four characters without NUL is spoken unmodified and untruncated. */
  lemma {:induction false} WholeTranslationSpoken(chars: seq<char>)
    requires |chars| <= TranslationCapacity
    requires forall i :: 0 <= i < |chars| ==> chars[i] != '\0'
    ensures TranslatedText(chars) == chars
  {
    assert Take(chars, TranslationCapacity) == chars;
    var r := CString(chars);
    assert |r| == |chars|;
  }

  /**
   * No event is classified as a text longer than four characters that is neither a named
   * key's phrase nor starts with the first character of the F1 prefix.
   */
  lemma NoPhraseOutsideClassifier(vk: int, host: HostView, other: string)
    requires |other| > TranslationCapacity
    requires other[0] != WindowPrefix[0]
    requires other !in {EnterPhrase, SpacePhrase, BackspacePhrase, EscapePhrase}
    ensures Classify(vk, host) != Some(other)
  {
    if vk == VK_F1 && host.cursorFound && host.windowFound {
      var p := F1Phrase(host.windowTitle);
      assert p[0] == p[..|WindowPrefix|][0] == WindowPrefix[0];
    }
  }

  /** As written, a title of 250 or more characters overruns the 256-character feedback buffer. */
  lemma F1PhraseOverflows(title: string)
    requires |title| >= 250
    ensures |F1PhraseUnbounded(title)| + 1 > FeedbackCapacity
  {
  }

  /** Corrected: the F1 phrase and its NUL always fit the feedback buffer. */
  lemma F1PhraseFits(title: string)
    ensures |F1Phrase(title)| + 1 <= FeedbackCapacity
    ensures |title| <= 249 ==> F1Phrase(title) == F1PhraseUnbounded(title)
  {
  }
}
