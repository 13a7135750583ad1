/**
 * The polling focus monitor that the test program defines: twice a second it reads the focused
 * control, takes its name (or, when that is empty, its value) and speaks it when it is
 * non-empty and differs from the text read last. The test program's entry point never starts
 * this monitor; the model describes what it does once started.
 */
module FocusMonitor {
  import opened Wrappers
  import opened Announcer
  import opened SpeechEngine

  /** The speech rate and volume the test program sets on its engine. */
  const MonitorRate: int := 180
  const MonitorVolume: real := 1.0

  /** The focused control's `Name` and `Value` properties; `None` is Python's `None` or a missing attribute. */
  datatype FocusedControl = FocusedControl(name: Option<string>, value: Option<string>)

  /** One poll: the focused control (`None` when reading it raised) and whether speaking raises. */
  datatype Tick = Tick(focus: Option<FocusedControl>, speechFails: bool)

  /** The text a control is read as: its name when non-empty, otherwise its value, otherwise "". */
  function TextToRead(c: FocusedControl): (r: string)
    ensures c.name.GetOr("") != "" ==> r == c.name.value
    ensures c.name.GetOr("") == "" ==> r == c.value.GetOr("")
    ensures r == "" <==> c.name.GetOr("") == "" && c.value.GetOr("") == ""
  {
    var name := c.name.GetOr("");
    var value := c.value.GetOr("");
    if name != "" then name else value
  }

  /** The announcement attempt one poll makes. */
  function TickAttempt(t: Tick): (a: Attempt)
    ensures t.focus.None? <==> a.Raised?
    ensures t.focus.Some? ==> a == Observed(TextToRead(t.focus.value), t.speechFails)
  {
    match t.focus
    case None => Raised
    case Some(c) => Observed(TextToRead(c), t.speechFails)
  }

  /** The attempts of a sequence of polls. */
  function TickAttempts(ticks: seq<Tick>): (r: seq<Attempt>)
    ensures |r| == |ticks|
    ensures forall i | 0 <= i < |ticks| :: r[i] == TickAttempt(ticks[i])
  {
    seq(|ticks|, i requires 0 <= i < |ticks| => TickAttempt(ticks[i]))
  }

  /**
   * Over any run of the monitor, which starts from the empty last text: nothing empty is
   * spoken, and no text twice in a row.
   */
  lemma MonitorNeverRepeats(ticks: seq<Tick>)
    ensures NoRepeats(AnnounceAll("", TickAttempts(ticks)).1)
    ensures forall i | 0 <= i < |AnnounceAll("", TickAttempts(ticks)).1| :: AnnounceAll("", TickAttempts(ticks)).1[i] != ""
  {
    AnnounceAllNeverRepeats("", TickAttempts(ticks));
    AnnounceAllEnds("", TickAttempts(ticks));
  }

  /** `init_tts`: a fresh engine with rate 180 and volume 1.0. */
  method InitTts(voices: seq<Voice>) returns (engine: Engine)
    ensures fresh(engine) && engine.voices == voices && engine.spoken == [] && engine.voice == None
    ensures engine.rate == Some(MonitorRate) && engine.volume == Some(MonitorVolume)
  {
    engine := new Engine(voices);
    engine.SetRate(MonitorRate);
    engine.SetVolume(MonitorVolume);
  }

  /** The state of `focus_monitor_thread`: the engine it speaks on and the text it read last. */
  class Monitor {
    const engine: Engine
    var lastText: string

    constructor (engine: Engine)
      ensures this.engine == engine && lastText == ""
    {
      this.engine := engine;
      lastText := "";
    }

    /**
     * One iteration of the polling loop: speak the control's text when it is new; an exception
     * while reading the control or speaking leaves the last text as it was.
     */
    method MonitorTick(t: Tick)
      modifies this`lastText, engine`spoken
      ensures lastText == Announce(old(lastText), TickAttempt(t)).0
      ensures engine.spoken == old(engine.spoken) + Announce(old(lastText), TickAttempt(t)).1
    {
      if t.focus.None? {
        return;
      }
      var control := t.focus.value;
      var name := control.name.GetOr("");
      var value := control.value.GetOr("");
      var textToRead := if name != "" then name else value;
      if textToRead != "" && textToRead != lastText {
        if t.speechFails {
          return;
        }
        engine.Say(textToRead);
        lastText := textToRead;
      }
    }

    /** The polling loop over a finite run of polls. */
    method Run(ticks: seq<Tick>)
      modifies this`lastText, engine`spoken
      ensures lastText == AnnounceAll(old(lastText), TickAttempts(ticks)).0
      ensures engine.spoken == old(engine.spoken) + AnnounceAll(old(lastText), TickAttempts(ticks)).1
    {
      ghost var attempts := TickAttempts(ticks);
      var i := 0;
      while i < |ticks|
        invariant 0 <= i <= |ticks|
        invariant AnnounceAll(old(lastText), attempts).0 == AnnounceAll(lastText, attempts[i..]).0
        invariant old(engine.spoken) + AnnounceAll(old(lastText), attempts).1
          == engine.spoken + AnnounceAll(lastText, attempts[i..]).1
      {
        assert attempts[i..][0] == TickAttempt(ticks[i]);
        assert attempts[i..][1..] == attempts[i + 1..];
        MonitorTick(ticks[i]);
        i := i + 1;
      }
    }
  }
}
