/**
 * The pyttsx3 speech engine both Python programs drive: the properties set on it, the voices
 * it lists, and every text it has finished speaking (`say` followed by `runAndWait`).
 */
module SpeechEngine {
  import opened Wrappers

  /** A voice installed on the system, as the engine lists it. */
  datatype Voice = Voice(id: string, name: string)

  class Engine {
    /** The voices the engine reports for its `voices` property. */
    const voices: seq<Voice>
    /** The `rate` property, when a program has set it. */
    var rate: Option<int>
    /** The `volume` property, when a program has set it. */
    var volume: Option<real>
    /** The id set as the `voice` property, when a program has set one. */
    var voice: Option<string>
    /** Every text spoken to completion, in order. */
    var spoken: seq<string>

    /** A fresh engine: nothing set, nothing spoken. */
    constructor (voices: seq<Voice>)
      ensures this.voices == voices
      ensures rate == None && volume == None && voice == None && spoken == []
    {
      this.voices := voices;
      rate, volume, voice := None, None, None;
      spoken := [];
    }

    /** `say(text)` then `runAndWait()`: the text is spoken in full. */
    method Say(text: string)
      modifies this`spoken
      ensures spoken == old(spoken) + [text]
    {
      spoken := spoken + [text];
    }

    /** `setProperty('rate', r)`. */
    method SetRate(r: int)
      modifies this`rate
      ensures rate == Some(r)
    {
      rate := Some(r);
    }

    /** `setProperty('volume', v)`. */
    method SetVolume(v: real)
      modifies this`volume
      ensures volume == Some(v)
    {
      volume := Some(v);
    }

    /** `setProperty('voice', id)`. */
    method SetVoice(id: string)
      modifies this`voice
      ensures voice == Some(id)
    {
      voice := Some(id);
    }
  }
}
