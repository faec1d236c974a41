/** Reading the caption aloud: choosing the voice named by the voice
    selector and setting the loudness from the volume slider. The speech
    engine itself (cancel, speak) is not modelled. */
module Speech {
  import Volume

  datatype Option<T> = None | Some(value: T)

  /** A voice offered by the speech engine, reduced to its name, the only
      property the read-aloud handler looks at. */
  datatype Voice = Voice(name: string)

  /** The last index in `voices` whose voice is called `name`, if any. */
  function LastMatch(voices: seq<Voice>, name: string): (r: Option<nat>)
    ensures r.Some? ==> r.value < |voices| && voices[r.value].name == name
    ensures r.Some? ==> forall j :: r.value < j < |voices| ==> voices[j].name != name
    ensures r.None? <==> forall j :: 0 <= j < |voices| ==> voices[j].name != name
    decreases |voices|
  {
    if |voices| == 0 then None
    else if voices[|voices| - 1].name == name then Some(|voices| - 1)
    else LastMatch(voices[..|voices| - 1], name)
  }

  /** The voice the utterance ends up with: the last voice whose name
      matches, or the voice it already had when none matches. */
  function ChosenVoice(current: Option<Voice>, voices: seq<Voice>, name: string): Option<Voice>
  {
    match LastMatch(voices, name)
    case None => current
    case Some(k) => Some(voices[k])
  }

  /** A later voice with the selected name overrides every earlier one:
      appending a matching voice makes it the choice, appending any other
      voice leaves the choice as it was. */
  lemma ChosenVoiceAppend(current: Option<Voice>, voices: seq<Voice>, v: Voice, name: string)
    ensures ChosenVoice(current, voices + [v], name)
         == if v.name == name then Some(v) else ChosenVoice(current, voices, name)
  {
    assert (voices + [v])[..|voices|] == voices;
  }

  /** The utterance to be spoken. */
  class Utterance {
    var text: string
    var voice: Option<Voice>
    var volume: real

    /** A new utterance of the two captions run together, with no voice
        chosen and the engine's default full volume. */
    constructor (top: string, bottom: string)
      ensures text == top + bottom && voice == None && volume == 1.0
    {
      text := top + bottom;
      voice := None;
      volume := 1.0;
    }

    /** The read-aloud handler's updates to the utterance: every voice whose
        name equals the selected name is assigned in turn, so the last one
        wins, and then the volume is taken from the slider. */
    method ReadAloud(voices: seq<Voice>, selectedName: string, sliderValue: int)
      modifies this
      ensures voice == ChosenVoice(old(voice), voices, selectedName)
      ensures volume == Volume.UtteranceVolume(sliderValue)
      ensures text == old(text)
    {
      for i := 0 to |voices|
        invariant voice == ChosenVoice(old(voice), voices[..i], selectedName)
        invariant text == old(text)
      {
        assert voices[..i + 1] == voices[..i] + [voices[i]];
        ChosenVoiceAppend(old(voice), voices[..i], voices[i], selectedName);
        if voices[i].name == selectedName {
          voice := Some(voices[i]);
        }
      }
      assert voices[..|voices|] == voices;
      volume := Volume.UtteranceVolume(sliderValue);
    }
  }
}
