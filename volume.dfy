/** The volume slider: which of the four speaker icons it shows, and the
    loudness it gives the spoken caption. The slider's value is a whole
    number; conversions of its text form to a number are not modelled. */
module Volume {

  /** The least slider value at which the icon reaches each level 1 to 3. */
  function LevelThreshold(level: nat): (v: int)
    requires 1 <= level <= 3
    ensures 1 <= v <= 67
  {
    if level == 1 then 1 else if level == 2 then 34 else 67
  }

  /** The icon level for a slider value: the chain of tests in the slider's
      change listener, highest threshold first. */
  function IconLevel(value: int): (level: nat)
    ensures level <= 3
    ensures level == 0 <==> value < 1
  {
    if value >= 67 then 3
    else if value >= 34 then 2
    else if value >= 1 then 1
    else 0
  }

  /** The icon reaches a level exactly when the value reaches that level's
      threshold: the thresholds alone determine the icon. */
  lemma IconLevelMatchesThresholds(value: int, level: nat)
    requires 1 <= level <= 3
    ensures IconLevel(value) >= level <==> value >= LevelThreshold(level)
  {
  }

  /** A louder slider never shows a quieter icon. */
  lemma IconLevelMonotone(v: int, w: int)
    requires v <= w
    ensures IconLevel(v) <= IconLevel(w)
  {
  }

  /** The decimal digit of a level. */
  function Digit(level: nat): (c: char)
    requires level <= 9
    ensures '0' <= c <= '9'
  {
    ['0', '1', '2', '3', '4', '5', '6', '7', '8', '9'][level]
  }

  /** The file the icon image is switched to. */
  function IconSource(value: int): (path: string)
    ensures |path| == |"icons/volume-level-0.svg"|
    ensures path[19] == Digit(IconLevel(value))
  {
    "icons/volume-level-" + [Digit(IconLevel(value))] + ".svg"
  }

  /** Two slider values show the same icon file exactly when they have the
      same icon level. */
  lemma SameIconIffSameLevel(v: int, w: int)
    ensures IconSource(v) == IconSource(w) <==> IconLevel(v) == IconLevel(w)
  {
    if IconSource(v) == IconSource(w) {
      assert IconSource(v)[19] == IconSource(w)[19];
    }
  }

  /** The utterance volume set by the read-aloud handler: the slider value
      divided by 100. */
  function UtteranceVolume(value: int): (volume: real)
    ensures volume * 100.0 == value as real
    ensures 0 <= value <= 100 ==> 0.0 <= volume <= 1.0
  {
    value as real / 100.0
  }
}
