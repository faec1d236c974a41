/** The enable/disable bookkeeping of the meme form's four controls: the
    generate button, the clear button, the read-aloud button and the voice
    selector. Submitting the form and pressing clear both toggle them. */
module Buttons {

  /** The `disabled` flag of each control, as a value. */
  datatype ButtonStates = ButtonStates(generate: bool, clear: bool, read: bool, voice: bool)

  /** The states the page moves between: either generate is enabled and the
      other three are disabled, or the other way round. */
  predicate Complementary(s: ButtonStates)
  {
    s.clear == !s.generate && s.read == !s.generate && s.voice == !s.generate
  }

  /** What toggleButtons leaves behind, given the flags it finds. */
  function Toggled(s: ButtonStates): (t: ButtonStates)
    ensures t.generate == !s.generate
    ensures Complementary(t)
  {
    if s.generate == false then ButtonStates(true, false, false, false)
    else ButtonStates(false, true, true, true)
  }

  /** Toggling twice restores the flags exactly when they were
      complementary to begin with; from any other state the second toggle
      lands on the complementary state that has the same generate flag. */
  lemma ToggleTwiceRestores(s: ButtonStates)
    ensures Toggled(Toggled(s)) == s <==> Complementary(s)
    ensures Toggled(Toggled(s)).generate == s.generate
  {
  }

  /** A single toggle never restores the flags. */
  lemma ToggleChangesState(s: ButtonStates)
    ensures Toggled(s) != s
  {
  }

  /** The four controls, whose `disabled` flags the page updates in place. */
  class Form {
    var generateDisabled: bool
    var clearDisabled: bool
    var readDisabled: bool
    var voiceDisabled: bool

    /** The four flags as a value. */
    function State(): ButtonStates
      reads this
    {
      ButtonStates(generateDisabled, clearDisabled, readDisabled, voiceDisabled)
    }

    /** The controls with the `disabled` flags the page starts with. */
    constructor (initial: ButtonStates)
      ensures State() == initial
    {
      generateDisabled := initial.generate;
      clearDisabled := initial.clear;
      readDisabled := initial.read;
      voiceDisabled := initial.voice;
    }

    /** The script's toggleButtons. */
    method ToggleButtons()
      modifies this
      ensures State() == Toggled(old(State()))
      ensures generateDisabled == !old(generateDisabled)
      ensures Complementary(State())
    {
      if generateDisabled == false {
        generateDisabled := true;
        clearDisabled := false;
        readDisabled := false;
        voiceDisabled := false;
      } else {
        generateDisabled := false;
        clearDisabled := true;
        readDisabled := true;
        voiceDisabled := true;
      }
    }

    /** A submit followed by a clear (each toggles once) brings complementary
        controls back to where they were. */
    method SubmitThenClear()
      requires Complementary(State())
      modifies this
      ensures State() == old(State())
    {
      ToggleButtons();
      ToggleButtons();
      ToggleTwiceRestores(old(State()));
    }
  }
}
