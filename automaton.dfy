/**
 * The event loop's eight local variables as an object whose fields are
 * updated in place, one raw key event at a time.
 */
module ChordMachine {
  import opened Wrappers
  import opened Chord
  import ChordProperties

  class Automaton {
    var altCount: int
    var ctrlCount: int
    var shiftCount: int
    var superCount: int
    var otherCount: int
    var canAltShift: bool
    var canCtrlShift: bool
    var canSuperShift: bool

    /** The fields as a value. */
    function State(): ChordState
      reads this
    {
      ChordState(altCount, ctrlCount, shiftCount, superCount, otherCount, canAltShift, canCtrlShift, canSuperShift)
    }

    /** The object invariant: no count is negative. */
    ghost predicate Valid()
      reads this
    {
      Chord.Valid(State())
    }

    /** All counts zero, no chord armed. */
    constructor ()
      ensures Valid() && State() == Initial
    {
      altCount, ctrlCount, shiftCount, superCount, otherCount := 0, 0, 0, 0, 0;
      canAltShift, canCtrlShift, canSuperShift := false, false, false;
    }

    /**
     * Handles one raw key press or release and returns the gesture it
     * completes, if any.  The new fields and the signal are those of the
     * step function, so every lemma about `Next` holds of this method.
     */
    method Step(isPress: bool, code: int) returns (sig: Option<Signal>)
      requires Valid()
      modifies this
      ensures Valid()
      ensures State() == Next(old(State()), KeyEvent(isPress, code)).after
      ensures sig == Next(old(State()), KeyEvent(isPress, code)).signal
    {
      if isPress {
        sig := Press(code);
      } else {
        sig := Release(code);
      }
    }

    /** The `XI_RawKeyPress` branch: the key code is tested class by class, as in `KeyClass.Classify`. */
    method Press(code: int) returns (sig: Option<Signal>)
      modifies this
      ensures StepResult(State(), sig) == PressNext(old(State()), code)
    {
      sig := None;
      // each guard below reads only counts that its own branch does not change,
      // so testing it beside the increment is testing it after the increment
      if code == 64 {
        altCount, canAltShift, canCtrlShift, canSuperShift :=
          altCount + 1,
          canAltShift || HeldWithout(shiftCount, ctrlCount, superCount, otherCount),
          false,
          false;
      } else if code == 37 || code == 105 {
        ctrlCount, canAltShift, canCtrlShift, canSuperShift :=
          ctrlCount + 1,
          false,
          canCtrlShift || HeldWithout(shiftCount, altCount, superCount, otherCount),
          false;
      } else if code == 50 || code == 62 {
        shiftCount, canAltShift, canCtrlShift, canSuperShift :=
          shiftCount + 1,
          canAltShift || HeldWithout(altCount, ctrlCount, superCount, otherCount),
          canCtrlShift || HeldWithout(ctrlCount, altCount, superCount, otherCount),
          canSuperShift || HeldWithout(superCount, ctrlCount, altCount, otherCount);
      } else if code == 133 || code == 134 {
        superCount, canAltShift, canCtrlShift, canSuperShift :=
          superCount + 1,
          false,
          false,
          canSuperShift || HeldWithout(shiftCount, ctrlCount, altCount, otherCount);
      } else {
        // Ctrl+Alt+T, tested before the ordinary key is counted
        if code == 28 && ctrlCount > 0 && HeldWithout(altCount, shiftCount, superCount, otherCount) {
          sig := Some(TerminalOpen);
        }
        otherCount, canAltShift, canCtrlShift, canSuperShift := otherCount + 1, false, false, false;
      }
    }

    /** The `XI_RawKeyRelease` branch: no arm flag is written. */
    method Release(code: int) returns (sig: Option<Signal>)
      modifies this
      ensures StepResult(State(), sig) == ReleaseNext(old(State()), code)
    {
      sig := None;
      if code == 64 {
        altCount := altCount - (if altCount > 0 then 1 else 0);
        if canAltShift && altCount == 0 && HeldWithout(shiftCount, ctrlCount, superCount, otherCount) {
          sig := Some(LayoutRotateCJK);
        }
      } else if code == 37 || code == 105 {
        ctrlCount := ctrlCount - (if ctrlCount > 0 then 1 else 0);
        if canCtrlShift && ctrlCount == 0 && HeldWithout(shiftCount, altCount, superCount, otherCount) {
          sig := Some(LayoutRotate);
        }
      } else if code == 50 || code == 62 {
        shiftCount := shiftCount - (if shiftCount > 0 then 1 else 0);
        // two independent tests, as in the C code; their guards exclude each other
        if canAltShift && shiftCount == 0 && HeldWithout(altCount, ctrlCount, superCount, otherCount) {
          sig := Some(LayoutRotateCJK);
        }
        if canCtrlShift && shiftCount == 0 && HeldWithout(ctrlCount, altCount, superCount, otherCount) {
          sig := Some(LayoutRotate);
        }
      } else if code == 133 || code == 134 {
        superCount := superCount - (if superCount > 0 then 1 else 0);
      } else {
        otherCount := otherCount - (if otherCount > 0 then 1 else 0);
      }
    }

    /**
     * The receive loop over a finite stream of events: the fields end as
     * `Run` says, with one signal per event, in order.
     */
    method Feed(events: seq<KeyEvent>) returns (signals: seq<Option<Signal>>)
      requires Valid()
      modifies this
      ensures Valid()
      ensures RunResult(State(), signals) == Run(old(State()), events)
    {
      signals := [];
      var i := 0;
      while i < |events|
        invariant 0 <= i <= |events|
        invariant Valid()
        invariant RunResult(State(), signals) == Run(old(State()), events[..i])
      {
        var sig := Step(events[i].isPress, events[i].code);
        assert events[..i + 1] == events[..i] + [events[i]];
        ChordProperties.RunStep(old(State()), events[..i], events[i]);
        signals := signals + [sig];
        i := i + 1;
      }
      assert events[..|events|] == events;
    }
  }
}
