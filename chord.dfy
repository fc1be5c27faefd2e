/**
 * The chord-detection automaton of the event loop in kbhook.c, as a pure
 * step function over a value snapshot of its eight variables: five
 * per-class counts of held keys and three sticky "arm" flags.  Each key
 * event yields the next snapshot and at most one gesture signal; the
 * signal stands for the helper script the C code launches.
 */
module Chord {
  import opened Wrappers
  import opened KeyClass

  /** The gestures; `SuperShift` is armed by the C code but never bound to an action. */
  datatype Signal = TerminalOpen | LayoutRotateCJK | LayoutRotate | SuperShift

  /** One raw key event: press or release, and the key code. */
  datatype KeyEvent = KeyEvent(isPress: bool, code: int)

  datatype ChordState = ChordState(
    altCount: int, ctrlCount: int, shiftCount: int, superCount: int, otherCount: int,
    canAltShift: bool, canCtrlShift: bool, canSuperShift: bool)

  datatype StepResult = StepResult(after: ChordState, signal: Option<Signal>)

  datatype RunResult = RunResult(final: ChordState, signals: seq<Option<Signal>>)

  /** The state the event loop starts from: nothing held, nothing armed. */
  const Initial := ChordState(0, 0, 0, 0, 0, false, false, false)

  /** No count is negative. */
  predicate Valid(s: ChordState)
  {
    s.altCount >= 0 && s.ctrlCount >= 0 && s.shiftCount >= 0 && s.superCount >= 0 && s.otherCount >= 0
  }

  /** The count kept for one class. */
  function Count(s: ChordState, m: ModClass): int
  {
    match m
    case Alt => s.altCount
    case Ctrl => s.ctrlCount
    case Shift => s.shiftCount
    case Super => s.superCount
    case Other => s.otherCount
  }

  /** `n -= n > 0`: a release lowers a count but never below zero. */
  function Dec(n: int): int
  {
    n - (if n > 0 then 1 else 0)
  }

  /**
   * The guard the C code spells `x && !a && !b && !c`: the first count is
   * positive and the other three are zero.
   */
  predicate HeldWithout(held: int, a: int, b: int, c: int)
  {
    held > 0 && a == 0 && b == 0 && c == 0
  }

  // ---------------------------------------------------------------------
  // Exclusive chords: exactly the two (or three) classes of a gesture held.

  predicate AltShiftOnly(s: ChordState)
  {
    s.altCount > 0 && s.shiftCount > 0 && s.ctrlCount == 0 && s.superCount == 0 && s.otherCount == 0
  }

  predicate CtrlShiftOnly(s: ChordState)
  {
    s.ctrlCount > 0 && s.shiftCount > 0 && s.altCount == 0 && s.superCount == 0 && s.otherCount == 0
  }

  predicate SuperShiftOnly(s: ChordState)
  {
    s.superCount > 0 && s.shiftCount > 0 && s.altCount == 0 && s.ctrlCount == 0 && s.otherCount == 0
  }

  predicate CtrlAltOnly(s: ChordState)
  {
    s.ctrlCount > 0 && s.altCount > 0 && s.shiftCount == 0 && s.superCount == 0 && s.otherCount == 0
  }

  /**
   * A release of class `m` that leaves `t` completes Alt+Shift: one of the
   * two keys has just gone up, the other is still held, nothing else is.
   */
  predicate AltShiftCompleted(m: ModClass, t: ChordState)
  {
    ((m == Alt && t.altCount == 0 && t.shiftCount > 0) || (m == Shift && t.shiftCount == 0 && t.altCount > 0))
    && t.ctrlCount == 0 && t.superCount == 0 && t.otherCount == 0
  }

  /** The same for Ctrl+Shift. */
  predicate CtrlShiftCompleted(m: ModClass, t: ChordState)
  {
    ((m == Ctrl && t.ctrlCount == 0 && t.shiftCount > 0) || (m == Shift && t.shiftCount == 0 && t.ctrlCount > 0))
    && t.altCount == 0 && t.superCount == 0 && t.otherCount == 0
  }

  // ---------------------------------------------------------------------
  // One event.

  /** A key press: one branch per class, guards evaluated after the increment. */
  function PressNext(s: ChordState, code: int): StepResult
  {
    match Classify(code)
    case Alt =>
      var t := s.(altCount := s.altCount + 1);
      StepResult(t.(canAltShift := t.canAltShift || HeldWithout(t.shiftCount, t.ctrlCount, t.superCount, t.otherCount),
                    canCtrlShift := false,
                    canSuperShift := false), None)
    case Ctrl =>
      var t := s.(ctrlCount := s.ctrlCount + 1);
      StepResult(t.(canAltShift := false,
                    canCtrlShift := t.canCtrlShift || HeldWithout(t.shiftCount, t.altCount, t.superCount, t.otherCount),
                    canSuperShift := false), None)
    case Shift =>
      var t := s.(shiftCount := s.shiftCount + 1);
      StepResult(t.(canAltShift := t.canAltShift || HeldWithout(t.altCount, t.ctrlCount, t.superCount, t.otherCount),
                    canCtrlShift := t.canCtrlShift || HeldWithout(t.ctrlCount, t.altCount, t.superCount, t.otherCount),
                    canSuperShift := t.canSuperShift || HeldWithout(t.superCount, t.ctrlCount, t.altCount, t.otherCount)), None)
    case Super =>
      var t := s.(superCount := s.superCount + 1);
      StepResult(t.(canAltShift := false,
                    canCtrlShift := false,
                    canSuperShift := t.canSuperShift || HeldWithout(t.shiftCount, t.ctrlCount, t.altCount, t.otherCount)), None)
    case Other =>
      // Ctrl+Alt+T: tested before the ordinary key is counted
      var terminal := code == 28 && s.ctrlCount > 0 && HeldWithout(s.altCount, s.shiftCount, s.superCount, s.otherCount);
      StepResult(s.(otherCount := s.otherCount + 1, canAltShift := false, canCtrlShift := false, canSuperShift := false),
                 if terminal then Some(TerminalOpen) else None)
  }

  /** A key release: floor-decrement, then test the gestures; no arm flag changes. */
  function ReleaseNext(s: ChordState, code: int): StepResult
  {
    match Classify(code)
    case Alt =>
      var t := s.(altCount := Dec(s.altCount));
      var cjk := t.canAltShift && t.altCount == 0 && HeldWithout(t.shiftCount, t.ctrlCount, t.superCount, t.otherCount);
      StepResult(t, if cjk then Some(LayoutRotateCJK) else None)
    case Ctrl =>
      var t := s.(ctrlCount := Dec(s.ctrlCount));
      var rotate := t.canCtrlShift && t.ctrlCount == 0 && HeldWithout(t.shiftCount, t.altCount, t.superCount, t.otherCount);
      StepResult(t, if rotate then Some(LayoutRotate) else None)
    case Shift =>
      var t := s.(shiftCount := Dec(s.shiftCount));
      var cjk := t.canAltShift && t.shiftCount == 0 && HeldWithout(t.altCount, t.ctrlCount, t.superCount, t.otherCount);
      var rotate := t.canCtrlShift && t.shiftCount == 0 && HeldWithout(t.ctrlCount, t.altCount, t.superCount, t.otherCount);
      StepResult(t, if cjk then Some(LayoutRotateCJK) else if rotate then Some(LayoutRotate) else None)
    case Super =>
      StepResult(s.(superCount := Dec(s.superCount)), None)
    case Other =>
      StepResult(s.(otherCount := Dec(s.otherCount)), None)
  }

  /** One raw key event. */
  function Next(s: ChordState, e: KeyEvent): (r: StepResult)
    ensures Valid(s) ==> Valid(r.after)
    ensures e.isPress ==> r.signal == None || r.signal == Some(TerminalOpen)
    ensures !e.isPress ==> r.signal != Some(TerminalOpen)
  {
    if e.isPress then PressNext(s, e.code) else ReleaseNext(s, e.code)
  }

  /** A finite stream of events, in order, with the signal of each. */
  function Run(s: ChordState, events: seq<KeyEvent>): (r: RunResult)
    ensures |r.signals| == |events|
  {
    if events == [] then RunResult(s, [])
    else
      var prev := Run(s, events[..|events| - 1]);
      var step := Next(prev.final, events[|events| - 1]);
      RunResult(step.after, prev.signals + [step.signal])
  }
}
