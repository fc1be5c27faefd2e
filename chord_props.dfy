/**
 * What the chord automaton guarantees: how each event moves the counts and
 * the arm flags, exactly when each gesture fires, and what a whole stream
 * of events does to a count.
 */
module ChordProperties {
  import opened Wrappers
  import opened KeyClass
  import opened Chord

  // ---------------------------------------------------------------------
  // Counts.

  /**
   * A press adds one to the count of the key's class, a release takes one
   * away unless it is already zero, and no other count moves.
   */
  lemma CountUpdate(s: ChordState, e: KeyEvent, m: ModClass)
    ensures Count(Next(s, e).after, m) ==
      if Classify(e.code) != m then Count(s, m)
      else if e.isPress then Count(s, m) + 1
      else if Count(s, m) > 0 then Count(s, m) - 1
      else Count(s, m)
  {
  }

  /** A release never takes a count below zero, even with no matching press. */
  lemma ReleaseNeverNegative(s: ChordState, code: int, m: ModClass)
    requires Count(s, m) >= 0
    ensures Count(Next(s, KeyEvent(false, code)).after, m) >= 0
    ensures Count(s, m) == 0 ==> Count(Next(s, KeyEvent(false, code)).after, m) == 0
  {
    CountUpdate(s, KeyEvent(false, code), m);
  }

  /** Every state reached from a valid state has no negative count. */
  lemma {:induction false} RunKeepsValid(s: ChordState, events: seq<KeyEvent>)
    requires Valid(s)
    ensures Valid(Run(s, events).final)
  {
    if events != [] {
      RunKeepsValid(s, events[..|events| - 1]);
    }
  }

  // ---------------------------------------------------------------------
  // Arm flags.

  /**
   * After a press, a flag is set exactly when the key belongs to that
   * chord and either the flag was already set or the chord is now held
   * exclusively.  Any other key (a third modifier, an ordinary key) clears it.
   */
  lemma PressArming(s: ChordState, code: int)
    requires Valid(s)
    ensures var t := Next(s, KeyEvent(true, code)).after;
      var m := Classify(code);
      && (t.canAltShift <==> (m == Alt || m == Shift) && (s.canAltShift || AltShiftOnly(t)))
      && (t.canCtrlShift <==> (m == Ctrl || m == Shift) && (s.canCtrlShift || CtrlShiftOnly(t)))
      && (t.canSuperShift <==> (m == Super || m == Shift) && (s.canSuperShift || SuperShiftOnly(t)))
  {
    match Classify(code)
    case Alt =>
    case Ctrl =>
    case Shift =>
    case Super =>
    case Other =>
  }

  /** An ordinary key press clears every flag, counts itself, and leaves the modifier counts alone. */
  lemma OrdinaryPressDisarms(s: ChordState, code: int)
    requires code !in ModifierCodes()
    ensures var t := Next(s, KeyEvent(true, code)).after;
      && !t.canAltShift && !t.canCtrlShift && !t.canSuperShift
      && t.otherCount == s.otherCount + 1
      && t.altCount == s.altCount && t.ctrlCount == s.ctrlCount
      && t.shiftCount == s.shiftCount && t.superCount == s.superCount
  {
  }

  /** Releases never touch a flag: arming is sticky, and firing does not consume it. */
  lemma ReleaseKeepsArms(s: ChordState, code: int)
    ensures var t := Next(s, KeyEvent(false, code)).after;
      t.canAltShift == s.canAltShift && t.canCtrlShift == s.canCtrlShift && t.canSuperShift == s.canSuperShift
  {
  }

  // ---------------------------------------------------------------------
  // Signals.

  /**
   * A press fires only the terminal gesture, and does so exactly for key 28
   * pressed while Ctrl and Alt, and nothing else, were already held.
   */
  lemma PressSignal(s: ChordState, code: int)
    ensures Next(s, KeyEvent(true, code)).signal ==
      if code == 28 && CtrlAltOnly(s) then Some(TerminalOpen) else None
  {
  }

  /**
   * A release fires Alt+Shift exactly when it completes that chord while
   * it is armed, Ctrl+Shift likewise, and nothing else ever.
   */
  lemma ReleaseSignal(s: ChordState, code: int)
    ensures var r := Next(s, KeyEvent(false, code));
      var m := Classify(code);
      && (r.signal == Some(LayoutRotateCJK) <==> s.canAltShift && AltShiftCompleted(m, r.after))
      && (r.signal == Some(LayoutRotate) <==> s.canCtrlShift && CtrlShiftCompleted(m, r.after))
      && (r.signal.Some? ==> r.signal == Some(LayoutRotateCJK) || r.signal == Some(LayoutRotate))
  {
    var r := Next(s, KeyEvent(false, code));
    ShiftReleaseGuardsExclusive(Classify(code), r.after);
  }

  /** No state completes both release chords at once, so a Shift release fires at most one. */
  lemma ShiftReleaseGuardsExclusive(m: ModClass, t: ChordState)
    ensures !(AltShiftCompleted(m, t) && CtrlShiftCompleted(m, t))
  {
  }

  /** Nothing fires while an ordinary key is held. */
  lemma OtherHeldBlocksSignals(s: ChordState, e: KeyEvent)
    requires s.otherCount > 0
    ensures Next(s, e).signal == None
  {
  }

  /** The Super+Shift arm flag is written but never read: it changes no signal and no other variable. */
  lemma SuperArmNotRead(s: ChordState, e: KeyEvent, b: bool)
    ensures Next(s.(canSuperShift := b), e).signal == Next(s, e).signal
    ensures Next(s.(canSuperShift := b), e).after.(canSuperShift := false) == Next(s, e).after.(canSuperShift := false)
  {
    var s' := s.(canSuperShift := b);
    if e.isPress {
      match Classify(e.code)
      case Alt =>
      case Ctrl =>
      case Shift =>
      case Super =>
      case Other =>
    } else {
      match Classify(e.code)
      case Alt =>
      case Ctrl =>
      case Shift =>
      case Super =>
      case Other =>
    }
  }

  /**
   * No stream of events ever yields the Super+Shift gesture. This holds by
   * construction, since no step of the model produces `SuperShift` (the C
   * code has no launch for it); the evidence that the Super+Shift flag has no
   * effect at all is `SuperArmNotRead`.
   */
  lemma {:induction false} SuperShiftNeverFires(s: ChordState, events: seq<KeyEvent>)
    ensures forall i :: 0 <= i < |events| ==> Run(s, events).signals[i] != Some(SuperShift)
  {
    if events != [] {
      SuperShiftNeverFires(s, events[..|events| - 1]);
      var prev := Run(s, events[..|events| - 1]);
      var e := events[|events| - 1];
      if e.isPress {
        PressSignal(prev.final, e.code);
      } else {
        ReleaseSignal(prev.final, e.code);
      }
    }
  }

  /**
   * The layout gestures need Shift: from a state with no Shift held, a
   * stream with no Shift key in it never switches the layout.
   */
  lemma {:induction false} NoShiftNoLayout(s: ChordState, events: seq<KeyEvent>)
    requires s.shiftCount == 0
    requires forall i :: 0 <= i < |events| ==> Classify(events[i].code) != Shift
    ensures Run(s, events).final.shiftCount == 0
    ensures forall i :: 0 <= i < |events| ==>
      Run(s, events).signals[i] != Some(LayoutRotateCJK) && Run(s, events).signals[i] != Some(LayoutRotate)
  {
    if events != [] {
      NoShiftNoLayout(s, events[..|events| - 1]);
      var prev := Run(s, events[..|events| - 1]);
      var e := events[|events| - 1];
      CountUpdate(prev.final, e, Shift);
      if !e.isPress {
        ReleaseSignal(prev.final, e.code);
      }
    }
  }

  // ---------------------------------------------------------------------
  // Re-triggering.

  /** Shift held alone with Alt+Shift armed. */
  predicate AltShiftReady(s: ChordState)
  {
    s.canAltShift && s.shiftCount > 0 && s.altCount == 0 && s.ctrlCount == 0 && s.superCount == 0 && s.otherCount == 0
  }

  /** Shift held alone with Ctrl+Shift armed. */
  predicate CtrlShiftReady(s: ChordState)
  {
    s.canCtrlShift && s.shiftCount > 0 && s.altCount == 0 && s.ctrlCount == 0 && s.superCount == 0 && s.otherCount == 0
  }

  /** With Alt+Shift armed, each tap of Alt fires the gesture again and leaves it ready again. */
  lemma AltTapRetriggers(s: ChordState)
    requires AltShiftReady(s)
    ensures var r := Run(s, [KeyEvent(true, 64), KeyEvent(false, 64)]);
      r.signals == [None, Some(LayoutRotateCJK)] && AltShiftReady(r.final)
  {
    var p := Next(s, KeyEvent(true, 64));
    assert [KeyEvent(true, 64), KeyEvent(false, 64)][..1] == [KeyEvent(true, 64)];
    assert Run(s, [KeyEvent(true, 64)]) == RunResult(p.after, [None]);
  }

  /** With Ctrl+Shift armed, each tap of Ctrl fires the gesture again and leaves it ready again. */
  lemma CtrlTapRetriggers(s: ChordState, code: int)
    requires code == 37 || code == 105
    requires CtrlShiftReady(s)
    ensures var r := Run(s, [KeyEvent(true, code), KeyEvent(false, code)]);
      r.signals == [None, Some(LayoutRotate)] && CtrlShiftReady(r.final)
  {
    var p := Next(s, KeyEvent(true, code));
    assert [KeyEvent(true, code), KeyEvent(false, code)][..1] == [KeyEvent(true, code)];
    assert Run(s, [KeyEvent(true, code)]) == RunResult(p.after, [None]);
  }

  // ---------------------------------------------------------------------
  // A count over a whole stream: a walk of +1 / -1 steps floored at zero.

  /** The directions (true = press) of the events of one class, in order. */
  function Directions(events: seq<KeyEvent>, m: ModClass): (ds: seq<bool>)
    ensures |ds| <= |events|
  {
    if events == [] then []
    else
      var e := events[|events| - 1];
      Directions(events[..|events| - 1], m) + (if Classify(e.code) == m then [e.isPress] else [])
  }

  /** Presses minus releases. */
  function Net(ds: seq<bool>): int
  {
    if ds == [] then 0 else Net(ds[..|ds| - 1]) + (if ds[|ds| - 1] then 1 else -1)
  }

  /** A count driven by `ds` from `n` with the zero floor of each release. */
  function Floored(n: int, ds: seq<bool>): int
  {
    if ds == [] then n
    else
      var x := Floored(n, ds[..|ds| - 1]);
      if ds[|ds| - 1] then x + 1 else Dec(x)
  }

  /** The largest net of any suffix of `ds` (the empty suffix gives zero). */
  function MaxSuffixNet(ds: seq<bool>): (r: int)
    ensures r >= 0
  {
    if ds == [] then 0
    else
      var x := MaxSuffixNet(ds[..|ds| - 1]) + (if ds[|ds| - 1] then 1 else -1);
      if x > 0 then x else 0
  }

  /** MaxSuffixNet is the maximum of Net over the suffixes of `ds`, and is reached by one. */
  lemma {:induction false} MaxSuffixNetIsMax(ds: seq<bool>)
    ensures forall k :: 0 <= k <= |ds| ==> Net(ds[k..]) <= MaxSuffixNet(ds)
    ensures exists k :: 0 <= k <= |ds| && Net(ds[k..]) == MaxSuffixNet(ds)
  {
    if ds == [] {
      assert Net(ds[0..]) == 0;
    } else {
      var n := |ds|;
      var init := ds[..n - 1];
      var d := if ds[n - 1] then 1 else -1;
      MaxSuffixNetIsMax(init);
      forall k | 0 <= k <= n
        ensures Net(ds[k..]) <= MaxSuffixNet(ds)
      {
        if k < n {
          SuffixNet(ds, k);
        } else {
          assert ds[k..] == [];
        }
      }
      var j :| 0 <= j <= n - 1 && Net(init[j..]) == MaxSuffixNet(init);
      if MaxSuffixNet(init) + d > 0 {
        SuffixNet(ds, j);
      } else {
        assert ds[n..] == [];
        assert Net(ds[n..]) == 0;
      }
    }
  }

  /** The net of a non-empty suffix splits off its last direction. */
  lemma SuffixNet(ds: seq<bool>, k: nat)
    requires k < |ds|
    ensures Net(ds[k..]) == Net(ds[..|ds| - 1][k..]) + (if ds[|ds| - 1] then 1 else -1)
  {
    var suf := ds[k..];
    assert suf[..|suf| - 1] == ds[..|ds| - 1][k..];
  }

  /**
   * The floored count is the larger of the plain net count and the best
   * suffix net: it equals `n` + presses - releases unless some release hit
   * the floor, and is never negative.
   */
  lemma {:induction false} FlooredFormula(n: int, ds: seq<bool>)
    requires n >= 0
    ensures Floored(n, ds) == if n + Net(ds) >= MaxSuffixNet(ds) then n + Net(ds) else MaxSuffixNet(ds)
    ensures Floored(n, ds) >= 0 && Floored(n, ds) >= n + Net(ds)
  {
    if ds != [] {
      FlooredFormula(n, ds[..|ds| - 1]);
    }
  }

  /** Each count after a stream is the floored walk of that class's presses and releases. */
  lemma {:induction false} RunCountIsFloored(s: ChordState, events: seq<KeyEvent>, m: ModClass)
    ensures Count(Run(s, events).final, m) == Floored(Count(s, m), Directions(events, m))
  {
    if events != [] {
      var init := events[..|events| - 1];
      var e := events[|events| - 1];
      RunCountIsFloored(s, init, m);
      CountUpdate(Run(s, init).final, e, m);
      var ds := Directions(init, m);
      if Classify(e.code) == m {
        assert Directions(events, m) == ds + [e.isPress];
        assert (ds + [e.isPress])[..|ds|] == ds;
      } else {
        assert Directions(events, m) == ds;
      }
    }
  }

  // ---------------------------------------------------------------------
  // Scenarios.

  /** Shift, Alt, release Alt fires Alt+Shift; tapping Alt again fires it again. */
  lemma ScenarioStickyRetrigger()
    ensures Run(Initial, [KeyEvent(true, 50), KeyEvent(true, 64), KeyEvent(false, 64), KeyEvent(true, 64), KeyEvent(false, 64)]).signals
         == [None, None, Some(LayoutRotateCJK), None, Some(LayoutRotateCJK)]
  {
    var x0: seq<KeyEvent> := [];
    var x1 := x0 + [KeyEvent(true, 50)];
    var x2 := x1 + [KeyEvent(true, 64)];
    var x3 := x2 + [KeyEvent(false, 64)];
    var x4 := x3 + [KeyEvent(true, 64)];
    var x5 := x4 + [KeyEvent(false, 64)];
    RunStep(Initial, x0, KeyEvent(true, 50));
    assert Run(Initial, x1) == RunResult(ChordState(0, 0, 1, 0, 0, false, false, false), [None]);
    RunStep(Initial, x1, KeyEvent(true, 64));
    assert Run(Initial, x2) == RunResult(ChordState(1, 0, 1, 0, 0, true, false, false), [None, None]);
    RunStep(Initial, x2, KeyEvent(false, 64));
    assert Run(Initial, x3) == RunResult(ChordState(0, 0, 1, 0, 0, true, false, false), [None, None, Some(LayoutRotateCJK)]);
    RunStep(Initial, x3, KeyEvent(true, 64));
    assert Run(Initial, x4) == RunResult(ChordState(1, 0, 1, 0, 0, true, false, false), [None, None, Some(LayoutRotateCJK), None]);
    RunStep(Initial, x4, KeyEvent(false, 64));
    assert Run(Initial, x5) == RunResult(ChordState(0, 0, 1, 0, 0, true, false, false), [None, None, Some(LayoutRotateCJK), None, Some(LayoutRotateCJK)]);
    assert x5 == [KeyEvent(true, 50), KeyEvent(true, 64), KeyEvent(false, 64), KeyEvent(true, 64), KeyEvent(false, 64)];
  }

  /** An ordinary key pressed in between disqualifies Alt+Shift. */
  lemma ScenarioOrdinaryKeyDisqualifies()
    ensures Run(Initial, [KeyEvent(true, 50), KeyEvent(true, 64), KeyEvent(true, 5), KeyEvent(false, 64)]).signals
         == [None, None, None, None]
  {
    var x0: seq<KeyEvent> := [];
    var x1 := x0 + [KeyEvent(true, 50)];
    var x2 := x1 + [KeyEvent(true, 64)];
    var x3 := x2 + [KeyEvent(true, 5)];
    var x4 := x3 + [KeyEvent(false, 64)];
    RunStep(Initial, x0, KeyEvent(true, 50));
    assert Run(Initial, x1) == RunResult(ChordState(0, 0, 1, 0, 0, false, false, false), [None]);
    RunStep(Initial, x1, KeyEvent(true, 64));
    assert Run(Initial, x2) == RunResult(ChordState(1, 0, 1, 0, 0, true, false, false), [None, None]);
    RunStep(Initial, x2, KeyEvent(true, 5));
    assert Run(Initial, x3) == RunResult(ChordState(1, 0, 1, 0, 1, false, false, false), [None, None, None]);
    RunStep(Initial, x3, KeyEvent(false, 64));
    assert Run(Initial, x4) == RunResult(ChordState(0, 0, 1, 0, 1, false, false, false), [None, None, None, None]);
    assert x4 == [KeyEvent(true, 50), KeyEvent(true, 64), KeyEvent(true, 5), KeyEvent(false, 64)];
  }

  /** Ctrl, Alt, key 28 opens the terminal; with Shift held first, nothing fires. */
  lemma ScenarioTerminal()
    ensures Run(Initial, [KeyEvent(true, 37), KeyEvent(true, 64), KeyEvent(true, 28)]).signals
         == [None, None, Some(TerminalOpen)]
    ensures Run(Initial, [KeyEvent(true, 50), KeyEvent(true, 37), KeyEvent(true, 64), KeyEvent(true, 28)]).signals
         == [None, None, None, None]
  {
    var a0: seq<KeyEvent> := [];
    var a1 := a0 + [KeyEvent(true, 37)];
    var a2 := a1 + [KeyEvent(true, 64)];
    var a3 := a2 + [KeyEvent(true, 28)];
    RunStep(Initial, a0, KeyEvent(true, 37));
    assert Run(Initial, a1) == RunResult(ChordState(0, 1, 0, 0, 0, false, false, false), [None]);
    RunStep(Initial, a1, KeyEvent(true, 64));
    assert Run(Initial, a2) == RunResult(ChordState(1, 1, 0, 0, 0, false, false, false), [None, None]);
    RunStep(Initial, a2, KeyEvent(true, 28));
    assert Run(Initial, a3) == RunResult(ChordState(1, 1, 0, 0, 1, false, false, false), [None, None, Some(TerminalOpen)]);
    assert a3 == [KeyEvent(true, 37), KeyEvent(true, 64), KeyEvent(true, 28)];
    var b0: seq<KeyEvent> := [];
    var b1 := b0 + [KeyEvent(true, 50)];
    var b2 := b1 + [KeyEvent(true, 37)];
    var b3 := b2 + [KeyEvent(true, 64)];
    var b4 := b3 + [KeyEvent(true, 28)];
    RunStep(Initial, b0, KeyEvent(true, 50));
    assert Run(Initial, b1) == RunResult(ChordState(0, 0, 1, 0, 0, false, false, false), [None]);
    RunStep(Initial, b1, KeyEvent(true, 37));
    assert Run(Initial, b2) == RunResult(ChordState(0, 1, 1, 0, 0, false, true, false), [None, None]);
    RunStep(Initial, b2, KeyEvent(true, 64));
    assert Run(Initial, b3) == RunResult(ChordState(1, 1, 1, 0, 0, false, false, false), [None, None, None]);
    RunStep(Initial, b3, KeyEvent(true, 28));
    assert Run(Initial, b4) == RunResult(ChordState(1, 1, 1, 0, 1, false, false, false), [None, None, None, None]);
    assert b4 == [KeyEvent(true, 50), KeyEvent(true, 37), KeyEvent(true, 64), KeyEvent(true, 28)];
  }

  /** Ctrl, Shift, Alt, release Shift fires neither family: Alt now spoils Ctrl+Shift. */
  lemma ScenarioThirdModifierSpoils()
    ensures Run(Initial, [KeyEvent(true, 37), KeyEvent(true, 50), KeyEvent(true, 64), KeyEvent(false, 50)]).signals
         == [None, None, None, None]
  {
    var x0: seq<KeyEvent> := [];
    var x1 := x0 + [KeyEvent(true, 37)];
    var x2 := x1 + [KeyEvent(true, 50)];
    var x3 := x2 + [KeyEvent(true, 64)];
    var x4 := x3 + [KeyEvent(false, 50)];
    RunStep(Initial, x0, KeyEvent(true, 37));
    assert Run(Initial, x1) == RunResult(ChordState(0, 1, 0, 0, 0, false, false, false), [None]);
    RunStep(Initial, x1, KeyEvent(true, 50));
    assert Run(Initial, x2) == RunResult(ChordState(0, 1, 1, 0, 0, false, true, false), [None, None]);
    RunStep(Initial, x2, KeyEvent(true, 64));
    assert Run(Initial, x3) == RunResult(ChordState(1, 1, 1, 0, 0, false, false, false), [None, None, None]);
    RunStep(Initial, x3, KeyEvent(false, 50));
    assert Run(Initial, x4) == RunResult(ChordState(1, 1, 0, 0, 0, false, false, false), [None, None, None, None]);
    assert x4 == [KeyEvent(true, 37), KeyEvent(true, 50), KeyEvent(true, 64), KeyEvent(false, 50)];
  }

  /** Running one more event extends the run by that event's step. */
  lemma RunStep(s: ChordState, xs: seq<KeyEvent>, e: KeyEvent)
    ensures Run(s, xs + [e]) == RunResult(Next(Run(s, xs).final, e).after, Run(s, xs).signals + [Next(Run(s, xs).final, e).signal])
  {
    assert (xs + [e])[..|xs|] == xs;
  }

  /** Running two streams one after the other is running their concatenation. */
  lemma {:induction false} RunAppend(s: ChordState, xs: seq<KeyEvent>, ys: seq<KeyEvent>)
    ensures Run(s, xs + ys).final == Run(Run(s, xs).final, ys).final
    ensures Run(s, xs + ys).signals == Run(s, xs).signals + Run(Run(s, xs).final, ys).signals
  {
    if ys == [] {
      assert xs + ys == xs;
    } else {
      var init := ys[..|ys| - 1];
      RunAppend(s, xs, init);
      assert (xs + ys)[..|xs + ys| - 1] == xs + init;
    }
  }
}
