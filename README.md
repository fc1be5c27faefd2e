# kbhook chord detector, modelled in Dafny

kbhook is a small X11 program (one C file, `kbhook.c`). It listens to raw
XInput 2 key events from the master devices, or from one device chosen on
the command line. It counts which modifier keys are held and launches a helper
script when it sees one of three chords:

- Ctrl+Alt+key 28 on the press of key 28 opens a terminal (`terminal.sh`).
- Releasing Alt+Shift rotates the CJK layouts (`layout_rotate_cjk.sh`).
- Releasing Ctrl+Shift rotates the layouts (`layout_rotate.sh`).

The model covers the two parts of the program that have real logic.

1. **The chord automaton** (`kbhook.c:160-287`).
   - State: five counts of held keys (Alt, Ctrl, Shift, Super, ordinary keys) and three sticky arm flags.
   - `keyclass.dfy` holds the fixed table of key codes.
   - `chord.dfy` holds the step function `Chord.Next` over a value snapshot of the state, and `Chord.Run` over a stream of events.
   - `automaton.dfy` holds the C loop's variables as the fields of the class `ChordMachine.Automaton`. `Step` updates them in place, one event at a time, and returns the signal in place of the script launch. `Feed` is the receive loop over a finite stream. Both are proved equal to `Next` and `Run`.
   - `chord_props.dfy` proves what the automaton guarantees. Counts never go negative, and only the pressed or released class's count moves. Over a stream, each count is a walk floored at zero, with an exact formula. Arming rules per press are stated, and releases never touch a flag. Each gesture fires exactly under its condition. A Shift release fires at most one gesture. The Super+Shift flag is never read, so that gesture never fires. Without Shift, no layout gesture fires. Armed gestures re-trigger. Worked event sequences are included.
2. **Device selection** (`kbhook.c:38-118`, `132-141`, in `devices.dfy`).
   - Role predicates and `device_matches`, as pure functions.
   - The numeric-token test and `atoi`, as the decimal value of a digit string, with its inverse.
   - `xi2_find_device_info`, as the method `FindDeviceInfo`. It has the digit loop and the scan that gives up at the second match. It is proved equal to `Resolve`, which is characterised by the lemmas: found iff exactly one match, not found iff none, ambiguous iff two.
   - The choice of the event-selection target.

Two points of the code are worth noting:

- **Numeric tokens.** The code does not assume that device IDs are unique. Two devices with the same ID make the scan give up at the second match (`kbhook.c:97-108`), and `Resolve` returns `Ambiguous`.
- **Listening without a token.** Two event masks are selected (`kbhook.c:138-154`). The one for all devices is allocated zeroed and never given an event, so it selects nothing. Raw key events are selected only on the master devices, so without a token a floating slave is not heard. `Target.AllMasterDevices` records this.
- **Shift release.** The code tests the two Shift-release gestures with two independent `if`s (`kbhook.c:265`, `kbhook.c:271`), not `else if`. `Automaton.Release` keeps the two `if`s. `Chord.ReleaseNext` uses `else if`. The postcondition of `Release`, with `ShiftReleaseGuardsExclusive`, shows that the two behave the same.

## Model

| member | source | states |
|---|---|---|
| KeyClass.ClassifyMatchesTable | kbhook.c:184-218 | a code is an ordinary key exactly when it is none of 64, 37, 105, 50, 62, 133, 134; for each modifier class the if-chain picks that class exactly for the codes of its table entry |
| Chord.Next | kbhook.c:180-287 | a step from a state with no negative count yields one; a press can signal only the terminal, a release never signals it |
| Chord.Run | kbhook.c:169-173 | one signal per event of the stream |
| ChordProperties.CountUpdate | kbhook.c:182-287 | a press adds one to its class's count, a release subtracts one only from a positive count, and every other count is unchanged |
| ChordProperties.ReleaseNeverNegative | kbhook.c:236-285 | in every release branch (the floor-decrements at lines 236, 249, 262, 281 and 285) a release never makes a count negative and leaves a zero count at zero |
| ChordProperties.RunKeepsValid | kbhook.c:160-287 | every state reached from a state with no negative count has no negative count |
| ChordProperties.PressArming | kbhook.c:184-230 | after a press each flag is set iff the key belongs to that chord and the flag was set or the chord is now held exclusively; Alt, Ctrl, Super and ordinary presses clear the other families' flags |
| ChordProperties.OrdinaryPressDisarms | kbhook.c:220-230 | a press of a non-modifier key clears all three flags, raises the ordinary count by one and leaves the modifier counts unchanged |
| ChordProperties.ReleaseKeepsArms | kbhook.c:232-287 | no release changes any arm flag |
| ChordProperties.PressSignal | kbhook.c:220-226 | a press signals the terminal iff the code is 28 and, before the press, Ctrl and Alt are held with no Shift, Super or ordinary key; otherwise nothing |
| ChordProperties.ReleaseSignal | kbhook.c:234-277 | a release signals the CJK rotation iff Alt+Shift is armed and the release leaves exactly one of Alt and Shift up and the other held with nothing else held; likewise the layout rotation for Ctrl+Shift; nothing else is signalled |
| ChordProperties.ShiftReleaseGuardsExclusive | kbhook.c:260-277 | no state completes both release chords, so a Shift release fires at most one gesture |
| ChordProperties.OtherHeldBlocksSignals | kbhook.c:221-285 | while an ordinary key is held no event fires anything |
| ChordProperties.SuperArmNotRead | kbhook.c:232-287 | the Super+Shift flag influences no signal and no other variable |
| ChordProperties.SuperShiftNeverFires | kbhook.c:279-283 | no stream of events ever yields the Super+Shift gesture |
| ChordProperties.NoShiftNoLayout | kbhook.c:234-277 | from a state without Shift held, a stream with no Shift key never fires a layout gesture |
| ChordProperties.AltTapRetriggers | kbhook.c:184-245 | with Shift held alone and Alt+Shift armed, pressing and releasing Alt fires the CJK rotation and returns to the same readiness |
| ChordProperties.CtrlTapRetriggers | kbhook.c:193-258 | with Shift held alone and Ctrl+Shift armed, tapping either Ctrl key fires the layout rotation and returns to the same readiness |
| ChordProperties.FlooredFormula | kbhook.c:236-285 | a count driven by presses and floored releases ends at the larger of start + presses - releases and the best suffix net; it is never negative and never below the plain net |
| ChordProperties.MaxSuffixNetIsMax | kbhook.c:236-285 | the best suffix net used in that formula is the maximum, over all suffixes, of presses minus releases |
| ChordProperties.RunCountIsFloored | kbhook.c:182-287 | after any stream each count is the floored walk of that class's own presses and releases |
| ChordProperties.ScenarioStickyRetrigger | kbhook.c:184-245 | Shift, Alt, release Alt fires the CJK rotation, and Alt pressed and released again fires it again |
| ChordProperties.ScenarioOrdinaryKeyDisqualifies | kbhook.c:220-245 | Shift, Alt, an ordinary key, release Alt fires nothing |
| ChordProperties.ScenarioTerminal | kbhook.c:193-226 | Ctrl, Alt, key 28 opens the terminal; with Shift pressed first nothing fires |
| ChordProperties.ScenarioThirdModifierSpoils | kbhook.c:184-277 | Ctrl, Shift, Alt, release Shift fires neither layout gesture |
| ChordProperties.RunAppend | kbhook.c:169-173 | running two streams in turn is running their concatenation |
| ChordMachine.Automaton.constructor | kbhook.c:160-167 | all counts zero and no flag set |
| ChordMachine.Automaton.Step | kbhook.c:180-287 | updates the fields in place to the state `Next` gives and returns its signal, keeping every count non-negative |
| ChordMachine.Automaton.Press | kbhook.c:182-231 | the press branch, equal to `PressNext` |
| ChordMachine.Automaton.Release | kbhook.c:232-287 | the release branch with its two independent Shift tests, equal to `ReleaseNext` |
| ChordMachine.Automaton.Feed | kbhook.c:169-300 | processes a stream in order; the fields and signals end as `Run` gives |
| Devices.RolesDisjoint | kbhook.c:38-46 | no role is both pointer and keyboard; a floating slave is neither |
| Devices.DeviceMatchesIff | kbhook.c:48-70 | true iff the name equals the token, or the token is `pointer:` + name on a pointer, or `keyboard:` + name on a keyboard |
| Devices.IsIdToken | kbhook.c:80-87 | the digit scan reports a numeric token exactly when every character is a decimal digit (so the empty token counts as numeric) |
| Devices.ParseToken | kbhook.c:77-92 | a token is looked up by ID exactly when it is all digits, and otherwise by its own text as a name |
| Devices.DecimalValue | kbhook.c:89-92 | the value of a digit string is below 10 to the power of its length |
| Devices.DecimalRoundTrip | kbhook.c:91 | reading back the decimal rendering of a number gives the number |
| Devices.LeadingZero | kbhook.c:91 | a leading zero does not change the value |
| Devices.MatchingIndices | kbhook.c:95-98 | exactly the indices of the matching devices, strictly increasing |
| Devices.ResolveFound | kbhook.c:95-117 | for a query, a device is returned iff it matches and no other device does |
| Devices.ResolveNotFound | kbhook.c:95-117 | nothing is returned as not found iff no device matches |
| Devices.ResolveAmbiguous | kbhook.c:97-109 | the search gives up as ambiguous iff two devices match |
| Devices.FindDeviceInfo | kbhook.c:72-118 | the digit loop and the early-exit scan return exactly `Resolve` |
| Devices.SelectTarget | kbhook.c:132-150 | without a token, raw key events are selected on the master devices; a token that resolves selects exactly the ID of the device it resolves to (a matching device); any other outcome stops start-up |
| Devices.ExampleNumericToken | kbhook.c:80-97 | token "3" picks the device with ID 3 and ignores a device named "3" |
| Devices.ExamplePointerPrefix | kbhook.c:48-70 | "pointer:Mouse" picks the pointer named Mouse, never a keyboard named Mouse; the bare name is ambiguous between them |
| Devices.EmptyTokenIsIdZero | kbhook.c:80-92 | the empty token counts as numeric and selects the device with ID 0 |

## Left out

- Connecting to the X server, querying the XInput extension, and `main` (`kbhook.c:307-330`) are I/O.
- Building the event masks, `XISelectEvents`, and the receive loop's `XNextEvent`/`XGetEventData`/`XFreeEventData` are transport. `Feed` stands for the loop over a finite stream of events, and the subscription is reduced to the `Target` value.
- The `system(...)` launches of `terminal.sh`, `layout_rotate_cjk.sh` and `layout_rotate.sh` are foreign process calls. Each becomes the `Signal` returned by `Step`.
- `XIQueryDevice` and `XIFreeDeviceInfo` are library calls. The device list is an input sequence.
- The warning printed on an ambiguous token is output only; the model keeps the `Ambiguous` outcome.
- When resolution fails, `kbhook.c:136` dereferences a null pointer and crashes. `SelectTarget` returns `None` instead, which stops start-up.
- Raw button events are received but do nothing (`kbhook.c:288-295`), so they are not modelled.
- DecimalValue: does not model the overflow of `atoi` on digit strings beyond the range of a C `int`. The value is the unbounded natural number.
- ChordMachine.Automaton.Step: the counts are unbounded integers. The 32-bit overflow that would need about two billion unreleased presses is not modelled.
- Device names and tokens are character sequences without NUL characters, so `strcmp` and `strncmp` become sequence equality and a prefix test. `isdigit` is taken as the ASCII digits `0`-`9`.
