/**
 * The fixed table that sorts raw X key codes (the `detail` of a raw key
 * event) into the modifier classes the chord automaton counts.
 */
module KeyClass {

  datatype ModClass = Alt | Ctrl | Shift | Super | Other

  /** The key codes of each modifier class, as a table. */
  function CodesOf(m: ModClass): set<int>
  {
    match m
    case Alt => {64}
    case Ctrl => {37, 105}
    case Shift => {50, 62}
    case Super => {133, 134}
    case Other => {}
  }

  /** Every key code that belongs to some modifier class. */
  function ModifierCodes(): set<int>
  {
    CodesOf(Alt) + CodesOf(Ctrl) + CodesOf(Shift) + CodesOf(Super)
  }

  /**
   * The class of a key code, decided by the same chain of tests the event
   * loop runs on a press and on a release: Alt first, then Ctrl, Shift,
   * Super, and everything else is an ordinary key.
   */
  function Classify(code: int): ModClass
  {
    if code == 64 then Alt
    else if code == 37 || code == 105 then Ctrl
    else if code == 50 || code == 62 then Shift
    else if code == 133 || code == 134 then Super
    else Other
  }

  /**
   * The table and the chain of tests agree: a code is an ordinary key
   * exactly when it is in no modifier class, and otherwise it is in the
   * code set of the class it is given, and of no other.
   */
  lemma ClassifyMatchesTable(code: int, m: ModClass)
    ensures Classify(code) == Other <==> code !in ModifierCodes()
    ensures m != Other ==> (Classify(code) == m <==> code in CodesOf(m))
  {
  }
}
