/**
 * Choosing the one input device the hook listens to, from the token given
 * on the command line: a device ID, a device name, or a name prefixed by
 * `pointer:` or `keyboard:` to pick the device of that role.
 */
module Devices {
  import opened Wrappers

  // The `use` values of an XInput 2 device.
  const XIMasterPointer: int := 1
  const XIMasterKeyboard: int := 2
  const XISlavePointer: int := 3
  const XISlaveKeyboard: int := 4
  const XIFloatingSlave: int := 5

  const PointerPrefix: string := "pointer:"
  const KeyboardPrefix: string := "keyboard:"

  /** One entry of the server's device list. */
  datatype Device = Device(id: int, name: string, use: int)

  /** How a token resolves: the index of the one matching device, or why there is none. */
  datatype Resolution = Found(index: nat) | Ambiguous | NotFound

  /**
   * Whose raw key events are selected: the master devices when no token is
   * given, otherwise the one resolved device.
   */
  datatype Target = AllMasterDevices | OnlyDevice(deviceid: int)

  predicate IsPointer(use: int)
  {
    use == XIMasterPointer || use == XISlavePointer
  }

  predicate IsKeyboard(use: int)
  {
    use == XIMasterKeyboard || use == XISlaveKeyboard
  }

  /** No role is both a pointer and a keyboard; floating slaves are neither. */
  lemma RolesDisjoint(use: int)
    ensures !(IsPointer(use) && IsKeyboard(use))
    ensures use == XIFloatingSlave ==> !IsPointer(use) && !IsKeyboard(use)
  {
  }

  /** `strncmp(token, prefix, strlen(prefix)) == 0`. */
  predicate HasPrefix(token: string, prefix: string)
  {
    |prefix| <= |token| && token[..|prefix|] == prefix
  }

  /** `device_matches`: the name itself, or a role prefix, the name, and that role. */
  predicate DeviceMatches(d: Device, token: string)
  {
    || d.name == token
    || (HasPrefix(token, PointerPrefix) && d.name == token[|PointerPrefix|..] && IsPointer(d.use))
    || (HasPrefix(token, KeyboardPrefix) && d.name == token[|KeyboardPrefix|..] && IsKeyboard(d.use))
  }

  /**
   * A device matches a name token exactly when its name is the token, or
   * the token is a role prefix followed by its name and the device has that role.
   */
  lemma DeviceMatchesIff(d: Device, token: string)
    ensures DeviceMatches(d, token) <==>
      || d.name == token
      || (token == PointerPrefix + d.name && IsPointer(d.use))
      || (token == KeyboardPrefix + d.name && IsKeyboard(d.use))
  {
    assert (PointerPrefix + d.name)[..|PointerPrefix|] == PointerPrefix && (PointerPrefix + d.name)[|PointerPrefix|..] == d.name;
    assert (KeyboardPrefix + d.name)[..|KeyboardPrefix|] == KeyboardPrefix && (KeyboardPrefix + d.name)[|KeyboardPrefix|..] == d.name;
    assert HasPrefix(token, PointerPrefix) ==> token == PointerPrefix + token[|PointerPrefix|..];
    assert HasPrefix(token, KeyboardPrefix) ==> token == KeyboardPrefix + token[|KeyboardPrefix|..];
  }

  // ---------------------------------------------------------------------
  // Numeric tokens.

  predicate IsDigit(c: char)
  {
    '0' <= c <= '9'
  }

  predicate AllDigits(s: string)
  {
    forall i :: 0 <= i < |s| ==> IsDigit(s[i])
  }

  /** The value `atoi` gives a string of decimal digits (the empty string gives 0). */
  function DecimalValue(s: string): (v: nat)
    requires AllDigits(s)
    ensures v < Pow10(|s|)
  {
    if s == [] then 0
    else DecimalValue(s[..|s| - 1]) * 10 + (s[|s| - 1] as int - '0' as int)
  }

  function Pow10(n: nat): (p: nat)
    ensures p >= 1
  {
    if n == 0 then 1 else 10 * Pow10(n - 1)
  }

  /** The shortest decimal rendering of `n`. */
  function DecimalString(n: nat): (s: string)
    ensures AllDigits(s) && |s| >= 1
  {
    (if n < 10 then [] else DecimalString(n / 10)) + [('0' as int + n % 10) as char]
  }

  /** Reading back the rendering of a number gives the number. */
  lemma {:induction false} DecimalRoundTrip(n: nat)
    ensures DecimalValue(DecimalString(n)) == n
  {
    var s := DecimalString(n);
    var init := if n < 10 then [] else DecimalString(n / 10);
    assert s[..|s| - 1] == init;
    if n >= 10 {
      DecimalRoundTrip(n / 10);
    }
  }

  /** Leading zeros do not change the value of a numeric token. */
  lemma {:induction false} LeadingZero(s: string)
    requires AllDigits(s)
    ensures AllDigits(['0'] + s) && DecimalValue(['0'] + s) == DecimalValue(s)
  {
    if s != [] {
      var z := ['0'] + s;
      assert z[..|z| - 1] == ['0'] + s[..|s| - 1];
      LeadingZero(s[..|s| - 1]);
    }
  }

  // ---------------------------------------------------------------------
  // Resolution.

  /** What a token asks for: a device ID when it is all digits, a name otherwise. */
  datatype Query = ById(id: nat) | ByName(name: string)

  /** `is_id` and `id = atoi(name)`, decided once before the scan. */
  function ParseToken(token: string): (q: Query)
    ensures q.ById? <==> AllDigits(token)
    ensures q.ByName? ==> q.name == token
  {
    if AllDigits(token) then ById(DecimalValue(token)) else ByName(token)
  }

  /** Numeric tokens compare against device IDs only, all other tokens against names only. */
  predicate Matches(d: Device, q: Query)
  {
    match q
    case ById(id) => d.id == id
    case ByName(name) => DeviceMatches(d, name)
  }

  /** The indices of the matching devices, in increasing order. */
  function MatchingIndices(devices: seq<Device>, q: Query): (ix: seq<nat>)
    ensures forall k: int :: k in ix <==> 0 <= k < |devices| && Matches(devices[k], q)
    ensures forall a, b :: 0 <= a < b < |ix| ==> ix[a] < ix[b]
  {
    if devices == [] then []
    else
      var n := |devices| - 1;
      var init := MatchingIndices(devices[..n], q);
      assert forall k :: 0 <= k < n ==> devices[..n][k] == devices[k];
      assert forall a :: 0 <= a < |init| ==> init[a] in init;
      init + (if Matches(devices[n], q) then [n] else [])
  }

  /** The outcome of a query: the single match, or no device for none or several. */
  function ResolveQuery(devices: seq<Device>, q: Query): Resolution
  {
    var ix := MatchingIndices(devices, q);
    if |ix| == 0 then NotFound else if |ix| == 1 then Found(ix[0]) else Ambiguous
  }

  /** What the search returns for a token. */
  function Resolve(devices: seq<Device>, token: string): Resolution
  {
    ResolveQuery(devices, ParseToken(token))
  }

  /** In a strictly increasing sequence the last element exceeds the first by at least the length less one. */
  lemma {:induction false} IncreasingSpread(ix: seq<nat>)
    requires |ix| > 0
    requires forall a, b :: 0 <= a < b < |ix| ==> ix[a] < ix[b]
    ensures ix[|ix| - 1] >= ix[0] + |ix| - 1
  {
    if |ix| > 1 {
      IncreasingSpread(ix[..|ix| - 1]);
    }
  }

  /** A sequence holding two different values has at least two elements. */
  lemma TwoMembers(ix: seq<nat>, i: nat, j: nat)
    requires i in ix && j in ix && i != j
    ensures |ix| >= 2
  {
    var a :| 0 <= a < |ix| && ix[a] == i;
    var b :| 0 <= b < |ix| && ix[b] == j;
    assert a != b;
  }

  /** A device is found exactly when it matches and no other device does. */
  lemma ResolveFound(devices: seq<Device>, q: Query, i: nat)
    ensures ResolveQuery(devices, q) == Found(i) <==>
      && i < |devices| && Matches(devices[i], q)
      && forall j :: 0 <= j < |devices| && j != i ==> !Matches(devices[j], q)
  {
    var ix := MatchingIndices(devices, q);
    if i < |devices| && Matches(devices[i], q)
       && forall j :: 0 <= j < |devices| && j != i ==> !Matches(devices[j], q)
    {
      assert i in ix;
      forall a | 0 <= a < |ix|
        ensures ix[a] == i
      {
        assert ix[a] in ix;
      }
      IncreasingSpread(ix);
    }
    if ResolveQuery(devices, q) == Found(i) {
      assert ix == [i];
      assert i in ix;
      forall j | 0 <= j < |devices| && j != i
        ensures !Matches(devices[j], q)
      {
        assert j !in ix;
      }
    }
  }

  /** Nothing is found exactly when no device matches. */
  lemma ResolveNotFound(devices: seq<Device>, q: Query)
    ensures ResolveQuery(devices, q) == NotFound <==>
      forall j :: 0 <= j < |devices| ==> !Matches(devices[j], q)
  {
    var ix := MatchingIndices(devices, q);
    if |ix| > 0 {
      assert ix[0] in ix;
    }
  }

  /** The search gives up as ambiguous exactly when two devices match. */
  lemma ResolveAmbiguous(devices: seq<Device>, q: Query)
    ensures ResolveQuery(devices, q) == Ambiguous <==>
      exists i, j :: 0 <= i < j < |devices| && Matches(devices[i], q) && Matches(devices[j], q)
  {
    var ix := MatchingIndices(devices, q);
    if |ix| >= 2 {
      assert ix[0] in ix && ix[1] in ix && ix[0] < ix[1];
    }
    if exists i, j :: 0 <= i < j < |devices| && Matches(devices[i], q) && Matches(devices[j], q) {
      var i, j :| 0 <= i < j < |devices| && Matches(devices[i], q) && Matches(devices[j], q);
      TwoMembers(ix, i, j);
    }
  }

  /** The matches found in a prefix of the list are a prefix of all the matches. */
  lemma {:induction false} MatchingIndicesPrefix(devices: seq<Device>, q: Query, n: nat)
    requires n <= |devices|
    ensures MatchingIndices(devices[..n], q) <= MatchingIndices(devices, q)
  {
    if n < |devices| {
      var m := |devices| - 1;
      assert devices[..m][..n] == devices[..n];
      MatchingIndicesPrefix(devices[..m], q, n);
    } else {
      assert devices[..n] == devices;
    }
  }

  /** The first loop of the search: a token is an ID when every character is a decimal digit. */
  method IsIdToken(token: string) returns (isId: bool)
    ensures isId <==> AllDigits(token)
  {
    isId := true;
    var i := 0;
    while i < |token|
      invariant 0 <= i <= |token|
      invariant forall k :: 0 <= k < i ==> IsDigit(token[k])
    {
      if !IsDigit(token[i]) {
        isId := false;
        break;
      }
      i := i + 1;
    }
  }

  /**
   * The search over the device list: decide whether the token is numeric,
   * then scan the devices, remembering the first match and giving up at
   * the second.
   */
  method FindDeviceInfo(devices: seq<Device>, token: string) returns (r: Resolution)
    ensures r == Resolve(devices, token)
  {
    var isId := IsIdToken(token);
    var id: int := if isId then DecimalValue(token) else -1;
    ghost var q := ParseToken(token);
    assert isId ==> q == ById(id);

    var found: Option<nat> := None;
    var j := 0;
    while j < |devices|
      invariant 0 <= j <= |devices|
      invariant found == None ==> MatchingIndices(devices[..j], q) == []
      invariant found != None ==> MatchingIndices(devices[..j], q) == [found.value]
    {
      assert devices[..j + 1][..j] == devices[..j];
      var hit := if isId then devices[j].id == id else DeviceMatches(devices[j], token);
      assert hit == Matches(devices[j], q);
      if hit {
        if found != None {
          MatchingIndicesPrefix(devices, q, j + 1);
          return Ambiguous;
        }
        found := Some(j);
      }
      j := j + 1;
    }
    assert devices[..j] == devices;
    r := if found == None then NotFound else Found(found.value);
  }

  /**
   * Where the hook listens for raw key events: on the master devices without
   * a token (the all-devices mask is left empty), else on the device the
   * token resolves to; a token that resolves to nothing stops start-up.
   */
  function SelectTarget(devices: seq<Device>, token: Option<string>): (r: Option<Target>)
    ensures token == None ==> r == Some(AllMasterDevices)
    ensures r == None <==> token.Some? && !Resolve(devices, token.value).Found?
    ensures token.Some? && r.Some? ==>
      r.value.OnlyDevice? && Resolve(devices, token.value).Found? &&
      Resolve(devices, token.value).index < |devices| &&
      r.value.deviceid == devices[Resolve(devices, token.value).index].id
    ensures r.Some? && r.value.OnlyDevice? ==>
      exists i :: 0 <= i < |devices| && r.value.deviceid == devices[i].id && Matches(devices[i], ParseToken(token.value))
  {
    if token == None then Some(AllMasterDevices)
    else
      match Resolve(devices, token.value)
      case Found(i) =>
        assert i in MatchingIndices(devices, ParseToken(token.value));
        Some(OnlyDevice(devices[i].id))
      case _ => None
  }

  // ---------------------------------------------------------------------
  // Examples.

  /** Token "3" selects device ID 3, not a device that is named "3". */
  lemma ExampleNumericToken()
    ensures Resolve([Device(7, "3", XISlaveKeyboard), Device(3, "AT keyboard", XISlaveKeyboard)], "3") == Found(1)
  {
    var ds := [Device(7, "3", XISlaveKeyboard), Device(3, "AT keyboard", XISlaveKeyboard)];
    assert AllDigits("3") && DecimalValue("3") == 3;
    ResolveFound(ds, ById(3), 1);
  }

  /** "pointer:Mouse" picks the pointer named Mouse and never a keyboard of that name. */
  lemma ExamplePointerPrefix()
    ensures Resolve([Device(8, "Mouse", XISlaveKeyboard), Device(9, "Mouse", XISlavePointer)], "pointer:Mouse") == Found(1)
    ensures Resolve([Device(8, "Mouse", XISlaveKeyboard)], "pointer:Mouse") == NotFound
    ensures Resolve([Device(8, "Mouse", XISlaveKeyboard), Device(9, "Mouse", XISlavePointer)], "Mouse") == Ambiguous
  {
    var ds := [Device(8, "Mouse", XISlaveKeyboard), Device(9, "Mouse", XISlavePointer)];
    assert !IsDigit("pointer:Mouse"[0]) && !IsDigit("Mouse"[0]);
    DeviceMatchesIff(ds[0], "pointer:Mouse");
    DeviceMatchesIff(ds[1], "pointer:Mouse");
    assert "pointer:Mouse" == PointerPrefix + "Mouse";
    assert "pointer:Mouse" != KeyboardPrefix + "Mouse";
    ResolveFound(ds, ByName("pointer:Mouse"), 1);
    ResolveNotFound([ds[0]], ByName("pointer:Mouse"));
    ResolveAmbiguous(ds, ByName("Mouse"));
  }

  /** The empty token passes the digit test and is taken as device ID 0. */
  lemma EmptyTokenIsIdZero(devices: seq<Device>, i: nat)
    ensures Resolve(devices, "") == Found(i) <==>
      i < |devices| && devices[i].id == 0 && forall j :: 0 <= j < |devices| && j != i ==> devices[j].id != 0
  {
    assert AllDigits("") && DecimalValue("") == 0;
    ResolveFound(devices, ById(0), i);
  }
}
