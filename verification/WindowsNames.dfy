/** What Windows does not accept in a file name, and how names are brought into shape. */
module WindowsNames {

  /** What String.prototype.trim removes. */
  predicate IsSpace(c: char) {
    || '\t' <= c <= '\r' || c == ' ' || c == '\U{a0}' || c == '\U{1680}' || '\U{2000}' <= c <= '\U{200a}'
    || c == '\U{2028}' || c == '\U{2029}' || c == '\U{202f}' || c == '\U{205f}' || c == '\U{3000}' || c == '\U{feff}'
  }

  /** Dots and spaces at the end of a name. */
  predicate IsTrailing(c: char) {
    c == '.' || c == ' '
  }

  function Upper(c: char): char {
    if 'a' <= c <= 'z' then (c as int - 'a' as int + 'A' as int) as char else c
  }

  /** The part up to the first '.', in capitals. */
  function DeviceName(name: string): string {
    if name == [] || name[0] == '.' then [] else [Upper(name[0])] + DeviceName(name[1..])
  }

  const DEVICES: seq<string> := ["CON", "PRN", "AUX", "NUL"]
  const NUMBERED_DEVICES: seq<string> := ["COM", "LPT"]

  predicate Listed(name: string, names: seq<string>) {
    names != [] && (name == names[0] || Listed(name, names[1..]))
  }

  predicate IsDevice(device: string) {
    || Listed(device, DEVICES)
    || (|device| == 4 && Listed(device[..3], NUMBERED_DEVICES) && '1' <= device[3] <= '9')
  }

  predicate IsReserved(name: string) {
    IsDevice(DeviceName(name))
  }

  lemma {:induction false} ListedIsOne(name: string, names: seq<string>)
    ensures Listed(name, names) <==> name in names
  {
    if names != [] {
      ListedIsOne(name, names[1..]);
    }
  }

  /** These are all: four names, and two with a digit from 1 to 9. */
  lemma TheDevices(device: string)
    ensures IsDevice(device) <==>
      || device in ["CON", "PRN", "AUX", "NUL"]
      || (|device| == 4 && device[..3] in ["COM", "LPT"] && device[3] in "123456789")
  {
    ListedIsOne(device, DEVICES);
    if |device| == 4 {
      ListedIsOne(device[..3], NUMBERED_DEVICES);
    }
  }

  /** The letter `letter` in either case; a digit is itself. */
  predicate IsLetter(c: char, letter: char) {
    c == letter || ('A' <= letter <= 'Z' && c as int == letter as int + 32)
  }

  /** The part of the name before its first dot, letter by letter and in either case, is `device`. */
  predicate Spells(name: string, device: string) {
    && |device| <= |name| && (|device| == |name| || name[|device|] == '.')
    && forall k | 0 <= k < |device| :: name[k] != '.' && IsLetter(name[k], device[k])
  }

  lemma UpperIsLetter(c: char, letter: char)
    requires 'A' <= letter <= 'Z' || '0' <= letter <= '9'
    ensures Upper(c) == letter <==> IsLetter(c, letter)
  {
  }

  lemma {:induction false} DeviceNameSpells(name: string, device: string)
    requires forall k | 0 <= k < |device| :: 'A' <= device[k] <= 'Z' || '0' <= device[k] <= '9'
    ensures DeviceName(name) == device <==> Spells(name, device)
  {
    if name != "" && name[0] != '.' && device != "" {
      DeviceNameSpells(name[1..], device[1..]);
      UpperIsLetter(name[0], device[0]);
      assert DeviceName(name) == device <==> Upper(name[0]) == device[0] && DeviceName(name[1..]) == device[1..];
      SpellsRest(name, device);
    }
  }

  lemma SpellsRest(name: string, device: string)
    requires name != "" && device != ""
    ensures Spells(name, device) <==>
      name[0] != '.' && IsLetter(name[0], device[0]) && Spells(name[1..], device[1..])
  {
    if name[0] != '.' && IsLetter(name[0], device[0]) && Spells(name[1..], device[1..]) {
      forall k | 0 <= k < |device|
        ensures name[k] != '.' && IsLetter(name[k], device[k])
      {
        assert k > 0 ==> name[k] == name[1..][k - 1] && device[k] == device[1..][k - 1];
      }
    }
    if Spells(name, device) {
      forall k | 0 <= k < |device| - 1
        ensures name[1..][k] != '.' && IsLetter(name[1..][k], device[1..][k])
      {
        assert name[1..][k] == name[k + 1] && device[1..][k] == device[k + 1];
      }
    }
  }

  lemma DevicesAreCapital(device: string)
    requires IsDevice(device)
    ensures forall k | 0 <= k < |device| :: 'A' <= device[k] <= 'Z' || '0' <= device[k] <= '9'
  {
    TheDevices(device);
    if |device| == 4 {
      assert device[..3] in ["COM", "LPT"] ==> device == device[..3] + [device[3]];
    }
  }

  /** A name is reserved exactly if its part before the first dot is a device, in either case. */
  lemma ReservedNames(name: string)
    ensures IsReserved(name) <==> exists device :: IsDevice(device) && Spells(name, device)
  {
    if IsReserved(name) {
      DevicesAreCapital(DeviceName(name));
      DeviceNameSpells(name, DeviceName(name));
    }
    if device :| IsDevice(device) && Spells(name, device) {
      DevicesAreCapital(device);
      DeviceNameSpells(name, device);
    }
  }

  /** What counts as white space. */
  lemma TheSpaces(c: char)
    ensures IsSpace(c) <==>
      || c in "\t\n\U{b}\U{c}\r \U{a0}\U{1680}\U{2028}\U{2029}\U{202f}\U{205f}\U{3000}\U{feff}"
      || c in "\U{2000}\U{2001}\U{2002}\U{2003}\U{2004}\U{2005}\U{2006}\U{2007}\U{2008}\U{2009}\U{200a}"
  {
  }

  /** Device names have three or four characters and begin with a letter. */
  lemma DeviceShape(device: string)
    requires IsDevice(device)
    ensures 3 <= |device| <= 4 && device[0] != '_'
    ensures |device| == 4 ==> Listed(device[..3], NUMBERED_DEVICES) && '1' <= device[3] <= '9'
  {
    ListedIsOne(device, DEVICES);
    if !Listed(device, DEVICES) {
      ListedIsOne(device[..3], NUMBERED_DEVICES);
    }
  }

  function Unreserved(name: string): string {
    if IsReserved(name) then "_" + name else name
  }

  function Replaced(name: string, forbidden: char -> bool): (clean: string)
    requires !forbidden('_')
    ensures |clean| == |name| && Clean(clean, forbidden)
  {
    seq(|name|, k requires 0 <= k < |name| => if forbidden(name[k]) then '_' else name[k])
  }

  function StripRight(name: string, strips: char -> bool): (rest: string)
    ensures rest <= name && (rest != [] ==> !strips(rest[|rest| - 1]))
  {
    if name != [] && strips(name[|name| - 1]) then StripRight(name[..|name| - 1], strips) else name
  }

  function StripLeft(name: string, strips: char -> bool): (rest: string)
    ensures |rest| <= |name| && rest == name[|name| - |rest|..] && (rest != [] ==> !strips(rest[0]))
  {
    if name != [] && strips(name[0]) then StripLeft(name[1..], strips) else name
  }

  function Trim(name: string): string {
    StripLeft(StripRight(name, IsSpace), IsSpace)
  }

  predicate Clean(name: string, forbidden: char -> bool) {
    forall k | 0 <= k < |name| :: !forbidden(name[k])
  }

  lemma CleanStays(name: string, forbidden: char -> bool)
    requires Clean(name, forbidden) && !forbidden('_')
    ensures Replaced(name, forbidden) == name
  {
  }

  lemma PartIsClean(name: string, start: nat, length: nat, forbidden: char -> bool)
    requires Clean(name, forbidden) && start + length <= |name|
    ensures Clean(name[start..start + length], forbidden)
  {
  }

  lemma StripIsClean(name: string, strips: char -> bool, forbidden: char -> bool)
    requires Clean(name, forbidden)
    ensures Clean(StripRight(name, strips), forbidden) && Clean(StripLeft(name, strips), forbidden)
  {
    var front, back := StripRight(name, strips), StripLeft(name, strips);
    PartIsClean(name, 0, |front|, forbidden);
    PartIsClean(name, |name| - |back|, |back|, forbidden);
    assert name[0..|front|] == front && name[|name| - |back|..|name|] == back;
  }

  lemma TrimIsClean(name: string, forbidden: char -> bool)
    requires Clean(name, forbidden)
    ensures Clean(Trim(name), forbidden)
  {
    StripIsClean(name, IsSpace, forbidden);
    StripIsClean(StripRight(name, IsSpace), IsSpace, forbidden);
  }

  lemma {:induction false} DeviceNamePrefix(name: string, k: nat)
    requires k <= |name|
    ensures DeviceName(name[..k]) <= DeviceName(name)
    ensures |DeviceName(name[..k])| < k ==> DeviceName(name[..k]) == DeviceName(name)
    decreases k
  {
    if k > 0 && name[0] != '.' {
      assert name[..k][1..] == name[1..][..k - 1];
      DeviceNamePrefix(name[1..], k - 1);
    }
  }

  /** Cutting a name far enough behind its beginning cannot make it a device. */
  lemma CutIsUnreserved(name: string, k: nat, rest: string)
    requires 4 < k <= |name| && !IsReserved(name) && (rest == "" || rest[0] == '.')
    ensures !IsReserved(name[..k] + rest)
  {
    DeviceNamePrefix(name, k);
    DeviceNameConcat(name[..k], rest);
    LongDeviceName(name[..k], name);
  }

  /** Of two names that share more than four characters both are devices or neither is. */
  lemma LongDeviceName(part: string, name: string)
    requires 4 < |part| && DeviceName(part) <= DeviceName(name)
    requires |DeviceName(part)| < |part| ==> DeviceName(part) == DeviceName(name)
    ensures IsReserved(part) <==> IsReserved(name)
  {
    if IsDevice(DeviceName(part)) {
      DeviceShape(DeviceName(part));
    }
    if IsDevice(DeviceName(name)) {
      DeviceShape(DeviceName(name));
    }
  }

  lemma {:induction false} DeviceNameLength(name: string)
    ensures |DeviceName(name)| <= |name|
  {
    if name != "" {
      DeviceNameLength(name[1..]);
    }
  }

  lemma {:induction false} DeviceNameConcat(a: string, rest: string)
    requires rest == "" || rest[0] == '.'
    ensures DeviceName(a + rest) == DeviceName(a)
  {
    if a == [] {
      assert a + rest == rest;
    } else if a[0] != '.' {
      assert (a + rest)[1..] == a[1..] + rest;
      DeviceNameConcat(a[1..], rest);
    }
  }

  lemma UnreservedIsUsable(name: string, forbidden: char -> bool)
    requires Clean(name, forbidden) && name != "" && !forbidden('_')
    ensures var u := Unreserved(name);
            Clean(u, forbidden) && u != "" && !IsReserved(u) && u[|u| - 1] == name[|name| - 1]
    ensures name != "." && name != ".." ==> Unreserved(name) != "." && Unreserved(name) != ".."
  {
    var u := Unreserved(name);
    if IsReserved(name) {
      assert u[1..] == name && DeviceName(u)[0] == '_';
      if IsDevice(DeviceName(u)) {
        DeviceShape(DeviceName(u));
      }
    }
  }

  /* ------------------------ what stripping takes away -------------------- */

  predicate All(text: string, strips: char -> bool) {
    forall k | 0 <= k < |text| :: strips(text[k])
  }

  lemma {:induction false} StripRightTakes(name: string, strips: char -> bool)
    ensures var rest := StripRight(name, strips);
      name == rest + name[|rest|..] && All(name[|rest|..], strips)
  {
    if name != "" && strips(name[|name| - 1]) {
      StripRightTakes(name[..|name| - 1], strips);
    }
  }

  lemma {:induction false} StripLeftTakes(name: string, strips: char -> bool)
    ensures var rest := StripLeft(name, strips);
      name == name[..|name| - |rest|] + rest && All(name[..|name| - |rest|], strips)
  {
    if name != "" && strips(name[0]) {
      StripLeftTakes(name[1..], strips);
      var k := |name| - |StripLeft(name, strips)|;
      assert name[..k] == [name[0]] + name[1..][..k - 1];
    }
  }

  lemma TrimTakes(name: string) returns (left: string, right: string)
    ensures name == left + Trim(name) + right && All(left, IsSpace) && All(right, IsSpace)
    ensures Trim(name) != "" ==> !IsSpace(Trim(name)[0]) && !IsSpace(Trim(name)[|Trim(name)| - 1])
  {
    var front := StripRight(name, IsSpace);
    StripRightTakes(name, IsSpace);
    StripLeftTakes(front, IsSpace);
    left, right := front[..|front| - |Trim(name)|], name[|front|..];
  }

  lemma {:induction false} StripRightAll(name: string, tail: string, strips: char -> bool)
    requires All(tail, strips)
    ensures StripRight(name + tail, strips) == StripRight(name, strips)
  {
    if tail == "" {
      assert name + tail == name;
    } else {
      var front := tail[..|tail| - 1];
      assert (name + tail)[..|name + tail| - 1] == name + front;
      StripRightAll(name, front, strips);
    }
  }

  lemma {:induction false} StripLeftConcat(a: string, b: string, strips: char -> bool)
    ensures StripLeft(a + b, strips)
         == if StripLeft(a, strips) == "" then StripLeft(b, strips) else StripLeft(a, strips) + b
  {
    if a == "" {
      assert a + b == b;
    } else if strips(a[0]) {
      assert (a + b)[1..] == a[1..] + b;
      StripLeftConcat(a[1..], b, strips);
    }
  }

  /** A longer name is a device exactly when its first part of more than four characters is. */
  lemma PrefixIsDevice(name: string, k: nat)
    requires 4 < k <= |name|
    ensures IsReserved(name[..k]) <==> IsReserved(name)
  {
    DeviceNamePrefix(name, k);
    LongDeviceName(name[..k], name);
  }
}
