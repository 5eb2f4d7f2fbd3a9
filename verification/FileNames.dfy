/** Names of received files: brought into shape, then made free. */
module FileNames {
  import opened Basics
  import opened Text
  import opened WindowsNames

  const MAX_NAME_LENGTH := 180
  const MAX_CANDIDATES := 10_000

  predicate IsInvalid(c: char) {
    c <= '\U{1f}' || c in "<>:\"/\\|?*"
  }

  function Named(normalized: string): string {
    if normalized == "" then "file" else normalized
  }

  /** Cuts the stem, at least one character of which stays, and keeps the extension. */
  function Shortened(name: string): string {
    if |name| <= MAX_NAME_LENGTH then name
    else
      name[..StemLength(name)] + Extension(name)
  }

  /** sanitizeFileName, for a name in normalization form C. */
  function Sanitized(input: string): string {
    Shortened(Unshortened(input))
  }

  predicate Usable(name: string) {
    name != "" && Clean(name, IsInvalid) && !IsReserved(name)
  }

  function StemLength(name: string): nat {
    Max(1, MAX_NAME_LENGTH - |Extension(name)|)
  }

  lemma ShortenedIsClean(name: string)
    requires Clean(name, IsInvalid) && name != ""
    ensures Clean(Shortened(name), IsInvalid) && Shortened(name) != ""
    ensures |Shortened(name)| <= MAX_NAME_LENGTH <==> |name| <= MAX_NAME_LENGTH || |Extension(name)| < MAX_NAME_LENGTH
  {
    if |name| > MAX_NAME_LENGTH {
      ExtensionIsSuffix(name);
      JoinIsClean(name, StemLength(name), |Extension(name)|);
    }
  }

  lemma JoinIsClean(name: string, k: nat, n: nat)
    requires Clean(name, IsInvalid) && k <= |name| && n <= |name|
    ensures Clean(name[..k] + name[|name| - n..], IsInvalid)
  {
  }

  /** Cutting the stem has left the name of a device: three or four characters are left. */
  predicate CutToDevice(name: string) {
    && |name| > MAX_NAME_LENGTH && |Extension(name)| in {MAX_NAME_LENGTH - 4, MAX_NAME_LENGTH - 3}
    && IsReserved(name[..MAX_NAME_LENGTH - |Extension(name)|])
  }

  lemma ShortenedDevice(name: string)
    requires name != "" && !IsReserved(name)
    ensures IsReserved(Shortened(name)) <==> CutToDevice(name)
  {
    if |name| > MAX_NAME_LENGTH {
      var k, extension := StemLength(name), Extension(name);
      ExtensionIsSuffix(name);
      if k > 4 {
        CutIsUnreserved(name, k, extension);
      } else {
        DeviceNameConcat(name[..k], extension);
        DeviceNameLength(name[..k]);
        if IsDevice(DeviceName(name[..k])) {
          DeviceShape(DeviceName(name[..k]));
        }
      }
    }
  }

  lemma ExtensionIsSuffix(name: string)
    ensures |Extension(name)| <= |name| && Extension(name) == name[|name| - |Extension(name)|..]
    ensures Extension(name) != "" ==> Extension(name)[0] == '.'
  {
  }

  /** The name before it is shortened. */
  function Unshortened(input: string): string {
    Unreserved(Named(StripRight(Trim(Replaced(input, IsInvalid)), IsTrailing)))
  }

  lemma UnshortenedIsUsable(input: string)
    ensures Usable(Unshortened(input))
  {
    var clean := Replaced(input, IsInvalid);
    TrimIsClean(clean, IsInvalid);
    StripIsClean(Trim(clean), IsTrailing, IsInvalid);
    var stripped := StripRight(Trim(clean), IsTrailing);
    NamedIsClean(stripped);
    UnreservedIsUsable(Named(stripped), IsInvalid);
  }

  /** A sanitized name is non-empty and free of invalid characters.  It is within the limit
      exactly when it needed no cutting or its extension is shorter than the limit, and it is
      a device exactly when the cut has left one. */
  lemma SanitizedIsUsable(input: string)
    ensures Sanitized(input) != "" && Clean(Sanitized(input), IsInvalid)
    ensures var u := Unshortened(input);
      && (|Sanitized(input)| <= MAX_NAME_LENGTH <==> |u| <= MAX_NAME_LENGTH || |Extension(u)| < MAX_NAME_LENGTH)
      && (IsReserved(Sanitized(input)) <==> CutToDevice(u))
  {
    UnshortenedIsUsable(input);
    ShortenedIsClean(Unshortened(input));
    ShortenedDevice(Unshortened(input));
  }

  /** No control character, and none that Windows reserves. */
  predicate IsAllowed(c: char) {
    && ' ' <= c && c != '<' && c != '>' && c != ':' && c != '"' && c != '/' && c != '\\' && c != '|'
    && c != '?' && c != '*'
  }

  /** `clean` is `input` with an underscore for each character that is not allowed. */
  predicate Cleans(input: string, clean: string) {
    |clean| == |input| && forall k | 0 <= k < |input| :: clean[k] == if IsAllowed(input[k]) then input[k] else '_'
  }

  lemma ReplacedCleans(input: string)
    ensures Cleans(input, Replaced(input, IsInvalid))
  {
    var clean := Replaced(input, IsInvalid);
    forall k | 0 <= k < |input|
      ensures clean[k] == if IsAllowed(input[k]) then input[k] else '_'
    {
      AllowedIsValid(input[k]);
    }
  }

  lemma AllowedIsValid(c: char)
    ensures IsAllowed(c) <==> !IsInvalid(c)
  {
  }

  /** What stays of a name before it is cut: first white space goes at both ends, then dots and
      spaces at the end; nothing at all becomes "file", and a device gets an underscore. */
  lemma SanitizedKeepsTheMiddle(input: string)
    returns (clean: string, left: string, core: string, tail: string, right: string)
    ensures Cleans(input, clean) && clean == left + (core + tail) + right
    ensures All(left, IsSpace) && All(tail, IsTrailing) && All(right, IsSpace)
    ensures core + tail != "" ==> !IsSpace((core + tail)[0]) && !IsSpace((core + tail)[|core + tail| - 1])
    ensures core != "" ==> !IsTrailing(core[|core| - 1])
    ensures Unshortened(input) == if core == "" then "file" else if IsReserved(core) then "_" + core else core
  {
    clean := Replaced(input, IsInvalid);
    ReplacedCleans(input);
    left, right := TrimTakes(clean);
    core := StripRight(Trim(clean), IsTrailing);
    StripRightTakes(Trim(clean), IsTrailing);
    tail := Trim(clean)[|core|..];
    FileIsNoDevice();
  }

  lemma FileIsNoDevice()
    ensures !IsReserved("file")
  {
    assert "file"[1..] == "ile" && "ile"[1..] == "le" && "le"[1..] == "e" && "e"[1..] == "";
    TheDevices(DeviceName("file"));
  }

  /** A good name is left as it is. */
  lemma GoodNameStays(name: string)
    requires 0 < |name| <= 180 && !IsReserved(name) && forall k | 0 <= k < |name| :: IsAllowed(name[k])
    requires !IsSpace(name[0]) && !IsSpace(name[|name| - 1]) && !IsTrailing(name[|name| - 1])
    ensures Sanitized(name) == name
  {
    AlreadyShaped(name);
  }

  lemma AlreadyShaped(name: string)
    requires name != "" && Clean(name, IsInvalid) && !IsReserved(name)
    requires !IsSpace(name[0]) && !IsSpace(name[|name| - 1]) && !IsTrailing(name[|name| - 1])
    ensures Unshortened(name) == name
  {
    CleanStays(name, IsInvalid);
  }

  /** "CONA." and 176 times 'x': 181 characters, and no device. */
  predicate IsLongCona(input: string) {
    |input| == 181 && input[..5] == "CONA." && forall k | 5 <= k < 181 :: input[k] == 'x'
  }

  function LongCona(): (input: string)
    ensures IsLongCona(input)
  {
    "CONA." + seq(176, _ => 'x')
  }

  lemma LongConaShape(input: string)
    requires IsLongCona(input)
    ensures Unshortened(input) == input && !IsReserved(input)
  {
    assert forall k | 0 <= k < 181 :: input[k] == if k < 5 then input[..5][k] else 'x';
    ConaIsNoDevice(input);
    AlreadyShaped(input);
  }

  lemma LongConaCut(input: string)
    requires IsLongCona(input)
    ensures CutToDevice(input) && Shortened(input) == input[..3] + input[4..]
  {
    assert forall k | 0 <= k < 5 :: input[k] == input[..5][k];
    assert input[4] == '.' && LastDot(input) == 4;
    assert input[..3] == "CON";
    ConIsDevice();
  }

  /** Such a name exists: its extension of 177 characters leaves three for the stem. */
  lemma DeviceAfterCut(input: string)
    requires IsLongCona(input)
    ensures !IsReserved(input) && IsReserved(Sanitized(input)) && Sanitized(input) == input[..3] + input[4..]
  {
    LongConaShape(input);
    LongConaCut(input);
    ShortenedDevice(input);
  }

  lemma ConIsDevice()
    ensures DeviceName("CON") == "CON" && IsReserved("CON")
  {
    assert "CON"[1..] == "ON" && "ON"[1..] == "N" && "N"[1..] == "";
  }

  lemma ConaIsNoDevice(input: string)
    requires |input| >= 5 && input[..5] == "CONA."
    ensures !IsReserved(input)
  {
    assert input == "CONA" + input[4..] && input[4] == '.';
    DeviceNameConcat("CONA", input[4..]);
    assert "CONA"[1..] == "ONA" && "ONA"[1..] == "NA" && "NA"[1..] == "A" && "A"[1..] == "";
    assert DeviceName("CONA") == "CONA";
    ListedIsOne("CON", NUMBERED_DEVICES);
    assert "CONA"[..3] == "CON";
    if IsDevice("CONA") {
      DeviceShape("CONA");
    }
  }

  lemma NamedIsClean(stripped: string)
    requires Clean(stripped, IsInvalid)
    ensures Named(stripped) != "" && Clean(Named(stripped), IsInvalid)
  {
  }

  /** "name.ext", "name (1).ext", "name (2).ext", ... */
  function Candidate(name: string, index: nat): string {
    if index == 0 then name else Stem(name) + " (" + Decimal(index) + ")" + Extension(name)
  }

  /** The name itself, or its stem, the number in parentheses and its extension. */
  ghost predicate IsVariant(name: string, index: nat, text: string) {
    if index == 0 then text == name
    else exists stem, extension ::
      Splits(name, stem, extension) && text == stem + " (" + Decimal(index) + ")" + extension
  }

  /** A name has exactly one variant of each number. */
  lemma CandidateIsVariant(name: string, index: nat, text: string)
    ensures IsVariant(name, index, text) <==> text == Candidate(name, index)
  {
    SplitsOnce(name, Stem(name), Extension(name));
    if stem, extension :| Splits(name, stem, extension) && text == stem + " (" + Decimal(index) + ")" + extension {
      SplitsOnce(name, stem, extension);
    }
  }

  /** Different numbers give different variants. */
  lemma VariantsDiffer(name: string, m: nat, n: nat, text: string)
    requires IsVariant(name, m, text) && IsVariant(name, n, text)
    ensures m == n
  {
    CandidateIsVariant(name, m, text);
    CandidateIsVariant(name, n, text);
    if m != 0 && n != 0 {
      SameNumber(Stem(name), Decimal(m), Decimal(n), Extension(name));
      DecimalInjective(m, n);
    } else {
      assert |Candidate(name, m)| == |Candidate(name, n)|;
    }
  }

  lemma SameNumber(stem: string, digits: string, digits': string, extension: string)
    requires stem + " (" + digits + ")" + extension == stem + " (" + digits' + ")" + extension
    ensures digits == digits'
  {
    var text, text' := stem + " (" + digits + ")" + extension, stem + " (" + digits' + ")" + extension;
    assert |digits| == |digits'|;
    forall k | 0 <= k < |digits|
      ensures digits[k] == digits'[k]
    {
      assert text[|stem| + 2 + k] == digits[k] && text'[|stem| + 2 + k] == digits'[k];
    }
  }

  ghost predicate FirstFreeAt(taken: set<string>, name: string, found: string, index: nat) {
    index < MAX_CANDIDATES && IsVariant(name, index, found) && found !in taken && TakenBelow(taken, name, index)
  }

  /** Every variant with a smaller number is taken. */
  ghost predicate TakenBelow(taken: set<string>, name: string, index: nat) {
    forall j: nat, text: string {:trigger IsVariant(name, j, text)} | j < index && IsVariant(name, j, text) ::
      text in taken
  }

  lemma TakenNext(taken: set<string>, name: string, index: nat)
    requires TakenBelow(taken, name, index) && Candidate(name, index) in taken
    ensures TakenBelow(taken, name, index + 1)
  {
    forall j: nat, text | j <= index && IsVariant(name, j, text)
      ensures text in taken
    {
      if j == index {
        CandidateIsVariant(name, index, text);
      }
    }
  }

  /** The first variant of `name` that is not taken. */
  ghost predicate FirstFree(taken: set<string>, name: string, found: string) {
    exists index: nat :: FirstFreeAt(taken, name, found, index)
  }

  ghost predicate AllTaken(taken: set<string>, name: string) {
    TakenBelow(taken, name, MAX_CANDIDATES)
  }

  /** `index` different names are taken. */
  lemma {:induction false} TakenAreMany(taken: set<string>, name: string, index: nat) returns (used: set<string>)
    requires TakenBelow(taken, name, index)
    ensures used <= taken && |used| == index
    ensures forall text | text in used :: exists j: nat :: j < index && IsVariant(name, j, text)
  {
    used := {};
    if index > 0 {
      used := TakenAreMany(taken, name, index - 1);
      var last := Candidate(name, index - 1);
      CandidateIsVariant(name, index - 1, last);
      if last in used {
        var j: nat :| j < index - 1 && IsVariant(name, j, last);
        VariantsDiffer(name, j, index - 1, last);
      }
      used := used + {last};
    }
  }

  /** So an error means ten thousand taken names. */
  lemma AllTakenAreMany(taken: set<string>, name: string)
    requires AllTaken(taken, name)
    ensures |taken| >= MAX_CANDIDATES
  {
    var used := TakenAreMany(taken, name, MAX_CANDIDATES);
    SubsetSize(used, taken);
  }

  /** availableFilePath: the first free variant of the sanitized name, or an error exactly when
      ten thousand of them are taken. */
  method AvailableFilePath(existing: set<string>, requestedName: string, reserved: set<string>)
    returns (found: Option<string>)
    ensures found.Some? ==> FirstFree(existing + reserved, Sanitized(requestedName), found.value)
    ensures found.None? ==> AllTaken(existing + reserved, Sanitized(requestedName))
    ensures |existing + reserved| < MAX_CANDIDATES ==> found.Some?
  {
    found := FreeCandidate(existing, Sanitized(requestedName), reserved);
    if found.None? {
      AllTakenAreMany(existing + reserved, Sanitized(requestedName));
    }
  }

  method FreeCandidate(existing: set<string>, name: string, reserved: set<string>) returns (found: Option<string>)
    ensures found.Some? ==> FirstFree(existing + reserved, name, found.value)
    ensures found.None? ==> AllTaken(existing + reserved, name)
  {
    ghost var taken := existing + reserved;
    var index: nat := 0;
    while index < MAX_CANDIDATES
      invariant index <= MAX_CANDIDATES && TakenBelow(taken, name, index)
    {
      var candidate := Candidate(name, index);
      if candidate !in reserved && candidate !in existing {
        CandidateIsVariant(name, index, candidate);
        assert FirstFreeAt(taken, name, candidate, index);
        return Some(candidate);
      }
      TakenNext(taken, name, index);
      index := index + 1;
    }
    return None;
  }

  /** The registered name if it is free, otherwise its first free variant. */
  ghost predicate Chosen(existing: set<string>, registered: string, chosen: string) {
    && chosen !in existing
    && if registered in existing then FirstFree(existing, Sanitized(registered), chosen) else chosen == registered
  }

  lemma FirstFreeIsFree(existing: set<string>, name: string, found: string)
    requires FirstFree(existing, name, found)
    ensures found !in existing && !AllTaken(existing, name)
  {
    var index: nat :| FirstFreeAt(existing, name, found, index);
    assert IsVariant(name, index, found);
  }

  /** The name is in use, and so are all its variants: a file can be renamed to neither. */
  ghost predicate NoNameLeft(existing: set<string>, registered: string) {
    registered in existing && AllTaken(existing, Sanitized(registered))
  }

  /** How both finalizers choose the name they rename to. */
  method ChoosePath(existing: set<string>, registered: string) returns (chosen: Option<string>)
    ensures chosen.Some? ==> Chosen(existing, registered, chosen.value)
    ensures chosen.None? <==> NoNameLeft(existing, registered)
  {
    chosen := Some(registered);
    if registered in existing {
      chosen := AvailableFilePath(existing, registered, {});
      assert existing + {} == existing;
      if chosen.Some? {
        FirstFreeIsFree(existing, Sanitized(registered), chosen.value);
      }
    }
  }
}
