/** Entry names of the "Download all" archive: made safe for Windows, then made unique. */
module ArchiveNames {
  import opened Basics
  import opened Text
  import opened WindowsNames
  import Encodings

  const NAME_LIMIT := 240

  /* ------------------------------ safe names ----------------------------- */

  predicate IsControl(c: char) {
    c <= '\U{1f}' || '\U{7f}' <= c <= '\U{9f}'
  }

  predicate IsForbidden(c: char) {
    IsControl(c) || c in "\\/:*?\"<>|"
  }

  function Named(trimmed: string): string {
    if trimmed == "" || trimmed == "." || trimmed == ".." then "file" else trimmed
  }

  function Cut(name: string): string {
    if |name| <= NAME_LIMIT then name else name[..NAME_LIMIT]
  }

  /** Cleaned, and stripped of dots, spaces and white space at its ends. */
  function Trimmed(value: string): string {
    Trim(StripRight(Replaced(value, IsForbidden), IsTrailing))
  }

  /** safeArchiveEntryName, for a name in normalization form C. */
  function SafeName(value: string): string {
    Cut(Unreserved(Named(Trimmed(value))))
  }

  /** What extracting the archive on Windows needs of a name. */
  predicate Extractable(name: string) {
    && 0 < |name| <= NAME_LIMIT && name != "." && name != ".."
    && !IsReserved(name) && forall k | 0 <= k < |name| :: IsHarmless(name[k])
  }

  /** No control character, and none that Windows reserves. */
  predicate IsHarmless(c: char) {
    && ' ' <= c && !('\U{7f}' <= c <= '\U{9f}')
    && c != '\\' && c != '/' && c != ':' && c != '*' && c != '?' && c != '"' && c != '<' && c != '>' && c != '|'
  }

  lemma HarmlessIsAllowed(c: char)
    ensures IsHarmless(c) <==> !IsForbidden(c)
  {
  }

  lemma CutIsExtractable(name: string)
    requires Clean(name, IsForbidden) && name != "" && name != "." && name != ".." && !IsReserved(name)
    ensures Extractable(Cut(name))
  {
    if |name| > NAME_LIMIT {
      CutIsUnreserved(name, NAME_LIMIT, "");
      assert name[..NAME_LIMIT] + "" == name[..NAME_LIMIT];
    }
    forall k | 0 <= k < |name|
      ensures IsHarmless(name[k])
    {
      HarmlessIsAllowed(name[k]);
    }
  }

  lemma NamedIsUsable(trimmed: string)
    requires Clean(trimmed, IsForbidden)
    ensures var named := Named(trimmed); Clean(named, IsForbidden) && named != "" && named != "." && named != ".."
  {
  }

  lemma TrimmedBecomesExtractable(trimmed: string)
    requires Clean(trimmed, IsForbidden)
    ensures Extractable(Cut(Unreserved(Named(trimmed))))
  {
    NamedIsUsable(trimmed);
    UnreservedIsUsable(Named(trimmed), IsForbidden);
    CutIsExtractable(Unreserved(Named(trimmed)));
  }

  lemma SafeNameIsExtractable(value: string)
    ensures Extractable(SafeName(value))
  {
    var stripped := StripRight(Replaced(value, IsForbidden), IsTrailing);
    StripIsClean(Replaced(value, IsForbidden), IsTrailing, IsForbidden);
    TrimIsClean(stripped, IsForbidden);
    TrimmedBecomesExtractable(Trim(stripped));
  }

  /** `clean` is `value` with an underscore for each character that is not harmless. */
  predicate Cleans(value: string, clean: string) {
    |clean| == |value| && forall k | 0 <= k < |value| :: clean[k] == if IsHarmless(value[k]) then value[k] else '_'
  }

  lemma ReplacedCleans(value: string)
    ensures Cleans(value, Replaced(value, IsForbidden))
  {
    forall k | 0 <= k < |value|
      ensures Replaced(value, IsForbidden)[k] == if IsHarmless(value[k]) then value[k] else '_'
    {
      HarmlessIsAllowed(value[k]);
    }
  }

  /** What is left of the name, or "file", with an underscore if it is a device, and cut. */
  function Finished(core: string): string {
    var named := if core == "" || core == "." || core == ".." then "file" else core;
    var whole := if IsReserved(named) then "_" + named else named;
    if |whole| <= 240 then whole else whole[..240]
  }

  lemma StrippedParts(clean: string) returns (left: string, core: string, right: string, tail: string)
    ensures core == Trim(StripRight(clean, IsTrailing)) && clean == left + core + right + tail
    ensures All(left, IsSpace) && All(right, IsSpace) && All(tail, IsTrailing)
    ensures left + core + right != "" ==> !IsTrailing((left + core + right)[|left + core + right| - 1])
    ensures core != "" ==> !IsSpace(core[0]) && !IsSpace(core[|core| - 1])
  {
    var stripped := StripRight(clean, IsTrailing);
    StripRightTakes(clean, IsTrailing);
    tail := clean[|stripped|..];
    left, right := TrimTakes(stripped);
    core := Trim(stripped);
  }

  lemma FinishedIsSafe(trimmed: string)
    ensures Cut(Unreserved(Named(trimmed))) == Finished(trimmed)
  {
  }

  /** What stays of a name: first dots and spaces go at the end, then white space at both ends. */
  lemma SafeNameKeepsTheMiddle(value: string)
    returns (clean: string, left: string, core: string, right: string, tail: string)
    ensures Cleans(value, clean) && clean == left + core + right + tail
    ensures All(left, IsSpace) && All(right, IsSpace) && All(tail, IsTrailing)
    ensures left + core + right != "" ==> !IsTrailing((left + core + right)[|left + core + right| - 1])
    ensures core != "" ==> !IsSpace(core[0]) && !IsSpace(core[|core| - 1])
    ensures SafeName(value) == Finished(core)
  {
    ReplacedCleans(value);
    clean := Replaced(value, IsForbidden);
    left, core, right, tail := StrippedParts(clean);
    FinishedIsSafe(core);
  }

  /** And an extractable name that neither begins nor ends with white space, a dot or a space
      is left as it is. */
  lemma GoodNameStays(name: string)
    requires Extractable(name) && !IsSpace(name[0]) && !IsSpace(name[|name| - 1]) && !IsTrailing(name[|name| - 1])
    ensures SafeName(name) == name
  {
    forall k | 0 <= k < |name|
      ensures !IsForbidden(name[k])
    {
      HarmlessIsAllowed(name[k]);
    }
    CleanStays(name, IsForbidden);
  }

  lemma TrimmedFacts(value: string)
    ensures Clean(Trimmed(value), IsForbidden)
    ensures Trimmed(value) != "" ==> !IsSpace(Trimmed(value)[|Trimmed(value)| - 1])
  {
    var stripped := StripRight(Replaced(value, IsForbidden), IsTrailing);
    StripIsClean(Replaced(value, IsForbidden), IsTrailing, IsForbidden);
    TrimIsClean(stripped, IsForbidden);
    TrimEndsWithoutSpace(stripped);
  }

  lemma TrimEndsWithoutSpace(name: string)
    ensures Trim(name) != "" ==> !IsSpace(Trim(name)[|Trim(name)| - 1])
  {
    var front := StripRight(name, IsSpace);
    var back := StripLeft(front, IsSpace);
    assert back != "" ==> back[|back| - 1] == front[|front| - 1];
  }

  predicate EndsBadly(name: string) {
    name != "" && IsTrailing(name[|name| - 1])
  }

  /** The cleaned name ends in a dot, white space whose last character is not an ASCII space,
      and then any dots and spaces; and before that dot there is more than white space and
      one dot. */
  predicate IsUncoveredBy(clean: string, name: string, space: string, rest: string) {
    && clean == name + "." + space + rest
    && space != "" && All(space, IsSpace) && space[|space| - 1] != ' ' && All(rest, IsTrailing)
    && StripLeft(name, IsSpace) != "" && StripLeft(name, IsSpace) != "."
  }

  ghost predicate UncoversDot(clean: string) {
    exists name, space, rest :: IsUncoveredBy(clean, name, space, rest)
  }

  lemma UncoveredDotRemains(clean: string, name: string, space: string, rest: string)
    requires IsUncoveredBy(clean, name, space, rest)
    ensures Trim(StripRight(clean, IsTrailing)) == StripLeft(name, IsSpace) + "."
  {
    var dotted := name + ".";
    assert (dotted + space)[|dotted + space| - 1] == space[|space| - 1];
    StripRightAll(dotted + space, rest, IsTrailing);
    assert StripRight(dotted + space, IsTrailing) == dotted + space;
    StripRightAll(dotted, space, IsSpace);
    assert StripRight(dotted, IsSpace) == dotted;
    StripLeftConcat(name, ".", IsSpace);
  }

  /** Neither empty nor one or two dots, and with a dot at the end. */
  predicate EndsInDot(trimmed: string) {
    trimmed != "" && trimmed != "." && trimmed != ".." && trimmed[|trimmed| - 1] == '.'
  }

  lemma SplitAtDot(clean: string, stripped: string, front: string, space: string, rest: string)
    requires clean == stripped + rest && stripped == front + space && All(rest, IsTrailing) && All(space, IsSpace)
    requires stripped != "" ==> !IsTrailing(stripped[|stripped| - 1])
    requires EndsInDot(StripLeft(front, IsSpace))
    ensures UncoversDot(clean)
  {
    var trimmed := StripLeft(front, IsSpace);
    assert front[|front| - 1] == trimmed[|trimmed| - 1];
    var name := front[..|front| - 1];
    assert front == name + ".";
    NameBeforeDot(name);
    assert stripped[|stripped| - 1] == if space == "" then '.' else space[|space| - 1];
    assert IsUncoveredBy(clean, name, space, rest);
  }

  lemma NameBeforeDot(name: string)
    requires EndsInDot(StripLeft(name + ".", IsSpace))
    ensures StripLeft(name, IsSpace) != "" && StripLeft(name, IsSpace) != "."
  {
    StripLeftConcat(name, ".", IsSpace);
    DotStays();
    MoreThanDots(StripLeft(name, IsSpace), StripLeft(name + ".", IsSpace));
  }

  lemma DotStays()
    ensures StripLeft(".", IsSpace) == "."
  {
  }

  lemma MoreThanDots(left: string, whole: string)
    requires whole == (if left == "" then "." else left + ".") && EndsInDot(whole)
    ensures left != "" && left != "."
  {
  }

  lemma RemainingDotWasUncovered(clean: string)
    requires EndsInDot(Trim(StripRight(clean, IsTrailing)))
    ensures UncoversDot(clean)
  {
    var stripped := StripRight(clean, IsTrailing);
    var front := StripRight(stripped, IsSpace);
    StripRightTakes(clean, IsTrailing);
    StripRightTakes(stripped, IsSpace);
    SplitAtDot(clean, stripped, front, stripped[|front|..], clean[|stripped|..]);
  }

  lemma DotAfterName(left: string)
    requires left != "" && left != "."
    ensures EndsInDot(left + ".")
  {
    if |left| == 1 {
      assert (left + ".")[0] != '.';
    }
  }

  lemma UncoveredIffRemains(clean: string)
    ensures UncoversDot(clean) <==> EndsInDot(Trim(StripRight(clean, IsTrailing)))
  {
    if name, space, rest :| IsUncoveredBy(clean, name, space, rest) {
      UncoveredDotRemains(clean, name, space, rest);
      DotAfterName(StripLeft(name, IsSpace));
    }
    if EndsInDot(Trim(StripRight(clean, IsTrailing))) {
      RemainingDotWasUncovered(clean);
    }
  }

  /** What is left of the cleaned name after the white space at its beginning. */
  function Unindented(clean: string): string {
    StripLeft(clean, IsSpace)
  }

  /** A long name is cut out of the cleaned one, from its first visible character on. */
  lemma TrimmedIsPart(clean: string)
    ensures var trimmed := Trim(StripRight(clean, IsTrailing)); trimmed != "" ==> trimmed <= Unindented(clean)
  {
    var stripped := StripRight(clean, IsTrailing);
    var front := StripRight(stripped, IsSpace);
    PrefixIsUnindented(front, stripped);
    PrefixIsUnindented(stripped, clean);
  }

  lemma PrefixIsUnindented(front: string, whole: string)
    requires front <= whole
    ensures StripLeft(front, IsSpace) != "" ==> StripLeft(front, IsSpace) <= StripLeft(whole, IsSpace)
  {
    assert whole == front + whole[|front|..];
    StripLeftConcat(front, whole[|front|..], IsSpace);
  }

  /** The character behind which a longer name is cut, counted from the first visible one; a
      device has been moved back by the underscore. */
  function LastKept(visible: string): nat {
    if IsReserved(visible) then NAME_LIMIT - 2 else NAME_LIMIT - 1
  }

  predicate CutsBadly(visible: string) {
    LastKept(visible) < |visible| && IsTrailing(visible[LastKept(visible)])
  }

  lemma LongEnd(trimmed: string, visible: string)
    requires trimmed <= visible && |Unreserved(Named(trimmed))| > NAME_LIMIT
    ensures LastKept(visible) < |visible|
    ensures EndsBadly(Cut(Unreserved(Named(trimmed)))) <==> CutsBadly(visible)
  {
    assert Named(trimmed) == trimmed && |trimmed| >= NAME_LIMIT;
    PrefixIsDevice(visible, |trimmed|);
    assert visible[..|trimmed|] == trimmed;
  }

  lemma ShortEnd(trimmed: string)
    requires Clean(trimmed, IsForbidden) && (trimmed != "" ==> !IsSpace(trimmed[|trimmed| - 1]))
    requires |Unreserved(Named(trimmed))| <= NAME_LIMIT
    ensures EndsBadly(Cut(Unreserved(Named(trimmed)))) <==> EndsInDot(trimmed)
  {
    NamedIsUsable(trimmed);
    UnreservedIsUsable(Named(trimmed), IsForbidden);
    assert "file"[3] == 'e';
  }

  /** Windows also dislikes names that end in a dot or a space.  A safe name does so exactly in
      two cases, which the cleaned name shows: it is short, and white space after a dot hides
      the dot from the stripping; or it is long, and is cut behind a dot or a space. */
  lemma EndsInDotOrSpace(value: string)
    ensures EndsBadly(SafeName(value)) <==>
      if |Unreserved(Named(Trimmed(value)))| <= NAME_LIMIT then UncoversDot(Replaced(value, IsForbidden))
      else CutsBadly(Unindented(Replaced(value, IsForbidden)))
  {
    TrimmedFacts(value);
    EndsByLength(Trimmed(value), Replaced(value, IsForbidden));
  }

  lemma EndsByLength(trimmed: string, clean: string)
    requires Clean(trimmed, IsForbidden) && (trimmed != "" ==> !IsSpace(trimmed[|trimmed| - 1]))
    requires trimmed == Trim(StripRight(clean, IsTrailing))
    ensures EndsBadly(Cut(Unreserved(Named(trimmed)))) <==>
      if |Unreserved(Named(trimmed))| <= NAME_LIMIT then UncoversDot(clean) else CutsBadly(Unindented(clean))
  {
    if |Unreserved(Named(trimmed))| <= NAME_LIMIT {
      UncoveredIffRemains(clean);
      ShortEnd(trimmed);
    } else {
      TrimmedIsPart(clean);
      LongIsNoDefault(trimmed);
      LongEnd(trimmed, Unindented(clean));
    }
  }

  lemma LongIsNoDefault(trimmed: string)
    requires |Unreserved(Named(trimmed))| > NAME_LIMIT
    ensures trimmed != ""
  {
  }

  /** Such a name exists: a letter, a dot and a no-break space. */
  lemma DotBeforeSpace(letter: string)
    requires |letter| == 1 && !IsSpace(letter[0]) && !IsForbidden(letter[0]) && letter != "."
    ensures EndsBadly(SafeName(letter + "." + "\U{a0}"))
  {
    var value := letter + "." + "\U{a0}";
    DotIsUncovered(letter);
    EndsInDotOrSpace(value);
    TrimmedFacts(value);
    UncoveredDotRemains(value, letter, "\U{a0}", "");
    assert |Trimmed(value)| == 2;
  }

  lemma DotIsUncovered(letter: string)
    requires |letter| == 1 && !IsSpace(letter[0]) && !IsForbidden(letter[0]) && letter != "."
    ensures var value := letter + "." + "\U{a0}";
      Replaced(value, IsForbidden) == value && IsUncoveredBy(value, letter, "\U{a0}", "") && UncoversDot(value)
  {
    var value := letter + "." + "\U{a0}";
    assert !IsForbidden('.') && !IsForbidden('\U{a0}');
    CleanStays(value, IsForbidden);
    assert StripLeft(letter, IsSpace) == letter;
    assert value == letter + "." + "\U{a0}" + "";
    assert IsUncoveredBy(value, letter, "\U{a0}", "");
  }

  /* ----------------------------- unique names ---------------------------- */

  /** Case folding, character by character; digits, space and parentheses have no case. */
  ghost predicate FoldsCase(lower: char -> string) {
    forall c :: IsDigit(c) || c in " ()" ==> lower(c) == [c]
  }

  function Key(name: string, lower: char -> string): string {
    if name == [] then [] else Key(name[..|name| - 1], lower) + lower(name[|name| - 1])
  }

  function Suffix(n: nat): string {
    " (" + Decimal(n) + ")"
  }

  /** The stem, cut so far that suffix and extension still fit; one character always stays. */
  function CutStem(safe: string, n: nat): (stem: string)
    ensures stem <= Stem(safe)
  {
    var room := Max(1, NAME_LIMIT - |Extension(safe)| - |Suffix(n)|);
    if |Stem(safe)| <= room then Stem(safe) else Stem(safe)[..room]
  }

  function Numbered(safe: string, n: nat): string {
    CutStem(safe, n) + Suffix(n) + Extension(safe)
  }

  /** The stem, cut so far that the whole keeps to 240 characters if it can, but not to nothing;
      then the number in parentheses; then the extension. */
  ghost predicate IsNumbered(safe: string, n: nat, text: string) {
    exists stem, extension :: Splits(safe, stem, extension) && text == NumberedParts(stem, n, extension)
  }

  function NumberedParts(stem: string, n: nat, extension: string): string {
    var number := " (" + Decimal(n) + ")";
    var room := Max(1, 240 - |number + extension|);
    (if |stem| <= room then stem else stem[..room]) + number + extension
  }

  lemma NumberedIsNumbered(safe: string, n: nat, text: string)
    ensures IsNumbered(safe, n, text) <==> text == Numbered(safe, n)
  {
    SplitsOnce(safe, Stem(safe), Extension(safe));
    if stem, extension :| Splits(safe, stem, extension) && text == NumberedParts(stem, n, extension) {
      SplitsOnce(safe, stem, extension);
    }
  }

  lemma {:induction false} KeyConcat(a: string, b: string, lower: char -> string)
    ensures Key(a + b, lower) == Key(a, lower) + Key(b, lower)
  {
    if b == [] {
      assert a + b == a;
    } else {
      assert (a + b)[..|a + b| - 1] == a + b[..|b| - 1];
      KeyConcat(a, b[..|b| - 1], lower);
    }
  }

  lemma {:induction false} KeyOfCaseless(text: string, lower: char -> string)
    requires FoldsCase(lower) && forall c | c in text :: IsDigit(c) || c in " ()"
    ensures Key(text, lower) == text
  {
    if text != [] {
      var front, last := text[..|text| - 1], text[|text| - 1];
      assert text == front + [last] && last in text;
      assert forall c | c in front :: c in text;
      KeyOfCaseless(front, lower);
      assert lower(last) == [last];
    }
  }

  lemma SuffixParts(text: string, digits: string)
    ensures text + (" (" + digits + ")") == (text + " ") + ['('] + (digits + ")")
  {
  }

  lemma SuffixKey(stem: string, n: nat, end: string, lower: char -> string) returns (front: string)
    requires FoldsCase(lower)
    ensures Key(stem + Suffix(n) + end, lower) == front + ['('] + (Decimal(n) + ")") + Key(end, lower)
  {
    KeyConcat(stem + Suffix(n), end, lower);
    KeyConcat(stem, Suffix(n), lower);
    SuffixIsCaseless(n);
    KeyOfCaseless(Suffix(n), lower);
    SuffixParts(Key(stem, lower), Decimal(n));
    front := Key(stem, lower) + " ";
  }

  lemma SuffixIsCaseless(n: nat)
    ensures forall c | c in Suffix(n) :: IsDigit(c) || c in " ()"
  {
  }

  /** Different numbers give different names, even after the stem has been cut and case folded. */
  lemma NumberedInjective(safe: string, m: nat, n: nat, lower: char -> string)
    requires FoldsCase(lower) && Key(Numbered(safe, m), lower) == Key(Numbered(safe, n), lower)
    ensures m == n
  {
    var a := SuffixKey(CutStem(safe, m), m, Extension(safe), lower);
    var b := SuffixKey(CutStem(safe, n), n, Extension(safe), lower);
    var end := Key(Extension(safe), lower);
    var left, right := a + ['('] + (Decimal(m) + ")"), b + ['('] + (Decimal(n) + ")");
    assert |left| == |right|;
    Encodings.SplitAt(left, end, right, end);
    assert '(' !in Decimal(m) + ")" && '(' !in Decimal(n) + ")";
    Encodings.SplitAtLast(a, Decimal(m) + ")", b, Decimal(n) + ")", '(');
    assert Decimal(m) == (Decimal(m) + ")")[..|Decimal(m) + ")"| - 1];
    assert Decimal(n) == (Decimal(n) + ")")[..|Decimal(n) + ")"| - 1];
    DecimalInjective(m, n);
  }

  /** A numbered name respects the limit whenever suffix and extension leave room for a stem. */
  lemma NumberedFits(safe: string, n: nat)
    requires safe != ""
    ensures |Numbered(safe, n)| <= NAME_LIMIT <==> |Suffix(n)| + |Extension(safe)| < NAME_LIMIT
  {
  }

  /** The name the search settles on: the safe name if it is free, otherwise the first free
      numbered one; it tries at most one numbered name more than there are names in use. */
  ghost predicate FirstFree(used: set<string>, safe: string, chosen: string, lower: char -> string) {
    && Key(chosen, lower) !in used
    && (Key(safe, lower) !in used ==> chosen == safe)
    && (Key(safe, lower) in used ==> exists n: nat ::
          && 2 <= n <= |used| + 2 && IsNumbered(safe, n, chosen)
          && UsedBelow(used, safe, n, lower))
  }

  /** Keys of the numbered names 2 .. n - 1. */
  ghost function Tried(safe: string, n: nat, lower: char -> string): set<string> {
    set m: nat | 2 <= m < n :: Key(Numbered(safe, m), lower)
  }

  lemma {:induction false} TriedAreDistinct(safe: string, n: nat, lower: char -> string)
    requires FoldsCase(lower) && 2 <= n
    ensures |Tried(safe, n, lower)| == n - 2
  {
    if n > 2 {
      TriedAreDistinct(safe, n - 1, lower);
      var key := Key(Numbered(safe, n - 1), lower);
      if key in Tried(safe, n - 1, lower) {
        var m: nat :| 2 <= m < n - 1 && key == Key(Numbered(safe, m), lower);
        NumberedInjective(safe, m, n - 1, lower);
      }
      TryNext(safe, n - 1, lower);
    } else {
      NothingTried(safe, lower);
    }
  }

  /** The numbered names 2 .. n - 1 are all in use. */
  ghost predicate UsedBelow(used: set<string>, safe: string, n: nat, lower: char -> string) {
    forall m: nat, text: string {:trigger IsNumbered(safe, m, text)} | 2 <= m < n && IsNumbered(safe, m, text) ::
      Key(text, lower) in used
  }

  /** The search cannot run past the names in use. */
  lemma TriedAreFew(safe: string, n: nat, lower: char -> string, used: set<string>)
    requires FoldsCase(lower) && 2 <= n && UsedBelow(used, safe, n, lower)
    ensures n - 2 <= |used|
  {
    TriedAreDistinct(safe, n, lower);
    forall m: nat | 2 <= m < n
      ensures Key(Numbered(safe, m), lower) in used
    {
      NumberedIsNumbered(safe, m, Numbered(safe, m));
    }
    SubsetSize(Tried(safe, n, lower), used);
  }

  lemma NothingTried(safe: string, lower: char -> string)
    ensures Tried(safe, 2, lower) == {}
  {
  }

  lemma TryNext(safe: string, n: nat, lower: char -> string)
    requires 2 <= n
    ensures Tried(safe, n + 1, lower) == Tried(safe, n, lower) + {Key(Numbered(safe, n), lower)}
  {
  }

  /** Before the name numbered `n` is tried. */
  ghost predicate Searching(used: set<string>, safe: string, n: nat, candidate: string, lower: char -> string) {
    if n <= 2 then n == 2 && candidate == safe
    else
      && candidate == Numbered(safe, n - 1) && Key(safe, lower) in used
      && UsedBelow(used, safe, n - 1, lower) && n - 3 <= |used|
  }

  lemma SearchGoesOn(used: set<string>, safe: string, n: nat, candidate: string, lower: char -> string)
    requires FoldsCase(lower) && Searching(used, safe, n, candidate, lower) && Key(candidate, lower) in used
    ensures Searching(used, safe, n + 1, Numbered(safe, n), lower)
  {
    forall m: nat, text | 2 <= m < n && IsNumbered(safe, m, text)
      ensures Key(text, lower) in used
    {
      if m == n - 1 {
        NumberedIsNumbered(safe, m, text);
      }
    }
    TriedAreFew(safe, n, lower, used);
  }

  lemma SearchEnds(used: set<string>, safe: string, n: nat, candidate: string, lower: char -> string)
    requires Searching(used, safe, n, candidate, lower) && Key(candidate, lower) !in used
    ensures FirstFree(used, safe, candidate, lower)
  {
    if n > 2 {
      NumberedIsNumbered(safe, n - 1, candidate);
    }
  }

  method FreeName(used: set<string>, safe: string, lower: char -> string) returns (candidate: string)
    requires FoldsCase(lower)
    ensures FirstFree(used, safe, candidate, lower)
  {
    candidate := safe;
    var sequence: nat := 2;
    while Key(candidate, lower) in used
      invariant Searching(used, safe, sequence, candidate, lower)
      decreases |used| + 4 - sequence
    {
      SearchGoesOn(used, safe, sequence, candidate, lower);
      candidate := Numbered(safe, sequence);
      sequence := sequence + 1;
    }
    SearchEnds(used, safe, sequence, candidate, lower);
  }

  ghost function Keys(names: seq<string>, lower: char -> string): set<string> {
    set k | 0 <= k < |names| :: Key(names[k], lower)
  }

  /** Every name is the first free form of its safe name, given the names before it. */
  ghost predicate Assigned(names: seq<string>, result: seq<string>, lower: char -> string) {
    |result| <= |names| && forall i {:trigger AssignedAt(names, result, i, lower)} | 0 <= i < |result| ::
      AssignedAt(names, result, i, lower)
  }

  ghost predicate AssignedAt(names: seq<string>, result: seq<string>, i: nat, lower: char -> string)
    requires i < |result| && i < |names|
  {
    FirstFree(Keys(result[..i], lower), SafeName(names[i]), result[i], lower)
  }

  lemma KeysGrow(names: seq<string>, next: string, lower: char -> string)
    ensures Keys(names + [next], lower) == Keys(names, lower) + {Key(next, lower)}
  {
    var more := names + [next];
    forall key | key in Keys(names, lower)
      ensures key in Keys(more, lower)
    {
      var k :| 0 <= k < |names| && key == Key(names[k], lower);
      assert more[k] == names[k];
    }
    assert more[|names|] == next;
  }

  lemma AssignNext(names: seq<string>, result: seq<string>, next: string, lower: char -> string)
    requires Assigned(names, result, lower) && |result| < |names|
    requires FirstFree(Keys(result, lower), SafeName(names[|result|]), next, lower)
    ensures Assigned(names, result + [next], lower)
  {
    var more := result + [next];
    forall i | 0 <= i < |more|
      ensures AssignedAt(names, more, i, lower)
    {
      if i < |result| {
        assert AssignedAt(names, result, i, lower);
        StaysAssigned(names, result, next, i, lower);
      } else {
        assert more[..i] == result;
      }
    }
  }

  lemma StaysAssigned(names: seq<string>, result: seq<string>, next: string, i: nat, lower: char -> string)
    requires i < |result| < |names| && AssignedAt(names, result, i, lower)
    ensures AssignedAt(names, result + [next], i, lower)
  {
    assert (result + [next])[..i] == result[..i];
  }

  lemma AssignedAreDistinct(names: seq<string>, result: seq<string>, i: nat, j: nat, lower: char -> string)
    requires Assigned(names, result, lower) && i < j < |result|
    ensures Key(result[i], lower) != Key(result[j], lower)
  {
    assert AssignedAt(names, result, j, lower);
    assert result[..j][i] == result[i];
    assert Key(result[i], lower) in Keys(result[..j], lower);
  }

  /** As many names as came in, pairwise distinct whatever the case, each the first free form
      of its safe name. */
  method UniqueArchiveEntryNames(names: seq<string>, lower: char -> string) returns (result: seq<string>)
    requires FoldsCase(lower)
    ensures |result| == |names| && Assigned(names, result, lower)
    ensures forall i, j | 0 <= i < j < |result| :: Key(result[i], lower) != Key(result[j], lower)
  {
    result := [];
    var used := {};
    for k := 0 to |names|
      invariant |result| == k && used == Keys(result, lower) && Assigned(names, result, lower)
    {
      var candidate := FreeName(used, SafeName(names[k]), lower);
      AssignNext(names, result, candidate, lower);
      KeysGrow(result, candidate, lower);
      result := result + [candidate];
      used := used + {Key(candidate, lower)};
    }
    forall i, j | 0 <= i < j < |result|
      ensures Key(result[i], lower) != Key(result[j], lower)
    {
      AssignedAreDistinct(names, result, i, j, lower);
    }
  }
}
