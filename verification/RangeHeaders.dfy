/** Content-Range and Range headers: sections 14.4 and 14.1.2 of RFC 9110, one range only. */
module RangeHeaders {
  import opened Basics
  import opened Text
  import opened ChunkRanges

  datatype ByteRange = ByteRange(start: nat, end: nat, length: nat)

  /** Number(text) of a run of digits; exact as far as the checks for safe integers can tell. */
  function Value(digits: string): nat {
    if digits == [] then 0
    else 10 * Value(digits[..|digits| - 1]) + DigitValue(digits[|digits| - 1])
  }

  function DigitValue(c: char): nat {
    if IsDigit(c) then c as int - '0' as int else 0
  }

  /** How many digits `text` begins with: what `\d*` takes. */
  function DigitRun(text: string): (n: nat)
    ensures n <= |text| && forall k | 0 <= k < n :: IsDigit(text[k])
    ensures n < |text| ==> !IsDigit(text[n])
  {
    if text == [] || !IsDigit(text[0]) then 0 else 1 + DigitRun(text[1..])
  }

  /** `(\d*)` followed by the character `stop`. */
  function Field(text: string, stop: char): Option<(string, string)> {
    var n := DigitRun(text);
    if n < |text| && text[n] == stop then Some((text[..n], text[n + 1..])) else None
  }

  predicate AllDigits(text: string) {
    DigitRun(text) == |text|
  }

  function AfterPrefix(text: string, prefix: string): Option<string> {
    if prefix <= text then Some(text[|prefix|..]) else None
  }

  lemma {:induction false} DigitRunOf(digits: string, rest: string)
    requires forall k | 0 <= k < |digits| :: IsDigit(digits[k])
    requires rest != [] ==> !IsDigit(rest[0])
    ensures DigitRun(digits + rest) == |digits|
  {
    if digits == [] {
      assert digits + rest == rest;
    } else {
      assert (digits + rest)[1..] == digits[1..] + rest;
      DigitRunOf(digits[1..], rest);
    }
  }

  lemma FieldOf(digits: string, stop: char, rest: string)
    requires (forall k | 0 <= k < |digits| :: IsDigit(digits[k])) && !IsDigit(stop)
    ensures Field(digits + ([stop] + rest), stop) == Some((digits, rest))
  {
    DigitRunOf(digits, [stop] + rest);
    var text := digits + ([stop] + rest);
    assert text[..|digits|] == digits && text[|digits| + 1..] == rest;
  }

  lemma {:induction false} ValueOfDecimal(n: nat)
    ensures Value(Decimal(n)) == n
    decreases n
  {
    var text := Decimal(n);
    if n >= 10 {
      ValueOfDecimal(n / 10);
      assert text[..|text| - 1] == Decimal(n / 10);
    }
    DigitValueOf(n % 10);
    assert text[|text| - 1] == Digit(n % 10);
    assert n < 10 ==> text[..|text| - 1] == [];
  }

  lemma DigitValueOf(n: nat)
    requires n < 10
    ensures DigitValue(Digit(n)) == n
  {
  }

  lemma TenTimes(a: nat, t: nat, b: nat)
    ensures 10 * (a * t + b) == a * (10 * t) + 10 * b
  {
  }

  /** A numeral counts in tens: the digits in front weigh ten times as much for each digit behind. */
  lemma {:induction false} ValueOfParts(front: string, back: string)
    ensures Value(front + back) == Value(front) * TenTo(|back|) + Value(back)
  {
    if back == "" {
      assert front + back == front;
    } else {
      var rest := back[..|back| - 1];
      LastDigit(front, back);
      ValueOfParts(front, rest);
      TenTimes(Value(front), TenTo(|rest|), Value(rest));
    }
  }

  lemma LastDigit(front: string, back: string)
    requires back != ""
    ensures Value(front + back) == 10 * Value(front + back[..|back| - 1]) + DigitValue(back[|back| - 1])
  {
    assert (front + back)[..|front + back| - 1] == front + back[..|back| - 1];
  }

  lemma ValueOfDigit(n: nat)
    requires n < 10
    ensures Value(["0123456789"[n]]) == n
  {
    DigitValueOf(n);
    assert ["0123456789"[n]][..0] == [];
  }

  function TenTo(n: nat): nat {
    if n == 0 then 1 else 10 * TenTo(n - 1)
  }

  lemma AfterPrefixOf(prefix: string, rest: string)
    ensures AfterPrefix(prefix + rest, prefix) == Some(rest)
  {
  }

  /* ----------------------------- Content-Range --------------------------- */

  const CONTENT_PREFIX := "bytes "

  function ParseContentRange(value: string): Option<ContentRange> {
    var rest := AfterPrefix(value, CONTENT_PREFIX);
    if rest.None? then None else
    var first := Field(rest.value, '-');
    if first.None? || first.value.0 == "" then None else
    var second := Field(first.value.1, '/');
    if second.None? || second.value.0 == "" then None else
    var third := second.value.1;
    if third == "" || !AllDigits(third) then None
    else Checked(Value(first.value.0), Value(second.value.0), Value(third))
  }

  function Checked(start: nat, end: nat, total: nat): Option<ContentRange> {
    if !Safe(start) || !Safe(end) || !Safe(total) || end < start || total <= end then None
    else Some(ContentRange(start, end, total, end - start + 1))
  }

  function FormatFields(first: string, second: string, third: string): string {
    CONTENT_PREFIX + (first + (['-'] + (second + (['/'] + third))))
  }

  function FormatContentRange(start: nat, end: nat, total: nat): string {
    FormatFields(Decimal(start), Decimal(end), Decimal(total))
  }

  predicate Numeral(text: string) {
    text != "" && forall k | 0 <= k < |text| :: IsDigit(text[k])
  }

  lemma ParseFields(first: string, second: string, third: string, start: nat, end: nat, total: nat)
    requires Numeral(first) && Numeral(second) && Numeral(third)
    requires Value(first) == start && Value(second) == end && Value(third) == total
    ensures ParseContentRange(FormatFields(first, second, third)) == Checked(start, end, total)
  {
    var rest := second + (['/'] + third);
    AfterPrefixOf(CONTENT_PREFIX, first + (['-'] + rest));
    FieldOf(first, '-', rest);
    FieldOf(second, '/', third);
    DigitRunOf(third, "");
    assert third + "" == third;
  }

  lemma DecimalParses(n: nat) returns (text: string)
    ensures text == Decimal(n) && Numeral(text) && Value(text) == n
  {
    text := Decimal(n);
    ValueOfDecimal(n);
  }

  /** What the client writes, the server reads; and it refuses exactly the impossible ranges. */
  lemma ContentRangeRoundTrip(start: nat, end: nat, total: nat)
    ensures ParseContentRange(FormatContentRange(start, end, total))
         == if start <= end < total <= MAX_SAFE_INTEGER
            then Some(ContentRange(start, end, total, end - start + 1)) else None
  {
    var first := DecimalParses(start);
    var second := DecimalParses(end);
    var third := DecimalParses(total);
    ParseFields(first, second, third, start, end, total);
  }

  lemma FieldParts(text: string, stop: char)
    requires Field(text, stop).Some?
    ensures var (digits, rest) := Field(text, stop).value;
      text == digits + [stop] + rest && forall k | 0 <= k < |digits| :: IsDigit(digits[k])
  {
    var n := DigitRun(text);
    assert text == text[..n] + [text[n]] + text[n + 1..];
  }

  /** No other header is accepted than three numerals in this form, of safe integers in order. */
  lemma OnlyContentRanges(value: string) returns (first: string, second: string, third: string)
    requires ParseContentRange(value).Some?
    ensures value == "bytes " + (first + ['-'] + (second + ['/'] + third))
    ensures Numeral(first) && Numeral(second) && Numeral(third)
    ensures var start, end, total := Value(first), Value(second), Value(third);
      && start <= end < total <= MAX_SAFE_INTEGER
      && ParseContentRange(value).value == ContentRange(start, end, total, end - start + 1)
  {
    var rest := AfterPrefix(value, CONTENT_PREFIX).value;
    assert value == CONTENT_PREFIX + rest;
    FieldParts(rest, '-');
    first := Field(rest, '-').value.0;
    FieldParts(Field(rest, '-').value.1, '/');
    second, third := Field(Field(rest, '-').value.1, '/').value.0, Field(Field(rest, '-').value.1, '/').value.1;
  }

  /** Every chunk that the sending loop cuts passes through the header unchanged. */
  lemma ChunksTravel(total: nat, offset: nat, chunkSize: nat) returns (value: string)
    requires NextChunkRange(total, offset, chunkSize).Next?
    ensures var r := NextChunkRange(total, offset, chunkSize).range;
      && value == FormatFields(Decimal(r.start), Decimal(r.end), Decimal(r.total))
      && ParseContentRange(value) == Some(r)
  {
    var r := NextChunkRange(total, offset, chunkSize).range;
    ContentRangeRoundTrip(r.start, r.end, r.total);
    value := FormatContentRange(r.start, r.end, r.total);
  }

  /* --------------------------------- Range ------------------------------- */

  const RANGE_PREFIX := "bytes="

  function ParseByteRange(value: string, size: nat): (range: Option<ByteRange>)
    ensures range.Some? ==>
      range.value.start <= range.value.end < size && range.value.length == range.value.end - range.value.start + 1
  {
    var rest := AfterPrefix(value, RANGE_PREFIX);
    if !Safe(size) || size == 0 || rest.None? || ',' in value then None else
    var first := Field(rest.value, '-');
    if first.None? || !AllDigits(first.value.1) then None else
    var (from, to) := first.value;
    if from == "" then (if to == "" then None else LastBytes(Value(to), size))
    else BytesFrom(Value(from), if to == "" then size - 1 else Value(to), size)
  }

  function LastBytes(suffix: nat, size: nat): Option<ByteRange>
    requires size > 0
  {
    if !Safe(suffix) || suffix == 0 then None
    else
      var start := Max(0, size - suffix);
      Some(ByteRange(start, size - 1, size - start))
  }

  function BytesFrom(start: nat, end: nat, size: nat): Option<ByteRange>
    requires size > 0
  {
    if !Safe(start) || !Safe(end) || start >= size || end < start then None
    else Some(ByteRange(start, Min(end, size - 1), Min(end, size - 1) - start + 1))
  }

  /** The positions a parsed range selects. */
  predicate Selects(range: Option<ByteRange>, k: int) {
    range.Some? && range.value.start <= k <= range.value.end
  }

  lemma NoComma(digits: string, rest: string)
    requires (forall k | 0 <= k < |digits| :: IsDigit(digits[k])) && ',' !in rest
    ensures ',' !in RANGE_PREFIX + (digits + rest)
  {
    assert ',' !in RANGE_PREFIX;
  }

  lemma ParseParts(from: string, to: string, size: nat)
    requires forall k | 0 <= k < |from| :: IsDigit(from[k])
    requires forall k | 0 <= k < |to| :: IsDigit(to[k])
    requires 0 < size && Safe(size) && (from != "" || to != "")
    ensures ParseByteRange(RANGE_PREFIX + (from + (['-'] + to)), size)
         == if from == "" then LastBytes(Value(to), size)
            else BytesFrom(Value(from), if to == "" then size - 1 else Value(to), size)
  {
    AfterPrefixOf(RANGE_PREFIX, from + (['-'] + to));
    FieldOf(from, '-', to);
    DigitRunOf(to, "");
    assert to + "" == to;
    NoComma(from, ['-'] + to);
  }

  /** "bytes=a-b", "bytes=a-" and "bytes=-n", for any numerals, select exactly the bytes the
      standard names, cut at the end of the file; nothing is selected exactly when the
      request cannot be satisfied or a number is not a safe integer. */
  lemma ByteRangesSelect(a: string, b: string, size: nat, k: int)
    requires 0 < size && Safe(size) && Numeral(a) && Numeral(b)
    ensures Selects(ParseByteRange(RANGE_PREFIX + (a + (['-'] + b)), size), k)
       <==> Value(a) <= k <= Value(b) && k < size && Safe(Value(b))
    ensures Selects(ParseByteRange(RANGE_PREFIX + (a + (['-'] + "")), size), k) <==> Value(a) <= k < size
    ensures Selects(ParseByteRange(RANGE_PREFIX + ("" + (['-'] + b)), size), k)
       <==> 0 <= k < size && size - Value(b) <= k && Safe(Value(b))
  {
    ParseParts(a, b, size);
    ParseParts(a, "", size);
    ParseParts("", b, size);
  }

  /** No other header is accepted. */
  lemma OnlyTheseForms(value: string, size: nat) returns (a: string, b: string)
    requires ParseByteRange(value, size).Some?
    ensures value == RANGE_PREFIX + (a + (['-'] + b)) && (a == "" || Numeral(a)) && (b == "" || Numeral(b))
    ensures (a != "" || b != "")
    ensures 0 < size && Safe(size)
  {
    var rest := value[|RANGE_PREFIX|..];
    var n := DigitRun(rest);
    a, b := rest[..n], rest[n + 1..];
    assert rest == a + (['-'] + b);
    assert value == RANGE_PREFIX + rest;
  }
}
