/** Money held as int64 halalas: checked addition, decimal printing and parsing. */
module MoneyDomain {
  import opened Errors

  const MIN_INT64: int := -0x8000_0000_0000_0000
  const MAX_INT64: int := 0x7fff_ffff_ffff_ffff
  const TWO_TO_64: int := 0x1_0000_0000_0000_0000
  const HALALAS_PER_SAR := 100
  const CURRENCY_SAR := "SAR"

  type int64 = n: int | MIN_INT64 <= n <= MAX_INT64

  predicate Fits(n: int) {
    MIN_INT64 <= n <= MAX_INT64
  }

  /** The int64 that Go's wrapping arithmetic leaves in place of n. */
  function Wrap(n: int): (r: int64)
    ensures r == n <==> Fits(n)
  {
    (n - MIN_INT64) % TWO_TO_64 + MIN_INT64
  }

  /** Wrapping an operand first makes no difference to a wrapped sum. */
  lemma WrapSum(m: int, n: int)
    ensures Wrap(Wrap(m) + n) == Wrap(m + n)
  {
    var k := (m - MIN_INT64) / TWO_TO_64;
    assert Wrap(m) == m - k * TWO_TO_64;
    WrapShift(m + n, -k);
  }

  lemma {:induction false} WrapShift(n: int, k: int)
    ensures Wrap(n + k * TWO_TO_64) == Wrap(n)
    decreases if k < 0 then -k else k
  {
    if k > 0 {
      WrapShift(n, k - 1);
    } else if k < 0 {
      WrapShift(n, k + 1);
    }
  }

  datatype Amount = Amount(halalas: int64, currency: string)

  /** The fields are private: every value is in riyals, or is the zero value. */
  type Money = m: Amount | m.currency == CURRENCY_SAR || m == Amount(0, "")
    witness Amount(0, "")

  function HalalasFromMinorUnits(halalas: int64, currency: string): Result<Money> {
    if currency != CURRENCY_SAR then Err(Domain(InvalidMoney))
    else Ok(Amount(halalas, currency))
  }

  function ZeroSAR(): Money {
    Amount(0, CURRENCY_SAR)
  }

  // ---- Checked arithmetic ----

  /** Every intermediate value below wraps as the machine would wrap it. */
  function SafeAdd(a: int64, b: int64): (r: Option<int64>)
    ensures r == if Fits(a + b) then Some(a + b) else None
  {
    if b > 0 && a > Wrap(MAX_INT64 - b) then None
    else if b < 0 && a < Wrap(MIN_INT64 - b) then None
    else Some(Wrap(a + b))
  }

  function SafeSub(a: int64, b: int64): (r: Option<int64>)
    ensures r == if Fits(a - b) then Some(a - b) else None
  {
    if b < 0 && a > Wrap(MAX_INT64 + b) then None
    else if b > 0 && a < Wrap(MIN_INT64 + b) then None
    else Some(Wrap(a - b))
  }

  /** Add succeeds exactly when the mathematical sum is representable, and is then that sum. */
  function Add(m: Money, other: Money): (r: Result<Money>)
    ensures r.Ok? <==> m.currency == other.currency && Fits(m.halalas + other.halalas)
    ensures r.Ok? ==> r.value == Amount(m.halalas + other.halalas, m.currency)
    ensures r.Err? ==> r.error == Domain(InvalidMoney)
  {
    if m.currency != other.currency then Err(Domain(InvalidMoney))
    else match SafeAdd(m.halalas, other.halalas)
      case None => Err(Domain(InvalidMoney))
      case Some(sum) => Ok(Amount(sum, m.currency))
  }

  function Sub(m: Money, other: Money): (r: Result<Money>)
    ensures r.Ok? <==> m.currency == other.currency && Fits(m.halalas - other.halalas)
    ensures r.Ok? ==> r.value == Amount(m.halalas - other.halalas, m.currency)
    ensures r.Err? ==> r.error == Domain(InvalidMoney)
  {
    if m.currency != other.currency then Err(Domain(InvalidMoney))
    else match SafeSub(m.halalas, other.halalas)
      case None => Err(Domain(InvalidMoney))
      case Some(diff) => Ok(Amount(diff, m.currency))
  }

  function Negate(m: Money): Money {
    Amount(Wrap(-(m.halalas as int)), m.currency)
  }

  function Cmp(m: Money, other: Money): (r: Result<int>)
    ensures r.Ok? <==> m.currency == other.currency
    ensures r.Ok? ==> (r.value == 0 <==> m == other)
    ensures r.Ok? ==> (r.value < 0 <==> m.halalas < other.halalas) && (r.value > 0 <==> m.halalas > other.halalas)
    ensures r.Err? ==> r.error == Domain(InvalidMoney)
  {
    if m.currency != other.currency then Err(Domain(InvalidMoney))
    else if m.halalas < other.halalas then Ok(-1)
    else if m.halalas > other.halalas then Ok(1)
    else Ok(0)
  }

  /** Builds an amount from riyals and halalas. The multiplication is not checked. */
  function SAR(riyals: int64, halalas: int64): Result<Money> {
    if halalas < 0 || halalas >= HALALAS_PER_SAR then Err(Domain(InvalidMoney))
    else if riyals > 0 && halalas < 0 then Err(Domain(InvalidMoney))
    else if riyals < 0 && halalas > 0 then Err(Domain(InvalidMoney))
    else Ok(Amount(Wrap(Wrap(riyals * HALALAS_PER_SAR) + halalas), CURRENCY_SAR))
  }

  // ---- Text helpers ----

  predicate IsSpace(c: char) {
    c in "\t\n\r \U{0B}\U{0C}\U{85}\U{A0}\U{1680}\U{2028}\U{2029}\U{202F}\U{205F}\U{3000}"
    || '\U{2000}' <= c <= '\U{200A}'
  }

  function TrimLeft(s: string): string {
    if s != "" && IsSpace(s[0]) then TrimLeft(s[1..]) else s
  }

  function TrimRight(s: string): string {
    if s != "" && IsSpace(s[|s| - 1]) then TrimRight(s[..|s| - 1]) else s
  }

  function TrimSpace(s: string): string {
    TrimRight(TrimLeft(s))
  }

  function Split(s: string, separator: char): (parts: seq<string>)
    ensures |parts| >= 1
  {
    if s == "" then [""]
    else
      var rest := Split(s[1..], separator);
      if s[0] == separator then [""] + rest
      else [[s[0]] + rest[0]] + rest[1..]
  }

  predicate IsDigit(c: char) {
    '0' <= c <= '9'
  }

  predicate AllDigits(s: string) {
    forall i :: 0 <= i < |s| ==> IsDigit(s[i])
  }

  function DigitsValue(s: string): nat
    requires AllDigits(s)
  {
    if s == "" then 0
    else DigitsValue(s[..|s| - 1]) * 10 + (s[|s| - 1] as int - '0' as int)
  }

  function DigitChar(d: nat): char
    requires d < 10
  {
    ('0' as int + d) as char
  }

  /** Decimal digits of n, without leading zeros. */
  function Decimal(n: nat): string {
    if n < 10 then [DigitChar(n)] else Decimal(n / 10) + [DigitChar(n % 10)]
  }

  /** Base-10 parsing of an optionally signed int64: sign, at least one digit, in range. */
  function ParseInt(s: string): (r: Option<int64>) {
    var signed := s != "" && (s[0] == '-' || s[0] == '+');
    var digits := if signed then s[1..] else s;
    if digits == "" || !AllDigits(digits) then None
    else
      var magnitude := DigitsValue(digits);
      var value: int := if signed && s[0] == '-' then -(magnitude as int) else magnitude;
      if Fits(value) then Some(value) else None
  }

  /** The verb %d. */
  function FormatInt(n: int): string {
    if n < 0 then "-" + Decimal(-n) else Decimal(n)
  }

  /** The verb %02d: zero padded to two columns, the sign taking one of them. */
  function FormatTwo(n: int): string {
    if n < 0 then "-" + Decimal(-n)
    else if n < 10 then "0" + Decimal(n)
    else Decimal(n)
  }

  /** Go's division truncates toward zero and its remainder keeps the dividend's sign. */
  function TruncatedDiv(a: int, b: int): int
    requires b > 0
  {
    if a < 0 then -((-a) / b) else a / b
  }

  function TruncatedMod(a: int, b: int): int
    requires b > 0
  {
    if a < 0 then -((-a) % b) else a % b
  }

  // ---- Printing and parsing ----

  function String(m: Money): string {
    var sign := if m.halalas < 0 then "-" else "";
    var abs: int64 := if m.halalas < 0 then Wrap(-(m.halalas as int)) else m.halalas;
    sign + FormatInt(TruncatedDiv(abs, HALALAS_PER_SAR)) + "." + FormatTwo(TruncatedMod(abs, HALALAS_PER_SAR))
  }

  function ParseSAR(value: string): Result<Money> {
    var trimmed := TrimSpace(value);
    if trimmed == "" then Err(Domain(InvalidMoney))
    else if trimmed[0] == '-' then ParseUnsigned(true, trimmed[1..])
    else if trimmed[0] == '+' then ParseUnsigned(false, trimmed[1..])
    else ParseUnsigned(false, trimmed)
  }

  /** What follows the one sign that the parser strips itself. */
  function ParseUnsigned(negative: bool, value: string): Result<Money> {
    var parts := Split(value, '.');
    if |parts| > 2 then Err(Domain(InvalidMoney))
    else match ParseInt(parts[0])
      case None => Err(Domain(InvalidMoney))
      case Some(riyals) =>
        match ParseFraction(parts[1..])
        case None => Err(Domain(InvalidMoney))
        case Some(halalas) => Signed(negative, SAR(riyals, halalas))
  }

  function Signed(negative: bool, parsed: Result<Money>): Result<Money> {
    match parsed
    case Err(e) => Err(e)
    case Ok(m) => Ok(if negative then Negate(m) else m)
  }

  /** The part after the decimal point, absent or one or two characters long. */
  function ParseFraction(parts: seq<string>): Option<int64> {
    if parts == [] then Some(0)
    else
      var frac := parts[0];
      if frac == "" || |frac| > 2 then None
      else ParseInt(if |frac| == 1 then frac + "0" else frac)
  }

  // ---- What printing and parsing promise each other ----

  lemma {:induction false} DecimalDigits(n: nat)
    ensures Decimal(n) != "" && AllDigits(Decimal(n))
    ensures DigitsValue(Decimal(n)) == n
  {
    if n < 10 {
      assert Decimal(n)[..0] == "";
    } else {
      DecimalDigits(n / 10);
      assert Decimal(n)[..|Decimal(n)| - 1] == Decimal(n / 10);
    }
  }

  lemma {:induction false} SplitWithout(s: string, separator: char)
    requires separator !in s
    ensures Split(s, separator) == [s]
  {
    if s != "" {
      SplitWithout(s[1..], separator);
      assert [s[0]] + s[1..] == s;
    }
  }

  lemma {:induction false} SplitOnce(left: string, right: string, separator: char)
    requires separator !in left && separator !in right
    ensures Split(left + [separator] + right, separator) == [left, right]
  {
    var s := left + [separator] + right;
    if left == "" {
      assert s[1..] == right;
      SplitWithout(right, separator);
    } else {
      assert s[1..] == left[1..] + [separator] + right;
      SplitOnce(left[1..], right, separator);
      assert [left[0]] + left[1..] == left;
    }
  }

  lemma TwoDigits(n: nat)
    requires n < 100
    ensures |FormatTwo(n)| == 2 && AllDigits(FormatTwo(n)) && DigitsValue(FormatTwo(n)) == n
  {
    DecimalDigits(n);
    if n < 10 {
      assert FormatTwo(n) == ['0', DigitChar(n)];
      assert FormatTwo(n)[..1] == "0" && "0"[..0] == "";
    } else {
      assert Decimal(n / 10) == [DigitChar(n / 10)];
      assert |Decimal(n)| == 2;
    }
  }

  /** A canonical decimal: optional minus sign, riyals without leading zeros, two halala digits. */
  function Canonical(negative: bool, riyals: nat, halalas: nat): string
    requires halalas < 100
  {
    (if negative then "-" else "") + Decimal(riyals) + "." + FormatTwo(halalas)
  }

  /** The number of halalas that a sign, riyals and halalas denote. */
  function Denoted(negative: bool, riyals: int, halalas: nat): int {
    if negative then -(riyals * HALALAS_PER_SAR + halalas) else riyals * HALALAS_PER_SAR + halalas
  }

  lemma TrimNothing(s: string)
    requires s != "" && !IsSpace(s[0]) && !IsSpace(s[|s| - 1])
    ensures TrimSpace(s) == s
  {
  }

  lemma DigitsAreInk(c: char)
    requires IsDigit(c) || c == '-'
    ensures !IsSpace(c)
  {
  }

  /** A sign, digits, a point and digits reach the parser's inner half in two pieces. */
  lemma ParseReachesParts(negative: bool, left: string, right: string)
    requires left != "" && right != "" && IsDigit(right[|right| - 1])
    requires IsDigit(left[0]) || (negative && left[0] == '-')
    requires '.' !in left && '.' !in right
    ensures var s := (if negative then "-" else "") + left + "." + right;
            && ParseSAR(s) == ParseUnsigned(negative, left + ['.'] + right)
            && Split(left + ['.'] + right, '.') == [left, right]
  {
    var s := (if negative then "-" else "") + left + "." + right;
    var unsigned := left + ['.'] + right;
    assert s == (if negative then "-" else "") + unsigned;
    assert s[|s| - 1] == right[|right| - 1];
    DigitsAreInk(s[|s| - 1]);
    if negative {
      assert s[0] == '-' && s[1..] == unsigned;
    } else {
      assert s[0] == left[0] && s == unsigned;
    }
    DigitsAreInk(s[0]);
    TrimNothing(s);
    SplitOnce(left, right, '.');
  }

  lemma ParseIntDecimal(n: nat)
    ensures ParseInt(Decimal(n)) == if n <= MAX_INT64 then Some(n) else None
  {
    DecimalDigits(n);
    var digits := Decimal(n);
    assert IsDigit(digits[0]);
  }

  lemma ParseFractionTwo(n: nat)
    requires n < 100
    ensures ParseFraction([FormatTwo(n)]) == Some(n)
  {
    TwoDigits(n);
    var digits := FormatTwo(n);
    assert IsDigit(digits[0]);
  }

  /** Building from riyals and halalas wraps the exact total, whichever sign is then applied. */
  lemma SARWraps(negative: bool, riyals: int64, halalas: int64)
    requires 0 <= halalas < 100 && (riyals < 0 ==> halalas == 0)
    ensures Signed(negative, SAR(riyals, halalas))
            == Ok(Amount(Wrap(Denoted(negative, riyals, halalas)), CURRENCY_SAR))
  {
    var total := riyals * HALALAS_PER_SAR + halalas;
    WrapSum(riyals * HALALAS_PER_SAR, halalas);
    assert SAR(riyals, halalas) == Ok(Amount(Wrap(total), CURRENCY_SAR));
    var k := (total - MIN_INT64) / TWO_TO_64;
    assert Wrap(total) == total - k * TWO_TO_64;
    WrapShift(-total, k);
  }

  /**
   * What the parser makes of every canonical decimal, however large: riyals beyond int64 are
   * rejected, anything else is the denoted amount wrapped to int64.
   */
  lemma ParseCanonical(negative: bool, riyals: nat, halalas: nat)
    requires halalas < 100
    ensures ParseSAR(Canonical(negative, riyals, halalas)) ==
            if riyals <= MAX_INT64 then Ok(Amount(Wrap(Denoted(negative, riyals, halalas)), CURRENCY_SAR))
            else Err(Domain(InvalidMoney))
  {
    var left, right := Decimal(riyals), FormatTwo(halalas);
    DecimalDigits(riyals);
    TwoDigits(halalas);
    assert IsDigit(left[0]) && IsDigit(right[|right| - 1]);
    ParseReachesParts(negative, left, right);
    ParseIntDecimal(riyals);
    ParseFractionTwo(halalas);
    assert [left, right][1..] == [right];
    if riyals <= MAX_INT64 {
      SARWraps(negative, riyals, halalas);
    }
  }

  /**
   * The multiplication in SAR is unchecked, so parsing is exact on precisely the amounts that
   * int64 halalas can hold; the other accepted amounts come back as some different amount.
   */
  lemma ParseExactIffRepresentable(negative: bool, riyals: nat, halalas: nat)
    requires halalas < 100 && riyals <= MAX_INT64
    ensures var parsed := ParseSAR(Canonical(negative, riyals, halalas));
            parsed.Ok? && (parsed.value.halalas == Denoted(negative, riyals, halalas)
                           <==> Fits(Denoted(negative, riyals, halalas)))
  {
    ParseCanonical(negative, riyals, halalas);
  }

  /** 184467440737095517 riyals parse as 84 halalas. */
  lemma HugeAmountWraps(riyals: nat)
    requires riyals == 184467440737095517
    ensures ParseSAR(Canonical(false, riyals, 0)) == Ok(Amount(84, CURRENCY_SAR))
  {
    hide ParseSAR, Canonical, Wrap;
    ParseCanonical(false, riyals, 0);
    WrapShift(84, 1);
  }

  lemma StringIsCanonical(m: Money) returns (riyals: nat, halalas: nat)
    requires m.halalas != MIN_INT64
    ensures halalas < 100 && riyals <= MAX_INT64
    ensures String(m) == Canonical(m.halalas < 0, riyals, halalas)
    ensures Denoted(m.halalas < 0, riyals, halalas) == m.halalas
  {
    var h := if m.halalas < 0 then -(m.halalas as int) else m.halalas as int;
    riyals, halalas := h / HALALAS_PER_SAR, h % HALALAS_PER_SAR;
  }

  /** Printing and parsing undo each other for every riyal amount except the least int64. */
  lemma PrintParseRoundTrip(m: Money)
    requires m.currency == CURRENCY_SAR
    ensures ParseSAR(String(m)) == Ok(m) <==> m.halalas != MIN_INT64
  {
    if m.halalas != MIN_INT64 {
      var riyals, halalas := StringIsCanonical(m);
      ParseCanonical(m.halalas < 0, riyals, halalas);
    } else {
      LeastAmountText(m, 92233720368547758);
    }
  }

  /** The least amount prints with stray minus signs, which the parser then refuses. */
  lemma LeastAmountText(m: Money, riyals: nat)
    requires m.halalas == MIN_INT64 && riyals == 92233720368547758
    ensures String(m) == "-" + ("-" + Decimal(riyals)) + "." + "-8"
    ensures ParseSAR(String(m)) == Err(Domain(InvalidMoney))
  {
    hide Decimal, FormatInt, FormatTwo, ParseFraction, Wrap, Split;
    var left, right := "-" + Decimal(riyals), "-8";
    LeastAmountPieces(riyals, 8);
    assert String(m) == "-" + left + "." + right;
    DecimalDigits(riyals);
    ParseReachesParts(true, left, right);
    assert [left, right][1..] == [right];
  }

  lemma LeastAmountPieces(riyals: nat, eight: nat)
    requires riyals == 92233720368547758 && eight == 8
    ensures Wrap(-MIN_INT64) == MIN_INT64
    ensures FormatInt(TruncatedDiv(MIN_INT64, HALALAS_PER_SAR)) == "-" + Decimal(riyals)
    ensures FormatTwo(TruncatedMod(MIN_INT64, HALALAS_PER_SAR)) == "-8"
    ensures ParseFraction(["-8"]) == Some(-8)
  {
    assert TruncatedDiv(MIN_INT64, HALALAS_PER_SAR) == -(riyals as int);
    assert TruncatedMod(MIN_INT64, HALALAS_PER_SAR) == -(eight as int);
    assert "-8"[1..] == "8" && "8"[..0] == "";
  }

  // ---- What the text helpers do ----

  lemma AsciiSpaces(c: char)
    requires c as int < 128
    ensures IsSpace(c) <==> c as int in {9, 10, 11, 12, 13, 32}
  {
  }

  predicate AllSpaces(s: string) {
    forall i :: 0 <= i < |s| ==> IsSpace(s[i])
  }

  lemma {:induction false} TrimLeftIs(s: string) returns (before: string)
    ensures s == before + TrimLeft(s) && AllSpaces(before)
    ensures TrimLeft(s) != "" ==> !IsSpace(TrimLeft(s)[0])
  {
    hide IsSpace;
    before := "";
    if s != "" && IsSpace(s[0]) {
      var rest := TrimLeftIs(s[1..]);
      before := [s[0]] + rest;
      assert s == [s[0]] + s[1..];
    }
  }

  lemma {:induction false} TrimRightIs(s: string) returns (after: string)
    ensures s == TrimRight(s) + after && AllSpaces(after)
    ensures TrimRight(s) != "" ==> !IsSpace(TrimRight(s)[|TrimRight(s)| - 1])
  {
    hide IsSpace;
    after := "";
    if s != "" && IsSpace(s[|s| - 1]) {
      var rest := TrimRightIs(s[..|s| - 1]);
      after := rest + [s[|s| - 1]];
      assert s == s[..|s| - 1] + [s[|s| - 1]];
    }
  }

  /** Trimming takes all white space off both ends, and nothing else. */
  lemma TrimSpaceIs(s: string) returns (before: string, after: string)
    ensures s == before + TrimSpace(s) + after && AllSpaces(before) && AllSpaces(after)
    ensures var t := TrimSpace(s); t != "" ==> !IsSpace(t[0]) && !IsSpace(t[|t| - 1])
  {
    hide IsSpace;
    before := TrimLeftIs(s);
    after := TrimRightIs(TrimLeft(s));
    assert TrimSpace(s) != "" ==> TrimSpace(s)[0] == TrimLeft(s)[0];
  }

  /** Decimals have no leading zeros, and every digit text without one is the decimal of its value. */
  lemma {:induction false} DecimalIsLeast(digits: string)
    requires digits != "" && AllDigits(digits) && (|digits| > 1 ==> digits[0] != '0')
    ensures Decimal(DigitsValue(digits)) == digits
  {
    var before, last := digits[..|digits| - 1], digits[|digits| - 1];
    assert digits == before + [last];
    if before == "" {
      assert DigitsValue(before) == 0;
    } else {
      DecimalIsLeast(before);
      LeadingDigitCounts(before);
      assert DigitsValue(digits) / 10 == DigitsValue(before);
    }
  }

  lemma {:induction false} LeadingDigitCounts(digits: string)
    requires digits != "" && AllDigits(digits) && digits[0] != '0'
    ensures DigitsValue(digits) > 0
  {
    if |digits| > 1 {
      LeadingDigitCounts(digits[..|digits| - 1]);
    } else {
      assert digits[..0] == "";
    }
  }

  lemma {:induction false} NoLeadingZero(n: nat)
    ensures Decimal(n)[0] == '0' <==> n == 0
  {
    if n >= 10 {
      NoLeadingZero(n / 10);
      assert Decimal(n)[0] == Decimal(n / 10)[0];
    }
  }
}
