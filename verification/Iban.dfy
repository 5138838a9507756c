/** Saudi IBANs: normalisation, the streaming mod-97 check, display formatting. */
module IbanDomain {
  import opened Errors
  import opened MoneyDomain

  const SA_IBAN_LENGTH := 24

  datatype Iban = Iban(value: string)

  predicate IsUpper(c: char) {
    'A' <= c <= 'Z'
  }

  predicate IsIbanChar(c: char) {
    IsDigit(c) || IsUpper(c)
  }

  predicate IsIbanText(s: string) {
    forall i :: 0 <= i < |s| ==> IsIbanChar(s[i])
  }

  function ToUpper(s: string): string {
    seq(|s|, i requires 0 <= i < |s| =>
      if 'a' <= s[i] <= 'z' then (s[i] as int - 'a' as int + 'A' as int) as char else s[i])
  }

  function RemoveSpaces(s: string): string {
    if s == "" then ""
    else if s[0] == ' ' then RemoveSpaces(s[1..])
    else [s[0]] + RemoveSpaces(s[1..])
  }

  function Normalize(raw: string): string {
    ToUpper(RemoveSpaces(TrimSpace(raw)))
  }

  // ---- The number an IBAN stands for (MOD 97-10 of ISO/IEC 7064) ----

  /** A digit counts for itself, the letters A to Z for 10 to 35. */
  function CharValue(c: char): nat
    requires IsIbanChar(c)
  {
    if IsDigit(c) then c as int - '0' as int else c as int - 'A' as int + 10
  }

  function CharDigits(c: char): seq<nat>
    requires IsIbanChar(c)
  {
    if IsDigit(c) then [CharValue(c)] else [CharValue(c) / 10, CharValue(c) % 10]
  }

  /** The text with every letter written out as its two decimal digits. */
  function Expanded(s: string): seq<nat>
    requires IsIbanText(s)
  {
    if s == "" then [] else Expanded(s[..|s| - 1]) + CharDigits(s[|s| - 1])
  }

  /** The number a sequence of decimal digits denotes. */
  function Number(digits: seq<nat>): nat {
    if digits == [] then 0
    else Number(digits[..|digits| - 1]) * 10 + digits[|digits| - 1]
  }

  /** The country code and check digits move to the end. */
  function Rearranged(iban: string): string
    requires |iban| >= 4
  {
    iban[4..] + iban[..4]
  }

  function Remainder(s: string): nat
    requires IsIbanText(s)
  {
    Number(Expanded(s)) % 97
  }

  lemma NumberSnoc(digits: seq<nat>, d: nat)
    ensures Number(digits + [d]) == Number(digits) * 10 + d
  {
    assert (digits + [d])[..|digits|] == digits;
  }

  lemma ExpandedSnoc(s: string, c: char)
    requires IsIbanText(s) && IsIbanChar(c)
    ensures IsIbanText(s + [c]) && Expanded(s + [c]) == Expanded(s) + CharDigits(c)
  {
    hide CharDigits;
    assert (s + [c])[..|s|] == s;
  }

  /** One digit's worth of the running remainder. */
  lemma RemainderDigit(s: string, c: char)
    requires IsIbanText(s) && IsDigit(c)
    ensures IsIbanText(s + [c])
    ensures Remainder(s + [c]) == (Remainder(s) * 10 + CharValue(c)) % 97
  {
    ExpandedSnoc(s, c);
    hide Expanded, Number;
    NumberSnoc(Expanded(s), CharValue(c));
    ModStep(Number(Expanded(s)), CharValue(c));
  }

  /** One letter's worth: its two digits, one after the other. */
  lemma RemainderLetter(s: string, c: char)
    requires IsIbanText(s) && IsUpper(c)
    ensures IsIbanText(s + [c])
    ensures var first := (Remainder(s) * 10 + CharValue(c) / 10) % 97;
            Remainder(s + [c]) == (first * 10 + CharValue(c) % 10) % 97
  {
    ExpandedSnoc(s, c);
    hide Expanded, Number;
    var ds, tens, units := Expanded(s), CharValue(c) / 10, CharValue(c) % 10;
    assert ds + CharDigits(c) == (ds + [tens]) + [units];
    NumberSnoc(ds, tens);
    NumberSnoc(ds + [tens], units);
    ModStep(Number(ds), tens);
    ModStep(Number(ds + [tens]), units);
  }

  lemma ModStep(n: nat, d: nat)
    ensures (n % 97 * 10 + d) % 97 == (n * 10 + d) % 97
  {
    var q := n / 97;
    assert n * 10 + d == (n % 97 * 10 + d) + 97 * (q * 10);
    ModShift(n % 97 * 10 + d, q * 10);
  }

  lemma {:induction false} ModShift(n: int, k: int)
    ensures (n + 97 * k) % 97 == n % 97
    decreases if k < 0 then -k else k
  {
    if k > 0 {
      ModShift(n, k - 1);
    } else if k < 0 {
      ModShift(n, k + 1);
    }
  }

  /** The streaming check, without big integers. */
  method IbanMod97(iban: string) returns (remainder: nat)
    requires |iban| >= 4 && IsIbanText(iban)
    ensures remainder == Remainder(Rearranged(iban))
  {
    var rearranged := iban[4..] + iban[..4];
    assert rearranged == Rearranged(iban) && IsIbanText(rearranged);
    assert Remainder(rearranged[..0]) == 0;
    hide Remainder, Expanded, Rearranged;
    remainder := 0;
    var i := 0;
    while i < |rearranged|
      invariant 0 <= i <= |rearranged|
      invariant remainder == Remainder(rearranged[..i])
    {
      var r := rearranged[i];
      NextChar(rearranged, i);
      if '0' <= r <= '9' {
        remainder := (remainder * 10 + (r as int - '0' as int)) % 97;
      } else {
        var val := (r as int - 'A' as int) + 10;
        remainder := (remainder * 10 + val / 10) % 97;
        remainder := (remainder * 10 + val % 10) % 97;
      }
      i := i + 1;
    }
    assert rearranged[..i] == rearranged;
  }

  /** What one more character does to the running remainder. */
  function Streamed(r: nat, c: char): nat
    requires IsIbanChar(c)
  {
    if IsDigit(c) then (r * 10 + (c as int - '0' as int)) % 97
    else
      var value := (c as int - 'A' as int) + 10;
      ((r * 10 + value / 10) % 97 * 10 + value % 10) % 97
  }

  lemma NextChar(s: string, i: nat)
    requires IsIbanText(s) && i < |s|
    ensures Remainder(s[..i + 1]) == Streamed(Remainder(s[..i]), s[i])
  {
    hide Remainder, Expanded;
    assert s[..i + 1] == s[..i] + [s[i]];
    if IsDigit(s[i]) {
      RemainderDigit(s[..i], s[i]);
    } else {
      RemainderLetter(s[..i], s[i]);
    }
  }

  // ---- What the check digits detect ----

  function Power10(n: nat): nat {
    if n == 0 then 1 else 10 * Power10(n - 1)
  }

  lemma {:induction false} ExpandedConcat(s: string, t: string)
    requires IsIbanText(s) && IsIbanText(t)
    ensures IsIbanText(s + t) && Expanded(s + t) == Expanded(s) + Expanded(t)
  {
    hide CharDigits;
    if t == "" {
      assert s + t == s;
    } else {
      var u := t[..|t| - 1];
      assert (s + t)[..|s + t| - 1] == s + u;
      ExpandedConcat(s, u);
      assert Expanded(s + t) == Expanded(s + u) + CharDigits(t[|t| - 1]);
    }
  }

  lemma {:induction false} NumberConcat(x: seq<nat>, y: seq<nat>)
    ensures Number(x + y) == Number(x) * Power10(|y|) + Number(y)
  {
    if y == [] {
      assert x + y == x;
    } else {
      var z := y[..|y| - 1];
      assert (x + y)[..|x + y| - 1] == x + z;
      NumberConcat(x, z);
      assert Number(x) * Power10(|y|) == Number(x) * Power10(|z|) * 10;
    }
  }

  /** 97 divides no small nonzero multiple of a power of ten: 10 is invertible modulo 97. */
  lemma {:induction false} PowersOfTenKeepRemainders(d: int, n: nat)
    requires d * Power10(n) % 97 == 0
    ensures d % 97 == 0
  {
    if n > 0 {
      var x := d * Power10(n - 1);
      assert d * Power10(n) == 10 * x;
      var q := 10 * x / 97;
      assert x == 97 * (68 * q - 7 * x);
      ModShift(0, 68 * q - 7 * x);
      PowersOfTenKeepRemainders(d, n - 1);
    }
  }

  /** Numbers that differ by a scaled d agree modulo 97 exactly when 97 divides d. */
  lemma ScaledDifference(n: nat, n': nat, d: int, w: nat)
    requires n as int - n' == d * Power10(w)
    ensures n % 97 == n' % 97 <==> d % 97 == 0
  {
    if n % 97 == n' % 97 {
      var k := n / 97 - n' / 97;
      assert d * Power10(w) == 97 * k;
      ModShift(0, k);
      PowersOfTenKeepRemainders(d, w);
    }
    if d % 97 == 0 {
      var k := d / 97 * Power10(w);
      assert d == 97 * (d / 97);
      assert n as int == n' + 97 * k;
      ModShift(n', k);
    }
  }

  lemma NumberOfThree(x: seq<nat>, y: seq<nat>, z: seq<nat>)
    ensures Number(x + y + z) == Number(x) * Power10(|y|) * Power10(|z|) + Number(y) * Power10(|z|) + Number(z)
  {
    NumberConcat(x, y);
    NumberConcat(x + y, z);
    Distribute(Number(x) * Power10(|y|), Number(y), Power10(|z|));
  }

  lemma Distribute(a: int, b: int, c: int)
    ensures (a + b) * c == a * c + b * c && (a - b) * c == a * c - b * c
  {
  }

  lemma ExpandedOfThree(p: string, m: string, q: string)
    requires IsIbanText(p) && IsIbanText(m) && IsIbanText(q)
    ensures IsIbanText(p + m + q)
    ensures Expanded(p + m + q) == Expanded(p) + Expanded(m) + Expanded(q)
  {
    ExpandedConcat(p, m);
    ExpandedConcat(p + m, q);
  }

  /** Two middles of equal width leave the same remainder only if they agree modulo 97. */
  lemma MiddleDecides(p: string, m: string, m': string, q: string)
    requires IsIbanText(p) && IsIbanText(m) && IsIbanText(m') && IsIbanText(q)
    requires |Expanded(m)| == |Expanded(m')|
    ensures IsIbanText(p + m + q) && IsIbanText(p + m' + q)
    ensures Remainder(p + m + q) == Remainder(p + m' + q)
            <==> (Number(Expanded(m)) as int - Number(Expanded(m'))) % 97 == 0
  {
    hide Number, Expanded;
    ExpandedOfThree(p, m, q);
    ExpandedOfThree(p, m', q);
    DigitsMiddle(Expanded(p), Expanded(m), Expanded(m'), Expanded(q));
  }

  lemma DigitsMiddle(x: seq<nat>, y: seq<nat>, y': seq<nat>, z: seq<nat>)
    requires |y| == |y'|
    ensures Number(x + y + z) % 97 == Number(x + y' + z) % 97
            <==> (Number(y) as int - Number(y')) % 97 == 0
  {
    hide Number, Power10;
    NumberOfThree(x, y, z);
    NumberOfThree(x, y', z);
    Distribute(Number(y), Number(y'), Power10(|z|));
    ScaledDifference(Number(x + y + z), Number(x + y' + z), Number(y) as int - Number(y'), |z|);
  }

  lemma OneChar(c: char)
    requires IsIbanChar(c)
    ensures IsIbanText([c]) && Expanded([c]) == CharDigits(c) && Number(Expanded([c])) == CharValue(c)
  {
    assert [c][..0] == "" && Expanded("") == [] && Number([]) == 0;
    assert Expanded([c]) == CharDigits(c);
    hide Expanded, Number;
    var ds := CharDigits(c);
    NumberSnoc([], ds[0]);
    if IsUpper(c) {
      NumberSnoc([ds[0]], ds[1]);
      assert ds == [ds[0]] + [ds[1]] && [ds[0]] == [] + [ds[0]];
    } else {
      assert ds == [] + [ds[0]];
    }
  }

  lemma RearrangedAround(iban: string, i: nat) returns (p: string, q: string)
    requires |iban| >= 4 && i < |iban|
    ensures forall c :: Rearranged(iban[i := c]) == p + [c] + q
    ensures Rearranged(iban) == p + [iban[i]] + q
  {
    if i < 4 {
      p, q := iban[4..] + iban[..i], iban[i + 1..4];
    } else {
      p, q := iban[4..i], iban[i + 1..] + iban[..4];
    }
    assert iban[i := iban[i]] == iban;
  }

  lemma ClassDecidesValue(c: char, d: char)
    requires IsIbanChar(c) && IsIbanChar(d) && IsDigit(c) == IsDigit(d)
    ensures |CharDigits(c)| == |CharDigits(d)|
    ensures (CharValue(c) as int - CharValue(d)) % 97 == 0 <==> c == d
  {
  }

  lemma SubstitutionInText(p: string, c: char, d: char, q: string)
    requires IsIbanText(p) && IsIbanText(q) && IsIbanChar(c) && IsIbanChar(d)
    requires IsDigit(c) == IsDigit(d) && c != d
    ensures IsIbanText(p + [c] + q) && IsIbanText(p + [d] + q)
    ensures Remainder(p + [c] + q) != Remainder(p + [d] + q)
  {
    OneChar(c);
    OneChar(d);
    ClassDecidesValue(c, d);
    MiddleDecides(p, [c], [d], q);
  }

  /** Replacing any one character by another of its class changes the remainder. */
  lemma SubstitutionDetected(iban: string, i: nat, c: char)
    requires |iban| >= 4 && IsIbanText(iban) && i < |iban| && IsIbanChar(c)
    requires IsDigit(c) == IsDigit(iban[i]) && c != iban[i]
    ensures IsIbanText(iban[i := c])
    ensures Remainder(Rearranged(iban[i := c])) != Remainder(Rearranged(iban))
  {
    var p, q := RearrangedAround(iban, i);
    var s := Rearranged(iban);
    assert IsIbanText(s);
    assert p == s[..|p|] && q == s[|p| + 1..];
    SubstitutionInText(p, c, iban[i], q);
  }

  /** The one kind of mixed pair whose swap cannot be seen: B and 1, M and 2, X and 3. */
  predicate Confusable(c: char, d: char)
    requires IsIbanChar(c) && IsIbanChar(d)
  {
    IsUpper(c) && IsDigit(d) && CharValue(c) == 11 * CharValue(d)
  }

  /** A swap of neighbours in the rearranged text goes unseen in exactly these cases. */
  lemma SwapDetected(p: string, c: char, d: char, q: string)
    requires IsIbanText(p) && IsIbanChar(c) && IsIbanChar(d) && IsIbanText(q)
    ensures IsIbanText(p + [c, d] + q) && IsIbanText(p + [d, c] + q)
    ensures Remainder(p + [c, d] + q) == Remainder(p + [d, c] + q)
            <==> c == d || Confusable(c, d) || Confusable(d, c)
  {
    TwoChars(c, d);
    TwoChars(d, c);
    MiddleDecides(p, [c, d], [d, c], q);
    SwapArithmetic(c, d);
  }

  lemma SwapArithmetic(c: char, d: char)
    requires IsIbanChar(c) && IsIbanChar(d)
    ensures var x := CharValue(c) * (if IsDigit(d) then 10 else 100) + CharValue(d);
            var y := CharValue(d) * (if IsDigit(c) then 10 else 100) + CharValue(c);
            (x as int - y) % 97 == 0 <==> c == d || Confusable(c, d) || Confusable(d, c)
  {
    var x: int, y: int := CharValue(c), CharValue(d);
    if IsDigit(c) && IsDigit(d) {
      NinefoldMod97(x - y);
    } else if IsDigit(d) {
      NinefoldMod97(x - 11 * y);
    } else if IsDigit(c) {
      NinefoldMod97(11 * x - y);
    } else {
      TwofoldMod97(x - y);
    }
  }

  lemma NinefoldMod97(m: int)
    requires -97 < m < 97
    ensures 9 * m % 97 == 0 <==> m == 0
  {
    if 9 * m % 97 == 0 {
      var q := 9 * m / 97;
      assert m == 97 * (54 * q - 5 * m);
    }
  }

  lemma TwofoldMod97(m: int)
    requires -26 < m < 26
    ensures 99 * m % 97 == 0 <==> m == 0
  {
    ModShift(2 * m, m);
  }

  lemma TwoChars(c: char, d: char)
    requires IsIbanChar(c) && IsIbanChar(d)
    ensures IsIbanText([c, d]) && |Expanded([c, d])| == |CharDigits(c)| + |CharDigits(d)|
    ensures Number(Expanded([c, d])) == CharValue(c) * (if IsDigit(d) then 10 else 100) + CharValue(d)
  {
    OneChar(c);
    OneChar(d);
    assert [c, d] == [c] + [d];
    ExpandedConcat([c], [d]);
    NumberConcat(Expanded([c]), Expanded([d]));
    assert Power10(1) == 10 && Power10(2) == 100;
  }

  // ---- Parsing and display ----

  method ParseSAIBAN(raw: string) returns (r: Result<Iban>)
    ensures r == ParsedIban(raw)
  {
    var normalized := Normalize(raw);
    if |normalized| != SA_IBAN_LENGTH {
      return Err(Domain(InvalidIban));
    }
    if !("SA" <= normalized) {
      return Err(Domain(InvalidIban));
    }
    var i := 0;
    while i < |normalized|
      invariant 0 <= i <= |normalized|
      invariant IsIbanText(normalized[..i])
    {
      if !IsDigit(normalized[i]) && !IsUpper(normalized[i]) {
        return Err(Domain(InvalidIban));
      }
      i := i + 1;
    }
    assert normalized[..i] == normalized;
    var remainder := IbanMod97(normalized);
    if remainder != 1 {
      return Err(Domain(InvalidIban));
    }
    return Ok(Iban(normalized));
  }

  predicate ValidIban(value: string) {
    && |value| == SA_IBAN_LENGTH && "SA" <= value && IsIbanText(value)
    && Remainder(Rearranged(value)) == 1
  }

  function ParsedIban(raw: string): Result<Iban> {
    if ValidIban(Normalize(raw)) then Ok(Iban(Normalize(raw))) else Err(Domain(InvalidIban))
  }

  /** Groups of four characters with one space between groups. */
  function Grouped(value: string, from: nat): string
    requires from <= |value|
    decreases |value| - from
  {
    if from == |value| then ""
    else (if from > 0 && from % 4 == 0 then " " else "") + [value[from]] + Grouped(value, from + 1)
  }

  method Formatted(iban: Iban) returns (text: string)
    ensures text == Grouped(iban.value, 0)
  {
    text := "";
    hide Grouped;
    LastGroup(iban.value);
    var idx := 0;
    while idx < |iban.value|
      invariant 0 <= idx <= |iban.value|
      invariant text + Grouped(iban.value, idx) == Grouped(iban.value, 0)
    {
      GroupedStep(text, iban.value, idx);
      if idx > 0 && idx % 4 == 0 {
        text := text + " ";
      }
      text := text + [iban.value[idx]];
      idx := idx + 1;
    }
  }

  lemma LastGroup(value: string)
    ensures Grouped(value, |value|) == ""
    ensures forall text: string :: text + "" == text
  {
  }

  /** Writing out one more character. */
  lemma GroupedStep(text: string, value: string, idx: nat)
    requires idx < |value|
    ensures text + Grouped(value, idx)
            == (if idx > 0 && idx % 4 == 0 then text + " " else text) + [value[idx]] + Grouped(value, idx + 1)
  {
  }

  lemma {:induction false} GroupedHolds(value: string, from: nat)
    requires from <= |value| && IsIbanText(value)
    ensures RemoveSpaces(Grouped(value, from)) == value[from..]
    decreases |value| - from
  {
    if from < |value| {
      GroupedHolds(value, from + 1);
      GroupedStep("", value, from);
      SpacesGo(value[from], Grouped(value, from + 1), from > 0 && from % 4 == 0);
      assert [value[from]] + value[from + 1..] == value[from..];
    }
  }

  lemma SpacesGo(c: char, rest: string, spaced: bool)
    requires c != ' '
    ensures RemoveSpaces((if spaced then "" + " " else "") + [c] + rest) == [c] + RemoveSpaces(rest)
  {
    hide RemoveSpaces;
    RemoveSpacesCons(c, rest);
    RemoveSpacesCons(' ', [c] + rest);
    assert "" + " " + [c] + rest == [' '] + ([c] + rest);
    assert "" + [c] + rest == [c] + rest;
  }

  /** A display begins and ends with a character of the IBAN. */
  lemma {:induction false} GroupedEnds(value: string, from: nat)
    requires from < |value| && IsIbanText(value)
    ensures Grouped(value, from) != ""
    ensures IsIbanChar(Grouped(value, from)[|Grouped(value, from)| - 1])
    ensures from == 0 ==> Grouped(value, from)[0] == value[0]
    decreases |value| - from
  {
    if from + 1 < |value| {
      GroupedEnds(value, from + 1);
    }
  }

  lemma RemoveSpacesCons(c: char, s: string)
    ensures RemoveSpaces([c] + s) == (if c == ' ' then "" else [c]) + RemoveSpaces(s)
  {
    assert ([c] + s)[1..] == s;
  }

  /** Displaying a valid IBAN and parsing the display gives the IBAN back. */
  lemma FormatParseRoundTrip(iban: Iban)
    requires ValidIban(iban.value)
    ensures ParsedIban(Grouped(iban.value, 0)) == Ok(iban)
  {
    var text := Grouped(iban.value, 0);
    GroupedHolds(iban.value, 0);
    GroupedEnds(iban.value, 0);
    assert iban.value[0..] == iban.value;
    TrimIban(text);
    UpperUnchanged(iban.value);
  }

  lemma TrimIban(text: string)
    requires text != "" && IsIbanChar(text[0]) && IsIbanChar(text[|text| - 1])
    ensures TrimSpace(text) == text
  {
    InkIbanChar(text[0]);
    InkIbanChar(text[|text| - 1]);
    TrimNothing(text);
  }

  lemma InkIbanChar(c: char)
    requires IsIbanChar(c)
    ensures !IsSpace(c)
  {
  }

  lemma UpperUnchanged(s: string)
    requires IsIbanText(s)
    ensures ToUpper(s) == s
  {
  }

  // ---- How an IBAN may be written ----

  /** This IBAN, in letters of either case, with blanks anywhere between its characters. */
  predicate Spells(text: string, value: string) {
    if text == "" then value == ""
    else if text[0] == ' ' then Spells(text[1..], value)
    else value != "" && (text[0] == value[0] || SmallLetterOf(text[0], value[0])) && Spells(text[1..], value[1..])
  }

  predicate SmallLetterOf(c: char, d: char) {
    'A' <= d <= 'Z' && c as int == d as int + 32
  }

  lemma {:induction false} SpellsIff(text: string, value: string)
    requires IsIbanText(value)
    ensures ToUpper(RemoveSpaces(text)) == value <==> Spells(text, value)
  {
    if text == "" {
    } else if text[0] == ' ' {
      SpellsIff(text[1..], value);
    } else {
      var rest := RemoveSpaces(text[1..]);
      assert RemoveSpaces(text) == [text[0]] + rest;
      UpperCons(text[0], rest);
      if value != "" {
        SpellsIff(text[1..], value[1..]);
        assert value == [value[0]] + value[1..];
        assert IsIbanChar(value[0]);
      }
    }
  }

  lemma UpperCons(c: char, rest: string)
    ensures ToUpper([c] + rest) == ToUpper([c]) + ToUpper(rest)
  {
  }

  /** Parsing gives this IBAN exactly for the texts that spell it, between white space, if it is valid at all. */
  lemma ParsesIffSpelled(raw: string, value: string)
    ensures ParsedIban(raw) == Ok(Iban(value)) <==> ValidIban(value) && Spells(TrimSpace(raw), value)
  {
    hide Remainder, ToUpper, RemoveSpaces, TrimSpace, Spells;
    if IsIbanText(value) {
      SpellsIff(TrimSpace(raw), value);
    }
  }
}
