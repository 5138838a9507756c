/** Every text that the riyal parser accepts, and what each is taken for. */
module MoneyText {
  import opened Errors
  import opened MoneyDomain

  const SIGNS: set<string> := {"", "-", "+"}

  /** An integer as it may be written: at most one sign, then at least one digit. */
  datatype Numeral = Numeral(sign: string, digits: string) {
    predicate Valid() {
      sign in SIGNS && digits != "" && AllDigits(digits)
    }

    function Text(): string {
      sign + digits
    }

    function Value(): int
      requires Valid()
    {
      if sign == "-" then -(DigitsValue(digits) as int) else DigitsValue(digits)
    }
  }

  /** The halalas: two characters, of which a final zero may be left out. */
  datatype Fraction = Fraction(numeral: Numeral, short: bool) {
    predicate Valid() {
      && numeral.Valid() && |numeral.Text()| == 2 && numeral.Value() >= 0
      && (short ==> numeral.Text()[1] == '0')
    }

    function Text(): string
      requires Valid()
    {
      if short then numeral.Text()[..1] else numeral.Text()
    }
  }

  /** A sign of the whole amount, riyals that may carry a second sign, and perhaps halalas. */
  datatype Written = Written(sign: string, riyals: Numeral, fraction: Option<Fraction>) {
    predicate Valid() {
      && sign in SIGNS && riyals.Valid() && Fits(riyals.Value())
      && (sign == "" ==> riyals.sign == "")
      && (fraction.Some? ==> fraction.value.Valid())
      && (riyals.Value() < 0 ==> Halalas() == 0)
    }

    function Halalas(): int
      requires fraction.Some? ==> fraction.value.Valid()
    {
      if fraction.Some? then fraction.value.numeral.Value() else 0
    }

    /** What is left of the text once the first sign is taken off. */
    function Unsigned(): string
      requires Valid()
    {
      riyals.Text() + if fraction.Some? then ['.'] + fraction.value.Text() else ""
    }

    function Text(): string
      requires Valid()
    {
      sign + Unsigned()
    }

    function Value(): int
      requires Valid()
    {
      (if sign == "-" then -1 else 1) * (HALALAS_PER_SAR * riyals.Value() + Halalas())
    }
  }

  predicate StartsSigned(s: string) {
    s != "" && (s[0] == '-' || s[0] == '+')
  }

  // ---- Numerals ----

  lemma NumeralParses(n: Numeral)
    requires n.Valid()
    ensures ParseInt(n.Text()) == if Fits(n.Value()) then Some(n.Value()) else None
    ensures n.Text() != "" && '.' !in n.Text()
    ensures IsDigit(n.Text()[|n.Text()| - 1])
  {
    if n.sign == "" {
      assert n.Text() == n.digits && IsDigit(n.digits[0]);
    } else {
      assert n.Text()[0] == n.sign[0] && n.Text()[1..] == n.digits;
    }
    hide DigitsValue;
  }

  lemma ParsedIsNumeral(s: string) returns (n: Numeral)
    requires ParseInt(s).Some?
    ensures n.Valid() && n.Text() == s && Fits(n.Value()) && ParseInt(s) == Some(n.Value())
    ensures n.sign == "" <==> !StartsSigned(s)
  {
    hide DigitsValue;
    if s[0] == '-' || s[0] == '+' {
      n := Numeral(s[..1], s[1..]);
      assert s[..1] == [s[0]] && s[..1] + s[1..] == s;
    } else {
      n := Numeral("", s);
      assert s[..1] == [s[0]];
    }
  }

  // ---- Fractions ----

  lemma FractionParses(f: Fraction)
    requires f.Valid()
    ensures f.Text() != "" && '.' !in f.Text()
    ensures ParseFraction([f.Text()]) == Some(f.numeral.Value()) && 0 <= f.numeral.Value() < 100
  {
    NumeralParses(f.numeral);
    SmallFraction(f.numeral);
    var text := f.numeral.Text();
    if f.short {
      assert text[..1] + "0" == text;
    }
  }

  lemma SmallFraction(n: Numeral)
    requires n.Valid() && |n.Text()| == 2
    ensures -10 < n.Value() < 100
  {
    var d := n.digits;
    if n.sign == "" {
      assert |d| == 2 && d[..1][..0] == "" && DigitsValue(d[..1]) == d[0] as int - '0' as int;
    } else {
      assert |n.sign| == 1 && |d| == 1 && d[..0] == "" && DigitsValue(d) == d[0] as int - '0' as int;
    }
  }

  lemma ParsedIsFraction(frac: string) returns (f: Fraction)
    requires ParseFraction([frac]).Some? && ParseFraction([frac]).value >= 0
    ensures f.Valid() && f.Text() == frac && ParseFraction([frac]) == Some(f.numeral.Value())
  {
    var padded := if |frac| == 1 then frac + "0" else frac;
    var n := ParsedIsNumeral(padded);
    f := Fraction(n, |frac| == 1);
  }

  // ---- The parser ----

  lemma SplitParts(s: string, separator: char)
    ensures var parts := Split(s, separator);
            && (|parts| == 1 ==> parts[0] == s && separator !in s)
            && (|parts| == 2 ==> s == parts[0] + [separator] + parts[1])
  {
    if s != "" {
      SplitParts(s[1..], separator);
    }
  }

  lemma UnsignedParses(negative: bool, w: Written)
    requires w.Valid() && negative == (w.sign == "-")
    ensures ParseUnsigned(negative, w.Unsigned()) == Ok(Amount(Wrap(w.Value()), CURRENCY_SAR))
  {
    hide ParseInt, ParseFraction, Split, Wrap, DigitsValue;
    NumeralParses(w.riyals);
    var left := w.riyals.Text();
    if w.fraction.Some? {
      FractionParses(w.fraction.value);
      var right := w.fraction.value.Text();
      assert w.Unsigned() == left + ['.'] + right;
      SplitOnce(left, right, '.');
      assert [left, right][1..] == [right];
    } else {
      assert w.Unsigned() == left;
      SplitWithout(left, '.');
      assert [left][1..] == [] && ParseFraction([]) == Some(0) by { NothingAfterPoint(); }
    }
    SARWraps(negative, w.riyals.Value(), w.Halalas());
    assert w.Value() == Denoted(negative, w.riyals.Value(), w.Halalas());
  }

  lemma NothingAfterPoint()
    ensures ParseFraction([]) == Some(0)
  {
  }

  /** Every text of this shape is accepted, for the amount it denotes, wrapped to int64. */
  lemma WrittenParses(value: string, w: Written)
    requires w.Valid() && w.Text() == TrimSpace(value)
    ensures ParseSAR(value) == Ok(Amount(Wrap(w.Value()), CURRENCY_SAR))
  {
    hide ParseInt, ParseUnsigned, Split, Wrap, TrimSpace, DigitsValue;
    var text := w.Text();
    NumeralParses(w.riyals);
    if w.sign == "" {
      assert text == w.Unsigned() && text[0] == w.riyals.digits[0] && IsDigit(text[0]);
    } else {
      assert text[0] == w.sign[0] && text[1..] == w.Unsigned();
    }
    UnsignedParses(w.sign == "-", w);
  }

  lemma UnsignedIsWritten(sign: string, rest: string) returns (w: Written)
    requires sign in SIGNS && ParseUnsigned(sign == "-", rest).Ok? && (sign == "" ==> !StartsSigned(rest))
    ensures w.Valid() && w.sign == sign && w.Unsigned() == rest
  {
    hide ParseInt, ParseFraction, Split, Wrap, DigitsValue, AllDigits;
    var parts := Split(rest, '.');
    SplitParts(rest, '.');
    var riyals := ParsedIsNumeral(parts[0]);
    NumeralParses(riyals);
    assert StartsSigned(parts[0]) == StartsSigned(rest);
    if |parts| == 1 {
      w := Written(sign, riyals, None);
    } else {
      assert parts[1..] == [parts[1]];
      var fraction := ParsedIsFraction(parts[1]);
      w := Written(sign, riyals, Some(fraction));
      assert w.Unsigned() == parts[0] + ['.'] + parts[1];
    }
  }

  /** Nothing else is accepted. */
  lemma AcceptedIsWritten(value: string) returns (w: Written)
    requires ParseSAR(value).Ok?
    ensures w.Valid() && w.Text() == TrimSpace(value)
  {
    hide ParseUnsigned, TrimSpace;
    var text := TrimSpace(value);
    var signed := StartsSigned(text);
    assert text[..1] == [text[0]] && text[..1] + text[1..] == text;
    w := UnsignedIsWritten(if signed then text[..1] else "", if signed then text[1..] else text);
  }

  /**
   * The parser accepts exactly the texts that are written this way, and takes each for the amount
   * it denotes, wrapped to int64: so "--5" is five riyals and "5.+1" is one halala more.
   */
  lemma AcceptsExactly(value: string)
    ensures ParseSAR(value).Ok? <==> exists w: Written :: w.Valid() && w.Text() == TrimSpace(value)
    ensures forall w: Written :: w.Valid() && w.Text() == TrimSpace(value)
                                 ==> ParseSAR(value) == Ok(Amount(Wrap(w.Value()), CURRENCY_SAR))
    ensures ParseSAR(value).Err? ==> ParseSAR(value).error == Domain(InvalidMoney)
  {
    if ParseSAR(value).Ok? {
      var w := AcceptedIsWritten(value);
    }
    hide ParseSAR, TrimSpace, Wrap;
    forall w: Written | w.Valid() && w.Text() == TrimSpace(value)
      ensures ParseSAR(value) == Ok(Amount(Wrap(w.Value()), CURRENCY_SAR))
    {
      WrittenParses(value, w);
    }
  }

  /** A second sign and a lone sign after the point are accepted. */
  lemma StrayTexts()
    ensures ParseSAR("--5") == Ok(Amount(500, CURRENCY_SAR))
    ensures ParseSAR("5.+1") == Ok(Amount(501, CURRENCY_SAR))
    ensures ParseSAR("5.-") == Ok(Amount(500, CURRENCY_SAR))
  {
    hide ParseSAR, TrimSpace, Wrap, IsSpace;
    DigitsAreInk('5');
    DigitsAreInk('1');
    DigitsAreInk('-');
    TrimNothing("--5");
    TrimNothing("5.+1");
    TrimNothing("5.-");
    OneDigit('5');
    OneDigit('1');
    OneDigit('0');
    var five := Numeral("", "5");
    assert Numeral("-", "0").Text() == "-0" && "-0"[..1] == "-";
    WrittenParses("--5", Written("-", Numeral("-", "5"), None));
    WrittenParses("5.+1", Written("", five, Some(Fraction(Numeral("+", "1"), false))));
    WrittenParses("5.-", Written("", five, Some(Fraction(Numeral("-", "0"), true))));
  }

  lemma OneDigit(c: char)
    requires IsDigit(c)
    ensures AllDigits([c]) && DigitsValue([c]) == c as int - '0' as int
  {
    assert [c][..0] == "";
  }
}
