/** Decimal amounts (internal/platform/money/money.go): text to int64 cents and back. */
module Money {
  import opened Common

  // --------------------------------------------------------------------- the library calls: strings and strconv

  /** unicode.IsSpace. */
  predicate IsSpace(c: char) {
    || '\U{9}' <= c <= '\U{D}' || c == ' ' || c == '\U{85}' || c == '\U{A0}' || c == '\U{1680}'
    || '\U{2000}' <= c <= '\U{200A}' || c == '\U{2028}' || c == '\U{2029}' || c == '\U{202F}' || c == '\U{205F}'
       || c == '\U{3000}'
  }

  /** strings.TrimSpace. */
  function TrimSpace(s: string): string {
    if s == "" then s
    else if IsSpace(s[0]) then TrimSpace(s[1..])
    else if IsSpace(s[|s| - 1]) then TrimSpace(s[..|s| - 1])
    else s
  }

  predicate IsDigit(c: char) { '0' <= c <= '9' }

  predicate AllDigits(s: string) { forall i :: 0 <= i < |s| ==> IsDigit(s[i]) }

  function DigitValue(c: char): (d: nat)
    requires IsDigit(c)
    ensures d < 10
  {
    c as int - '0' as int
  }

  function DigitChar(d: nat): (c: char)
    requires d < 10
    ensures IsDigit(c) && DigitValue(c) == d
  {
    ('0' as int + d) as char
  }

  /** The number that a string of digits denotes. */
  function Value(s: string): nat
    requires AllDigits(s)
  {
    if s == "" then 0 else Value(s[..|s| - 1]) * 10 + DigitValue(s[|s| - 1])
  }

  /** strconv.ParseInt(s, 10, 64): an optional sign and at least one digit, in range. */
  function ParseInt(s: string): (r: Option<int>)
    ensures r.Some? ==> IsInt64(r.value)
  {
    var negative := s != "" && s[0] == '-';
    var digits := if s != "" && (s[0] == '-' || s[0] == '+') then s[1..] else s;
    if digits == "" || !AllDigits(digits) then None
    else
      var n: int := if negative then 0 - Value(digits) else Value(digits);
      if IsInt64(n) then Some(n) else None
  }

  /** Decimal digits of n without leading zeros. */
  function Digits(n: nat): (s: string)
    ensures s != "" && AllDigits(s) && Value(s) == n
    ensures |s| == 1 <==> n < 10
    ensures |s| > 1 ==> s[0] != '0'
  {
    if n < 10 then
      var s := [DigitChar(n)];
      assert s[..0] == "";
      s
    else
      var s := Digits(n / 10) + [DigitChar(n % 10)];
      assert s[..|s| - 1] == Digits(n / 10);
      s
  }

  /** strconv.FormatInt(n, 10). */
  function FormatInt(n: int): string { if n < 0 then "-" + Digits(-n) else Digits(n) }

  /** The machine's / and %, which truncate toward zero. */
  function Quo(a: int, b: int): int
    requires b > 0
  {
    if a < 0 then -(-a / b) else a / b
  }

  function Rem(a: int, b: int): int
    requires b > 0
  {
    a - b * Quo(a, b)
  }

  // -------------------------------------------------------------------------------------------------- the functions

  datatype Parsed = Cents(cents: int) | Invalid

  /** The first index of c in s, or |s|. */
  function IndexOf(s: string, c: char): (i: nat)
    ensures i <= |s| && c !in s[..i] && (i < |s| ==> s[i] == c)
  {
    if s == "" || s[0] == c then 0
    else
      var i := IndexOf(s[1..], c) + 1;
      assert s[..i] == [s[0]] + s[1..][..i - 1];
      i
  }

  /** The fraction as it is read: one character stands for tenths, two for hundredths, nothing else will do. */
  function ParseFraction(frac: string): (r: Option<int>)
    ensures r.Some? ==> -9 <= r.value <= 99
  {
    if |frac| == 1 then HundredthsFit(frac + "0"); ParseInt(frac + "0")
    else if |frac| == 2 then HundredthsFit(frac); ParseInt(frac)
    else None
  }

  function ParseDecimal(text: string): Parsed {
    var s := TrimSpace(text);
    if s == "" || s[0] == '+' || s[0] == '-' then Invalid
    else
      var dot := IndexOf(s, '.');
      if dot == 0 then Invalid
      else
        var reais := ParseInt(s[..dot]);
        var centavos := if dot == |s| then Some(0) else ParseFraction(s[dot + 1..]);
        if reais == None || centavos == None then Invalid
        else
          var cents := Wrap64(Wrap64(reais.value * 100) + centavos.value);
          if cents < 0 || Quo(cents, 100) != reais.value then Invalid else Cents(cents)
  }

  function LeftPad2(n: int): string { if n < 10 then "0" + FormatInt(n) else FormatInt(n) }

  function FormatCents(cents: int): string
    requires IsInt64(cents)
  {
    var c := if cents < 0 then Wrap64(-cents) else cents;
    var s := FormatInt(Quo(c, 100)) + "." + LeftPad2(Rem(c, 100));
    if cents < 0 then "-" + s else s
  }

  // ---------------------------------------------------------------------------------------- what they are good for

  lemma HundredthsFit(frac: string)
    requires |frac| == 2
    ensures ParseInt(frac).Some? ==> -9 <= ParseInt(frac).value <= 99
  {
    if AllDigits(frac) {
      assert frac[..1][..0] == "";
      assert Value(frac) == Value(frac[..1]) * 10 + DigitValue(frac[1]) && Value(frac[..1]) == DigitValue(frac[0]);
    }
    if AllDigits(frac[1..]) {
      assert frac[1..][..0] == "";
      assert Value(frac[1..]) == DigitValue(frac[1]);
    }
  }

  lemma WrapTwice(x: int, y: int)
    ensures Wrap64(Wrap64(x) + y) == Wrap64(x + y)
  {
    var k: int :| Wrap64(x) == x + k * TWO_TO_THE_64;
    var m: int :| Wrap64(Wrap64(x) + y) == Wrap64(x) + y + m * TWO_TO_THE_64;
    var n: int :| Wrap64(x + y) == x + y + n * TWO_TO_THE_64;
    assert Wrap64(Wrap64(x) + y) - Wrap64(x + y) == (k + m - n) * TWO_TO_THE_64;
    NoOtherMultiple(Wrap64(Wrap64(x) + y) - Wrap64(x + y), k + m - n);
  }

  lemma NoOtherMultiple(d: int, k: int)
    requires -TWO_TO_THE_64 < d < TWO_TO_THE_64 && d == k * TWO_TO_THE_64
    ensures d == 0 && k == 0
  {
  }

  /** The overflow test after the fact is exact: it passes if and only if the fraction is not negative and the amount
      fits an int64, and then nothing has wrapped. */
  lemma OverflowTestIsExact(reais: int, centavos: int)
    requires 0 <= reais <= MAX_INT64 && -9 <= centavos <= 99
    ensures var cents := Wrap64(Wrap64(reais * 100) + centavos);
            && (!(cents < 0 || Quo(cents, 100) != reais) <==> 0 <= centavos && reais * 100 + centavos <= MAX_INT64)
            && (!(cents < 0 || Quo(cents, 100) != reais) ==> cents == reais * 100 + centavos)
  {
    WrapTwice(reais * 100, centavos);
    var cents := Wrap64(reais * 100 + centavos);
    var k: int :| cents == reais * 100 + centavos + k * TWO_TO_THE_64;
    if 0 <= cents && Quo(cents, 100) == reais {
      assert cents == 100 * reais + cents % 100;
      NoOtherMultiple(cents % 100 - centavos, k);
    }
  }

  /** What a trimmed text says, before any arithmetic: the integer part and the fraction, if both can be read. */
  function Reading(s: string): (r: Option<(int, int)>)
    ensures r.Some? ==> 0 <= r.value.0 <= MAX_INT64 && -9 <= r.value.1 <= 99
  {
    var dot := IndexOf(s, '.');
    if dot == 0 || s[0] == '+' || s[0] == '-' || ParseInt(s[..dot]) == None then None
    else if dot == |s| then Some((ParseInt(s[..dot]).value, 0))
    else if ParseFraction(s[dot + 1..]) == None then None
    else Some((ParseInt(s[..dot]).value, ParseFraction(s[dot + 1..]).value))
  }

  /** ParseDecimal accepts exactly the readings whose fraction is not negative and whose amount in cents fits an int64,
      and returns that amount. */
  lemma ParsesReading(text: string, cents: int)
    ensures ParseDecimal(text) == Cents(cents) <==>
            (var r := Reading(TrimSpace(text));
             r.Some? && 0 <= r.value.1 && cents == r.value.0 * 100 + r.value.1 && cents <= MAX_INT64)
  {
    hide TrimSpace, IndexOf, ParseInt, ParseFraction;
    var r := Reading(TrimSpace(text));
    if r.Some? { OverflowTestIsExact(r.value.0, r.value.1); }
  }

  lemma DotAt(whole: string, rest: string)
    requires '.' !in whole
    ensures IndexOf(whole + "." + rest, '.') == |whole|
  {
    var s := whole + "." + rest;
    assert s[..|whole|] == whole && s[|whole|] == '.';
  }

  // ------------------------------------------------------------------------------------------------ the grammar

  /** Tenths, or tenths and hundredths. */
  predicate PlainFraction(f: string) { (|f| == 1 || |f| == 2) && AllDigits(f) }

  /** A lone sign, a plus and a hundredth, or a minus zero. */
  predicate SignedFraction(f: string) {
    f == "+" || f == "-" || f == "-0" || (|f| == 2 && f[0] == '+' && IsDigit(f[1]))
  }

  /** The cents that a fraction adds: a digit after a sign counts hundredths, a lone sign nothing. */
  function Hundredths(f: string): nat
    requires f == "" || PlainFraction(f) || SignedFraction(f)
  {
    if f == "" then 0
    else if IsDigit(f[0]) then 10 * DigitValue(f[0]) + if |f| == 2 then DigitValue(f[1]) else 0
    else if |f| == 2 then DigitValue(f[1]) else 0
  }

  /** Digits, and after them possibly a point and a fraction. */
  predicate Spells(s: string, whole: string, frac: string) {
    && whole != "" && AllDigits(whole)
    && if frac == "" then s == whole else s == whole + "." + frac && (PlainFraction(frac) || SignedFraction(frac))
  }

  lemma OneDigit(s: string)
    requires |s| == 1
    ensures AllDigits(s) <==> IsDigit(s[0])
    ensures AllDigits(s) ==> Value(s) == DigitValue(s[0])
  {
    assert s[..0] == "";
  }

  lemma TwoDigits(s: string)
    requires |s| == 2
    ensures AllDigits(s) <==> IsDigit(s[0]) && IsDigit(s[1])
    ensures AllDigits(s) ==> Value(s) == 10 * DigitValue(s[0]) + DigitValue(s[1])
  {
    if AllDigits(s) {
      OneDigit(s[..1]);
      assert Value(s) == Value(s[..1]) * 10 + DigitValue(s[1]);
    }
  }

  /** strconv.ParseInt on two characters. */
  lemma PairRead(s: string)
    requires |s| == 2
    ensures ParseInt(s).Some? && 0 <= ParseInt(s).value <==>
            (IsDigit(s[1]) && (IsDigit(s[0]) || s[0] == '+')) || s == "-0"
    ensures ParseInt(s).Some? && 0 <= ParseInt(s).value ==>
              ParseInt(s).value == DigitValue(s[1]) + if IsDigit(s[0]) then 10 * DigitValue(s[0]) else 0
  {
    TwoDigits(s);
    OneDigit(s[1..]);
    assert s == [s[0], s[1]];
    hide Value;
  }

  /** A fraction is read without a complaint about its sign exactly when it has one of these shapes. */
  lemma FractionRead(frac: string)
    ensures ParseFraction(frac).Some? && 0 <= ParseFraction(frac).value <==> PlainFraction(frac) || SignedFraction(frac)
    ensures PlainFraction(frac) || SignedFraction(frac) ==> ParseFraction(frac) == Some(Hundredths(frac))
  {
    if |frac| == 1 {
      PairRead(frac + "0");
      assert frac == [frac[0]];
    } else if |frac| == 2 {
      PairRead(frac);
      assert frac == [frac[0], frac[1]];
    }
    hide ParseInt;
  }

  lemma WholeRead(whole: string)
    requires whole != "" && whole[0] != '+' && whole[0] != '-'
    ensures ParseInt(whole).Some? <==> AllDigits(whole) && Value(whole) <= MAX_INT64
    ensures ParseInt(whole).Some? ==> ParseInt(whole).value == Value(whole)
  {
  }

  /** What is read from a text in two parts is read part by part. */
  lemma TwoParts(whole: string, frac: string)
    requires '.' !in whole
    ensures var r, f := Reading(whole + "." + frac), ParseFraction(frac);
            && (r.Some? <==> whole != "" && AllDigits(whole) && Value(whole) <= MAX_INT64 && f.Some?)
            && (r.Some? ==> r.value == (Value(whole), f.value))
  {
    var s := whole + "." + frac;
    DotAt(whole, frac);
    assert s[..|whole|] == whole && s[|whole| + 1..] == frac;
    if whole != "" {
      assert s[0] == whole[0];
      assert whole[0] == '+' || whole[0] == '-' ==> !IsDigit(whole[0]);
      if whole[0] != '+' && whole[0] != '-' { WholeRead(whole); }
    }
    hide ParseInt, ParseFraction, Value, IndexOf;
  }

  lemma OnePart(whole: string)
    requires '.' !in whole
    ensures var r := Reading(whole);
            && (r.Some? <==> whole != "" && AllDigits(whole) && Value(whole) <= MAX_INT64)
            && (r.Some? ==> r.value == (Value(whole), 0))
  {
    assert IndexOf(whole, '.') == |whole| && whole[..|whole|] == whole;
    if whole != "" {
      assert whole[0] == '+' || whole[0] == '-' ==> !IsDigit(whole[0]);
      if whole[0] != '+' && whole[0] != '-' { WholeRead(whole); }
    }
    hide ParseInt, Value, IndexOf;
  }

  lemma DigitsHaveNoDot(s: string)
    requires AllDigits(s)
    ensures '.' !in s
  {
  }

  lemma SpelledIsRead(s: string, whole: string, frac: string)
    requires Spells(s, whole, frac) && Value(whole) <= MAX_INT64
    ensures Reading(s) == Some((Value(whole), Hundredths(frac)))
  {
    DigitsHaveNoDot(whole);
    hide Reading, ParseFraction, Value, AllDigits;
    if frac == "" {
      OnePart(whole);
    } else {
      FractionRead(frac);
      TwoParts(whole, frac);
    }
  }

  lemma ReadIsSpelled(s: string)
    requires Reading(s).Some? && 0 <= Reading(s).value.1
    ensures exists whole, frac :: Spells(s, whole, frac) && Reading(s).value == (Value(whole), Hundredths(frac))
  {
    var dot := IndexOf(s, '.');
    var whole := s[..dot];
    if dot == |s| {
      assert s == whole;
      hide Reading, IndexOf;
      OnePart(whole);
      assert Spells(s, whole, "");
    } else {
      var frac := s[dot + 1..];
      assert s == whole + "." + frac;
      hide Reading, IndexOf;
      TwoParts(whole, frac);
      FractionRead(frac);
      assert Spells(s, whole, frac);
    }
  }

  /** What strings.TrimSpace leaves is the text without the spaces around it. */
  lemma {:induction false} TrimmedOfSpaces(text: string) returns (before: string, after: string)
    ensures text == before + TrimSpace(text) + after
    ensures forall i :: 0 <= i < |before| ==> IsSpace(before[i])
    ensures forall i :: 0 <= i < |after| ==> IsSpace(after[i])
    ensures var s := TrimSpace(text); s != "" ==> !IsSpace(s[0]) && !IsSpace(s[|s| - 1])
    decreases |text|
  {
    hide IsSpace;
    before, after := "", "";
    if text != "" {
      var last := |text| - 1;
      if IsSpace(text[0]) {
        var rest: string;
        rest, after := TrimmedOfSpaces(text[1..]);
        before := [text[0]] + rest;
        assert TrimSpace(text) == TrimSpace(text[1..]);
        hide TrimSpace;
        OneInFront(text, rest, TrimSpace(text), after);
      } else if IsSpace(text[last]) {
        var rest: string;
        before, rest := TrimmedOfSpaces(text[..last]);
        after := rest + [text[last]];
        assert TrimSpace(text) == TrimSpace(text[..last]);
        hide TrimSpace;
        OneBehind(text, before, TrimSpace(text), rest);
      }
    }
  }

  lemma OneInFront(text: string, before: string, s: string, after: string)
    requires text != "" && text[1..] == before + s + after
    ensures text == [text[0]] + before + s + after
  {
    assert text == [text[0]] + text[1..];
  }

  lemma OneBehind(text: string, before: string, s: string, after: string)
    requires text != "" && text[..|text| - 1] == before + s + after
    ensures text == before + s + (after + [text[|text| - 1]])
  {
    assert text == text[..|text| - 1] + [text[|text| - 1]];
  }

  /** The language of ParseDecimal: a text is accepted if and only if, spaces around it aside, it consists of digits and
      possibly a point and a fraction of one digit, two digits, a lone sign, a plus and a digit, or a minus zero, and
      the amount in cents fits an int64. That amount is what it returns. */
  lemma ParsesExactly(text: string, cents: int)
    ensures ParseDecimal(text) == Cents(cents) <==>
            exists whole, frac ::
              Spells(TrimSpace(text), whole, frac) && cents == Value(whole) * 100 + Hundredths(frac) <= MAX_INT64
  {
    var s := TrimSpace(text);
    ParsesReading(text, cents);
    hide ParseDecimal, TrimSpace, Reading, PlainFraction, SignedFraction, AllDigits, Hundredths, Value;
    if ParseDecimal(text) == Cents(cents) { ReadIsSpelled(s); }
    forall whole, frac | Spells(s, whole, frac) && cents == Value(whole) * 100 + Hundredths(frac) <= MAX_INT64
      ensures ParseDecimal(text) == Cents(cents)
    {
      SpelledIsRead(s, whole, frac);
    }
  }

  /** A text with a point is accepted although its fraction is not all digits if and only if that fraction is a lone
      sign, a plus and a digit, or a minus zero: the lone sign and the minus zero add nothing, the digit after a plus
      counts hundredths. */
  lemma SignedFractions(text: string, whole: string, frac: string)
    requires TrimSpace(text) == whole + "." + frac && '.' !in whole
    ensures ParseDecimal(text).Cents? && !AllDigits(frac) <==>
            && whole != "" && AllDigits(whole) && SignedFraction(frac)
            && Value(whole) * 100 + (if |frac| == 2 then DigitValue(frac[1]) else 0) <= MAX_INT64
    ensures ParseDecimal(text).Cents? && !AllDigits(frac) ==>
              ParseDecimal(text).cents == Value(whole) * 100 + if |frac| == 2 then DigitValue(frac[1]) else 0
  {
    TwoParts(whole, frac);
    FractionRead(frac);
    if SignedFraction(frac) { SignsAreNoDigits(frac); }
    assert ParseFraction(frac).Some? ==> |frac| == 1 || |frac| == 2;
    assert PlainFraction(frac) <==> (|frac| == 1 || |frac| == 2) && AllDigits(frac);
    if ParseDecimal(text).Cents? { ParsesReading(text, ParseDecimal(text).cents); }
    if SignedFraction(frac) && whole != "" && AllDigits(whole) {
      ParsesReading(text, Value(whole) * 100 + Hundredths(frac));
    }
    hide ParseDecimal, TrimSpace, Reading, ParseFraction, Value, AllDigits, PlainFraction;
  }

  lemma SignsAreNoDigits(frac: string)
    requires SignedFraction(frac)
    ensures !AllDigits(frac) && !IsDigit(frac[0])
  {
    assert !IsDigit(frac[0]);
  }

  /** For example. */
  lemma OneAndFiveHundredths()
    ensures ParseDecimal("1.+5") == Cents(105)
  {
    assert "1.+5" == "1" + "." + "+5";
    OneDigit("1");
    assert TrimSpace("1.+5") == "1.+5";
    hide ParseDecimal, TrimSpace, Value;
    SignedFractions("1.+5", "1", "+5");
  }

  // ------------------------------------------------------------------------------------------------- round trip

  lemma PaddedIsRead(n: nat)
    requires n < 100
    ensures PlainFraction(LeftPad2(n)) && Hundredths(LeftPad2(n)) == n
  {
    var s := LeftPad2(n);
    assert |Digits(n)| == if n < 10 then 1 else 2;
    if n < 10 {
      assert s[..1] == "0" && "0"[..0] == "";
      assert Value(s) == n;
    }
  }

  /** Printing is undone by parsing, for every amount that is not negative and for no other. */
  lemma RoundTrip(cents: int)
    requires IsInt64(cents)
    ensures ParseDecimal(FormatCents(cents)) == Cents(cents) <==> 0 <= cents
    ensures cents < 0 ==> ParseDecimal(FormatCents(cents)) == Invalid
  {
    if 0 <= cents {
      PrintedIsRead(cents);
    } else {
      NegativeIsRefused(FormatCents(cents)[1..]);
      assert FormatCents(cents) == "-" + FormatCents(cents)[1..];
    }
  }

  /** The printed form of an amount that is not negative. */
  lemma PrintedParts(cents: int)
    requires 0 <= cents <= MAX_INT64
    ensures FormatCents(cents) == Digits(cents / 100) + "." + LeftPad2(cents % 100)
  {
    hide Digits, LeftPad2;
  }

  lemma PrintedIsRead(cents: int)
    requires 0 <= cents <= MAX_INT64
    ensures ParseDecimal(FormatCents(cents)) == Cents(cents)
  {
    PrintedParts(cents);
    PaddedIsRead(cents % 100);
    hide FormatCents, Digits, LeftPad2, ParseDecimal, Value, Hundredths, TrimSpace, Spells, AllDigits, PlainFraction;
    var whole, frac := Digits(cents / 100), LeftPad2(cents % 100);
    JoinedIsSpelled(whole, frac);
    ParsesExactly(whole + "." + frac, cents);
  }

  lemma JoinedIsSpelled(whole: string, frac: string)
    requires whole != "" && AllDigits(whole) && |frac| == 2 && AllDigits(frac)
    ensures TrimSpace(whole + "." + frac) == whole + "." + frac && Spells(whole + "." + frac, whole, frac)
  {
    hide TrimSpace;
    var s := whole + "." + frac;
    assert s[0] == whole[0] && s[|s| - 1] == frac[1] && IsDigit(whole[0]) && IsDigit(frac[1]);
    NothingToTrim(s);
  }

  lemma NothingToTrim(s: string)
    requires s != "" && !IsSpace(s[0]) && !IsSpace(s[|s| - 1])
    ensures TrimSpace(s) == s
  {
  }

  lemma {:induction false} NegativeIsRefused(rest: string)
    ensures ParseDecimal("-" + rest) == Invalid
  {
    TrimKeepsFirst("-" + rest);
  }

  lemma {:induction false} TrimKeepsFirst(s: string)
    requires s != "" && !IsSpace(s[0])
    ensures TrimSpace(s) != "" && TrimSpace(s)[0] == s[0]
    decreases |s|
  {
    if IsSpace(s[|s| - 1]) { TrimKeepsFirst(s[..|s| - 1]); }
  }

  /** The digits of an amount: whole units without leading zeros, and two digits of hundredths. */
  function Decimal(cents: nat): string {
    Digits(cents / 100) + "." + [DigitChar(cents % 100 / 10), DigitChar(cents % 10)]
  }

  /** Every amount is printed with its sign and its digits; but the smallest int64, whose negation wraps to itself, has
      its sign printed twice and its hundredths garbled. */
  lemma PrintsExactly(cents: int)
    requires IsInt64(cents)
    ensures cents != MIN_INT64 <==> FormatCents(cents) == if cents < 0 then "-" + Decimal(-cents) else Decimal(cents)
    ensures cents == MIN_INT64 ==> FormatCents(cents) == "--" + Digits(-cents / 100) + ".0-8"
  {
    hide Digits, LeftPad2, Decimal, FormatInt;
    if cents == MIN_INT64 {
      SmallestIsGarbled(cents);
      SecondIsDigit(-cents);
      hide FormatCents;
      assert FormatCents(cents)[1] == '-';
    } else {
      MagnitudePrinted(if cents < 0 then -cents else cents);
    }
  }

  lemma SecondIsDigit(n: nat)
    ensures IsDigit(("-" + Decimal(n))[1])
  {
    hide Digits;
    assert ("-" + Decimal(n))[1] == Digits(n / 100)[0];
  }

  lemma MagnitudePrinted(n: nat)
    ensures FormatInt(n / 100) + "." + LeftPad2(n % 100) == Decimal(n)
  {
    hide Digits, LeftPad2, Value;
    PadsToTwo(n % 100);
    assert n % 100 % 10 == n % 10;
  }

  lemma SmallestIsGarbled(cents: int)
    requires cents == MIN_INT64
    ensures FormatCents(cents) == "--" + Digits(-cents / 100) + ".0-8"
  {
    hide Digits, LeftPad2, Value;
    assert Wrap64(-cents) == cents;
    assert Quo(cents, 100) == -(-cents / 100) && Rem(cents, 100) == -8;
    PadsBadly(-8);
  }

  lemma PadsBadly(n: int)
    requires n == -8
    ensures LeftPad2(n) == "0-8"
  {
    assert Digits(-n) == [DigitChar(-n)];
  }

  lemma PadsToTwo(n: nat)
    requires n < 100
    ensures LeftPad2(n) == [DigitChar(n / 10), DigitChar(n % 10)]
  {
    if n < 10 {
      assert Digits(n) == [DigitChar(n)];
    } else {
      assert Digits(n) == Digits(n / 10) + [DigitChar(n % 10)] && Digits(n / 10) == [DigitChar(n / 10)];
    }
  }
}
