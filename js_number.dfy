/**
 * What `ToNumber` makes of the texts and values the program compares: the
 * text `String()` writes for a number reads back as that number, a
 * one-element array as its element, a plain object as `NaN`, and no falsy
 * value is positive.
 */
module JsNumber {
  import opened Strings
  import opened JsValue

  /** The text `String(m)` writes for a natural number `m` converts back to `m`. */
  lemma NaturalText(m: nat)
    ensures StringToNumber(NatToString(m)) == Finite(m)
  {
    DigitsValueOfNatToString(m);
    SignedDigitsToNumber("", NatToString(m));
    assert "" + NatToString(m) == NatToString(m);
  }

  /** The text `String(-m)` writes for a negative number, a minus sign and the digits of `m`, converts back to `-m`. */
  lemma NegativeText(m: nat)
    ensures StringToNumber("-" + NatToString(m)) == Finite(-(m as int))
  {
    DigitsValueOfNatToString(m);
    SignedDigitsToNumber("-", NatToString(m));
  }

  /** A numeral with an optional minus sign and no leading zero converts to its value. */
  lemma SignedDigitsToNumber(sign: string, digits: string)
    requires sign == "" || sign == "-"
    requires digits != [] && AllDecimal(digits) && (|digits| > 1 ==> digits[0] != '0')
    ensures var v: int := DigitsValue(digits);
      StringToNumber(sign + digits) == Finite(if sign == "-" then -v else v)
  {
    SignedNumeralText(sign, digits);
    SignedNumeral(sign, digits);
    DigitsAfterSign(sign == "-", digits);
  }

  /** A signed numeral has no white space to trim. */
  lemma SignedNumeralIsTrimmed(sign: string, digits: string)
    requires sign == "" || sign == "-"
    requires digits != [] && AllDecimal(digits)
    ensures Trim(sign + digits) == sign + digits
  {
    var t := sign + digits;
    assert t[|t| - 1] == digits[|digits| - 1];
    assert IsDigit(digits[|digits| - 1]) && IsDigit(digits[0]);
    UnpaddedTrim(t);
  }

  /** A signed numeral is read as a numeral directly, with nothing trimmed. */
  lemma SignedNumeralText(sign: string, digits: string)
    requires sign == "" || sign == "-"
    requires digits != [] && AllDecimal(digits)
    ensures StringToNumber(sign + digits) == NumeralValue(sign + digits)
  {
    SignedNumeralIsTrimmed(sign, digits);
  }

  /** A signed numeral is read by its sign and its digits: no base prefix applies. */
  lemma SignedNumeral(sign: string, digits: string)
    requires sign == "" || sign == "-"
    requires digits != [] && AllDecimal(digits) && (|digits| > 1 ==> digits[0] != '0')
    ensures NumeralValue(sign + digits) == SignedValue(sign == "-", digits)
  {
    var t := sign + digits;
    assert IsDigit(digits[0]);
    if sign == "-" {
      assert t[0] == '-' && t[1..] == digits;
    } else {
      assert t == digits;
    }
  }

  /** Decimal digits after a sign are their value, negated after a minus. */
  lemma DigitsAfterSign(negative: bool, digits: string)
    requires digits != [] && AllDecimal(digits)
    ensures var v: int := DigitsValue(digits);
      SignedValue(negative, digits) == Finite(if negative then -v else v)
  {
    assert digits != "Infinity" by {
      assert IsDigit(digits[0]);
      assert digits[0] != "Infinity"[0];
    }
  }

  /** A numeric string counts as its number wherever `ToNumber` applies: `"5" > 0` holds, `"0" > 0` does not. */
  lemma NumericStringIsItsNumber(m: nat)
    ensures ToNumber(Str(NatToString(m))) == Finite(m)
    ensures IsPositive(Str(NatToString(m))) <==> m > 0
  {
    NaturalText(m);
  }

  /** A one-element array converts as its element's text does: `[5]` is 5. */
  lemma SingletonArrayIsItsItem(m: nat)
    ensures ToNumber(Arr([Num(m)])) == Finite(m)
  {
    var parts := seq(1, i requires 0 <= i < 1 => ToJsString(Num(m)));
    assert ToJsString(Num(m)) == NatToString(m);
    assert parts == [NatToString(m)];
    assert ToJsString(Arr([Num(m)])) == Join(parts, ',') == NatToString(m);
    NaturalText(m);
  }

  /** A plain object is `NaN`: its text is `[object Object]`. */
  lemma ObjectIsNaN(props: map<string, Value>)
    ensures ToNumber(Obj(props)) == NaN
  {
    var t := "[object Object]";
    assert ToJsString(Obj(props)) == t;
    assert t[0] == '[' && t[|t| - 1] == ']';
    NonNumericText(t);
  }

  /** A text that starts with neither a digit, a sign nor `Infinity`'s first letter converts to `NaN`. */
  lemma NonNumericText(t: string)
    requires t != [] && !IsJsWhitespace(t[0]) && !IsJsWhitespace(t[|t| - 1])
    requires !IsDigit(t[0]) && t[0] != '-' && t[0] != '+' && t[0] != 'I'
    ensures StringToNumber(t) == NaN
  {
    UnpaddedTrim(t);
    assert t != "Infinity" by {
      assert t[0] != "Infinity"[0];
    }
  }

  /** No falsy value is positive: `undefined`, `null`, `false`, `0` and `""` all fail `v > 0`. */
  lemma FalsyIsNotPositive(v: Value)
    requires !Truthy(v)
    ensures !IsPositive(v)
  {
  }
}
