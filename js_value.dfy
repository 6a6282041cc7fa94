/**
 * The JavaScript values the program passes around: what `JSON.parse` returns,
 * plus `undefined`. Numbers are integers, and `ToNumber` reads strings,
 * objects and arrays as integers, infinities or `NaN`. Objects and arrays are values here;
 * `StrictEquals` treats each of them as a separate reference, as two objects
 * decoded from separate replies are in the program.
 */
module JsValue {
  import opened Strings

  datatype Value =
    | Undefined
    | Null
    | Bool(b: bool)
    | Num(n: int)
    | Str(s: string)
    | Arr(items: seq<Value>)
    | Obj(props: map<string, Value>)

  /** JavaScript truthiness: `undefined`, `null`, `false`, `0` and `""` are falsy. */
  predicate Truthy(v: Value) {
    match v
    case Undefined => false
    case Null => false
    case Bool(b) => b
    case Num(n) => n != 0
    case Str(s) => s != ""
    case Arr(_) => true
    case Obj(_) => true
  }

  /** `a || b`: the first operand when it is truthy, else the second. */
  function Or(a: Value, b: Value): (r: Value)
    ensures Truthy(a) ==> r == a
    ensures !Truthy(a) ==> r == b
  {
    if Truthy(a) then a else b
  }

  /** `typeof v === 'object'`, which holds of `null` and of arrays too. */
  predicate IsObjectType(v: Value) {
    v.Null? || v.Arr? || v.Obj?
  }

  /** `v?.[key]`: an object's own property, `undefined` for anything else. */
  function Get(v: Value, key: string): (r: Value)
    ensures r != Undefined ==> v.Obj? && key in v.props
  {
    if v.Obj? && key in v.props then v.props[key] else Undefined
  }

  /** `a === b`: primitives compare by value; an object or array is only itself. */
  predicate StrictEquals(a: Value, b: Value) {
    a == b && !a.Arr? && !a.Obj?
  }

  /** `String(v)`, as a template literal or `+` on a string writes `v`. */
  function ToJsString(v: Value): string
    decreases v
  {
    match v
    case Undefined => "undefined"
    case Null => "null"
    case Bool(b) => if b then "true" else "false"
    case Num(n) => IntToString(n)
    case Str(s) => s
    case Arr(xs) =>
      Join(seq(|xs|, i requires 0 <= i < |xs| =>
             if xs[i].Undefined? || xs[i].Null? then "" else ToJsString(xs[i])), ',')
    case Obj(_) => "[object Object]"
  }

  /** A JavaScript number as `ToNumber` produces it; the finite ones are integers here. */
  datatype Number = NaN | Infinite(negative: bool) | Finite(n: int)

  /** The base a `0x`, `0o` or `0b` prefix letter selects (either case); 0 for any other character. */
  function RadixOf(c: char): (radix: nat)
    ensures radix == 0 || radix == 2 || radix == 8 || radix == 16
    ensures radix > 0 ==> !IsDigit(c)
  {
    if c == 'x' || c == 'X' then 16
    else if c == 'o' || c == 'O' then 8
    else if c == 'b' || c == 'B' then 2
    else 0
  }

  /** The value of a hexadecimal digit character (either case); 16 for any other character. */
  function HexDigitValue(c: char): (d: nat)
    ensures d <= 16
    ensures d < 10 <==> IsDigit(c)
  {
    if '0' <= c <= '9' then c as int - '0' as int
    else if 'a' <= c <= 'f' then c as int - 'a' as int + 10
    else if 'A' <= c <= 'F' then c as int - 'A' as int + 10
    else 16
  }

  /** Every character of `d` is a digit of base `radix`. */
  predicate AllDigitsIn(d: string, radix: nat) {
    forall i :: 0 <= i < |d| ==> HexDigitValue(d[i]) < radix
  }

  /** The value of `d` read as a numeral of base `radix`. */
  function RadixValue(d: string, radix: nat): nat
    requires AllDigitsIn(d, radix)
    decreases |d|
  {
    if d == [] then 0
    else radix * RadixValue(d[..|d| - 1], radix) + HexDigitValue(d[|d| - 1])
  }

  /** Every character of `d` is a decimal digit. */
  predicate AllDecimal(d: string) {
    forall i :: 0 <= i < |d| ==> IsDigit(d[i])
  }

  /**
   * `ToNumber` of a string: the white space around it is ignored and nothing
   * left is 0; `Infinity` takes an optional sign, and so do decimal digits;
   * `0x`, `0o` and `0b` take digits of their base and no sign. Anything else
   * is `NaN`, fractions and exponents included.
   */
  function StringToNumber(s: string): (r: Number)
    ensures Trim(s) == [] ==> r == Finite(0)
  {
    NumeralValue(Trim(s))
  }

  /** The value of a trimmed numeral. */
  function NumeralValue(t: string): (r: Number)
    ensures t == [] ==> r == Finite(0)
  {
    if t == [] then Finite(0)
    else if |t| >= 2 && t[0] == '0' && RadixOf(t[1]) > 0 then PrefixedValue(t[2..], RadixOf(t[1]))
    else
      var negative := t[0] == '-';
      SignedValue(negative, if t[0] == '-' || t[0] == '+' then t[1..] else t)
  }

  /** The digits after a `0x`, `0o` or `0b` prefix: at least one, all of that base. */
  function PrefixedValue(digits: string, radix: nat): (r: Number)
    ensures r.Finite? <==> digits != [] && AllDigitsIn(digits, radix)
  {
    if digits != [] && AllDigitsIn(digits, radix) then Finite(RadixValue(digits, radix)) else NaN
  }

  /** What follows an optional sign: `Infinity`, or at least one decimal digit. */
  function SignedValue(negative: bool, unsigned: string): (r: Number)
    ensures r.Infinite? <==> unsigned == "Infinity"
  {
    if unsigned == "Infinity" then Infinite(negative)
    else if unsigned != [] && AllDecimal(unsigned) then
      var v: int := DigitsValue(unsigned);
      Finite(if negative then -v else v)
    else NaN
  }

  /**
   * `ToNumber(v)`, as arithmetic and `<`/`>` against a number apply it: a
   * boolean is 0 or 1, `null` is 0, `undefined` is `NaN`, and an object or
   * array is first written as a string.
   */
  function ToNumber(v: Value): (r: Number)
    ensures v.Num? ==> r == Finite(v.n)
    ensures v.Str? ==> r == StringToNumber(v.s)
    ensures IsObjectType(v) && !v.Null? ==> r == StringToNumber(ToJsString(v))
  {
    match v
    case Undefined => NaN
    case Null => Finite(0)
    case Bool(b) => Finite(if b then 1 else 0)
    case Num(n) => Finite(n)
    case Str(s) => StringToNumber(s)
    case Arr(_) => StringToNumber(ToJsString(v))
    case Obj(_) => StringToNumber(ToJsString(v))
  }

  /** `v > 0`: `v` goes through `ToNumber`, and `NaN` compares false. */
  predicate IsPositive(v: Value) {
    match ToNumber(v)
    case Finite(n) => n > 0
    case Infinite(negative) => !negative
    case NaN => false
  }

  /** The own properties an object spread `{ ...v }` copies: none unless `v` is an object. */
  function Props(v: Value): map<string, Value> {
    if v.Obj? then v.props else map[]
  }

  /**
   * `{ ...a, ...b }`: an object with every property of `b`, and the
   * properties of `a` that `b` does not have.
   */
  function Spread(a: Value, b: Value): (r: Value)
    ensures r.Obj?
    ensures forall key :: key in Props(b) ==> Get(r, key) == Props(b)[key]
    ensures forall key :: key !in Props(b) ==> Get(r, key) == Get(a, key)
  {
    Obj(Props(a) + Props(b))
  }

  /** An object with the given own property, as the literal `{ key: v }` builds it. */
  function Single(key: string, v: Value): (r: Value)
    ensures Get(r, key) == v
  {
    Obj(map[key := v])
  }
}
