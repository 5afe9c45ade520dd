/** The three `string_2_value` converters of the repository: the regular-expression
    shapes they test, Python's `float()` and `int()` on the strings that pass, and
    what each converter returns. */
module Parsing {
  import opened Wrappers
  import opened Text
  import opened PyValues

  // ------------------------------------------------------------ regex shapes

  /** Python's `$` matches at the end and also just before a final newline. No shape
      below accepts a newline, so a pattern `^...$` matches `s` exactly when its shape
      holds of `Chop(s)`. */
  function Chop(s: string): (r: string)
    ensures EndsWith(s, "\n") ==> r + "\n" == s
    ensures !EndsWith(s, "\n") ==> r == s
  {
    if EndsWith(s, "\n") then s[..|s| - 1] else s
  }

  function Unsigned(s: string): string {
    if |s| > 0 && s[0] == '-' then s[1..] else s
  }

  predicate IsSep(c: char) { c == '.' || c == ',' }

  predicate IsSign(c: char) { c == '+' || c == '-' }

  function IndexOfSep(m: string): (k: nat)
    ensures k <= |m|
    ensures forall i | 0 <= i < k :: !IsSep(m[i])
    ensures k < |m| ==> IsSep(m[k])
  {
    if |m| == 0 then 0
    else if IsSep(m[0]) then 0
    else 1 + IndexOfSep(m[1..])
  }

  /** `\d*[.,]\d*`: digits around the first separator, which is the only one. */
  predicate SepMantissa(m: string) {
    var k := IndexOfSep(m);
    k < |m| && AllDigits(m[..k]) && AllDigits(m[k + 1..])
  }

  /** `\d?[.,]\d*` */
  predicate ShortSepMantissa(m: string) {
    SepMantissa(m) && IndexOfSep(m) <= 1
  }

  /** `\d?[.,]?\d*` */
  predicate LooseMantissa(m: string) {
    AllDigits(m) || ShortSepMantissa(m)
  }

  /** `mantissa e[+-]\d*`; no mantissa holds an `e`, so the mark is the first one. */
  predicate Exponential(r: string, loose: bool) {
    var k := IndexOf(r, 'e');
    k + 1 < |r| && IsSign(r[k + 1]) && AllDigits(r[k + 2..])
    && (if loose then LooseMantissa(r[..k]) else ShortSepMantissa(r[..k]))
  }

  /** `^-?\d*[.,]\d*$` */
  predicate PlainDecimal(s: string) { SepMantissa(Unsigned(Chop(s))) }

  /** `^-?\d?[.,]\d*e[+-]\d*$` */
  predicate StrictExponent(s: string) { Exponential(Unsigned(Chop(s)), false) }

  /** `^-?\d?[.,]?\d*e[+-]\d*$` */
  predicate LooseExponent(s: string) { Exponential(Unsigned(Chop(s)), true) }

  /** `^-?\d+$` */
  predicate IntegerShape(s: string) {
    var r := Unsigned(Chop(s));
    |r| > 0 && AllDigits(r)
  }

  /** `(^none$)|(^defaul?t$)|(^$)` */
  predicate NoneWord(s: string) {
    Chop(s) in ["none", "default", "defaut", ""]
  }

  /** `^[a-z]+_[a-z]+(_[a-z]+)*$` */
  predicate SnakeWord(s: string) {
    var parts := Split(Chop(s), '_');
    |parts| >= 2 && forall i | 0 <= i < |parts| :: WordOfLetters(parts[i])
  }

  predicate WordOfLetters(w: string) {
    |w| > 0 && forall i | 0 <= i < |w| :: IsLowerLetter(w[i])
  }

  /** `^true$` */
  predicate IsTrue(s: string) { Chop(s) == "true" }

  /** `^false$` */
  predicate IsFalse(s: string) { Chop(s) == "false" }

  // -------------------------------------------------- float() and int()

  function IndexOfExponent(r: string): (k: nat)
    ensures k <= |r|
    ensures forall i | 0 <= i < k :: r[i] != 'e' && r[i] != 'E'
    ensures k < |r| ==> r[k] == 'e' || r[k] == 'E'
  {
    if |r| == 0 then 0
    else if r[0] == 'e' || r[0] == 'E' then 0
    else 1 + IndexOfExponent(r[1..])
  }

  /** The digits, read as one number, and the count of fractional digits of an
      unsigned mantissa such as `12.50` or `.5`. */
  function Mantissa(m: string): Option<(nat, nat)> {
    var d := IndexOf(m, '.');
    var whole := m[..d];
    var frac := if d < |m| then m[d + 1..] else "";
    if AllDigits(whole + frac) && |whole + frac| > 0 then Some((DigitsValue(whole + frac), |frac|))
    else None
  }

  /** The exponent written `[+-]digits` after the `e`. */
  function Exponent(x: string): Option<int> {
    var digits := if |x| > 0 && IsSign(x[0]) then x[1..] else x;
    if |digits| > 0 && AllDigits(digits) then
      Some(if x[0] == '-' then -(DigitsValue(digits) as int) else DigitsValue(digits) as int)
    else None
  }

  /** `x * 10 ** e`, one factor of ten at a time. */
  function ScaleBy(x: real, e: int): real
    decreases if e < 0 then -e else e
  {
    if e == 0 then x
    else if e > 0 then ScaleBy(10.0 * x, e - 1)
    else ScaleBy(x / 10.0, e + 1)
  }

  /** The value of an unsigned literal `mantissa[(e|E)exponent]`. */
  function UnsignedFloat(r: string): Option<real> {
    var e := IndexOfExponent(r);
    var m := Mantissa(r[..e]);
    var x := if e == |r| then Some(0) else Exponent(r[e + 1..]);
    if m.Some? && x.Some? then Some(ScaleBy(m.value.0 as real, x.value - m.value.1)) else None
  }

  /** `float(t)`, for decimal literals without underscores; anything else raises. */
  function PyFloat(t0: string): Result<real, PyError> {
    FloatLiteral(StripSpace(t0))
  }

  /** `float(t)` once the surrounding whitespace is gone. */
  function FloatLiteral(t: string): Result<real, PyError> {
    var neg := |t| > 0 && t[0] == '-';
    var r := if |t| > 0 && IsSign(t[0]) then t[1..] else t;
    SignedValue(UnsignedFloat(r), neg)
  }

  /** The value read, negated after a `-`; no value means `float()` raises. */
  function SignedValue(u: Option<real>, neg: bool): Result<real, PyError> {
    match u
    case Some(v) => Ok(if neg then -v else v)
    case None => Err(ValueError("could not convert string to float"))
  }

  /** `int(t)`, for decimal literals without underscores; anything else raises. */
  function PyInt(t0: string): Result<int, PyError> {
    var t := StripSpace(t0);
    var r := if |t| > 0 && IsSign(t[0]) then t[1..] else t;
    if |r| > 0 && AllDigits(r) then
      Ok(if t[0] == '-' then -(DigitsValue(r) as int) else DigitsValue(r) as int)
    else Err(ValueError("invalid literal for int()"))
  }

  // ------------------------------------------------------------ converters

  /** saxs_nxformat/utils.py: the value an empty string takes for a NeXus type. */
  function TypedDefault(unitType: string): PyValue {
    if unitType == "NX_NUMBER" then PFloat(0.0)
    else if unitType == "NX_CHAR" then PStr("N/A")
    else if unitType == "NX_DATE_TIME" then PStr("0000-00-00T00:00:00")
    else if unitType == "NX_BOOLEAN" then PBool(false)
    else PStr("None")
  }

  /** saxs_nxformat/utils.py `string_2_value(string, unit_type)`. */
  function TypedValue(s: string, unitType: Option<string>): Result<PyValue, PyError> {
    var low := Lower(s);
    if unitType.Some? && s == "" then Ok(TypedDefault(unitType.value))
    else if NoneWord(low) then Ok(PNone)
    else if PlainDecimal(low) || LooseExponent(low) then
      var r :- PyFloat(s);
      Ok(PFloat(r))
    else if IntegerShape(s) then
      var i :- PyInt(s);
      Ok(PInt(i))
    else if IsTrue(low) then Ok(PBool(true))
    else if IsFalse(low) then Ok(PBool(false))
    else if SnakeWord(low) then Ok(PStr(Upper(s)))
    else Ok(PStr(s))
  }

  /** edf2nxsas/nexus_file_generator.py: the value of a missing string for a NeXus type. */
  function MissingDefault(unitType: string): PyValue {
    if unitType == "NX_NUMBER" then PFloat(0.0)
    else if unitType == "NX_CHAR" then PStr("N/A")
    else if unitType == "NX_DATE_TIME" then PStr("0000-00-00T00:00:00")
    else PStr("None")
  }

  /** edf2nxsas/nexus_file_generator.py `string_2_value(string, unit_type)`:
      the shapes are tested on the string as given, and the separator is mandatory. */
  function RawValue(s: Option<string>, unitType: string): Result<PyValue, PyError> {
    if s.None? then Ok(MissingDefault(unitType))
    else if PlainDecimal(s.value) || StrictExponent(s.value) then
      var r :- PyFloat(s.value);
      Ok(PFloat(r))
    else if IntegerShape(s.value) then
      var i :- PyInt(s.value);
      Ok(PInt(i))
    else Ok(PStr(s.value))
  }

  /** package/auto_edf2h5.py `string_2_value(string)` (the same body is repeated in
      saxs_nxformat/create_config.py, package/gui_edf2h5.py and package/gui_modify_h5.py). */
  function LoweredValue(s: string): Result<PyValue, PyError> {
    if PlainDecimal(s) || StrictExponent(s) then
      var r :- PyFloat(s);
      Ok(PFloat(r))
    else if IntegerShape(s) then
      var i :- PyInt(s);
      Ok(PInt(i))
    else if StripSpace(Lower(s)) in ["none", ""] then Ok(PNone)
    else Ok(PStr(Lower(s)))
  }

  // ------------------------------------------------------------ properties

  /** Characters of a printed integer: digits after an optional minus sign. */
  lemma IntToStringShape(n: int)
    ensures Unsigned(IntToString(n)) == NatToString(if n < 0 then -n else n)
    ensures IntToString(n)[0] == '-' || IsDigit(IntToString(n)[0])
    ensures IsDigit(IntToString(n)[|IntToString(n)| - 1])
    ensures Lower(IntToString(n)) == IntToString(n)
  {
    var s := IntToString(n);
    var u := NatToString(if n < 0 then -n else n);
    assert s == (if n < 0 then "-" else "") + u;
    assert forall i | 0 <= i < |s| :: s[i] == '-' || IsDigit(s[i]);
    assert s[|s| - 1] == u[|u| - 1];
  }

  lemma StripSpaceKeeps(s: string)
    requires |s| > 0 && !IsSpace(s[0]) && !IsSpace(s[|s| - 1])
    ensures StripSpace(s) == s
  {
  }

  lemma {:induction false} DigitsValueAppend(a: string, b: string)
    requires AllDigits(a) && AllDigits(b)
    ensures AllDigits(a + b)
    ensures DigitsValue(a + b) == DigitsValue(a) * Pow10(|b|) + DigitsValue(b)
    decreases |b|
  {
    if |b| == 0 {
      assert a + b == a;
    } else {
      var b' := b[..|b| - 1];
      var ab := a + b;
      assert ab[..|ab| - 1] == a + b';
      assert ab[|ab| - 1] == b[|b| - 1];
      DigitsValueAppend(a, b');
      ShiftDigit(DigitsValue(a), Pow10(|b'|), DigitsValue(b'), b[|b| - 1] as int - '0' as int);
    }
  }

  lemma ShiftDigit(x: int, p: int, y: int, d: int)
    ensures 10 * (x * p + y) + d == x * (10 * p) + (10 * y + d)
  {
  }

  /** `int()` reads back what `str()` prints. */
  lemma PyIntOfIntToString(n: int)
    ensures PyInt(IntToString(n)) == Ok(n)
  {
    var s := IntToString(n);
    IntToStringShape(n);
    StripSpaceKeeps(s);
    DigitsOfNatToString(if n < 0 then -n else n);
  }

  /** The shapes a printed integer has and has not. */
  lemma IntTextShapes(n: int)
    ensures Lower(IntToString(n)) == IntToString(n)
    ensures Chop(IntToString(n)) == IntToString(n)
    ensures !NoneWord(IntToString(n))
    ensures !PlainDecimal(IntToString(n))
    ensures !LooseExponent(IntToString(n)) && !StrictExponent(IntToString(n))
    ensures IntegerShape(IntToString(n))
  {
    var s := IntToString(n);
    IntToStringShape(n);
    NotEndingInNewline(s);
    NotNoneWord(s);
    var u := Unsigned(s);
    assert AllDigits(u);
    IndexOfSepIs(u, |u|);
    IndexOfIs(u, 'e', |u|);
  }

  /** A printed integer is read back as that integer, whatever the NeXus type, ... */
  lemma TypedValueOfInt(n: int, unitType: Option<string>)
    ensures TypedValue(IntToString(n), unitType) == Ok(PInt(n))
  {
    IntTextShapes(n);
    PyIntOfIntToString(n);
  }

  /** ... in the converter of the edf2nxsas generator ... */
  lemma RawValueOfInt(n: int, unitType: string)
    ensures RawValue(Some(IntToString(n)), unitType) == Ok(PInt(n))
  {
    IntTextShapes(n);
    PyIntOfIntToString(n);
  }

  /** ... and in the lowering converter of the package. */
  lemma LoweredValueOfInt(n: int)
    ensures LoweredValue(IntToString(n)) == Ok(PInt(n))
  {
    IntTextShapes(n);
    PyIntOfIntToString(n);
  }

  /** `[-]whole.frac` */
  function DecimalText(whole: string, frac: string, neg: bool): string {
    (if neg then "-" else "") + (whole + "." + frac)
  }

  /** The number `[-]whole.frac` denotes. */
  function DecimalReal(whole: string, frac: string, neg: bool): real
    requires AllDigits(whole) && AllDigits(frac)
  {
    var m := DigitsValue(whole) as real + DigitsValue(frac) as real / Pow10(|frac|) as real;
    if neg then -m else m
  }

  predicate DecimalParts(whole: string, frac: string) {
    AllDigits(whole) && AllDigits(frac) && |whole| + |frac| > 0
  }

  lemma DecimalChars(whole: string, frac: string, neg: bool)
    requires AllDigits(whole) && AllDigits(frac)
    ensures var s := DecimalText(whole, frac, neg);
      forall i | 0 <= i < |s| :: s[i] == '-' || s[i] == '.' || IsDigit(s[i])
  {
    var s := DecimalText(whole, frac, neg);
    var p := if neg then "-" else "";
    assert forall i | 0 <= i < |p| :: s[i] == '-';
    assert forall i | |p| <= i < |p| + |whole| :: s[i] == whole[i - |p|];
    assert s[|p| + |whole|] == '.';
    assert forall i | |p| + |whole| + 1 <= i < |s| :: s[i] == frac[i - |p| - |whole| - 1];
  }

  /** The first and last characters of `[-]whole.frac`. */
  lemma DecimalEnds(whole: string, frac: string, neg: bool)
    requires AllDigits(whole) && AllDigits(frac)
    ensures var r := whole + "." + frac; r[0] == '.' || IsDigit(r[0])
    ensures var s := DecimalText(whole, frac, neg); s[0] == '-' || s[0] == '.' || IsDigit(s[0])
    ensures var r := whole + "." + frac; r[|r| - 1] == '.' || IsDigit(r[|r| - 1])
    ensures var s := DecimalText(whole, frac, neg); s[|s| - 1] == '.' || IsDigit(s[|s| - 1])
  {
    var r := whole + "." + frac;
    var s := DecimalText(whole, frac, neg);
    if |whole| > 0 { assert r[0] == whole[0]; }
    if |frac| > 0 { assert r[|r| - 1] == frac[|frac| - 1]; }
    assert s[|s| - 1] == r[|r| - 1];
    assert s[0] == '-' || s[0] == r[0];
  }

  lemma NotEndingInNewline(s: string)
    requires |s| > 0 && s[|s| - 1] != '\n'
    ensures !EndsWith(s, "\n") && Chop(s) == s
  {
    assert s[|s| - 1..][0] == s[|s| - 1];
  }

  lemma NotNoneWord(s: string)
    requires |s| > 0 && (s[0] == '-' || s[0] == '.' || IsDigit(s[0]))
    ensures !NoneWord(s)
  {
    var c := Chop(s);
    if EndsWith(s, "\n") {
      assert |c| == 0 || c[0] == s[0];
    }
    assert "none"[0] == 'n' && "default"[0] == 'd' && "defaut"[0] == 'd';
  }

  lemma LowerKeeps(s: string)
    requires forall i | 0 <= i < |s| :: !('A' <= s[i] <= 'Z')
    ensures Lower(s) == s
  {
  }

  /** The shapes of a literal `[-]whole.frac`. */
  lemma DecimalTextShape(whole: string, frac: string, neg: bool)
    requires DecimalParts(whole, frac)
    ensures PlainDecimal(DecimalText(whole, frac, neg))
    ensures Lower(DecimalText(whole, frac, neg)) == DecimalText(whole, frac, neg)
    ensures !NoneWord(DecimalText(whole, frac, neg))
  {
    var s := DecimalText(whole, frac, neg);
    DecimalChars(whole, frac, neg);
    DecimalEnds(whole, frac, neg);
    LowerKeeps(s);
    NotNoneWord(s);
    DecimalIsPlain(whole, frac, neg);
  }

  lemma DecimalIsPlain(whole: string, frac: string, neg: bool)
    requires DecimalParts(whole, frac)
    ensures PlainDecimal(DecimalText(whole, frac, neg))
  {
    var s := DecimalText(whole, frac, neg);
    DecimalEnds(whole, frac, neg);
    NotEndingInNewline(s);
    assert Unsigned(s) == whole + "." + frac;
    SepMantissaOfParts(whole, frac);
  }

  lemma SepMantissaOfParts(whole: string, frac: string)
    requires AllDigits(whole) && AllDigits(frac)
    ensures SepMantissa(whole + "." + frac)
  {
    var r := whole + "." + frac;
    IndexOfSepAt(whole, "." + frac);
    assert r == whole + ("." + frac);
    assert r[..|whole|] == whole && r[|whole| + 1..] == frac;
  }

  lemma {:induction false} IndexOfSepAt(a: string, b: string)
    requires AllDigits(a) && |b| > 0 && IsSep(b[0])
    ensures IndexOfSep(a + b) == |a|
    decreases |a|
  {
    if |a| > 0 {
      assert (a + b)[1..] == a[1..] + b;
      IndexOfSepAt(a[1..], b);
    } else {
      assert a + b == b;
    }
  }

  /** `float()` reads the unsigned literal `whole.frac` as the number it denotes. */
  lemma UnsignedFloatOfDecimal(whole: string, frac: string)
    requires DecimalParts(whole, frac)
    ensures UnsignedFloat(whole + "." + frac) == Some(DecimalReal(whole, frac, false))
  {
    var r := whole + "." + frac;
    DecimalChars(whole, frac, false);
    MantissaOfDecimal(whole, frac);
    UnsignedFloatOfMantissa(r, DigitsValue(whole + frac), |frac|);
    DecimalScale(whole, frac);
  }

  lemma MantissaOfDecimal(whole: string, frac: string)
    requires DecimalParts(whole, frac)
    ensures AllDigits(whole + frac)
    ensures Mantissa(whole + "." + frac) == Some((DigitsValue(whole + frac), |frac|))
  {
    var r := whole + "." + frac;
    IndexOfAbsent(whole, '.');
    IndexOfAt(whole, "." + frac, '.');
    assert r == whole + ("." + frac);
    assert r[..|whole|] == whole && r[|whole| + 1..] == frac;
    DigitsValueAppend(whole, frac);
  }

  lemma UnsignedFloatOfMantissa(r: string, D: nat, F: nat)
    requires forall i | 0 <= i < |r| :: r[i] == '-' || r[i] == '.' || IsDigit(r[i])
    requires Mantissa(r) == Some((D, F))
    ensures UnsignedFloat(r) == Some(ScaleBy(D as real, 0 - F))
  {
    assert IndexOfExponent(r) == |r|;
    assert r[..|r|] == r;
  }

  /** Scaling the digits of `whole.frac` down by its fractional length gives its value. */
  lemma DecimalScale(whole: string, frac: string)
    requires DecimalParts(whole, frac)
    ensures AllDigits(whole + frac)
    ensures ScaleBy(DigitsValue(whole + frac) as real, 0 - |frac|) == DecimalReal(whole, frac, false)
  {
    DigitsValueAppend(whole, frac);
    var a, b, P := DigitsValue(whole), DigitsValue(frac), Pow10(|frac|);
    ScaleDown((a * P + b) as real, |frac|);
    RealSplit(a, b, P);
  }

  lemma {:induction false} ScaleDown(x: real, k: nat)
    ensures ScaleBy(x, 0 - k) == x / Pow10(k) as real
    decreases k
  {
    if k > 0 {
      ScaleDown(x / 10.0, k - 1);
      var p := Pow10(k - 1) as real;
      assert Pow10(k) as real == 10.0 * p;
      DivideTwice(x, p);
    }
  }

  lemma DivideTwice(x: real, p: real)
    requires p > 0.0
    ensures (x / 10.0) / p == x / (10.0 * p)
  {
  }

  lemma RealSplit(a: int, b: int, P: int)
    requires P >= 1
    ensures ((a * P + b) as real) / (P as real) == a as real + b as real / P as real
  {
    var p := P as real;
    assert (a * P) as real == a as real * p;
    assert (a as real * p + b as real) / p == a as real + b as real / p;
  }

  /** `float()` of a literal `[-]whole.frac` is the number it denotes. */
  lemma PyFloatOfDecimal(whole: string, frac: string, neg: bool)
    requires DecimalParts(whole, frac)
    ensures PyFloat(DecimalText(whole, frac, neg)) == Ok(DecimalReal(whole, frac, neg))
  {
    UnsignedFloatOfDecimal(whole, frac);
    PyFloatOfText(whole, frac, neg);
    SignedValueOf(PyFloat(DecimalText(whole, frac, neg)), UnsignedFloat(whole + "." + frac),
                  DecimalReal(whole, frac, false), neg);
    DecimalRealSign(whole, frac, neg);
  }

  lemma SignedValueOf(f: Result<real, PyError>, u: Option<real>, d: real, neg: bool)
    requires u == Some(d) && f == SignedValue(u, neg)
    ensures f == Ok(if neg then -d else d)
  {
  }

  lemma PyFloatOfText(whole: string, frac: string, neg: bool)
    requires AllDigits(whole) && AllDigits(frac)
    ensures PyFloat(DecimalText(whole, frac, neg)) == SignedValue(UnsignedFloat(whole + "." + frac), neg)
  {
    var r := whole + "." + frac;
    DecimalEnds(whole, frac, neg);
    assert DecimalText(whole, frac, neg) == (if neg then "-" else "") + r;
    PyFloatSigned(r, neg);
  }

  /** `float()` of an optionally negated unsigned literal without surrounding space. */
  lemma PyFloatSigned(r: string, neg: bool)
    requires |r| > 0 && !IsSign(r[0]) && !IsSpace(r[0]) && !IsSpace(r[|r| - 1])
    ensures PyFloat((if neg then "-" else "") + r) == SignedValue(UnsignedFloat(r), neg)
  {
    var s := (if neg then "-" else "") + r;
    if neg {
      assert s[0] == '-' && s[1..] == r;
    } else {
      assert s == r;
    }
    assert s[|s| - 1] == r[|r| - 1];
    StripSpaceKeeps(s);
    assert (|s| > 0 && s[0] == '-') == neg;
    assert (if |s| > 0 && IsSign(s[0]) then s[1..] else s) == r;
  }

  lemma DecimalRealSign(whole: string, frac: string, neg: bool)
    requires DecimalParts(whole, frac)
    ensures DecimalReal(whole, frac, neg)
         == (if neg then -DecimalReal(whole, frac, false) else DecimalReal(whole, frac, false))
  {
  }

  /** A literal `[-]whole.frac` holding a digit converts to the number it denotes,
      in all three converters. */
  lemma TypedValueOfDecimal(whole: string, frac: string, neg: bool, unitType: Option<string>)
    requires DecimalParts(whole, frac)
    ensures TypedValue(DecimalText(whole, frac, neg), unitType) == Ok(PFloat(DecimalReal(whole, frac, neg)))
  {
    DecimalTextShape(whole, frac, neg);
    PyFloatOfDecimal(whole, frac, neg);
    TypedFloat(DecimalText(whole, frac, neg), unitType);
  }

  lemma RawValueOfDecimal(whole: string, frac: string, neg: bool, unitType: string)
    requires DecimalParts(whole, frac)
    ensures RawValue(Some(DecimalText(whole, frac, neg)), unitType) == Ok(PFloat(DecimalReal(whole, frac, neg)))
  {
    DecimalIsPlain(whole, frac, neg);
    PyFloatOfDecimal(whole, frac, neg);
    RawFloat(DecimalText(whole, frac, neg), unitType);
  }

  lemma LoweredValueOfDecimal(whole: string, frac: string, neg: bool)
    requires DecimalParts(whole, frac)
    ensures LoweredValue(DecimalText(whole, frac, neg)) == Ok(PFloat(DecimalReal(whole, frac, neg)))
  {
    DecimalIsPlain(whole, frac, neg);
    PyFloatOfDecimal(whole, frac, neg);
    LoweredFloat(DecimalText(whole, frac, neg));
  }

  /** What a converter returns for the text it hands to `float()`. */
  function AsFloat(r: Result<real, PyError>): Result<PyValue, PyError> {
    match r
    case Ok(v) => Ok(PFloat(v))
    case Err(e) => Err(e)
  }

  /** A lower-case text of decimal shape is handed to `float()` by the utils converter. */
  lemma TypedFloat(s: string, unitType: Option<string>)
    requires Lower(s) == s && !NoneWord(s) && PlainDecimal(s)
    ensures TypedValue(s, unitType) == AsFloat(PyFloat(s))
  {
    assert s != "" by { assert NoneWord(""); }
  }

  lemma RawFloat(s: string, unitType: string)
    requires PlainDecimal(s)
    ensures RawValue(Some(s), unitType) == AsFloat(PyFloat(s))
  {
  }

  lemma LoweredFloat(s: string)
    requires PlainDecimal(s)
    ensures LoweredValue(s) == AsFloat(PyFloat(s))
  {
  }

  /** A comma is accepted by the decimal shape but `float()` rejects it. */
  lemma CommaDecimalRaises(unitType: Option<string>)
    ensures TypedValue("1,5", unitType).Err?
    ensures RawValue(Some("1,5"), "NX_NUMBER").Err?
  {
    var s := "1,5";
    NotEndingInNewline(s);
    LowerKeeps(s);
    NotNoneWord(s);
    assert PlainDecimal(s) by {
      assert IndexOfSep(s) == 1;
      assert s[..1] == "1" && s[2..] == "5";
    }
    CommaFloatRaises();
    TypedFloat(s, unitType);
    RawFloat(s, "NX_NUMBER");
  }

  lemma CommaFloatRaises()
    ensures PyFloat("1,5").Err?
  {
    var s := "1,5";
    assert StripSpace(s) == s by { StripSpaceKeeps(s); }
    assert UnsignedFloat(s) == None by {
      IndexOfExponentIs(s, 3);
      IndexOfIs(s, '.', 3);
      assert s[..3] == s && s + "" == s;
      assert !AllDigits(s) by { assert !IsDigit(s[1]); }
      assert Mantissa(s) == None;
    }
  }

  /** Empty strings take the default of their NeXus type; without a type they mean None. */
  lemma EmptyStringValues()
    ensures TypedValue("", Some("NX_NUMBER")) == Ok(PFloat(0.0))
    ensures TypedValue("", Some("NX_CHAR")) == Ok(PStr("N/A"))
    ensures TypedValue("", Some("NX_DATE_TIME")) == Ok(PStr("0000-00-00T00:00:00"))
    ensures TypedValue("", Some("NX_BOOLEAN")) == Ok(PBool(false))
    ensures TypedValue("", Some("NX_FLOAT")) == Ok(PStr("None"))
    ensures TypedValue("", None) == Ok(PNone)
    ensures LoweredValue("") == Ok(PNone)
    ensures RawValue(Some(""), "NX_NUMBER") == Ok(PStr(""))
  {
    assert Lower("") == "" && Chop("") == "";
    assert StripSpace("") == "";
  }

  /** The edf2nxsas converter gives a missing string the default of its NeXus type, and
      it has no boolean default. */
  lemma MissingStringDefaults()
    ensures RawValue(None, "NX_NUMBER") == Ok(PFloat(0.0))
    ensures RawValue(None, "NX_CHAR") == Ok(PStr("N/A"))
    ensures RawValue(None, "NX_DATE_TIME") == Ok(PStr("0000-00-00T00:00:00"))
    ensures RawValue(None, "NX_BOOLEAN") == Ok(PStr("None"))
  {
  }

  /** A given string becomes a float, an integer or the string itself, never lowered. */
  lemma RawValueKinds(s: string, unitType: string)
    ensures var r := RawValue(Some(s), unitType);
      r.Err? || r.value.PFloat? || r.value.PInt? || r.value == PStr(s)
  {
  }

  /** A value reads as None exactly when its lower-cased text is one of the None
      words, unless it is the empty string of a typed field. */
  lemma TypedNoneIff(s: string, unitType: Option<string>)
    ensures TypedValue(s, unitType) == Ok(PNone)
        <==> NoneWord(Lower(s)) && (unitType.Some? ==> s != "")
  {
    if unitType.Some? && s == "" {
      var d := TypedDefault(unitType.value);
      assert d != PNone;
    } else if !NoneWord(Lower(s)) {
      TypedOtherwiseNotNone(s, unitType);
    }
  }

  /** Past the empty-string and none-word tests, no branch of `string_2_value` gives None. */
  lemma TypedOtherwiseNotNone(s: string, unitType: Option<string>)
    requires !(unitType.Some? && s == "") && !NoneWord(Lower(s))
    ensures TypedValue(s, unitType) != Ok(PNone)
  {
    var low := Lower(s);
    var r := TypedValue(s, unitType);
    if PlainDecimal(low) || LooseExponent(low) {
      assert r == AsFloat(PyFloat(s));
    } else if IntegerShape(s) {
      assert r.Err? || r.value.PInt?;
    } else if IsTrue(low) || IsFalse(low) {
      assert r == Ok(PBool(IsTrue(low)));
    } else if SnakeWord(low) {
      assert r == Ok(PStr(Upper(s)));
    } else {
      assert r == Ok(PStr(s));
    }
  }

  /** The characters of a word made of letters and underscores. */
  lemma SnakeChars(c: string)
    requires |Split(c, '_')| >= 2 && forall i | 0 <= i < |Split(c, '_')| :: WordOfLetters(Split(c, '_')[i])
    ensures forall i | 0 <= i < |c| :: IsLowerLetter(c[i]) || c[i] == '_'
    ensures |c| > 0 && IsLowerLetter(c[0]) && IndexOf(c, '_') < |c|
  {
    var parts := Split(c, '_');
    JoinSplit(c, '_');
    LettersOfJoin(parts);
    var k := IndexOf(c, '_');
    assert k < |c|;
    assert parts[0] == c[..k];
    assert c[0] == parts[0][0];
  }

  lemma {:induction false} LettersOfJoin(parts: seq<string>)
    requires forall i | 0 <= i < |parts| :: WordOfLetters(parts[i])
    ensures forall i | 0 <= i < |Join(parts, '_')| ::
      IsLowerLetter(Join(parts, '_')[i]) || Join(parts, '_')[i] == '_'
    decreases |parts|
  {
    if |parts| > 1 {
      LettersOfJoin(parts[1..]);
      var j := Join(parts, '_');
      var p0, rest := parts[0], Join(parts[1..], '_');
      assert j == p0 + ['_'] + rest;
      assert forall i | 0 <= i < |j| ::
        j[i] == (if i < |p0| then p0[i] else if i == |p0| then '_' else rest[i - |p0| - 1]);
    }
  }

  /** Which branch of the utils converter a text without a NeXus type reaches when
      it has none of the None, number or boolean shapes. */
  lemma TypedText(s: string)
    requires var low := Lower(s);
      !NoneWord(low) && !PlainDecimal(low) && !LooseExponent(low) && !IntegerShape(s)
      && !IsTrue(low) && !IsFalse(low)
    ensures TypedValue(s, None) == Ok(if SnakeWord(Lower(s)) then PStr(Upper(s)) else PStr(s))
  {
  }

  /** `"true"` and `"false"`, in any case, become the booleans: no earlier branch of
      `string_2_value` takes them. */
  lemma TypedBooleans(s: string, unitType: Option<string>)
    ensures IsTrue(Lower(s)) ==> TypedValue(s, unitType) == Ok(PBool(true))
    ensures IsFalse(Lower(s)) ==> TypedValue(s, unitType) == Ok(PBool(false))
  {
    if IsTrue(Lower(s)) || IsFalse(Lower(s)) {
      BooleanShapes(Chop(Lower(s)));
      LetterIsNotInteger(s);
    }
  }

  /** The booleans of saxs_nxformat/tests/test_utils.py, in mixed case. */
  lemma MixedCaseBooleans()
    ensures TypedValue("TruE", None) == Ok(PBool(true))
    ensures TypedValue("FAlsE", None) == Ok(PBool(false))
  {
    assert Lower("TruE") == "true";
    assert Lower("FAlsE") == "false";
    TypedBooleans("TruE", None);
    TypedBooleans("FAlsE", None);
  }

  /** The two boolean words match none of the None and number shapes. */
  lemma BooleanShapes(c: string)
    requires c == "true" || c == "false"
    ensures c !in ["none", "default", "defaut", ""]
    ensures !SepMantissa(Unsigned(c)) && !Exponential(Unsigned(c), true)
  {
    assert forall i | 0 <= i < |c| :: IsLowerLetter(c[i]);
    SnakeHasNoNumber(c);
  }

  /** A text whose lower case starts with a letter does not have the integer shape. */
  lemma LetterIsNotInteger(s: string)
    requires |Chop(Lower(s))| > 0 && IsLowerLetter(Chop(Lower(s))[0])
    ensures !IntegerShape(s)
  {
    var low := Lower(s);
    assert low[0] == Chop(low)[0];
    assert |Chop(s)| > 0 && Chop(s)[0] == s[0];
    assert IsLowerLetter(LowerChar(s[0]));
  }

  lemma SnakeShapes(low: string)
    requires SnakeWord(low)
    ensures !NoneWord(low) && !PlainDecimal(low) && !LooseExponent(low) && !IsTrue(low) && !IsFalse(low)
  {
    var c := Chop(low);
    SnakeChars(c);
    assert '_' in c by { assert c[IndexOf(c, '_')] == '_'; }
    SnakeIsNoWord(c);
    SnakeHasNoNumber(c);
  }

  lemma SnakeIsNoWord(c: string)
    requires '_' in c
    ensures c !in ["none", "default", "defaut", "", "true", "false"]
  {
    assert '_' !in "none" && '_' !in "default" && '_' !in "defaut";
    assert '_' !in "true" && '_' !in "false";
  }

  lemma SnakeHasNoNumber(c: string)
    requires forall i | 0 <= i < |c| :: IsLowerLetter(c[i]) || c[i] == '_'
    requires |c| > 0 && IsLowerLetter(c[0])
    ensures !SepMantissa(Unsigned(c)) && !Exponential(Unsigned(c), true)
  {
    assert Unsigned(c) == c;
    IndexOfSepIs(c, |c|);
    var e := IndexOf(c, 'e');
    assert e + 1 < |c| ==> !IsSign(c[e + 1]);
  }

  lemma SnakeIsNotInteger(s: string)
    requires SnakeWord(Lower(s))
    ensures !IntegerShape(s)
  {
    var low := Lower(s);
    SnakeChars(Chop(low));
    assert low[0] == Chop(low)[0];
    assert |Chop(s)| > 0 && Chop(s)[0] == s[0];
    assert IsLowerLetter(LowerChar(s[0]));
  }

  /** Letters joined by underscores are upper-cased. */
  lemma SnakeWordsAreUpperCased(s: string)
    requires SnakeWord(Lower(s))
    ensures TypedValue(s, None) == Ok(PStr(Upper(s)))
  {
    SnakeShapes(Lower(s));
    SnakeIsNotInteger(s);
    TypedText(s);
  }

  lemma {:induction false} IndexOfIs(s: string, c: char, k: nat)
    requires k <= |s| && (k < |s| ==> s[k] == c)
    requires forall i | 0 <= i < k :: s[i] != c
    ensures IndexOf(s, c) == k
    decreases k
  {
    if k > 0 {
      IndexOfIs(s[1..], c, k - 1);
    }
  }

  lemma {:induction false} IndexOfSepIs(s: string, k: nat)
    requires k <= |s| && (k < |s| ==> IsSep(s[k]))
    requires forall i | 0 <= i < k :: !IsSep(s[i])
    ensures IndexOfSep(s) == k
    decreases k
  {
    if k > 0 {
      IndexOfSepIs(s[1..], k - 1);
    }
  }

  lemma {:induction false} IndexOfExponentIs(s: string, k: nat)
    requires k <= |s| && (k < |s| ==> s[k] == 'e' || s[k] == 'E')
    requires forall i | 0 <= i < k :: s[i] != 'e' && s[i] != 'E'
    ensures IndexOfExponent(s) == k
    decreases k
  {
    if k > 0 {
      IndexOfExponentIs(s[1..], k - 1);
    }
  }

  /** Digits around an `e` not followed by a sign, with at most one `.` (at `p`,
      or none when `p` is the length), keep no shape of the utils converter, and the
      text stays the string it is. */
  lemma UnsignedExponentStaysString(s: string, k: nat, p: nat)
    requires k + 1 < |s| && s[k] == 'e' && !IsSign(s[k + 1]) && IsDigit(s[0]) && IsDigit(s[|s| - 1])
    requires p <= |s| && p != k && (p < |s| ==> s[p] == '.')
    requires forall i | 0 <= i < |s| && i != k && i != p :: IsDigit(s[i])
    ensures TypedValue(s, None) == Ok(PStr(s))
  {
    UnsignedExponentShapes(s, k, p);
    forall c | c in s
      ensures !('A' <= c <= 'Z') && c != '_'
    {
      var i :| 0 <= i < |s| && s[i] == c;
    }
    NumberLikeStaysString(s);
  }

  /** A text that starts and ends with a digit, has no upper-case letter and no
      underscore, and has neither the decimal, the exponent nor the integer shape
      stays the string it is. */
  lemma NumberLikeStaysString(s: string)
    requires |s| > 0 && IsDigit(s[0]) && IsDigit(s[|s| - 1])
    requires forall c | c in s :: !('A' <= c <= 'Z') && c != '_'
    requires !SepMantissa(s) && !Exponential(s, true) && !AllDigits(s)
    ensures TypedValue(s, None) == Ok(PStr(s))
  {
    forall i | 0 <= i < |s|
      ensures !('A' <= s[i] <= 'Z') && s[i] != '_'
    {
      assert s[i] in s;
    }
    NotEndingInNewline(s);
    LowerKeeps(s);
    NotNoneWord(s);
    IndexOfIs(s, '_', |s|);
    assert s !in ["true", "false"] by { assert IsDigit(s[0]); }
    TypedText(s);
  }

  lemma UnsignedExponentShapes(s: string, k: nat, p: nat)
    requires k + 1 < |s| && s[k] == 'e' && !IsSign(s[k + 1]) && IsDigit(s[0]) && IsDigit(s[|s| - 1])
    requires p <= |s| && p != k && (p < |s| ==> s[p] == '.')
    requires forall i | 0 <= i < |s| && i != k && i != p :: IsDigit(s[i])
    ensures !EndsWith(s, "\n") && !SepMantissa(s) && !Exponential(s, true) && !AllDigits(s)
  {
    NotEndingInNewline(s);
    IndexOfIs(s, 'e', k);
    IndexOfSepIs(s, p);
    assert !AllDigits(s) by { assert !IsDigit(s[k]); }
    if k < p < |s| {
      assert !AllDigits(s[..p]) by { assert s[..p][k] == 'e'; }
    } else if p < k {
      assert !AllDigits(s[p + 1..]) by { assert s[p + 1..][k - p - 1] == 'e'; }
    }
  }

  /** As written, an exponent needs an explicit sign and at most one digit before the
      separator, so these mantissa-exponent strings stay strings. */
  lemma ExponentsWithoutSignStayStrings()
    ensures TypedValue("1e4", None) == Ok(PStr("1e4"))
    ensures TypedValue("1.56e4", None) == Ok(PStr("1.56e4"))
  {
    var s := "1e4";
    assert s[0] == '1' && s[1] == 'e' && s[2] == '4';
    UnsignedExponentStaysString(s, 1, 3);
    FractionalExponentStaysString();
  }

  lemma FractionalExponentStaysString()
    ensures TypedValue("1.56e4", None) == Ok(PStr("1.56e4"))
  {
    var s := "1.56e4";
    assert s[0] == '1' && s[1] == '.' && s[2] == '5' && s[3] == '6' && s[4] == 'e' && s[5] == '4';
    forall i | 0 <= i < |s| && i != 4 && i != 1
      ensures IsDigit(s[i])
    {
      assert i == 0 || i == 2 || i == 3 || i == 5;
    }
    UnsignedExponentStaysString(s, 4, 1);
  }

  /** An explicit sign does not rescue a mantissa with two digits before the separator. */
  lemma SignedExponentLongMantissa()
    ensures TypedValue("26.397e-3", None) == Ok(PStr("26.397e-3"))
  {
    var s := "26.397e-3";
    LongMantissaShapes();
    LongMantissaChars();
    NumberLikeStaysString(s);
  }

  lemma LongMantissaChars()
    ensures var s := "26.397e-3"; IsDigit(s[0]) && IsDigit(s[|s| - 1])
    ensures forall c | c in "26.397e-3" :: !('A' <= c <= 'Z') && c != '_'
  {
  }

  lemma LongMantissaShapes()
    ensures !SepMantissa("26.397e-3") && !Exponential("26.397e-3", true) && !AllDigits("26.397e-3")
  {
    var s := "26.397e-3";
    IndexOfIs(s, 'e', 6);
    IndexOfSepIs(s, 2);
    assert s[..6] == "26.397";
    IndexOfSepIs("26.397", 2);
    assert !AllDigits(s[3..]) by { assert s[3..][3] == 'e'; }
    assert !AllDigits("26.397") by { assert !IsDigit("26.397"[2]); }
    assert !AllDigits(s) by { assert !IsDigit(s[2]); }
  }

  /** The strict shape of the other converters never reads upper-case exponents, and
      needs a separator. */
  lemma RawShapesAreCaseSensitive()
    ensures RawValue(Some("1.5E+3"), "NX_NUMBER") == Ok(PStr("1.5E+3"))
    ensures RawValue(Some("1.5e+3"), "NX_NUMBER") == Ok(PFloat(1500.0))
    ensures RawValue(Some("15e+3"), "NX_NUMBER") == Ok(PStr("15e+3"))
  {
    UpperExponentIsString();
    SignedExponentIsFloat();
    ExponentNeedsSeparator();
  }

  lemma UpperExponentIsString()
    ensures RawValue(Some("1.5E+3"), "NX_NUMBER") == Ok(PStr("1.5E+3"))
  {
    var s := "1.5E+3";
    NotEndingInNewline(s);
    IndexOfIs(s, 'e', 6);
    IndexOfSepIs(s, 1);
    assert !AllDigits(s[2..]) by { assert !IsDigit(s[2..][1]); }
    assert !AllDigits(s) by { assert !IsDigit(s[1]); }
  }

  lemma SignedExponentIsFloat()
    ensures RawValue(Some("1.5e+3"), "NX_NUMBER") == Ok(PFloat(1500.0))
  {
    var r := "1.5e+3";
    NotEndingInNewline(r);
    IndexOfIs(r, 'e', 3);
    assert r[..3] == "1.5" && r[5..] == "3";
    IndexOfSepIs("1.5", 1);
    assert "1.5"[..1] == "1" && "1.5"[2..] == "5";
    assert StrictExponent(r);
    assert StripSpace(r) == r;
    ExponentFloat();
  }

  lemma ExponentFloat()
    ensures UnsignedFloat("1.5e+3") == Some(1500.0)
  {
    var r := "1.5e+3";
    IndexOfExponentIs(r, 3);
    assert r[..3] == "1.5" && r[4..] == "+3";
    IndexOfIs("1.5", '.', 1);
    assert "1.5"[..1] + "1.5"[2..] == "15";
    assert DigitsValue("15") == 15 by { assert "15"[..1] == "1"; }
    assert Mantissa("1.5") == Some((15, 1));
    assert "+3"[1..] == "3";
    assert Exponent("+3") == Some(3);
    assert ScaleBy(15.0, 2) == 1500.0;
  }

  lemma ExponentNeedsSeparator()
    ensures RawValue(Some("15e+3"), "NX_NUMBER") == Ok(PStr("15e+3"))
  {
    var t := "15e+3";
    NotEndingInNewline(t);
    IndexOfIs(t, 'e', 2);
    assert t[..2] == "15";
    IndexOfSepIs("15", 2);
    IndexOfSepIs(t, 5);
    assert !AllDigits(t) by { assert !IsDigit(t[2]); }
  }

  /** The lowering converter reads "None" as None in any case and around spaces,
      and lower-cases every other word. */
  lemma LoweredWords()
    ensures LoweredValue("None") == Ok(PNone)
    ensures LoweredValue(" NONE ") == Ok(PNone)
    ensures LoweredValue("duMmY") == Ok(PStr("dummy"))
  {
    LoweredNone();
    LoweredSpacedNone();
    LoweredDummy();
  }

  lemma LoweredNone()
    ensures LoweredValue("None") == Ok(PNone)
  {
    assert Lower("None") == "none";
    LoweredWord("None", "none", "none");
  }

  lemma LoweredSpacedNone()
    ensures LoweredValue(" NONE ") == Ok(PNone)
  {
    assert Lower(" NONE ") == " none ";
    assert StripLeft(" none ", SpaceChars()) == "none ";
    LoweredWord(" NONE ", " none ", "none");
  }

  lemma LoweredDummy()
    ensures LoweredValue("duMmY") == Ok(PStr("dummy"))
  {
    assert Lower("duMmY") == "dummy";
    LoweredWord("duMmY", "dummy", "dummy");
  }

  lemma LoweredWord(s: string, low: string, stripped: string)
    requires |s| > 0 && !IsDigit(s[0]) && s[|s| - 1] != '\n'
    requires forall i | 0 <= i < |s| :: !IsSep(s[i]) && !IsSign(s[i])
    requires Lower(s) == low && StripSpace(low) == stripped
    ensures LoweredValue(s) == Ok(if stripped in ["none", ""] then PNone else PStr(low))
  {
    NotEndingInNewline(s);
    assert Unsigned(s) == s;
    assert !PlainDecimal(s) by { IndexOfSepIs(s, |s|); }
    assert !StrictExponent(s) by {
      var e := IndexOf(s, 'e');
      assert e + 1 < |s| ==> !IsSign(s[e + 1]);
    }
    assert !IntegerShape(s) by { assert !IsDigit(s[0]); }
  }
}
