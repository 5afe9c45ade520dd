/** The three `convert` functions of the repository: a number expressed in one unit is
    re-expressed in another unit of the same NeXus unit type, using a table that maps
    each unit type to the factors of its units. */
module Units {
  import opened Wrappers
  import opened PyValues

  /** One entry `type: {unit: factor, ...}` of a unit table. */
  datatype UnitType = UnitType(name: string, factors: map<string, real>)

  /** A unit table, in the iteration order of its dictionary. */
  type UnitTable = seq<UnitType>

  /** A dictionary has distinct keys. */
  predicate DistinctNames(t: UnitTable) {
    forall i, j | 0 <= i < j < |t| :: t[i].name != t[j].name
  }

  /** The type the lookup loop of `convert` settles on for a unit: the last type whose
      factors name the unit, or none. */
  function LastTypeOf(t: UnitTable, u: string): Option<string> {
    if |t| == 0 then None
    else if u in t[|t| - 1].factors then Some(t[|t| - 1].name)
    else LastTypeOf(t[..|t| - 1], u)
  }

  /** `table[name]`, the first entry of that name. */
  function FactorsOf(t: UnitTable, name: string): Option<map<string, real>> {
    if |t| == 0 then None
    else if t[0].name == name then Some(t[0].factors)
    else FactorsOf(t[1..], name)
  }

  /** `table[name][unit]` */
  function Lookup(t: UnitTable, name: string, unit: string): Result<real, PyError> {
    match FactorsOf(t, name)
    case None => Err(KeyError(name))
    case Some(m) => if unit in m then Ok(m[unit]) else Err(KeyError(unit))
  }

  function Div(a: real, b: real): Result<real, PyError> {
    if b == 0.0 then Err(ZeroDivisionError) else Ok(a / b)
  }

  /** `number * f`: numbers (booleans included) give a float, anything else raises. */
  function Mul(number: PyValue, f: real): Result<PyValue, PyError> {
    match Numeric(number)
    case Some(x) => Ok(PFloat(x * f))
    case None => Err(TypeError("unsupported operand type for *"))
  }

  /** `number + f` */
  function Add(number: PyValue, f: real): Result<PyValue, PyError> {
    match Numeric(number)
    case Some(x) => Ok(PFloat(x + f))
    case None => Err(TypeError("unsupported operand type for +"))
  }

  /** `Saxs` is the body shared by saxs_nxformat/utils.py and edf2nxsas/nexus_file_generator.py
      (an "arbitrary" unit passes through, temperatures are offsets); `Legacy` is the one of
      nexus_generation.py, which has neither branch. */
  datatype Dialect = Saxs | Legacy

  /** What `convert` returns, and whether it opened its error dialog on the way. */
  datatype Conversion = Conversion(errorShown: bool, result: Result<PyValue, PyError>)

  predicate PassesThrough(d: Dialect, number: PyValue, us: string, ue: string) {
    number == PNone || (d == Saxs && (us == "arbitrary" || ue == "arbitrary"))
  }

  /** The arithmetic after the unit types are known; `t1` is the type of the start unit. */
  function Rescale(d: Dialect, t: UnitTable, t1: Option<string>, number: PyValue, us: string, ue: string)
    : Result<PyValue, PyError>
  {
    if t1.None? then Err(KeyError("None"))
    else
      var ty := t1.value;
      if ty == "NX_ANGLE" then
        var s :- Lookup(t, ty, us);
        var turn :- Lookup(t, ty, "turn");
        var e :- Lookup(t, ty, ue);
        var a :- Div(turn, s);
        var x :- Mul(number, a);
        var b :- Div(e, turn);
        Mul(x, b)
      else if d == Saxs && ty == "NX_TEMPERATURE" then
        var s :- Lookup(t, ty, us);
        var e :- Lookup(t, ty, ue);
        if ue == "C" then Add(number, -e) else Add(number, s)
      else
        var s :- Lookup(t, ty, us);
        var e :- Lookup(t, ty, ue);
        var r :- Div(s, e);
        Mul(number, r)
  }

  /** `convert(number, unit_start, unit_end, testing)` */
  function ConvertSpec(d: Dialect, t: UnitTable, number: PyValue, us: string, ue: string, testing: bool)
    : Conversion
  {
    if PassesThrough(d, number, us, ue) then Conversion(false, Ok(number))
    else
      var t1 := LastTypeOf(t, us);
      var t2 := LastTypeOf(t, ue);
      var shown := t1.None? || t2.None? || (t1 != t2 && !testing);
      if shown then Conversion(true, Rescale(d, t, t1, number, us, ue))
      else if t1.None? || t2.None? || (t1 != t2 && testing) then Conversion(false, Ok(PStr("fail")))
      else Conversion(false, Rescale(d, t, t1, number, us, ue))
  }

  /** `convert`, with its lookup loop over the table. */
  method Convert(d: Dialect, t: UnitTable, number: PyValue, us: string, ue: string, testing: bool)
    returns (c: Conversion)
    ensures c == ConvertSpec(d, t, number, us, ue, testing)
  {
    if PassesThrough(d, number, us, ue) {
      return Conversion(false, Ok(number));
    }
    var t1: Option<string> := None;
    var t2: Option<string> := None;
    var i := 0;
    while i < |t|
      invariant 0 <= i <= |t|
      invariant t1 == LastTypeOf(t[..i], us)
      invariant t2 == LastTypeOf(t[..i], ue)
    {
      assert t[..i + 1][..i] == t[..i];
      if us in t[i].factors {
        t1 := Some(t[i].name);
      }
      if ue in t[i].factors {
        t2 := Some(t[i].name);
      }
      i := i + 1;
    }
    assert t[..|t|] == t;
    var shown := t1.None? || t2.None? || (t1 != t2 && !testing);
    if shown {
      c := Conversion(true, Rescale(d, t, t1, number, us, ue));
    } else if t1.None? || t2.None? || (t1 != t2 && testing) {
      c := Conversion(false, Ok(PStr("fail")));
    } else {
      c := Conversion(false, Rescale(d, t, t1, number, us, ue));
    }
  }

  // ------------------------------------------------------------ unit tables

  /** The table of package/nexus_format.py, the one nexus_generation.py uses; `twoPi`
      stands for `2 * np.pi`, the number of radians in a turn. */
  function PackageUnits(twoPi: real): UnitTable {
    [ UnitType("NX_LENGTH", map["m" := 1.0, "mm" := 0.001, "nm" := 0.000000001, "angstrom" := 0.0000000001]),
      UnitType("NX_PER_LENGTH", map["1/m" := 1.0, "1/nm" := 1000000000.0, "1/angstrom" := 10000000000.0]),
      UnitType("NX_ANGLE", map["deg" := 360.0, "turn" := 1.0, "rad" := twoPi]),
      UnitType("NX_UNITLESS", map["" := 1.0]) ]
  }

  // ------------------------------------------------------------ properties

  /** The lookup loop settles on the last type naming the unit, and on none exactly
      when no type names it. */
  lemma {:induction false} LastTypeOfIsLast(t: UnitTable, u: string)
    ensures LastTypeOf(t, u).None? <==> forall i | 0 <= i < |t| :: u !in t[i].factors
    ensures LastTypeOf(t, u).Some? ==> exists i | 0 <= i < |t| ::
      t[i].name == LastTypeOf(t, u).value && u in t[i].factors
      && forall j | i < j < |t| :: u !in t[j].factors
    decreases |t|
  {
    if |t| > 0 && u !in t[|t| - 1].factors {
      var p := t[..|t| - 1];
      LastTypeOfIsLast(p, u);
      assert forall i | 0 <= i < |p| :: p[i] == t[i];
    }
  }

  /** Conversely, the entry of a unit after which no entry names the unit is its type. */
  lemma {:induction false} LastTypeOfAt(t: UnitTable, u: string, i: nat)
    requires i < |t| && u in t[i].factors
    requires forall j | i < j < |t| :: u !in t[j].factors
    ensures LastTypeOf(t, u) == Some(t[i].name)
    decreases |t|
  {
    if i < |t| - 1 {
      var p := t[..|t| - 1];
      assert forall j | 0 <= j < |p| :: p[j] == t[j];
      LastTypeOfAt(p, u, i);
    }
  }

  /** `table[name]` is the entry of that name. */
  lemma {:induction false} FactorsOfAt(t: UnitTable, i: nat)
    requires DistinctNames(t) && i < |t|
    ensures FactorsOf(t, t[i].name) == Some(t[i].factors)
    decreases |t|
  {
    if i > 0 {
      assert t[0].name != t[i].name;
      var q := t[1..];
      assert DistinctNames(q) by {
        assert forall a, b | 0 <= a < b < |q| :: q[a] == t[a + 1] && q[b] == t[b + 1];
      }
      FactorsOfAt(q, i - 1);
    }
  }

  /** The factor of a unit in the type the lookup settles on. */
  function FactorOf(t: UnitTable, u: string): Option<real> {
    match LastTypeOf(t, u)
    case None => None
    case Some(ty) =>
      match Lookup(t, ty, u)
      case Ok(f) => Some(f)
      case Err(_) => None
  }

  /** In a table with distinct type names, a unit that has a type has a factor there. */
  lemma FactorOfKnown(t: UnitTable, u: string)
    requires DistinctNames(t) && LastTypeOf(t, u).Some?
    ensures FactorOf(t, u).Some?
    ensures Lookup(t, LastTypeOf(t, u).value, u) == Ok(FactorOf(t, u).value)
  {
    LastTypeOfIsLast(t, u);
    var i :| 0 <= i < |t| && t[i].name == LastTypeOf(t, u).value && u in t[i].factors;
    FactorsOfAt(t, i);
  }

  /** Two units the lookup puts in one type reach its arithmetic without a dialog. */
  lemma ConvertSameType(d: Dialect, t: UnitTable, number: PyValue, us: string, ue: string, testing: bool, ty: string)
    requires !PassesThrough(d, number, us, ue)
    requires LastTypeOf(t, us) == Some(ty) && LastTypeOf(t, ue) == Some(ty)
    ensures ConvertSpec(d, t, number, us, ue, testing) == Conversion(false, Rescale(d, t, Some(ty), number, us, ue))
  {
  }

  lemma RescaleLinear(d: Dialect, t: UnitTable, ty: string, x: real, us: string, ue: string, s: real, e: real)
    requires ty != "NX_ANGLE" && (d == Saxs ==> ty != "NX_TEMPERATURE")
    requires Lookup(t, ty, us) == Ok(s) && Lookup(t, ty, ue) == Ok(e) && e != 0.0
    ensures Rescale(d, t, Some(ty), PFloat(x), us, ue) == Ok(PFloat(x * (s / e)))
  {
    assert Div(s, e) == Ok(s / e);
    MulNumber(PFloat(x), x, s / e);
    assert Rescale(d, t, Some(ty), PFloat(x), us, ue) == Mul(PFloat(x), s / e);
    assert Rescale(d, t, Some(ty), PFloat(x), us, ue).value == PFloat(x * (s / e));
  }

  lemma MulNumber(v: PyValue, x: real, f: real)
    requires Numeric(v) == Some(x)
    ensures Mul(v, f) == Ok(PFloat(x * f))
  {
    assert Mul(v, f).Ok? && Mul(v, f).value == PFloat(x * f);
  }

  lemma RescaleAngle(d: Dialect, t: UnitTable, x: real, us: string, ue: string, s: real, turn: real, e: real)
    requires Lookup(t, "NX_ANGLE", us) == Ok(s) && Lookup(t, "NX_ANGLE", "turn") == Ok(turn)
    requires Lookup(t, "NX_ANGLE", ue) == Ok(e) && s != 0.0 && turn != 0.0
    ensures Rescale(d, t, Some("NX_ANGLE"), PFloat(x), us, ue) == Ok(PFloat(x * (turn / s) * (e / turn)))
  {
    assert Div(turn, s) == Ok(turn / s);
    assert Div(e, turn) == Ok(e / turn);
    MulNumber(PFloat(x), x, turn / s);
    MulNumber(PFloat(x * (turn / s)), x * (turn / s), e / turn);
    assert Rescale(d, t, Some("NX_ANGLE"), PFloat(x), us, ue).value == PFloat(x * (turn / s) * (e / turn));
  }

  lemma RescaleTemperature(t: UnitTable, x: real, us: string, ue: string, s: real, e: real)
    requires Lookup(t, "NX_TEMPERATURE", us) == Ok(s) && Lookup(t, "NX_TEMPERATURE", ue) == Ok(e)
    ensures Rescale(Saxs, t, Some("NX_TEMPERATURE"), PFloat(x), us, ue)
         == Ok(PFloat(if ue == "C" then x + -e else x + s))
  {
  }

  /** No number, or an "arbitrary" unit in the utils dialect, is returned as it is. */
  lemma PassThroughUnchanged(d: Dialect, t: UnitTable, number: PyValue, us: string, ue: string, testing: bool)
    requires PassesThrough(d, number, us, ue)
    ensures ConvertSpec(d, t, number, us, ue, testing) == Conversion(false, Ok(number))
  {
  }

  /** Returning "fail" happens exactly in testing mode, for two known units of
      different types. */
  lemma FailIff(d: Dialect, t: UnitTable, number: PyValue, us: string, ue: string, testing: bool)
    requires !PassesThrough(d, number, us, ue) && Numeric(number).Some?
    ensures ConvertSpec(d, t, number, us, ue, testing).result == Ok(PStr("fail"))
        <==> testing && LastTypeOf(t, us).Some? && LastTypeOf(t, ue).Some? && LastTypeOf(t, us) != LastTypeOf(t, ue)
    ensures ConvertSpec(d, t, number, us, ue, testing).result == Ok(PStr("fail"))
        ==> !ConvertSpec(d, t, number, us, ue, testing).errorShown
  {
    var t1 := LastTypeOf(t, us);
    if t1.Some? {
      RescaleIsNumber(d, t, t1.value, number, us, ue);
    }
  }

  /** Rescaling a number never gives a string. */
  lemma RescaleIsNumber(d: Dialect, t: UnitTable, ty: string, number: PyValue, us: string, ue: string)
    requires Numeric(number).Some?
    ensures var r := Rescale(d, t, Some(ty), number, us, ue); r.Ok? ==> r.value.PFloat?
  {
  }

  /** A unit no type names opens the error dialog and the conversion raises. */
  lemma UnknownUnitRaises(d: Dialect, t: UnitTable, number: PyValue, us: string, ue: string, testing: bool)
    requires !PassesThrough(d, number, us, ue)
    requires DistinctNames(t)
    requires LastTypeOf(t, us).None? || LastTypeOf(t, ue).None?
    ensures ConvertSpec(d, t, number, us, ue, testing).errorShown
    ensures ConvertSpec(d, t, number, us, ue, testing).result.Err?
  {
    var t1 := LastTypeOf(t, us);
    if t1.Some? {
      LastTypeOfIsLast(t, us);
      LastTypeOfIsLast(t, ue);
      var i :| 0 <= i < |t| && t[i].name == t1.value && us in t[i].factors;
      FactorsOfAt(t, i);
      assert ue !in t[i].factors;
      RescaleMissingEnd(d, t, t1.value, number, us, ue);
    }
  }

  lemma RescaleMissingEnd(d: Dialect, t: UnitTable, ty: string, number: PyValue, us: string, ue: string)
    requires FactorsOf(t, ty).Some? && ue !in FactorsOf(t, ty).value
    ensures Rescale(d, t, Some(ty), number, us, ue).Err?
  {
  }

  /** Outside angles (and, in the utils dialect, temperatures) a conversion between two
      units of one type multiplies by the ratio of their factors. */
  lemma ConvertLinear(d: Dialect, t: UnitTable, x: real, us: string, ue: string, testing: bool,
                      ty: string, s: real, e: real)
    requires us != "arbitrary" && ue != "arbitrary"
    requires LastTypeOf(t, us) == Some(ty) && LastTypeOf(t, ue) == Some(ty)
    requires ty != "NX_ANGLE" && (d == Saxs ==> ty != "NX_TEMPERATURE")
    requires FactorOf(t, us) == Some(s) && FactorOf(t, ue) == Some(e) && e != 0.0
    ensures ConvertSpec(d, t, PFloat(x), us, ue, testing) == Conversion(false, Ok(PFloat(x * (s / e))))
  {
    ConvertSameType(d, t, PFloat(x), us, ue, testing, ty);
    RescaleLinear(d, t, ty, x, us, ue, s, e);
  }

  /** Angles go through the turn: the result is `x * (turn / s) * (e / turn)`, which is
      `x * (e / s)` over the reals. */
  lemma ConvertAngle(d: Dialect, t: UnitTable, x: real, us: string, ue: string, testing: bool,
                     s: real, turn: real, e: real)
    requires us != "arbitrary" && ue != "arbitrary"
    requires LastTypeOf(t, us) == Some("NX_ANGLE") && LastTypeOf(t, ue) == Some("NX_ANGLE")
    requires LastTypeOf(t, "turn") == Some("NX_ANGLE")
    requires FactorOf(t, us) == Some(s) && FactorOf(t, "turn") == Some(turn) && FactorOf(t, ue) == Some(e)
    requires s != 0.0 && turn != 0.0
    ensures ConvertSpec(d, t, PFloat(x), us, ue, testing) == Conversion(false, Ok(PFloat(x * (e / s))))
  {
    ConvertSameType(d, t, PFloat(x), us, ue, testing, "NX_ANGLE");
    RescaleAngle(d, t, x, us, ue, s, turn, e);
    ThroughTurn(x, s, turn, e);
    assert Rescale(d, t, Some("NX_ANGLE"), PFloat(x), us, ue).value == PFloat(x * (e / s));
  }

  lemma ThroughTurn(x: real, s: real, turn: real, e: real)
    requires s != 0.0 && turn != 0.0
    ensures x * (turn / s) * (e / turn) == x * (e / s)
  {
    assert (turn / s) * (e / turn) == e / s;
  }

  lemma RatioCancels(x: real, a: real, b: real)
    requires a != 0.0 && b != 0.0
    ensures x * (a / b) * (b / a) == x
  {
    assert (a / b) * (b / a) == 1.0;
  }

  /** Converting to a unit and back gives the number back (linear types). */
  lemma LinearRoundTrip(d: Dialect, t: UnitTable, x: real, a: string, b: string, testing: bool,
                        ty: string, fa: real, fb: real)
    requires a != "arbitrary" && b != "arbitrary"
    requires LastTypeOf(t, a) == Some(ty) && LastTypeOf(t, b) == Some(ty)
    requires ty != "NX_ANGLE" && (d == Saxs ==> ty != "NX_TEMPERATURE")
    requires FactorOf(t, a) == Some(fa) && FactorOf(t, b) == Some(fb) && fa != 0.0 && fb != 0.0
    ensures var there := ConvertSpec(d, t, PFloat(x), a, b, testing).result;
      there.Ok? && ConvertSpec(d, t, there.value, b, a, testing) == Conversion(false, Ok(PFloat(x)))
  {
    ConvertLinear(d, t, x, a, b, testing, ty, fa, fb);
    ConvertLinear(d, t, x * (fa / fb), b, a, testing, ty, fb, fa);
    RatioCancels(x, fa, fb);
  }

  /** The same for angles. */
  lemma AngleRoundTrip(d: Dialect, t: UnitTable, x: real, a: string, b: string, testing: bool,
                       fa: real, turn: real, fb: real)
    requires a != "arbitrary" && b != "arbitrary"
    requires LastTypeOf(t, a) == Some("NX_ANGLE") && LastTypeOf(t, b) == Some("NX_ANGLE")
    requires LastTypeOf(t, "turn") == Some("NX_ANGLE")
    requires FactorOf(t, a) == Some(fa) && FactorOf(t, b) == Some(fb) && FactorOf(t, "turn") == Some(turn)
    requires fa != 0.0 && fb != 0.0 && turn != 0.0
    ensures var there := ConvertSpec(d, t, PFloat(x), a, b, testing).result;
      there.Ok? && ConvertSpec(d, t, there.value, b, a, testing) == Conversion(false, Ok(PFloat(x)))
  {
    var y := x * (fb / fa);
    ConvertAngle(d, t, x, a, b, testing, fa, turn, fb);
    ConvertAngle(d, t, y, b, a, testing, fb, turn, fa);
    RatioCancels(x, fb, fa);
    assert ConvertSpec(d, t, PFloat(y), b, a, testing).result.value == PFloat(x);
  }

  /** Converting a unit to itself is the identity, for every type but temperatures. */
  lemma SameUnitIdentity(d: Dialect, t: UnitTable, x: real, u: string, testing: bool, f: real)
    requires u != "arbitrary" && LastTypeOf(t, u).Some?
    requires d == Saxs ==> LastTypeOf(t, u) != Some("NX_TEMPERATURE")
    requires FactorOf(t, u) == Some(f) && f != 0.0
    requires LastTypeOf(t, u) == Some("NX_ANGLE") ==>
      LastTypeOf(t, "turn") == Some("NX_ANGLE") && FactorOf(t, "turn").Some? && FactorOf(t, "turn") != Some(0.0)
    ensures ConvertSpec(d, t, PFloat(x), u, u, testing) == Conversion(false, Ok(PFloat(x)))
  {
    SelfRatio(x, f);
    if LastTypeOf(t, u) == Some("NX_ANGLE") {
      ConvertAngle(d, t, x, u, u, testing, f, FactorOf(t, "turn").value, f);
    } else {
      ConvertLinear(d, t, x, u, u, testing, LastTypeOf(t, u).value, f, f);
    }
  }

  lemma SelfRatio(x: real, f: real)
    requires f != 0.0
    ensures x * (f / f) == x
  {
  }

  /** Temperatures (utils dialect): converting to "C" subtracts the offset of "C";
      converting to any other unit adds the offset of the start unit. */
  lemma ConvertTemperature(t: UnitTable, x: real, us: string, ue: string, testing: bool, s: real, e: real)
    requires us != "arbitrary" && ue != "arbitrary"
    requires LastTypeOf(t, us) == Some("NX_TEMPERATURE") && LastTypeOf(t, ue) == Some("NX_TEMPERATURE")
    requires FactorOf(t, us) == Some(s) && FactorOf(t, ue) == Some(e)
    ensures ConvertSpec(Saxs, t, PFloat(x), us, ue, testing)
         == Conversion(false, Ok(PFloat(if ue == "C" then x - e else x + s)))
  {
    ConvertSameType(Saxs, t, PFloat(x), us, ue, testing, "NX_TEMPERATURE");
    RescaleTemperature(t, x, us, ue, s, e);
  }

  /** To "C" and back to the start unit gives the number back. */
  lemma CelsiusRoundTrip(t: UnitTable, x: real, a: string, testing: bool, fa: real, fc: real)
    requires a != "arbitrary" && a != "C"
    requires LastTypeOf(t, a) == Some("NX_TEMPERATURE") && LastTypeOf(t, "C") == Some("NX_TEMPERATURE")
    requires FactorOf(t, a) == Some(fa) && FactorOf(t, "C") == Some(fc)
    ensures var there := ConvertSpec(Saxs, t, PFloat(x), a, "C", testing).result;
      there.Ok? && ConvertSpec(Saxs, t, there.value, "C", a, testing) == Conversion(false, Ok(PFloat(x)))
  {
    ConvertTemperature(t, x, a, "C", testing, fa, fc);
    ConvertTemperature(t, x - fc, "C", a, testing, fc, fa);
  }

  /** Where each unit of the package table belongs. */
  lemma PackageTypes(twoPi: real)
    ensures DistinctNames(PackageUnits(twoPi))
    ensures LastTypeOf(PackageUnits(twoPi), "mm") == Some("NX_LENGTH")
    ensures LastTypeOf(PackageUnits(twoPi), "nm") == Some("NX_LENGTH")
    ensures LastTypeOf(PackageUnits(twoPi), "deg") == Some("NX_ANGLE")
    ensures LastTypeOf(PackageUnits(twoPi), "rad") == Some("NX_ANGLE")
    ensures LastTypeOf(PackageUnits(twoPi), "turn") == Some("NX_ANGLE")
  {
    var t := PackageUnits(twoPi);
    LastTypeOfAt(t, "mm", 0);
    LastTypeOfAt(t, "nm", 0);
    LastTypeOfAt(t, "deg", 2);
    LastTypeOfAt(t, "rad", 2);
    LastTypeOfAt(t, "turn", 2);
  }

  lemma PackageFactors(twoPi: real)
    ensures FactorOf(PackageUnits(twoPi), "mm") == Some(0.001)
    ensures FactorOf(PackageUnits(twoPi), "nm") == Some(0.000000001)
    ensures FactorOf(PackageUnits(twoPi), "deg") == Some(360.0)
    ensures FactorOf(PackageUnits(twoPi), "turn") == Some(1.0)
    ensures FactorOf(PackageUnits(twoPi), "rad") == Some(twoPi)
  {
    var t := PackageUnits(twoPi);
    PackageTypes(twoPi);
    FactorsOfAt(t, 0);
    FactorsOfAt(t, 2);
  }

  /** In the package table, millimetres become nanometres by a factor of a million. */
  lemma MillimetresToNanometres(twoPi: real, x: real)
    ensures ConvertSpec(Legacy, PackageUnits(twoPi), PFloat(x), "mm", "nm", true)
         == Conversion(false, Ok(PFloat(x * 1000000.0)))
  {
    PackageTypes(twoPi);
    PackageFactors(twoPi);
    ConvertLinear(Legacy, PackageUnits(twoPi), x, "mm", "nm", true, "NX_LENGTH", 0.001, 0.000000001);
    assert 0.001 / 0.000000001 == 1000000.0;
  }

  /** In the package table, degrees become radians by `2 * pi / 360`. */
  lemma DegreesToRadians(twoPi: real, x: real)
    ensures ConvertSpec(Legacy, PackageUnits(twoPi), PFloat(x), "deg", "rad", true)
         == Conversion(false, Ok(PFloat(x * (twoPi / 360.0))))
  {
    PackageTypes(twoPi);
    PackageFactors(twoPi);
    ConvertAngle(Legacy, PackageUnits(twoPi), x, "deg", "rad", true, 360.0, 1.0, twoPi);
    assert ConvertSpec(Legacy, PackageUnits(twoPi), PFloat(x), "deg", "rad", true).result.value
        == PFloat(x * (twoPi / 360.0));
  }

  /** Across types, testing mode returns "fail" and the dialog mode raises. */
  lemma AcrossTypes(twoPi: real, x: real)
    ensures ConvertSpec(Legacy, PackageUnits(twoPi), PFloat(x), "mm", "deg", true).result == Ok(PStr("fail"))
    ensures ConvertSpec(Legacy, PackageUnits(twoPi), PFloat(x), "mm", "deg", false)
         == Conversion(true, Err(KeyError("deg")))
  {
    var t := PackageUnits(twoPi);
    PackageTypes(twoPi);
    FactorsOfAt(t, 0);
  }
}
