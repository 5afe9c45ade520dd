/** The Python values the repository moves around: scalars read from headers and
    widgets, the exceptions it raises, and the JSON documents of settings files. */
module PyValues {
  import opened Wrappers
  import opened Text

  /** The exceptions whose raising the model tracks. */
  datatype PyError =
    | KeyError(key: string)
    | ValueError(msg: string)
    | TypeError(msg: string)
    | IndexError
    | ZeroDivisionError
    | NameError(name: string)
    | AttributeError(name: string)
    | PermissionError
    | NotModelled(what: string)

  /** A Python value: `float` is taken as an exact real number. */
  datatype PyValue =
    | PNone
    | PBool(b: bool)
    | PInt(i: int)
    | PFloat(r: real)
    | PStr(s: string)
    | PList(items: seq<PyValue>)

  /** The number a value stands for in arithmetic (`True * 2.0 == 2.0`). */
  function Numeric(v: PyValue): Option<real> {
    match v
    case PBool(b) => Some(if b then 1.0 else 0.0)
    case PInt(i) => Some(i as real)
    case PFloat(r) => Some(r)
    case _ => None
  }

  /** `str(v)`; the decimal repr of floats and of lists is outside the model. */
  function PyStr(v: PyValue): Result<string, PyError> {
    match v
    case PNone => Ok("None")
    case PBool(b) => Ok(BoolToString(b))
    case PInt(i) => Ok(IntToString(i))
    case PStr(s) => Ok(s)
    case PFloat(_) => Err(NotModelled("repr of a float"))
    case PList(_) => Err(NotModelled("repr of a list"))
  }

  /** A parsed JSON document; objects keep their members in file order. */
  datatype Json =
    | JNull
    | JBool(b: bool)
    | JInt(i: int)
    | JStr(s: string)
    | JList(items: seq<Json>)
    | JObject(members: seq<Member>)

  datatype Member = Member(key: string, value: Json)

  function JsonSize(j: Json): nat {
    match j
    case JList(items) => 1 + ListSize(items)
    case JObject(ms) => 1 + MembersSize(ms)
    case _ => 1
  }

  function ListSize(items: seq<Json>): nat {
    if |items| == 0 then 0 else JsonSize(items[0]) + ListSize(items[1..])
  }

  function MembersSize(ms: seq<Member>): nat {
    if |ms| == 0 then 0 else 1 + JsonSize(ms[0].value) + MembersSize(ms[1..])
  }

  /** `d.get(key)` on a JSON object (json.load leaves keys distinct). */
  function Get(ms: seq<Member>, key: string): (r: Option<Json>)
    ensures r.Some? ==> MembersSize(ms) > JsonSize(r.value)
  {
    if |ms| == 0 then None
    else if ms[0].key == key then Some(ms[0].value)
    else Get(ms[1..], key)
  }

  /** `d[key] = v`: an existing member keeps its place, a new one goes last. */
  function SetMember(ms: seq<Member>, key: string, v: Json): (r: seq<Member>)
    ensures Get(r, key) == Some(v)
    ensures forall k | k != key :: Get(r, k) == Get(ms, k)
    decreases |ms|
  {
    if |ms| == 0 then [Member(key, v)]
    else if ms[0].key == key then [Member(key, v)] + ms[1..]
    else [ms[0]] + SetMember(ms[1..], key, v)
  }

  /** `del d[key]`, on an object whose keys are distinct. */
  function DelMember(ms: seq<Member>, key: string): (r: seq<Member>)
    ensures Get(r, key) == None
    ensures forall k | k != key :: Get(r, k) == Get(ms, k)
    decreases |ms|
  {
    if |ms| == 0 then []
    else if ms[0].key == key then DelMember(ms[1..], key)
    else [ms[0]] + DelMember(ms[1..], key)
  }

  /** Python truthiness of a JSON value. */
  predicate Truthy(j: Json) {
    match j
    case JNull => false
    case JBool(b) => b
    case JInt(i) => i != 0
    case JStr(s) => s != ""
    case JList(items) => items != []
    case JObject(ms) => ms != []
  }

  /** `str(j)` of a value taken from a JSON document. */
  function JsonStr(j: Json): Result<string, PyError> {
    match j
    case JNull => Ok("None")
    case JBool(b) => Ok(BoolToString(b))
    case JInt(i) => Ok(IntToString(i))
    case JStr(s) => Ok(s)
    case JList(_) => Err(NotModelled("repr of a list"))
    case JObject(_) => Err(NotModelled("repr of a dict"))
  }

  /** The value h5py stores for a JSON value written as an attribute. */
  function JsonToPy(j: Json): Result<PyValue, PyError>
    decreases JsonSize(j), 1
  {
    match j
    case JNull => Ok(PNone)
    case JBool(b) => Ok(PBool(b))
    case JInt(i) => Ok(PInt(i))
    case JStr(s) => Ok(PStr(s))
    case JList(items) =>
      var vs :- ListToPy(items);
      Ok(PList(vs))
    case JObject(_) => Err(TypeError("a dict cannot be stored as an attribute"))
  }

  function ListToPy(items: seq<Json>): (r: Result<seq<PyValue>, PyError>)
    ensures r.Ok? ==> |r.value| == |items|
    decreases ListSize(items), 2
  {
    if |items| == 0 then Ok([])
    else
      var v :- JsonToPy(items[0]);
      var vs :- ListToPy(items[1..]);
      Ok([v] + vs)
  }
}
