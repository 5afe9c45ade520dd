/** The save step of the configuration editor, saxs_nxformat/create_config.py: the
    `fill_config` recursion gives every dataset and attribute entry of the
    configuration tree its `value` (the single possible value, or what its widget
    shows) and removes the widget from it, then the tree is written under the name
    `settings_EDF2NX_<instrument>_<stamp>.json`.

    The widget an entry carries is the member `associated_widget`; the value of that
    member stands for the widget's current text, which is what `.get()` returns. */
module SaxsConfig {
  import opened Wrappers
  import opened Text
  import opened PyValues
  import opened Layout

  const WidgetKey := "associated_widget"

  /** The keys of a JSON object, each once: the keys of the `dict` `json.load` builds. */
  function ObjectKeys(ms: seq<Member>): set<string> {
    set m | m in ms :: m.key
  }

  /** `len(x)` for the `possible value` of an entry; a `dict` counts its keys. */
  function PyLen(j: Json): Result<nat, PyError> {
    match j
    case JList(items) => Ok(|items|)
    case JStr(s) => Ok(|s|)
    case JObject(ms) => Ok(|ObjectKeys(ms)|)
    case _ => Err(TypeError("object has no len()"))
  }

  /** `x[i]` for the `possible value` of an entry; the keys of a JSON object are all
      strings, so indexing one with an `int` raises `KeyError(i)`. */
  function PyIndex(j: Json, i: nat): Result<Json, PyError> {
    match j
    case JList(items) => if i < |items| then Ok(items[i]) else Err(IndexError)
    case JStr(s) => if i < |s| then Ok(JStr([s[i]])) else Err(IndexError)
    case JObject(_) => Err(KeyError(IntToString(i)))
    case _ => Err(TypeError("object is not subscriptable"))
  }

  /** `value.get("possible value", [0])` */
  function Possible(ms: seq<Member>): Json {
    var p := PyValues.Get(ms, "possible value");
    if p.Some? then p.value else JList([JInt(0)])
  }

  predicate IsLeafType(elementType: string) {
    Lower(elementType) == "dataset" || Lower(elementType) == "attribute"
  }

  /** The members of a dataset or attribute entry once it has its `value`. */
  function LeafValue(key: string, ms: seq<Member>): (r: Result<seq<Member>, PyError>)
    ensures r.Ok? ==> PyValues.Get(r.value, "value").Some? && PyValues.Get(r.value, WidgetKey).None?
    ensures r.Ok? ==> forall k | k != "value" && k != WidgetKey :: PyValues.Get(r.value, k) == PyValues.Get(ms, k)
  {
    var possible := Possible(ms);
    var n :- PyLen(possible);
    if n == 1 then
      var first :- PyIndex(possible, 0);
      var filled := SetMember(ms, "value", first);
      Ok(if PyValues.Get(ms, WidgetKey).Some? then DelMember(filled, WidgetKey) else filled)
    else
      var w := PyValues.Get(ms, WidgetKey);
      if w.None? then Err(KeyError(WidgetKey))
      else if key == "@units" then
        var second :- PyIndex(possible, 1);
        Ok(DelMember(SetMember(ms, "value", JList([w.value, second])), WidgetKey))
      else Ok(DelMember(SetMember(ms, "value", w.value), WidgetKey))
  }

  /** The `value` an entry receives: its single possible value; else, for `@units`, the
      unit its widget shows and the second possible value; else the widget's text. A
      multi-valued entry without a widget raises `KeyError`. */
  lemma LeafValueCases(key: string, ms: seq<Member>)
    requires Possible(ms).JList?
    ensures var p := Possible(ms).items; var r := LeafValue(key, ms);
      |p| == 1 ==> r.Ok? && PyValues.Get(r.value, "value") == Some(p[0])
    ensures var p := Possible(ms).items; var r := LeafValue(key, ms); var w := PyValues.Get(ms, WidgetKey);
      |p| != 1 ==>
        && (r.Ok? <==> w.Some? && (key == "@units" ==> |p| >= 2))
        && (w.None? ==> r == Err(KeyError(WidgetKey)))
        && (r.Ok? && key == "@units" ==> PyValues.Get(r.value, "value") == Some(JList([w.value, p[1]])))
        && (r.Ok? && key != "@units" ==> PyValues.Get(r.value, "value") == w)
  {
  }
  /** A `possible value` that is a JSON object: one key makes `possible_value[0]` raise
      `KeyError(0)`; otherwise the widget is read, and for `@units` the lookup
      `value["possible value"][1]` then raises `KeyError(1)`. */
  lemma LeafValueOfObject(key: string, ms: seq<Member>)
    requires Possible(ms).JObject?
    ensures var r := LeafValue(key, ms);
      |ObjectKeys(Possible(ms).members)| == 1 ==> r == Err(KeyError("0"))
    ensures var r := LeafValue(key, ms); var w := PyValues.Get(ms, WidgetKey);
      |ObjectKeys(Possible(ms).members)| != 1 ==>
        && (w.None? ==> r == Err(KeyError(WidgetKey)))
        && (w.Some? && key == "@units" ==> r == Err(KeyError("1")))
        && (w.Some? && key != "@units" ==> r.Ok? && PyValues.Get(r.value, "value") == w)
  {
    assert IntToString(0) == "0" && IntToString(1) == "1";
  }


  /** `fill_config(element)`: the tree after the call, and the exception that stopped
      it. The entries before the failing one are already filled, as the dictionary is
      updated in place. */
  function FillConfig(element: Json): (Json, Option<PyError>)
    decreases JsonSize(element), 2
  {
    if !element.JObject? then (element, Some(AttributeError("items")))
    else
      var (ms, err) := FillMembers(element.members);
      (JObject(ms), err)
  }

  function FillMembers(ms: seq<Member>): (r: (seq<Member>, Option<PyError>))
    decreases MembersSize(ms), 1
  {
    if |ms| == 0 then ([], None)
    else
      var (v, err) := FillEntry(ms[0].key, ms[0].value);
      if err.Some? then ([Member(ms[0].key, v)] + ms[1..], err)
      else
        var (rest, err') := FillMembers(ms[1..]);
        ([Member(ms[0].key, v)] + rest, err')
  }

  /** One iteration of the loop over `element.items()`. */
  function FillEntry(key: string, value: Json): (Json, Option<PyError>)
    decreases JsonSize(value), 0
  {
    if !value.JObject? then (value, Some(AttributeError("get")))
    else
      var ms := value.members;
      var elementType := PyValues.Get(ms, "element type");
      var content := PyValues.Get(ms, "content");
      if elementType.None? || !elementType.value.JStr? then (value, Some(AttributeError("lower")))
      else
        var leaf := if IsLeafType(elementType.value.s) then LeafValue(key, ms) else Ok(ms);
        if leaf.Err? then (value, Some(leaf.error))
        else if content.Some? && Truthy(content.value) then
          var (filled, err) := FillConfig(content.value);
          (JObject(SetMember(leaf.value, "content", filled)), err)
        else (JObject(leaf.value), None)
  }

  // ------------------------------------------------------------ what is filled

  /** Every dataset and attribute entry, at every depth, has its `value` and no widget. */
  predicate Filled(element: Json)
    decreases JsonSize(element), 2
  {
    element.JObject? && MembersFilled(element.members)
  }

  predicate MembersFilled(ms: seq<Member>)
    decreases MembersSize(ms), 1
  {
    |ms| == 0 || (EntryFilled(ms[0].value) && MembersFilled(ms[1..]))
  }

  predicate EntryFilled(value: Json)
    decreases JsonSize(value), 0
  {
    && value.JObject?
    && var elementType := PyValues.Get(value.members, "element type");
    && elementType.Some? && elementType.value.JStr?
    && (IsLeafType(elementType.value.s) ==>
          PyValues.Get(value.members, "value").Some? && PyValues.Get(value.members, WidgetKey).None?)
    && var content := PyValues.Get(value.members, "content");
    && (content.Some? && Truthy(content.value) ==> Filled(content.value))
  }

  /** A `fill_config` that returns leaves every nested entry filled: the recursion
      reaches every `content`. */
  lemma {:induction false} FillConfigFills(element: Json)
    ensures FillConfig(element).1.None? ==> Filled(FillConfig(element).0)
    decreases JsonSize(element), 2
  {
    if element.JObject? {
      FillMembersFill(element.members);
    }
  }

  lemma {:induction false} FillMembersFill(ms: seq<Member>)
    ensures FillMembers(ms).1.None? ==> MembersFilled(FillMembers(ms).0)
    decreases MembersSize(ms), 1
  {
    if |ms| > 0 {
      FillEntryFills(ms[0].key, ms[0].value);
      FillMembersFill(ms[1..]);
      var (v, err) := FillEntry(ms[0].key, ms[0].value);
      if err.None? {
        var (rest, err') := FillMembers(ms[1..]);
        var r := [Member(ms[0].key, v)] + rest;
        assert r[1..] == rest;
      }
    }
  }

  lemma {:induction false} FillEntryFills(key: string, value: Json)
    ensures FillEntry(key, value).1.None? ==> EntryFilled(FillEntry(key, value).0)
    decreases JsonSize(value), 0
  {
    var (v, err) := FillEntry(key, value);
    if err.None? {
      var ms := value.members;
      var t := PyValues.Get(ms, "element type").value.s;
      var leaf := LeafFacts(key, ms, t);
      var content := PyValues.Get(ms, "content");
      if content.Some? && Truthy(content.value) {
        FillConfigFills(content.value);
        FilledEntry(leaf, t, FillConfig(content.value).0);
      } else {
        FilledPlain(leaf, t);
      }
    }
  }

  /** The members an entry has before its `content` is filled. */
  lemma LeafFacts(key: string, ms: seq<Member>, t: string) returns (leaf: seq<Member>)
    requires PyValues.Get(ms, "element type") == Some(JStr(t))
    requires IsLeafType(t) ==> LeafValue(key, ms).Ok?
    ensures leaf == if IsLeafType(t) then LeafValue(key, ms).value else ms
    ensures PyValues.Get(leaf, "element type") == Some(JStr(t))
    ensures PyValues.Get(leaf, "content") == PyValues.Get(ms, "content")
    ensures IsLeafType(t) ==> PyValues.Get(leaf, "value").Some? && PyValues.Get(leaf, WidgetKey).None?
  {
    if IsLeafType(t) {
      leaf := LeafValue(key, ms).value;
      LeafKeeps(key, ms, "element type");
      LeafKeeps(key, ms, "content");
    } else {
      leaf := ms;
    }
  }

  lemma LeafKeeps(key: string, ms: seq<Member>, k: string)
    requires LeafValue(key, ms).Ok? && k != "value" && k != WidgetKey
    ensures PyValues.Get(LeafValue(key, ms).value, k) == PyValues.Get(ms, k)
  {
  }

  lemma FilledPlain(leaf: seq<Member>, elementType: string)
    requires PyValues.Get(leaf, "element type") == Some(JStr(elementType))
    requires IsLeafType(elementType) ==> PyValues.Get(leaf, "value").Some? && PyValues.Get(leaf, WidgetKey).None?
    requires var c := PyValues.Get(leaf, "content"); !(c.Some? && Truthy(c.value))
    ensures EntryFilled(JObject(leaf))
  {
  }

  lemma FilledEntry(leaf: seq<Member>, elementType: string, filled: Json)
    requires PyValues.Get(leaf, "element type") == Some(JStr(elementType))
    requires IsLeafType(elementType) ==> PyValues.Get(leaf, "value").Some? && PyValues.Get(leaf, WidgetKey).None?
    requires Filled(filled)
    ensures EntryFilled(JObject(SetMember(leaf, "content", filled)))
  {
    var ms := SetMember(leaf, "content", filled);
    assert "content"[0] != "element type"[0] && "content"[0] != "value"[0] && "content"[0] != WidgetKey[0];
    assert PyValues.Get(ms, "element type") == PyValues.Get(leaf, "element type");
    assert PyValues.Get(ms, "value") == PyValues.Get(leaf, "value");
    assert PyValues.Get(ms, WidgetKey) == PyValues.Get(leaf, WidgetKey);
  }

  /** Entries that are neither datasets nor attributes (groups) keep their members,
      apart from the filled `content`. */
  lemma GroupsGetNoValue(key: string, value: Json)
    requires value.JObject? && FillEntry(key, value).1.None?
    requires var t := PyValues.Get(value.members, "element type"); t.Some? && t.value.JStr? && !IsLeafType(t.value.s)
    ensures FillEntry(key, value).0.JObject?
    ensures forall k | k != "content" :: PyValues.Get(FillEntry(key, value).0.members, k) == PyValues.Get(value.members, k)
  {
  }

  /** The editor's `Setting` window holding the configuration tree it edits. */
  class Setting {
    var config: Json

    constructor (config: Json)
      ensures this.config == config
    {
      this.config := config;
    }

    /** create_config.py `_save_settings`: an exception of `fill_config` leaves the
        tree as far as it was filled; an instrument name holding `_` leaves it filled
        and writes nothing; otherwise the file is written under the returned name and
        the tree emptied. The time stamp is a parameter. */
    method SaveSettings(instrument: string, stamp: string) returns (r: Result<Option<string>, PyError>)
      modifies this
      ensures var (filled, err) := FillConfig(old(config));
        if err.Some? then config == filled && r == Err(err.value)
        else if '_' in instrument then config == filled && r == Ok(None)
        else config == JObject([]) && r == Ok(ConfigSettingsName(instrument, stamp)) && r.value.Some?
    {
      var (filled, err) := FillConfig(config);
      config := filled;
      if err.Some? {
        return Err(err.value);
      }
      if '_' in instrument {
        return Ok(None);
      }
      r := Ok(ConfigSettingsName(instrument, stamp));
      config := JObject([]);
    }
  }
}
