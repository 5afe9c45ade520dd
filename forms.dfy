/** The form logic of the two windows of the package and of the automatic conversion:
    `autofill` of package/auto_edf2h5.py and the completion check shared by
    package/gui_edf2h5.py and package/gui_modify_h5.py. A window is given as the
    sequence of its widgets in creation order, each reduced to what the code reads
    from it. */
module Forms {
  import opened Wrappers
  import opened Text
  import opened PyValues
  import opened Parsing
  import opened H5
  import opened Nxsas

  // ------------------------------------------------------------ auto_edf2h5.autofill

  /** The settings file: each NeXus key (as text) mapped to the list `[edf key, unit]`. */
  type AutofillSettings = map<string, seq<PyValue>>

  /** The EDF header, as `dict(file_edf.header)`. */
  type Header = map<string, string>

  /** `s[i]` on a Python list. */
  function Item(s: seq<PyValue>, i: nat): (r: Result<PyValue, PyError>)
    ensures r.Ok? <==> i < |s|
    ensures r.Ok? ==> r.value == s[i]
    ensures r.Err? ==> r.error == IndexError
  {
    if i < |s| then Ok(s[i]) else Err(IndexError)
  }

  /** One key of the autofill loop: a key named in the settings gets the header value
      of its EDF key, read by `string_2_value` after lower-casing, and its units when it
      has a `units` attribute. */
  function AutofillEntry(e: Entry, settings: AutofillSettings, header: Header): Result<Entry, PyError> {
    var key := PathText(e.path);
    if key !in settings then Ok(e)
    else
      var first :- Item(settings[key], 0);
      var edfKey :- PyStr(first);
      var second :- Item(settings[key], 1);
      var unit :- PyStr(second);
      if edfKey !in header then Err(KeyError(edfKey))
      else
        var v :- LoweredValue(Lower(header[edfKey]));
        var attrs := if "units" in e.param.attrs then e.param.attrs["units" := unit] else e.param.attrs;
        Ok(Entry(e.path, e.param.(value := v, attrs := attrs)))
  }

  /** The autofilled copy of `dictParamNXsas`, or the first exception the loop meets. */
  function AutofillSpec(params: ParamDict, settings: AutofillSettings, header: Header): Result<ParamDict, PyError>
    decreases |params|
  {
    if params == [] then Ok([])
    else
      var init :- AutofillSpec(params[..|params| - 1], settings, header);
      var e :- AutofillEntry(params[|params| - 1], settings, header);
      Ok(init + [e])
  }

  /** `autofill(file_path, settings_path)` on the loaded settings and EDF header (the
      image is handed back untouched and is left out here). */
  method Autofill(params: ParamDict, settings: AutofillSettings, header: Header) returns (r: Result<ParamDict, PyError>)
    ensures r == AutofillSpec(params, settings, header)
  {
    var filled := params;
    var i := 0;
    while i < |params|
      invariant 0 <= i <= |params| && |filled| == |params|
      invariant AutofillSpec(params[..i], settings, header) == Ok(filled[..i])
      invariant filled[i..] == params[i..]
    {
      var e := FillOne(params[i], settings, header);
      if e.Err? {
        AutofillAfterError(params, settings, header, i + 1);
        return Err(e.error);
      }
      AutofillNext(params, settings, header, i, filled[..i]);
      filled := filled[i := e.value];
      assert filled[..i + 1] == filled[..i] + [e.value];
      i := i + 1;
    }
    assert params[..i] == params && filled[..i] == filled;
    return Ok(filled);
  }

  /** The body of the autofill loop for one key, updating the copied entry. */
  method FillOne(e: Entry, settings: AutofillSettings, header: Header) returns (r: Result<Entry, PyError>)
    ensures r == AutofillEntry(e, settings, header)
  {
    var key := PathText(e.path);
    if key !in settings {
      return Ok(e);
    }
    var first := Item(settings[key], 0);
    if first.Err? {
      return Err(first.error);
    }
    var edfKey := PyStr(first.value);
    if edfKey.Err? {
      return Err(edfKey.error);
    }
    var second := Item(settings[key], 1);
    if second.Err? {
      return Err(second.error);
    }
    var unit := PyStr(second.value);
    if unit.Err? {
      return Err(unit.error);
    }
    if edfKey.value !in header {
      return Err(KeyError(edfKey.value));
    }
    var v := LoweredValue(Lower(header[edfKey.value]));
    if v.Err? {
      return Err(v.error);
    }
    var attrs := e.param.attrs;
    if "units" in attrs {
      attrs := attrs["units" := unit.value];
    }
    return Ok(Entry(e.path, e.param.(value := v.value, attrs := attrs)));
  }

  lemma AutofillNext(params: ParamDict, settings: AutofillSettings, header: Header, i: nat, done: ParamDict)
    requires i < |params| && AutofillSpec(params[..i], settings, header) == Ok(done)
    requires AutofillEntry(params[i], settings, header).Ok?
    ensures AutofillSpec(params[..i + 1], settings, header) == Ok(done + [AutofillEntry(params[i], settings, header).value])
  {
    assert params[..i + 1][..i] == params[..i];
  }

  /** Once an entry raises, the whole autofill raises that exception. */
  lemma {:induction false} AutofillAfterError(params: ParamDict, settings: AutofillSettings, header: Header, n: nat)
    requires 0 < n <= |params|
    requires AutofillSpec(params[..n - 1], settings, header).Ok?
    requires AutofillEntry(params[n - 1], settings, header).Err?
    ensures AutofillSpec(params, settings, header) == Err(AutofillEntry(params[n - 1], settings, header).error)
  {
    assert params[..n][..n - 1] == params[..n - 1];
    assert AutofillSpec(params[..n], settings, header) == Err(AutofillEntry(params[n - 1], settings, header).error);
    AutofillPrefixError(params, settings, header, n);
  }

  /** An exception in a prefix is the exception of every longer prefix. */
  lemma {:induction false} AutofillPrefixError(params: ParamDict, settings: AutofillSettings, header: Header, n: nat)
    requires 0 < n <= |params|
    requires AutofillSpec(params[..n], settings, header).Err?
    ensures AutofillSpec(params, settings, header) == AutofillSpec(params[..n], settings, header)
    decreases |params| - n
  {
    if n < |params| {
      assert params[..n + 1][..n] == params[..n];
      AutofillPrefixError(params, settings, header, n + 1);
    } else {
      assert params[..n] == params;
    }
  }

  /** The autofill succeeds exactly when every key does, and then gives, key by key, what
      the loop body gives. */
  lemma {:induction false} AutofillOkIff(params: ParamDict, settings: AutofillSettings, header: Header)
    ensures AutofillSpec(params, settings, header).Ok? <==>
      forall i | 0 <= i < |params| :: AutofillEntry(params[i], settings, header).Ok?
    ensures AutofillSpec(params, settings, header).Ok? ==>
      && |AutofillSpec(params, settings, header).value| == |params|
      && forall i | 0 <= i < |params| ::
           AutofillSpec(params, settings, header).value[i] == AutofillEntry(params[i], settings, header).value
    decreases |params|
  {
    if params != [] {
      var init := params[..|params| - 1];
      AutofillOkIff(init, settings, header);
      assert forall i | 0 <= i < |init| :: init[i] == params[i];
    }
  }

  /** A key the settings do not name keeps its default entry. */
  lemma AutofillKeepsAbsent(params: ParamDict, settings: AutofillSettings, header: Header, i: nat)
    requires AutofillSpec(params, settings, header).Ok? && i < |params|
    requires PathText(params[i].path) !in settings
    ensures |AutofillSpec(params, settings, header).value| == |params|
    ensures AutofillSpec(params, settings, header).value[i] == params[i]
  {
    AutofillOkIff(params, settings, header);
  }

  /** A key the settings map to `[edfKey, unit]` takes `string_2_value` of the lower-cased
      header value as its value, and `unit` as its units when it has units; its other
      attributes, name and options are kept. */
  lemma AutofillSetsPresent(params: ParamDict, settings: AutofillSettings, header: Header, i: nat,
                            edfKey: string, unit: string)
    requires AutofillSpec(params, settings, header).Ok? && i < |params|
    requires PathText(params[i].path) in settings
    requires var s := settings[PathText(params[i].path)]; |s| >= 2 && s[0] == PStr(edfKey) && s[1] == PStr(unit)
    ensures |AutofillSpec(params, settings, header).value| == |params|
    ensures edfKey in header && LoweredValue(Lower(header[edfKey])).Ok?
    ensures var e := AutofillSpec(params, settings, header).value[i];
      && e.path == params[i].path
      && e.param.name == params[i].param.name && e.param.options == params[i].param.options
      && e.param.value == LoweredValue(Lower(header[edfKey])).value
      && e.param.attrs.Keys == params[i].param.attrs.Keys
      && (forall k | k in e.param.attrs && k != "units" :: e.param.attrs[k] == params[i].param.attrs[k])
      && ("units" in params[i].param.attrs ==> e.param.attrs["units"] == unit)
  {
    AutofillOkIff(params, settings, header);
  }

  /** Reaching a key whose EDF key is not in the header raises `KeyError` with that key. */
  lemma AutofillMissingHeaderKey(params: ParamDict, settings: AutofillSettings, header: Header, i: nat,
                                 edfKey: string, unit: string)
    requires i < |params| && forall j | 0 <= j < i :: AutofillEntry(params[j], settings, header).Ok?
    requires PathText(params[i].path) in settings
    requires var s := settings[PathText(params[i].path)]; |s| >= 2 && s[0] == PStr(edfKey) && s[1] == PStr(unit)
    requires edfKey !in header
    ensures AutofillSpec(params, settings, header) == Err(KeyError(edfKey))
  {
    var init := params[..i];
    assert forall j | 0 <= j < |init| :: init[j] == params[j];
    AutofillOkIff(init, settings, header);
    AutofillAfterError(params, settings, header, i + 1);
  }

  // ------------------------------------------------------------ the widgets of a window

  /** The two kinds of value field: an entry named `valueEntry<n>` and a combobox named
      `valueCombo<n>`. */
  datatype ValueKind = ValueEntry | ValueCombo

  /** A widget of a window, reduced to what the code reads from it: the text of a label,
      of a value field or of a combobox named `comboUnit<n>` or `comboParam<n>`. */
  datatype Widget =
    | Label(text: string)
    | ValueField(kind: ValueKind, text: string)
    | UnitCombo(text: string)
    | ParamCombo(text: string)
    | Other

  /** The text of the last label among `ws`, `""` before any label: the key the loops
      hold when they reach the widget after `ws`. */
  function LastLabel(ws: seq<Widget>): string
    decreases |ws|
  {
    if ws == [] then ""
    else if ws[|ws| - 1].Label? then ws[|ws| - 1].text
    else LastLabel(ws[..|ws| - 1])
  }

  /** `d[key]` for a key given as text: the position of the entry with that key. */
  function IndexOfKey(d: ParamDict, key: string): (r: Option<nat>)
    ensures r.Some? ==> r.value < |d| && PathText(d[r.value].path) == key
    ensures r.None? <==> forall i | 0 <= i < |d| :: PathText(d[i].path) != key
    decreases |d|
  {
    if d == [] then None
    else if PathText(d[|d| - 1].path) == key && IndexOfKey(d[..|d| - 1], key).None? then Some(|d| - 1)
    else IndexOfKey(d[..|d| - 1], key)
  }

  /** Two dictionaries with the same keys and names in the same order. */
  predicate SameKeys(a: ParamDict, b: ParamDict) {
    |a| == |b| && forall i | 0 <= i < |a| :: a[i].path == b[i].path && a[i].param.name == b[i].param.name
  }

  // ------------------------------------------------------------ _check_completion

  /** The acceptance rule for a value field: not required, or required and filled with
      something other than `none` (in any case) or nothing. */
  predicate Accepted(required: string, text: string) {
    (required == "true" && Lower(text) !in ["none", ""]) || required == "false"
  }

  /** Why the completion loop stopped early: a required field left empty (under the
      key it belongs to), or an exception. */
  datatype Stop = Rejected(key: string) | Raised(error: PyError)

  /** The state of the loop: the current key, the filled copy, and the early stop if any. */
  datatype Scan = Scan(key: string, filled: ParamDict, stop: Option<Stop>)

  function SetValue(d: ParamDict, i: nat, v: PyValue): ParamDict
    requires i < |d|
  {
    d[i := Entry(d[i].path, d[i].param.(value := v))]
  }

  function SetUnits(d: ParamDict, i: nat, u: string): ParamDict
    requires i < |d|
  {
    d[i := Entry(d[i].path, d[i].param.(attrs := d[i].param.attrs["units" := u]))]
  }

  /** One widget of the completion loop. It keeps the keys and names of the copy, and
      only a label changes the key. */
  function Visit(params: ParamDict, s: Scan, w: Widget): (r: Scan)
    requires s.stop.None?
    ensures SameKeys(r.filled, s.filled)
    ensures r.stop.None? ==> r.key == if w.Label? then w.text else s.key
  {
    match w
    case Label(t) => s.(key := t)
    case ValueField(_, t) =>
      var k := IndexOfKey(params, s.key);
      if k.None? then s.(stop := Some(Raised(KeyError(s.key))))
      else if "EX_required" !in params[k.value].param.attrs then s.(stop := Some(Raised(KeyError("EX_required"))))
      else if !Accepted(params[k.value].param.attrs["EX_required"], t) then s.(stop := Some(Rejected(s.key)))
      else
        var v := LoweredValue(Lower(t));
        var m := IndexOfKey(s.filled, s.key);
        if v.Err? then s.(stop := Some(Raised(v.error)))
        else if m.None? then s.(stop := Some(Raised(KeyError(s.key))))
        else s.(filled := SetValue(s.filled, m.value, v.value))
    case UnitCombo(t) =>
      var m := IndexOfKey(s.filled, s.key);
      if m.None? then s.(stop := Some(Raised(KeyError(s.key))))
      else s.(filled := SetUnits(s.filled, m.value, Lower(t)))
    case _ => s
  }

  /** The completion loop over the widgets in order, stopping at the first rejection or
      exception. */
  function CompletionScan(params: ParamDict, ws: seq<Widget>): Scan
    decreases |ws|
  {
    if ws == [] then Scan("", params, None)
    else
      var s := CompletionScan(params, ws[..|ws| - 1]);
      if s.stop.Some? then s else Visit(params, s, ws[|ws| - 1])
  }

  /** What `_check_completion` ends with: the filled dictionary handed on to the writer,
      a required field left empty (an error box, no file), or an exception. */
  datatype Completion = Filled(params: ParamDict) | Refused(key: string) | Failed(error: PyError)

  function CompletionOf(s: Scan): Completion {
    match s.stop
    case None => Filled(s.filled)
    case Some(Rejected(k)) => Refused(k)
    case Some(Raised(e)) => Failed(e)
  }

  /** The widget loop of `_check_completion` (package/gui_edf2h5.py and
      package/gui_modify_h5.py), on a deep copy of `dictParamNXsas`. */
  method CheckCompletion(params: ParamDict, ws: seq<Widget>) returns (r: Completion)
    ensures r == CompletionOf(CompletionScan(params, ws))
  {
    var key := "";
    var filled := params;
    var i := 0;
    while i < |ws|
      invariant 0 <= i <= |ws|
      invariant CompletionScan(params, ws[..i]) == Scan(key, filled, None)
    {
      assert ws[..i + 1][..i] == ws[..i];
      var w := ws[i];
      if w.Label? {
        key := w.text;
      } else if w.ValueField? {
        var k := IndexOfKey(params, key);
        if k.None? {
          CompletionAfterStop(params, ws, i + 1);
          return Failed(KeyError(key));
        }
        var attrs := params[k.value].param.attrs;
        if "EX_required" !in attrs {
          CompletionAfterStop(params, ws, i + 1);
          return Failed(KeyError("EX_required"));
        }
        if !Accepted(attrs["EX_required"], w.text) {
          CompletionAfterStop(params, ws, i + 1);
          return Refused(key);
        }
        var v := LoweredValue(Lower(w.text));
        if v.Err? {
          CompletionAfterStop(params, ws, i + 1);
          return Failed(v.error);
        }
        var m := IndexOfKey(filled, key);
        if m.None? {
          CompletionAfterStop(params, ws, i + 1);
          return Failed(KeyError(key));
        }
        filled := SetValue(filled, m.value, v.value);
      } else if w.UnitCombo? {
        var m := IndexOfKey(filled, key);
        if m.None? {
          CompletionAfterStop(params, ws, i + 1);
          return Failed(KeyError(key));
        }
        filled := SetUnits(filled, m.value, Lower(w.text));
      }
      i := i + 1;
    }
    assert ws[..i] == ws;
    return Filled(filled);
  }

  /** Once the loop stops, it stays stopped. */
  lemma {:induction false} CompletionAfterStop(params: ParamDict, ws: seq<Widget>, n: nat)
    requires 0 < n <= |ws| && CompletionScan(params, ws[..n]).stop.Some?
    ensures CompletionScan(params, ws) == CompletionScan(params, ws[..n])
    decreases |ws| - n
  {
    if n < |ws| {
      assert ws[..n + 1][..n] == ws[..n];
      CompletionAfterStop(params, ws, n + 1);
    } else {
      assert ws[..n] == ws;
    }
  }

  /** Finding a key only looks at the keys. */
  lemma {:induction false} IndexOfSameKeys(a: ParamDict, b: ParamDict, key: string)
    requires SameKeys(a, b)
    ensures IndexOfKey(a, key) == IndexOfKey(b, key)
    decreases |a|
  {
    if a != [] {
      IndexOfSameKeys(a[..|a| - 1], b[..|b| - 1], key);
    }
  }

  /** The loop keeps the keys and the names of the copy, and while it runs its key is the
      text of the last label. */
  lemma {:induction false} ScanShape(params: ParamDict, ws: seq<Widget>)
    ensures SameKeys(CompletionScan(params, ws).filled, params)
    ensures CompletionScan(params, ws).stop.None? ==> CompletionScan(params, ws).key == LastLabel(ws)
    decreases |ws|
  {
    if ws != [] {
      var init := ws[..|ws| - 1];
      ScanShape(params, init);
      var s := CompletionScan(params, init);
      if s.stop.None? {
        SameKeysTrans(Visit(params, s, ws[|ws| - 1]).filled, s.filled, params);
      }
    }
  }

  lemma SameKeysTrans(a: ParamDict, b: ParamDict, c: ParamDict)
    requires SameKeys(a, b) && SameKeys(b, c)
    ensures SameKeys(a, c)
  {
  }

  /** A loop that did not stop did not stop on a prefix either. */
  lemma RunningPrefix(params: ParamDict, ws: seq<Widget>, n: nat)
    requires 0 < n <= |ws| && CompletionScan(params, ws).stop.None?
    ensures CompletionScan(params, ws[..n]).stop.None?
  {
    if CompletionScan(params, ws[..n]).stop.Some? {
      CompletionAfterStop(params, ws, n);
    }
  }

  /** A filled dictionary means that every value field was accepted under the key of the
      label before it. */
  lemma CompletionFilledAccepted(params: ParamDict, ws: seq<Widget>, j: nat)
    requires CompletionOf(CompletionScan(params, ws)).Filled?
    requires j < |ws| && ws[j].ValueField?
    ensures var k := IndexOfKey(params, LastLabel(ws[..j]));
      && k.Some?
      && "EX_required" in params[k.value].param.attrs
      && Accepted(params[k.value].param.attrs["EX_required"], ws[j].text)
  {
    RunningPrefix(params, ws, j + 1);
    var p := ws[..j + 1];
    assert p[..|p| - 1] == ws[..j] && p[|p| - 1] == ws[j];
    var s := CompletionScan(params, ws[..j]);
    assert s.stop.None?;
    ScanShape(params, ws[..j]);
    VisitAccepted(params, s, ws[j]);
  }

  /** A value field the loop gets past belongs to a known key and is accepted. */
  lemma VisitAccepted(params: ParamDict, s: Scan, w: Widget)
    requires s.stop.None? && w.ValueField? && Visit(params, s, w).stop.None?
    ensures var k := IndexOfKey(params, s.key);
      && k.Some?
      && "EX_required" in params[k.value].param.attrs
      && Accepted(params[k.value].param.attrs["EX_required"], w.text)
  {
  }

  /** A refusal comes from a value field under a known key that is not accepted. */
  lemma VisitRefused(params: ParamDict, s: Scan, w: Widget)
    requires s.stop.None? && Visit(params, s, w).stop.Some? && Visit(params, s, w).stop.value.Rejected?
    ensures w.ValueField? && Visit(params, s, w).stop.value.key == s.key
    ensures IndexOfKey(params, s.key).Some?
    ensures var a := params[IndexOfKey(params, s.key).value].param.attrs;
      "EX_required" in a && !Accepted(a["EX_required"], w.text)
  {
  }

  /** A refusal names the key of a required value field left empty. */
  lemma {:induction false} CompletionRefusedWitness(params: ParamDict, ws: seq<Widget>)
    requires CompletionOf(CompletionScan(params, ws)).Refused?
    ensures exists j | 0 <= j < |ws| ::
      && ws[j].ValueField?
      && LastLabel(ws[..j]) == CompletionOf(CompletionScan(params, ws)).key
      && IndexOfKey(params, LastLabel(ws[..j])).Some?
      && var a := params[IndexOfKey(params, LastLabel(ws[..j])).value].param.attrs;
         "EX_required" in a && !Accepted(a["EX_required"], ws[j].text)
    decreases |ws|
  {
    var init := ws[..|ws| - 1];
    var s0 := CompletionScan(params, init);
    if s0.stop.Some? {
      CompletionRefusedWitness(params, init);
      var j :| 0 <= j < |init| && init[j].ValueField? && LastLabel(init[..j]) == CompletionOf(s0).key
        && IndexOfKey(params, LastLabel(init[..j])).Some?
        && var a := params[IndexOfKey(params, LastLabel(init[..j])).value].param.attrs;
           "EX_required" in a && !Accepted(a["EX_required"], init[j].text);
      assert init[..j] == ws[..j];
    } else {
      ScanShape(params, init);
      var j := |ws| - 1;
      assert ws[..j] == init;
      VisitRefused(params, s0, ws[j]);
    }
  }

  /** A widget that is not a value field under the key of entry `i` leaves its value. */
  lemma VisitKeepsValue(params: ParamDict, s: Scan, w: Widget, i: nat)
    requires s.stop.None? && Visit(params, s, w).stop.None? && i < |s.filled|
    requires w.ValueField? ==> PathText(s.filled[i].path) != s.key
    ensures |Visit(params, s, w).filled| == |s.filled|
    ensures Visit(params, s, w).filled[i].param.value == s.filled[i].param.value
  {
  }

  /** An accepted value field sets the value of its key. */
  lemma VisitSetsValue(params: ParamDict, s: Scan, w: Widget)
    requires s.stop.None? && Visit(params, s, w).stop.None? && w.ValueField?
    requires SameKeys(s.filled, params)
    ensures IndexOfKey(params, s.key).Some? && LoweredValue(Lower(w.text)).Ok?
    ensures |Visit(params, s, w).filled| == |params|
    ensures Visit(params, s, w).filled[IndexOfKey(params, s.key).value].param.value == LoweredValue(Lower(w.text)).value
  {
    IndexOfSameKeys(s.filled, params, s.key);
  }

  /** The value a filled key ends with is read from the last value field under it. */
  lemma {:induction false} CompletionLastValue(params: ParamDict, ws: seq<Widget>, j: nat)
    requires CompletionOf(CompletionScan(params, ws)).Filled?
    requires j < |ws| && ws[j].ValueField?
    requires forall m | j < m < |ws| && ws[m].ValueField? :: LastLabel(ws[..m]) != LastLabel(ws[..j])
    ensures IndexOfKey(params, LastLabel(ws[..j])).Some? && LoweredValue(Lower(ws[j].text)).Ok?
    ensures |CompletionScan(params, ws).filled| == |params|
    ensures var f := CompletionScan(params, ws).filled;
      f[IndexOfKey(params, LastLabel(ws[..j])).value].param.value == LoweredValue(Lower(ws[j].text)).value
    decreases |ws|
  {
    var init := ws[..|ws| - 1];
    var s0 := CompletionScan(params, init);
    var w := ws[|ws| - 1];
    assert CompletionScan(params, ws) == Visit(params, s0, w);
    ScanShape(params, init);
    if j == |ws| - 1 {
      assert ws[..j] == init;
      VisitSetsValue(params, s0, w);
    } else {
      assert ws[..j] == init[..j];
      forall m | j < m < |init| && init[m].ValueField?
        ensures LastLabel(init[..m]) != LastLabel(init[..j])
      {
        assert init[..m] == ws[..m];
      }
      CompletionLastValue(params, init, j);
      var k := IndexOfKey(params, LastLabel(ws[..j])).value;
      if w.ValueField? {
        assert init == ws[..|ws| - 1];
      }
      VisitKeepsValue(params, s0, w, k);
    }
  }

  /** A widget that is not a unit box under the key of entry `i` leaves its attributes. */
  lemma VisitKeepsAttrs(params: ParamDict, s: Scan, w: Widget, i: nat)
    requires s.stop.None? && Visit(params, s, w).stop.None? && i < |s.filled|
    requires w.UnitCombo? ==> PathText(s.filled[i].path) != s.key
    ensures |Visit(params, s, w).filled| == |s.filled|
    ensures Visit(params, s, w).filled[i].param.attrs == s.filled[i].param.attrs
  {
  }

  /** A unit box sets the lower-cased unit of its key. */
  lemma VisitSetsUnits(params: ParamDict, s: Scan, w: Widget)
    requires s.stop.None? && Visit(params, s, w).stop.None? && w.UnitCombo?
    requires SameKeys(s.filled, params)
    ensures IndexOfKey(params, s.key).Some?
    ensures |Visit(params, s, w).filled| == |params|
    ensures var a := Visit(params, s, w).filled[IndexOfKey(params, s.key).value].param.attrs;
      "units" in a && a["units"] == Lower(w.text)
  {
    IndexOfSameKeys(s.filled, params, s.key);
  }

  /** The units a filled key ends with are those of the last unit box under it, lower-cased. */
  lemma {:induction false} CompletionLastUnit(params: ParamDict, ws: seq<Widget>, j: nat)
    requires CompletionOf(CompletionScan(params, ws)).Filled?
    requires j < |ws| && ws[j].UnitCombo?
    requires forall m | j < m < |ws| && ws[m].UnitCombo? :: LastLabel(ws[..m]) != LastLabel(ws[..j])
    ensures IndexOfKey(params, LastLabel(ws[..j])).Some?
    ensures |CompletionScan(params, ws).filled| == |params|
    ensures var a := CompletionScan(params, ws).filled[IndexOfKey(params, LastLabel(ws[..j])).value].param.attrs;
      "units" in a && a["units"] == Lower(ws[j].text)
    decreases |ws|
  {
    var init := ws[..|ws| - 1];
    var s0 := CompletionScan(params, init);
    var w := ws[|ws| - 1];
    assert CompletionScan(params, ws) == Visit(params, s0, w);
    ScanShape(params, init);
    if j == |ws| - 1 {
      assert ws[..j] == init;
      VisitSetsUnits(params, s0, w);
    } else {
      assert ws[..j] == init[..j];
      forall m | j < m < |init| && init[m].UnitCombo?
        ensures LastLabel(init[..m]) != LastLabel(init[..j])
      {
        assert init[..m] == ws[..m];
      }
      CompletionLastUnit(params, init, j);
      var k := IndexOfKey(params, LastLabel(ws[..j])).value;
      if w.UnitCombo? {
        assert init == ws[..|ws| - 1];
      }
      VisitKeepsAttrs(params, s0, w, k);
    }
  }
}
