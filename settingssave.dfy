/** The "Save settings" button of the settings window of package/gui_edf2h5.py
    (`_save_settings`): each header label chosen earlier sits on a row with a combobox
    of NeXus keys (`comboParam<n>`, blank by default) and a combobox of units
    (`comboUnit<n>`); the window keeps the match it builds, `dict_match`, between clicks,
    and writes it out as a settings file named after the instrument. */
module SettingsSave {
  import opened Wrappers
  import opened Text
  import opened PyValues
  import Layout
  import opened Forms

  /** The match: each NeXus key to the list `[header label, unit]`. */
  type Match = map<string, seq<string>>

  /** The code as it is written, or as it is evidently meant: a row left blank has its
      unit box skipped, and each click builds the match afresh. */
  datatype Reading = AsWritten | Intended

  /** `key.lower().strip()` */
  function Norm(s: string): string {
    StripSpace(Lower(s))
  }

  /** How a click ends: the file written (under its name, with the match as content), a
      key chosen on two rows (an error box, the match emptied), an instrument name with
      an underscore (an error box, the match kept), an exception while writing (an
      error box, the match emptied), or an exception out of the widget loop, which no
      handler catches (the match left as the loop had built it). */
  datatype SaveOutcome =
    | Saved(name: string, content: Match)
    | UsedTwice(key: string)
    | Underscore
    | WriteFailed
    | SaveRaised(error: PyError)

  /** The state of the widget loop: the last label, the last key, the match, and the early
      stop if any. */
  datatype Rows = Rows(value: string, key: string, dictMatch: Match, stop: Option<SaveOutcome>)

  /** One widget of the loop. */
  function SaveVisit(reading: Reading, s: Rows, w: Widget): Rows
    requires s.stop.None?
  {
    match w
    case Label(t) => s.(value := t)
    case ParamCombo(t) =>
      if Norm(t) != "" && Norm(t) in s.dictMatch then Rows(s.value, t, map[], Some(UsedTwice(t)))
      else if Norm(t) == "" then s.(key := t)
      else s.(key := t, dictMatch := s.dictMatch[t := [s.value]])
    case UnitCombo(t) =>
      if s.key in s.dictMatch then s.(dictMatch := s.dictMatch[s.key := s.dictMatch[s.key] + [t]])
      else if reading == Intended && Norm(s.key) == "" then s
      else s.(stop := Some(SaveRaised(KeyError(s.key))))
    case _ => s
  }

  /** The widget loop over the children of the window in creation order, started on the
      match `start`. */
  function SaveScan(reading: Reading, start: Match, ws: seq<Widget>): Rows
    decreases |ws|
  {
    if ws == [] then Rows("", "", start, None)
    else
      var s := SaveScan(reading, start, ws[..|ws| - 1]);
      if s.stop.Some? then s else SaveVisit(reading, s, ws[|ws| - 1])
  }

  /** The match a click starts on. */
  function StartOf(reading: Reading, kept: Match): Match {
    if reading == Intended then map[] else kept
  }

  /** The outcome of a click on the window holding `kept`, and the match it leaves behind.
      `writeOk` says whether the settings file could be opened and written. */
  function SaveSpec(reading: Reading, kept: Match, ws: seq<Widget>, nameField: string, stamp: string,
                    writeOk: bool): (SaveOutcome, Match)
  {
    var s := SaveScan(reading, StartOf(reading, kept), ws);
    if s.stop.Some? then (s.stop.value, s.dictMatch)
    else if Layout.GuiSettingsName(nameField, stamp).None? then (Underscore, s.dictMatch)
    else if !writeOk then (WriteFailed, map[])
    else (Saved(Layout.GuiSettingsName(nameField, stamp).value, s.dictMatch), map[])
  }

  /** The window, reduced to the match it keeps between clicks. */
  class SettingsWindow {
    var dictMatch: Match

    constructor ()
      ensures dictMatch == map[]
    {
      dictMatch := map[];
    }

    /** `_save_settings`, with the clock's time stamp given as `stamp`. */
    method SaveSettings(reading: Reading, ws: seq<Widget>, nameField: string, stamp: string, writeOk: bool)
      returns (o: SaveOutcome)
      modifies this
      ensures (o, dictMatch) == SaveSpec(reading, old(dictMatch), ws, nameField, stamp, writeOk)
    {
      if reading == Intended {
        dictMatch := map[];
      }
      ghost var start := dictMatch;
      var value := "";
      var key := "";
      var i := 0;
      while i < |ws|
        invariant 0 <= i <= |ws|
        invariant SaveScan(reading, start, ws[..i]) == Rows(value, key, dictMatch, None)
      {
        assert ws[..i + 1][..i] == ws[..i];
        var w := ws[i];
        if w.Label? {
          value := w.text;
        } else if w.ParamCombo? {
          key := w.text;
          var n := Norm(key);
          if n != "" && n in dictMatch {
            dictMatch := map[];
            SaveAfterStop(reading, start, ws, i + 1);
            return UsedTwice(key);
          } else if n != "" {
            dictMatch := dictMatch[key := [value]];
          }
        } else if w.UnitCombo? {
          if key in dictMatch {
            dictMatch := dictMatch[key := dictMatch[key] + [w.text]];
          } else if !(reading == Intended && Norm(key) == "") {
            SaveAfterStop(reading, start, ws, i + 1);
            return SaveRaised(KeyError(key));
          }
        }
        i := i + 1;
      }
      assert ws[..i] == ws;
      if '_' in nameField {
        return Underscore;
      }
      if !writeOk {
        dictMatch := map[];
        return WriteFailed;
      }
      o := Saved("settings_EDF2NXsas_" + nameField + "_" + stamp + ".txt", dictMatch);
      dictMatch := map[];
    }
  }

  /** Once the loop stops, it stays stopped. */
  lemma {:induction false} SaveAfterStop(reading: Reading, start: Match, ws: seq<Widget>, n: nat)
    requires 0 < n <= |ws| && SaveScan(reading, start, ws[..n]).stop.Some?
    ensures SaveScan(reading, start, ws) == SaveScan(reading, start, ws[..n])
    decreases |ws| - n
  {
    if n < |ws| {
      assert ws[..n + 1][..n] == ws[..n];
      SaveAfterStop(reading, start, ws, n + 1);
    } else {
      assert ws[..n] == ws;
    }
  }

  /** The loop stops only on a key used twice, which empties the match, or on an
      exception. */
  lemma {:induction false} StopKinds(reading: Reading, start: Match, ws: seq<Widget>)
    ensures var s := SaveScan(reading, start, ws);
      s.stop.Some? ==> (s.stop.value.UsedTwice? && s.dictMatch == map[]) || s.stop.value.SaveRaised?
    decreases |ws|
  {
    if ws != [] {
      StopKinds(reading, start, ws[..|ws| - 1]);
    }
  }

  // ------------------------------------------------------------ the rows of the window

  /** One row of the window: its header label and what its two comboboxes show. */
  datatype Row = Row(header: string, param: string, unit: string)

  /** The children of the window, row after row. */
  function RowWidgets(rows: seq<Row>): seq<Widget>
    decreases |rows|
  {
    if rows == [] then []
    else
      var r := rows[|rows| - 1];
      RowWidgets(rows[..|rows| - 1]) + [Label(r.header), ParamCombo(r.param), UnitCombo(r.unit)]
  }

  /** The match the rows ask for: every non-blank key to its row's label and unit. */
  function RowsMatch(rows: seq<Row>): (m: Match)
    ensures forall k | k in m :: k != "" && exists i | 0 <= i < |rows| :: rows[i].param == k
    ensures forall i | 0 <= i < |rows| && rows[i].param != "" :: rows[i].param in m
    decreases |rows|
  {
    if rows == [] then map[]
    else
      var r := rows[|rows| - 1];
      var m := RowsMatch(rows[..|rows| - 1]);
      if r.param == "" then m else m[r.param := [r.header, r.unit]]
  }

  /** The keys are those the comboboxes offer: lower-case NeXus paths without
      surrounding blanks, or the blank default. */
  predicate OfferedKeys(rows: seq<Row>) {
    forall i | 0 <= i < |rows| :: Norm(rows[i].param) == rows[i].param
  }

  /** No non-blank key is chosen on two rows. */
  predicate DistinctKeys(rows: seq<Row>) {
    forall i, j | 0 <= i < j < |rows| && rows[i].param != "" :: rows[i].param != rows[j].param
  }

  predicate NoBlankRow(rows: seq<Row>) {
    forall i | 0 <= i < |rows| :: rows[i].param != ""
  }

  lemma NormEmpty()
    ensures Norm("") == ""
  {
    assert Lower("") == "";
  }

  /** With distinct keys each non-blank key is matched to its own row. */
  lemma {:induction false} RowsMatchLookup(rows: seq<Row>, i: nat)
    requires DistinctKeys(rows) && i < |rows| && rows[i].param != ""
    ensures RowsMatch(rows)[rows[i].param] == [rows[i].header, rows[i].unit]
    decreases |rows|
  {
    var init := rows[..|rows| - 1];
    if i < |rows| - 1 {
      assert init[i] == rows[i];
      assert DistinctKeys(init) by {
        forall a, b | 0 <= a < b < |init| && init[a].param != ""
          ensures init[a].param != init[b].param
        {
          assert init[a] == rows[a] && init[b] == rows[b];
        }
      }
      RowsMatchLookup(init, i);
      assert rows[i].param != rows[|rows| - 1].param;
    }
  }

  /** The loop over one row: its label, its key box and its unit box. */
  function RowVisit(reading: Reading, s: Rows, r: Row): Rows
    requires s.stop.None?
  {
    var s1 := SaveVisit(reading, s, Label(r.header));
    var s2 := SaveVisit(reading, s1, ParamCombo(r.param));
    if s2.stop.Some? then s2 else SaveVisit(reading, s2, UnitCombo(r.unit))
  }

  /** The loop over the window, row after row. */
  lemma RowStep(reading: Reading, start: Match, rows: seq<Row>)
    requires |rows| > 0
    ensures var s0 := SaveScan(reading, start, RowWidgets(rows[..|rows| - 1]));
      SaveScan(reading, start, RowWidgets(rows)) ==
        if s0.stop.Some? then s0 else RowVisit(reading, s0, rows[|rows| - 1])
  {
    var r := rows[|rows| - 1];
    var w0 := RowWidgets(rows[..|rows| - 1]);
    var w1 := w0 + [Label(r.header)];
    var w2 := w1 + [ParamCombo(r.param)];
    assert RowWidgets(rows) == w2 + [UnitCombo(r.unit)];
    ScanSnoc(reading, start, w0, Label(r.header));
    ScanSnoc(reading, start, w1, ParamCombo(r.param));
    ScanSnoc(reading, start, w2, UnitCombo(r.unit));
  }

  /** One more widget through the loop. */
  lemma ScanSnoc(reading: Reading, start: Match, ws: seq<Widget>, w: Widget)
    ensures var s := SaveScan(reading, start, ws);
      SaveScan(reading, start, ws + [w]) == if s.stop.Some? then s else SaveVisit(reading, s, w)
  {
    assert (ws + [w])[..|ws|] == ws;
  }

  /** One row with an offered key: it stops the loop exactly when its key is already
      matched, and otherwise matches a non-blank key to the row's label and unit. */
  lemma RowVisitShape(reading: Reading, s: Rows, r: Row)
    requires s.stop.None? && Norm(r.param) == r.param && "" !in s.dictMatch
    requires reading == Intended || r.param != ""
    ensures var t := RowVisit(reading, s, r);
      && (t.stop.None? <==> (r.param == "" || r.param !in s.dictMatch))
      && (t.stop.None? ==> t.dictMatch == if r.param == "" then s.dictMatch else s.dictMatch[r.param := [r.header, r.unit]])
      && (t.stop.Some? ==> t.stop.value.UsedTwice?)
  {
    NormEmpty();
    var s2 := SaveVisit(reading, SaveVisit(reading, s, Label(r.header)), ParamCombo(r.param));
    if r.param != "" && r.param !in s.dictMatch {
      assert s2.dictMatch == s.dictMatch[r.param := [r.header]] && s2.key == r.param;
      assert [r.header] + [r.unit] == [r.header, r.unit];
    }
  }

  /** Keys stay distinct with one more row exactly when its key is blank or new. */
  lemma DistinctSnoc(rows: seq<Row>)
    requires |rows| > 0
    ensures var init := rows[..|rows| - 1]; var p := rows[|rows| - 1].param;
      DistinctKeys(rows) <==> DistinctKeys(init) && (p == "" || p !in RowsMatch(init))
  {
    var init := rows[..|rows| - 1];
    var p := rows[|rows| - 1].param;
    if DistinctKeys(rows) {
      DistinctInit(rows);
    }
    if DistinctKeys(init) && (p == "" || p !in RowsMatch(init)) {
      DistinctExtend(rows);
    }
  }

  lemma DistinctInit(rows: seq<Row>)
    requires |rows| > 0 && DistinctKeys(rows)
    ensures var init := rows[..|rows| - 1]; var p := rows[|rows| - 1].param;
      DistinctKeys(init) && (p == "" || p !in RowsMatch(init))
  {
    var init := rows[..|rows| - 1];
    var p := rows[|rows| - 1].param;
    forall a, b | 0 <= a < b < |init| && init[a].param != ""
      ensures init[a].param != init[b].param
    {
      assert init[a] == rows[a] && init[b] == rows[b];
    }
    if p != "" {
      forall i | 0 <= i < |init|
        ensures init[i].param != p
      {
        assert init[i] == rows[i];
      }
      AbsentFromMatch(init, p);
    }
  }

  lemma AbsentFromMatch(rows: seq<Row>, p: string)
    requires forall i | 0 <= i < |rows| :: rows[i].param != p
    ensures p !in RowsMatch(rows)
  {
  }

  lemma DistinctExtend(rows: seq<Row>)
    requires |rows| > 0
    requires var init := rows[..|rows| - 1]; var p := rows[|rows| - 1].param;
      DistinctKeys(init) && (p == "" || p !in RowsMatch(init))
    ensures DistinctKeys(rows)
  {
    var init := rows[..|rows| - 1];
    forall a, b | 0 <= a < b < |rows| && rows[a].param != ""
      ensures rows[a].param != rows[b].param
    {
      assert init[a] == rows[a];
      if b < |init| {
        assert init[b] == rows[b];
      } else {
        assert b == |rows| - 1;
        assert init[a].param in RowsMatch(init);
      }
    }
  }


  /** The loop over rows whose keys are offered ones, read as intended (or as written
      when no row is blank): it runs to the end exactly when no key is chosen twice, and
      then holds the match the rows ask for on a click that starts empty; otherwise it
      stops on a key used twice. */
  lemma {:induction false} RowsScan(reading: Reading, rows: seq<Row>)
    requires OfferedKeys(rows)
    requires reading == Intended || NoBlankRow(rows)
    ensures var s := SaveScan(reading, map[], RowWidgets(rows));
      && (s.stop.None? <==> DistinctKeys(rows))
      && (s.stop.None? ==> s.dictMatch == RowsMatch(rows))
      && (s.stop.Some? ==> s.stop.value.UsedTwice?)
    decreases |rows|
  {
    if rows != [] {
      var init := rows[..|rows| - 1];
      assert forall i | 0 <= i < |init| :: init[i] == rows[i];
      RowsScan(reading, init);
      RowStep(reading, map[], rows);
      DistinctSnoc(rows);
      var s0 := SaveScan(reading, map[], RowWidgets(init));
      if s0.stop.None? {
        RowVisitShape(reading, s0, rows[|rows| - 1]);
      }
    }
  }

  // ------------------------------------------------------------ what a click does

  /** A file is written only under a name without underscore in the instrument, named
      `settings_EDF2NXsas_<instrument>_<stamp>.txt`, which the older tree managers read
      back as an EDF-to-NXsas settings file of that instrument and date; the window is
      then left with an empty match. */
  lemma SavedFile(reading: Reading, kept: Match, ws: seq<Widget>, nameField: string, stamp: string, writeOk: bool)
    requires '_' !in stamp && |stamp| > 0 && IsDigit(stamp[0]) && IsDigit(stamp[|stamp| - 1])
    requires SaveSpec(reading, kept, ws, nameField, stamp, writeOk).0.Saved?
    ensures var (o, m) := SaveSpec(reading, kept, ws, nameField, stamp, writeOk);
      && '_' !in nameField && writeOk && m == map[]
      && Layout.FourFields(o.name) == Ok(Layout.Fields("EDF", "NXsas", nameField, stamp))
  {
    StopKinds(reading, StartOf(reading, kept), ws);
    Layout.OlderReadsGuiName(nameField, stamp);
  }

  /** An instrument name with an underscore refuses the save once the loop has run to
      its end, and the window keeps the match the loop built. */
  lemma UnderscoreKeeps(reading: Reading, kept: Match, ws: seq<Widget>, nameField: string, stamp: string, writeOk: bool)
    requires '_' in nameField
    ensures var s := SaveScan(reading, StartOf(reading, kept), ws);
      var (o, m) := SaveSpec(reading, kept, ws, nameField, stamp, writeOk);
      && (o == Underscore <==> s.stop.None?)
      && (o == Underscore ==> m == s.dictMatch)
  {}

  /** A window of rows with distinct offered keys, a valid name and a writable file is
      saved, read as intended, with exactly the match its rows ask for, blank rows
      included, whatever an earlier click left in the window. */
  lemma IntendedSavesRows(kept: Match, rows: seq<Row>, nameField: string, stamp: string)
    requires OfferedKeys(rows) && DistinctKeys(rows) && '_' !in nameField
    ensures SaveSpec(Intended, kept, RowWidgets(rows), nameField, stamp, true) ==
      (Saved("settings_EDF2NXsas_" + nameField + "_" + stamp + ".txt", RowsMatch(rows)), map[])
  {
    RowsScan(Intended, rows);
  }

  /** Read as intended, a key chosen on two rows is reported as used twice. */
  lemma IntendedReportsDuplicates(kept: Match, rows: seq<Row>, nameField: string, stamp: string, writeOk: bool)
    requires OfferedKeys(rows) && !DistinctKeys(rows)
    ensures SaveSpec(Intended, kept, RowWidgets(rows), nameField, stamp, writeOk).0.UsedTwice?
    ensures SaveSpec(Intended, kept, RowWidgets(rows), nameField, stamp, writeOk).1 == map[]
  {
    RowsScan(Intended, rows);
    StopKinds(Intended, map[], RowWidgets(rows));
  }

  // ------------------------------------------------------------ the code as written

  /** As written, a row left blank stores nothing under its blank key, so its unit box
      looks the blank key up and raises `KeyError`, which nothing catches. */
  lemma BlankRowRaises(stamp: string)
    ensures SaveSpec(AsWritten, map[], [Label("Wavelength"), ParamCombo(""), UnitCombo("")], "SAXS", stamp, true)
      == (SaveRaised(KeyError("")), map[])
  {
    var rows := [Row("Wavelength", "", "")];
    assert rows[..0] == [];
    assert RowWidgets(rows) == [Label("Wavelength"), ParamCombo(""), UnitCombo("")];
    RowStep(AsWritten, map[], rows);
    NormEmpty();
  }

  /** As written, the first blank row of a window whose earlier keys are distinct
      raises `KeyError` at its unit box, whatever follows it. */
  lemma AsWrittenBlankRowRaises(rows: seq<Row>, i: nat, nameField: string, stamp: string, writeOk: bool)
    requires i < |rows| && rows[i].param == ""
    requires OfferedKeys(rows[..i]) && DistinctKeys(rows[..i]) && NoBlankRow(rows[..i])
    ensures SaveSpec(AsWritten, map[], RowWidgets(rows), nameField, stamp, writeOk).0 == SaveRaised(KeyError(""))
  {
    var pre := rows[..i + 1];
    assert pre[..i] == rows[..i] && pre[i] == rows[i];
    RowsScan(AsWritten, rows[..i]);
    var s0 := SaveScan(AsWritten, map[], RowWidgets(rows[..i]));
    RowStep(AsWritten, map[], pre);
    NormEmpty();
    BlankRowStops(s0, rows[i]);
    var ws := RowWidgets(rows);
    RowWidgetsPrefix(rows, i + 1);
    assert SaveScan(AsWritten, map[], ws[..3 * (i + 1)]).stop == Some(SaveRaised(KeyError("")));
    SaveAfterStop(AsWritten, map[], ws, 3 * (i + 1));
  }

  /** As written, a blank row raises at its unit box unless its key is matched. */
  lemma BlankRowStops(s: Rows, r: Row)
    requires s.stop.None? && Norm(r.param) == "" && r.param !in s.dictMatch
    ensures RowVisit(AsWritten, s, r).stop == Some(SaveRaised(KeyError(r.param)))
  {
  }

  /** The widgets of the first `n` rows come first. */
  lemma {:induction false} RowWidgetsPrefix(rows: seq<Row>, n: nat)
    requires n <= |rows|
    ensures |RowWidgets(rows)| == 3 * |rows|
    ensures RowWidgets(rows)[..3 * n] == RowWidgets(rows[..n])
    decreases |rows|
  {
    if rows == [] {
    } else if n == |rows| {
      RowWidgetsPrefix(rows[..|rows| - 1], 0);
      assert rows[..n] == rows;
    } else {
      var init := rows[..|rows| - 1];
      RowWidgetsPrefix(init, n);
      assert init[..n] == rows[..n];
    }
  }

  /** As written, a click refused for the underscore leaves the match behind, so the
      next click on the same rows, with the name corrected, finds the first key already
      present and reports it as used twice instead of saving. */
  lemma RetryAfterUnderscore(rows: seq<Row>, badName: string, goodName: string, stamp: string, writeOk: bool)
    requires OfferedKeys(rows) && DistinctKeys(rows) && NoBlankRow(rows) && |rows| > 0
    requires '_' in badName
    ensures var (o1, m1) := SaveSpec(AsWritten, map[], RowWidgets(rows), badName, stamp, writeOk);
      && o1 == Underscore
      && SaveSpec(AsWritten, m1, RowWidgets(rows), goodName, stamp, writeOk) == (UsedTwice(rows[0].param), map[])
  {
    RowsScan(AsWritten, rows);
    FirstRowTwice(RowsMatch(rows), rows);
  }

  /** A first row whose key the window already holds stops the loop at once. */
  lemma FirstRowTwice(m: Match, rows: seq<Row>)
    requires |rows| > 0 && rows[0].param != "" && Norm(rows[0].param) == rows[0].param && rows[0].param in m
    ensures SaveScan(AsWritten, m, RowWidgets(rows)) == Rows(rows[0].header, rows[0].param, map[], Some(UsedTwice(rows[0].param)))
  {
    var ws := RowWidgets(rows);
    var h := rows[0].header;
    var p := rows[0].param;
    RowWidgetsHead(rows);
    var w2 := ws[..2];
    assert SaveScan(AsWritten, m, [Label(h)]) == Rows(h, "", m, None) by {
      assert [Label(h)][..0] == [];
    }
    assert SaveScan(AsWritten, m, w2) == Rows(h, p, map[], Some(UsedTwice(p))) by {
      assert w2[..1] == [Label(h)] && w2[1] == ParamCombo(p);
    }
    SaveAfterStop(AsWritten, m, ws, 2);
  }

  /** Read as intended, the same retry saves the rows. */
  lemma IntendedRetrySaves(rows: seq<Row>, badName: string, goodName: string, stamp: string)
    requires OfferedKeys(rows) && DistinctKeys(rows) && '_' in badName && '_' !in goodName
    ensures var (o1, m1) := SaveSpec(Intended, map[], RowWidgets(rows), badName, stamp, true);
      && o1 == Underscore
      && SaveSpec(Intended, m1, RowWidgets(rows), goodName, stamp, true)
         == (Saved("settings_EDF2NXsas_" + goodName + "_" + stamp + ".txt", RowsMatch(rows)), map[])
  {
    RowsScan(Intended, rows);
  }

  /** The window begins with its first row. */
  lemma {:induction false} RowWidgetsHead(rows: seq<Row>)
    requires |rows| > 0
    ensures |RowWidgets(rows)| == 3 * |rows|
    ensures RowWidgets(rows)[..2] == [Label(rows[0].header), ParamCombo(rows[0].param)]
    decreases |rows|
  {
    var init := rows[..|rows| - 1];
    if |init| > 0 {
      RowWidgetsHead(init);
      assert init[0] == rows[0];
    } else {
      assert RowWidgets(init) == [];
    }
  }
}
