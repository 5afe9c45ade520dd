/** Where the converters look for their inputs and where they file their outputs:
    `search_setting_edf` and `tree_structure_manager` of saxs_nxformat/nxfile_generator.py,
    edf2nxsas/nexus_file_generator.py and package/auto_edf2h5.py, and the settings file
    names the configuration editors write (saxs_nxformat/create_config.py,
    package/gui_edf2h5.py). The directory listing and the directory creation are outside
    the model: the listing is a parameter, and so is whether creating a directory is
    permitted. */
module Layout {
  import opened Wrappers
  import opened Text
  import opened PyValues

  // ------------------------------------------------------------ search_setting_edf

  /** `".edf" in file.lower()` */
  predicate IsEdf(name: string) {
    Contains(Lower(name), ".edf")
  }

  /** The `elif` branch: not an EDF name, and the settings marker in the lower-cased name. */
  predicate IsSettings(name: string, marker: string) {
    !IsEdf(name) && Contains(Lower(name), marker)
  }

  /** The marker of saxs_nxformat/nxfile_generator.py ... */
  const SaxsMarker := "settings_edf2nx"

  /** ... and that of package/auto_edf2h5.py. */
  const AutoMarker := "settings_edf2nxsas"

  /** The two names the loop over the listing settles on. */
  datatype Found = Found(edf: Option<string>, settings: Option<string>)

  /** The scan of a listing: each matching name replaces the one found before. */
  function Scan(names: seq<string>, marker: string): Found
    decreases |names|
  {
    if |names| == 0 then Found(None, None)
    else
      var before := Scan(names[..|names| - 1], marker);
      var n := names[|names| - 1];
      if IsEdf(n) then before.(edf := Some(n))
      else if IsSettings(n, marker) then before.(settings := Some(n))
      else before
  }

  /** The loop of both `search_setting_edf` functions. */
  method ScanListing(names: seq<string>, marker: string) returns (edf: Option<string>, settings: Option<string>)
    ensures Found(edf, settings) == Scan(names, marker)
  {
    edf, settings := None, None;
    var i := 0;
    while i < |names|
      invariant 0 <= i <= |names|
      invariant Found(edf, settings) == Scan(names[..i], marker)
    {
      assert names[..i + 1][..i] == names[..i];
      if IsEdf(names[i]) {
        edf := Some(names[i]);
      } else if Contains(Lower(names[i]), marker) {
        settings := Some(names[i]);
      }
      i := i + 1;
    }
    assert names[..|names|] == names;
  }

  /** saxs_nxformat/nxfile_generator.py `search_setting_edf()`: both paths under `dir`, or
      none when either is missing. */
  method SearchSettingEdf(dir: string, names: seq<string>) returns (edfPath: Option<string>, settingsPath: Option<string>)
    ensures var f := Scan(names, SaxsMarker);
      if f.edf.None? || f.settings.None? then edfPath.None? && settingsPath.None?
      else edfPath == Some(PathJoin(dir, f.edf.value)) && settingsPath == Some(PathJoin(dir, f.settings.value))
  {
    var edf, settings := ScanListing(names, SaxsMarker);
    if edf.None? || settings.None? {
      return None, None;
    }
    return Some(PathJoin(dir, edf.value)), Some(PathJoin(dir, settings.value));
  }

  /** package/auto_edf2h5.py `search_setting_edf()`: the two names as found. */
  method AutoSearchSettingEdf(names: seq<string>) returns (edf: Option<string>, settings: Option<string>)
    ensures Found(edf, settings) == Scan(names, AutoMarker)
  {
    edf, settings := ScanListing(names, AutoMarker);
  }

  /** What the scan finds: the last EDF name of the listing and the last settings name,
      and nothing of a kind the listing lacks. */
  lemma {:induction false} ScanFindsLast(names: seq<string>, marker: string)
    ensures var f := Scan(names, marker);
      && (f.edf.Some? <==> exists k | 0 <= k < |names| :: IsEdf(names[k]))
      && (f.settings.Some? <==> exists k | 0 <= k < |names| :: IsSettings(names[k], marker))
    ensures var f := Scan(names, marker);
      f.edf.Some? ==> exists k | 0 <= k < |names| ::
        (names[k] == f.edf.value && IsEdf(names[k]) && forall j | k < j < |names| :: !IsEdf(names[j]))
    ensures var f := Scan(names, marker);
      f.settings.Some? ==> exists k | 0 <= k < |names| ::
        (names[k] == f.settings.value && IsSettings(names[k], marker) && forall j | k < j < |names| :: !IsSettings(names[j], marker))
    decreases |names|
  {
    if |names| > 0 {
      var init := names[..|names| - 1];
      var n := names[|names| - 1];
      ScanFindsLast(init, marker);
      assert forall k | 0 <= k < |init| :: init[k] == names[k];
      var f := Scan(names, marker);
      var before := Scan(init, marker);
      if before.edf.Some? && !IsEdf(n) {
        var k :| 0 <= k < |init| && init[k] == before.edf.value && IsEdf(init[k])
          && forall j | k < j < |init| :: !IsEdf(init[j]);
        assert names[k] == f.edf.value && forall j | k < j < |names| :: !IsEdf(names[j]);
      }
      if before.settings.Some? && !IsSettings(n, marker) {
        var k :| 0 <= k < |init| && init[k] == before.settings.value && IsSettings(init[k], marker)
          && forall j | k < j < |init| :: !IsSettings(init[j], marker);
        assert names[k] == f.settings.value && forall j | k < j < |names| :: !IsSettings(names[j], marker);
      }
      if IsEdf(n) {
        assert names[|names| - 1] == f.edf.value;
      }
      if IsSettings(n, marker) {
        assert names[|names| - 1] == f.settings.value;
      }
    }
  }

  /** An EDF name is never taken for the settings file, even when it holds the marker. */
  lemma EdfIsNeverSettings(names: seq<string>, marker: string)
    requires Scan(names, marker).settings.Some?
    ensures !IsEdf(Scan(names, marker).settings.value)
  {
    ScanFindsLast(names, marker);
  }

  // ------------------------------------------------------------ settings file names

  /** saxs_nxformat/create_config.py: `settings_EDF2NX_<name>_<stamp>.json`, refused when
      the instrument name holds an underscore. */
  function ConfigSettingsName(instrument: string, stamp: string): Option<string> {
    if '_' in instrument then None else Some("settings_EDF2NX_" + instrument + "_" + stamp + ".json")
  }

  /** package/gui_edf2h5.py: `settings_EDF2NXsas_<name>_<stamp>.txt`, refused likewise. */
  function GuiSettingsName(instrument: string, stamp: string): Option<string> {
    if '_' in instrument then None else Some("settings_EDF2NXsas_" + instrument + "_" + stamp + ".txt")
  }

  // ------------------------------------------------------------ tree_structure_manager

  /** What a tree manager returns: the directory of the new file and that of the input,
      or a message. */
  datatype Placement = Dirs(target: string, other: string) | Message(text: string)

  /** The fields a settings name is cut into. */
  datatype Fields = Fields(origin: string, ending: string, instrument: string, date: string)

  /** `a, b = s.split("2")` */
  function Formats(s: string): Result<(string, string), PyError> {
    var parts := Split(s, '2');
    if |parts| != 2 then Err(ValueError("wrong number of values to unpack")) else Ok((parts[0], parts[1]))
  }

  /** saxs_nxformat/nxfile_generator.py: `settings_` removed, then `rsplit("_", 2)`, which
      must give three fields (`None` when it does not), then the `2` split, which raises
      when it does not give two. */
  function SaxsSettingsFields(settings: string): Result<Option<Fields>, PyError> {
    var s := RemovePrefix(settings, "settings_");
    var parts := RSplit2(s, '_');
    if |parts| != 3 then Ok(None)
    else
      var (origin, ending) :- Formats(parts[0]);
      Ok(Some(Fields(origin, ending, parts[1], RemoveSuffix(parts[2], ".json"))))
  }

  /** The experiment name and detector label of a data file name `<exp>_<0|1|…>[_…].edf`. */
  function ImageFields(file: string): Result<(string, string), PyError> {
    var parts := Split(RemoveSuffix(file, ".edf"), '_');
    if |parts| < 2 then Err(IndexError)
    else Ok((parts[0], if parts[1] == "0" then "SAXS" else if parts[1] == "1" then "WAXS" else "other"))
  }

  /** `Path / part` */
  function Below(dir: string, parts: seq<string>): string
    decreases |parts|
  {
    if |parts| == 0 then dir else Below(PathJoin(dir, parts[0]), parts[1..])
  }

  /** The directories under `root` for one file, before the format. */
  function SaxsCommon(f: Fields, exp: string, detector: string): seq<string> {
    ["instrument - " + f.instrument, "config - " + f.date, "experiment - " + exp, "detector - " + detector]
  }

  /** saxs_nxformat/nxfile_generator.py `tree_structure_manager(file, settings)` under
      `TREATED_PATH`, here `root`. */
  function SaxsTree(file: string, settings: string, root: string, permitted: bool): Result<Placement, PyError> {
    var fields :- SaxsSettingsFields(settings);
    if fields.None? then Ok(Message("Invalid settings file format"))
    else
      var (exp, detector) :- ImageFields(file);
      var common := SaxsCommon(fields.value, exp, detector);
      if !permitted then Ok(Message("Permission to create directory denied"))
      else Ok(Dirs(Below(root, common + ["format - " + fields.value.ending]),
                   Below(root, common + ["format - " + fields.value.origin])))
  }

  /** The two older managers differ in the marker of the experiment field, the characters
      stripped from it, and the root of the tree. */
  datatype Variant = GeneratorVariant | AutoVariant

  function ExperimentMarker(v: Variant): string {
    match v
    case GeneratorVariant => ".json"
    case AutoVariant => ".edf"
  }

  function ExperimentChars(v: Variant): set<char> {
    match v
    case GeneratorVariant => {'.', 'j', 's', 'o', 'n'}
    case AutoVariant => {'.', 'e', 'd', 'f'}
  }

  function TreeRoot(v: Variant): string {
    match v
    case GeneratorVariant => "./../treated data"
    case AutoVariant => "./.."
  }

  /** `_, origin2ending, instrument, date_txt = settings.split("_")`; the `strip` before it
      is discarded, so the `settings` prefix is the first of four fields. */
  function FourFields(settings: string): Result<Fields, PyError> {
    var parts := Split(settings, '_');
    if |parts| != 4 then Err(ValueError("wrong number of values to unpack"))
    else
      var (origin, ending) :- Formats(parts[1]);
      Ok(Fields(origin, ending, parts[2], Strip(parts[3], {'.', 't', 'x'})))
  }

  /** The sample and experiment of a data file name: its first two `_`-fields, the second
      stripped of the marker's characters when it holds the marker. */
  function SampleFields(v: Variant, file: string): Result<(string, string), PyError> {
    var parts := Split(file, '_');
    if |parts| < 2 then Err(IndexError)
    else Ok((parts[0], if Contains(parts[1], ExperimentMarker(v)) then Strip(parts[1], ExperimentChars(v)) else parts[1]))
  }

  /** `"/" + p` for each directory name, in order. */
  function Slashed(parts: seq<string>): string
    decreases |parts|
  {
    if |parts| == 0 then "" else "/" + parts[0] + Slashed(parts[1..])
  }

  /** The directory names below the root; the last one is empty, for the closing `/`. */
  function OlderParts(f: Fields, sample: string, exp: string, format: string): seq<string> {
    ["instrument - " + f.instrument, "config - " + f.date, "sample - " + sample, "experiment - " + exp,
     "format - " + format, ""]
  }

  /** The directory string both older managers build, ending in `/`. */
  function OlderDir(v: Variant, f: Fields, sample: string, exp: string, format: string): string {
    TreeRoot(v) + Slashed(OlderParts(f, sample, exp, format))
  }

  /** edf2nxsas/nexus_file_generator.py and package/auto_edf2h5.py
      `tree_structure_manager(file, settings)`. An existing directory gives the same pair. */
  function OlderTree(v: Variant, file: string, settings: string, permitted: bool): Result<Placement, PyError> {
    var (sample, exp) :- SampleFields(v, file);
    var f :- FourFields(settings);
    if !permitted then Ok(Message("perm error"))
    else Ok(Dirs(OlderDir(v, f, sample, exp, f.ending), OlderDir(v, f, sample, exp, f.origin)))
  }

  // ------------------------------------------------------------ lemmas

  /** The saxs manager refuses a settings name exactly when, without its prefix, it has
      fewer than two underscores. */
  lemma SaxsInvalidIff(file: string, settings: string, root: string, permitted: bool)
    ensures SaxsTree(file, settings, root, permitted) == Ok(Message("Invalid settings file format"))
            <==> |Split(RemovePrefix(settings, "settings_"), '_')| < 3
  {
    var s := RemovePrefix(settings, "settings_");
    var parts := RSplit2(s, '_');
    assert |Split(s, '_')| >= 3 ==> |parts| == 3;
    if |parts| == 3 && SaxsSettingsFields(settings).Ok? {
      var r := SaxsTree(file, settings, root, permitted);
      if r.Ok? && r.value.Message? {
        assert r.value.text != "Invalid settings file format" by {
          assert r.value.text == "Permission to create directory denied";
          assert r.value.text[0] == 'P';
        }
      }
    }
  }

  /** The detector label of a data file name. */
  lemma DetectorLabel(exp: string, index: string, rest: string)
    requires '_' !in exp && '_' !in index
    ensures ImageFields(exp + "_" + index + "_" + rest + ".edf")
            == Ok((exp, if index == "0" then "SAXS" else if index == "1" then "WAXS" else "other"))
  {
    var stem := exp + "_" + index + "_" + rest;
    assert stem + ".edf" == stem + ".edf";
    RemoveAppendedSuffix(stem, ".edf");
    assert stem == exp + ['_'] + (index + ['_'] + rest);
    SplitAfter(exp, index + ['_'] + rest, '_');
    SplitAfter(index, rest, '_');
  }

  /** Three fields without the separator, joined by it, split back. */
  lemma ThreeFields(a: string, b: string, c: string, sep: char)
    requires sep !in a && sep !in b && sep !in c
    ensures Split(a + [sep] + b + [sep] + c, sep) == [a, b, c]
  {
    assert a + [sep] + b + [sep] + c == a + [sep] + (b + [sep] + c);
    SplitAfter(a, b + [sep] + c, sep);
    SplitAfter(b, c, sep);
    IndexOfAbsent(c, sep);
  }

  lemma EdfToNx()
    ensures Formats("EDF2NX") == Ok(("EDF", "NX"))
  {
    assert "EDF2NX" == "EDF" + ['2'] + "NX";
    SplitAfter("EDF", "NX", '2');
    IndexOfAbsent("NX", '2');
  }

  /** A file name the configuration editor writes is accepted by the saxs manager, which
      reads back the instrument and the time stamp, the origin format `EDF` and the
      ending `NX`. */
  lemma SaxsReadsConfigName(instrument: string, stamp: string)
    requires '_' !in instrument && '_' !in stamp
    ensures ConfigSettingsName(instrument, stamp).Some?
    ensures SaxsSettingsFields(ConfigSettingsName(instrument, stamp).value) == Ok(Some(Fields("EDF", "NX", instrument, stamp)))
  {
    var name := "settings_EDF2NX_" + instrument + "_" + stamp + ".json";
    var last := stamp + ".json";
    var rest := "EDF2NX" + ['_'] + instrument + ['_'] + last;
    assert name == "settings_" + rest;
    assert RemovePrefix(name, "settings_") == rest;
    assert '_' !in last;
    ThreeFields("EDF2NX", instrument, last, '_');
    assert RSplit2(rest, '_') == ["EDF2NX", instrument, last];
    EdfToNx();
    RemoveAppendedSuffix(stamp, ".json");
  }

  /** The saxs directories: `root` followed by the instrument, configuration, experiment,
      detector and format directories; the two differ in the format alone. */
  lemma SaxsDirectories(file: string, settings: string, root: string)
    requires SaxsTree(file, settings, root, true).Ok? && SaxsTree(file, settings, root, true).value.Dirs?
    requires |root| > 0 && !EndsWith(root, "/") && '/' !in file && '/' !in settings
    ensures SaxsSettingsFields(settings).Ok? && SaxsSettingsFields(settings).value.Some? && ImageFields(file).Ok?
    ensures var f := SaxsSettingsFields(settings).value.value;
      var common := SaxsCommon(f, ImageFields(file).value.0, ImageFields(file).value.1);
      var t := SaxsTree(file, settings, root, true).value;
      && Split(t.target, '/') == Split(root, '/') + common + ["format - " + f.ending]
      && Split(t.other, '/') == Split(root, '/') + common + ["format - " + f.origin]
      && (t.target == t.other <==> f.ending == f.origin)
  {
    SaxsTreeDirs(file, settings, root);
    SaxsFieldsWithoutSlash(file, settings);
    var f := SaxsSettingsFields(settings).value.value;
    DirsOfFields(root, f, ImageFields(file).value.0, ImageFields(file).value.1);
  }

  lemma DirsOfFields(root: string, f: Fields, exp: string, detector: string)
    requires |root| > 0 && !EndsWith(root, "/")
    requires '/' !in f.instrument && '/' !in f.date && '/' !in exp && '/' !in detector && '/' !in f.ending && '/' !in f.origin
    ensures var common := SaxsCommon(f, exp, detector);
      var x := Below(root, common + ["format - " + f.ending]);
      var y := Below(root, common + ["format - " + f.origin]);
      && Split(x, '/') == Split(root, '/') + common + ["format - " + f.ending]
      && Split(y, '/') == Split(root, '/') + common + ["format - " + f.origin]
      && (x == y <==> f.ending == f.origin)
  {
    var common := SaxsCommon(f, exp, detector);
    CommonClean(f, exp, detector);
    FormatDirs(root, common, f.ending, f.origin);
  }

  lemma CommonClean(f: Fields, exp: string, detector: string)
    requires '/' !in f.instrument && '/' !in f.date && '/' !in exp && '/' !in detector
    ensures forall k | 0 <= k < |SaxsCommon(f, exp, detector)| :: |SaxsCommon(f, exp, detector)[k]| > 0 && '/' !in SaxsCommon(f, exp, detector)[k]
  {
    NoSlashAfter("instrument - ", f.instrument);
    NoSlashAfter("config - ", f.date);
    NoSlashAfter("experiment - ", exp);
    NoSlashAfter("detector - ", detector);
  }

  lemma NoSlashAfter(p: string, s: string)
    requires '/' !in p && '/' !in s
    ensures '/' !in p + s
  {
  }

  lemma FormatDirs(root: string, lead: seq<string>, a: string, b: string)
    requires |root| > 0 && !EndsWith(root, "/") && '/' !in a && '/' !in b
    requires forall k | 0 <= k < |lead| :: |lead[k]| > 0 && '/' !in lead[k]
    ensures var x := Below(root, lead + ["format - " + a]);
      var y := Below(root, lead + ["format - " + b]);
      && Split(x, '/') == Split(root, '/') + lead + ["format - " + a]
      && Split(y, '/') == Split(root, '/') + lead + ["format - " + b]
      && (x == y <==> a == b)
  {
    var pa := lead + ["format - " + a];
    var pb := lead + ["format - " + b];
    assert forall k | 0 <= k < |pa| :: |pa[k]| > 0 && '/' !in pa[k];
    assert forall k | 0 <= k < |pb| :: |pb[k]| > 0 && '/' !in pb[k];
    BelowComponents(root, pa);
    BelowComponents(root, pb);
    assert Split(root, '/') + lead + ["format - " + a] == Split(root, '/') + lead + ["format - " + a] + [];
    assert Split(root, '/') + lead + ["format - " + b] == Split(root, '/') + lead + ["format - " + b] + [];
    LastDirDecides(Below(root, pa), Below(root, pb), Split(root, '/') + lead, a, b, []);
  }

  lemma SaxsTreeDirs(file: string, settings: string, root: string)
    requires SaxsTree(file, settings, root, true).Ok? && SaxsTree(file, settings, root, true).value.Dirs?
    ensures SaxsSettingsFields(settings).Ok? && SaxsSettingsFields(settings).value.Some? && ImageFields(file).Ok?
    ensures var f := SaxsSettingsFields(settings).value.value;
      var common := SaxsCommon(f, ImageFields(file).value.0, ImageFields(file).value.1);
      && SaxsTree(file, settings, root, true).value.target == Below(root, common + ["format - " + f.ending])
      && SaxsTree(file, settings, root, true).value.other == Below(root, common + ["format - " + f.origin])
  {
  }

  /** Two directories with the same leading components are equal exactly when their
      format names are. */
  lemma LastDirDecides(x: string, y: string, lead: seq<string>, a: string, b: string, tail: seq<string>)
    requires Split(x, '/') == lead + ["format - " + a] + tail && Split(y, '/') == lead + ["format - " + b] + tail
    ensures x == y <==> a == b
  {
    JoinSplit(x, '/');
    JoinSplit(y, '/');
    if x == y {
      var p := lead + ["format - " + a] + tail;
      var q := lead + ["format - " + b] + tail;
      assert p[|lead|] == "format - " + a && q[|lead|] == "format - " + b;
      assert ("format - " + a)[9..] == a;
      assert ("format - " + b)[9..] == b;
    }
  }

  /** Names without `/` give directory names without `/`. */
  lemma SaxsFieldsWithoutSlash(file: string, settings: string)
    requires SaxsSettingsFields(settings).Ok? && SaxsSettingsFields(settings).value.Some? && ImageFields(file).Ok?
    requires '/' !in file && '/' !in settings
    ensures var f := SaxsSettingsFields(settings).value.value;
      && '/' !in f.origin && '/' !in f.ending && '/' !in f.instrument && '/' !in f.date
      && '/' !in ImageFields(file).value.0 && '/' !in ImageFields(file).value.1
  {
    var s := RemovePrefix(settings, "settings_");
    assert forall x | x in s :: x in settings;
    RSplitChars(s, '_');
    var p := RSplit2(s, '_');
    SplitChars(p[0], '2');
    assert forall x | x in RemoveSuffix(p[2], ".json") :: x in p[2];
    var e := RemoveSuffix(file, ".edf");
    assert forall x | x in e :: x in file;
    SplitChars(e, '_');
  }

  lemma RSplitChars(s: string, c: char)
    ensures forall k, x | 0 <= k < |RSplit2(s, c)| && x in RSplit2(s, c)[k] :: x in s
  {
    SplitChars(s, c);
    var parts := Split(s, c);
    var n := |parts|;
    if n > 3 {
      JoinChars(parts[..n - 2], c);
      assert c in s by {
        assert Join(Split(s, c), c) == s by { JoinSplit(s, c); }
        JoinSeparator(parts, c);
      }
      forall k, x | 0 <= k < 3 && x in RSplit2(s, c)[k]
        ensures x in s
      {
        if k == 0 {
          if x != c {
            var j :| 0 <= j < |parts[..n - 2]| && x in parts[..n - 2][j];
            assert x in parts[j];
          }
        } else {
          assert RSplit2(s, c)[k] == parts[n - 3 + k];
        }
      }
    }
  }

  /** More than one field means the separator occurs. */
  lemma JoinSeparator(parts: seq<string>, c: char)
    requires |parts| > 1
    ensures c in Join(parts, c)
  {
    assert Join(parts, c)[|parts[0]|] == c;
  }

  /** Fields hold characters of the text they are split from ... */
  lemma {:induction false} SplitChars(s: string, c: char)
    ensures forall k, x | 0 <= k < |Split(s, c)| && x in Split(s, c)[k] :: x in s
    decreases |s|
  {
    var k := IndexOf(s, c);
    if k < |s| {
      SplitChars(s[k + 1..], c);
      assert forall x | x in s[k + 1..] :: x in s;
      assert forall x | x in s[..k] :: x in s;
    }
  }

  /** ... and so do the fields joined with a separator. */
  lemma {:induction false} JoinChars(parts: seq<string>, c: char)
    ensures forall x | x in Join(parts, c) :: x == c || exists k | 0 <= k < |parts| :: x in parts[k]
    decreases |parts|
  {
    if |parts| > 1 {
      JoinChars(parts[1..], c);
      forall x | x in Join(parts, c)
        ensures x == c || exists k | 0 <= k < |parts| :: x in parts[k]
      {
        if x !in parts[0] && x != c {
          assert x in Join(parts[1..], c);
          var k :| 0 <= k < |parts[1..]| && x in parts[1..][k];
          assert x in parts[k + 1];
        }
      }
    }
  }

  /** `Below` writes the directories one after the other, `/`-separated. */
  lemma {:induction false} BelowComponents(dir: string, parts: seq<string>)
    requires |dir| > 0 && !EndsWith(dir, "/")
    requires forall k | 0 <= k < |parts| :: |parts[k]| > 0 && '/' !in parts[k]
    ensures Split(Below(dir, parts), '/') == Split(dir, '/') + parts
    decreases |parts|
  {
    if |parts| > 0 {
      var p := parts[0];
      var d := PathJoin(dir, p);
      BelowStep(dir, p);
      assert forall k | 0 <= k < |parts[1..]| :: parts[1..][k] == parts[k + 1];
      BelowComponents(d, parts[1..]);
      assert [p] + parts[1..] == parts;
      ListAssoc(Split(dir, '/'), [p], parts[1..]);
    }
  }

  /** One directory more: its name is the last field, and the path still ends in a name. */
  lemma BelowStep(dir: string, p: string)
    requires |dir| > 0 && !EndsWith(dir, "/") && |p| > 0 && '/' !in p
    ensures var d := PathJoin(dir, p); |d| > 0 && !EndsWith(d, "/")
    ensures Split(PathJoin(dir, p), '/') == Split(dir, '/') + [p]
  {
    assert p[0] in p;
    SplitPath(dir, p);
    IndexOfAbsent(p, '/');
    var d := PathJoin(dir, p);
    assert d[|d| - 1] == p[|p| - 1];
    assert p[|p| - 1] in p;
  }

  lemma FourFieldsSplit(a: string, b: string, c: string, d: string, sep: char)
    requires sep !in a && sep !in b && sep !in c && sep !in d
    ensures Split(a + [sep] + b + [sep] + c + [sep] + d, sep) == [a, b, c, d]
  {
    SplitConcat(a + [sep] + b + [sep] + c, d, sep);
    ThreeFields(a, b, c, sep);
    IndexOfAbsent(d, sep);
  }

  lemma NameShape(lead: string, head: string, formats: string, instrument: string, stamp: string, ext: string)
    requires lead == head + ['_'] + formats + ['_']
    ensures lead + instrument + "_" + stamp + ext == head + ['_'] + formats + ['_'] + instrument + ['_'] + (stamp + ext)
  {
    assert "_" == ['_'];
  }

  lemma EdfToNxsas()
    ensures Formats("EDF2NXsas") == Ok(("EDF", "NXsas"))
  {
    assert "EDF2NXsas" == "EDF" + ['2'] + "NXsas";
    SplitAfter("EDF", "NXsas", '2');
    IndexOfAbsent("NXsas", '2');
  }

  lemma FourFieldsOf(settings: string, a: string, b: string, c: string, d: string)
    requires Split(settings, '_') == [a, b, c, d]
    ensures FourFields(settings) == (var fm := Formats(b); if fm.Err? then Err(fm.error)
                                     else Ok(Fields(fm.value.0, fm.value.1, c, Strip(d, {'.', 't', 'x'}))))
  {
  }

  /** The older managers read a name the package's settings editor writes: the
      instrument, the time stamp (which starts and ends with a digit), and the formats
      `EDF` and `NXsas`. */
  lemma OlderReadsGuiName(instrument: string, stamp: string)
    requires '_' !in instrument && '_' !in stamp
    requires |stamp| > 0 && IsDigit(stamp[0]) && IsDigit(stamp[|stamp| - 1])
    ensures GuiSettingsName(instrument, stamp).Some?
    ensures FourFields(GuiSettingsName(instrument, stamp).value) == Ok(Fields("EDF", "NXsas", instrument, stamp))
  {
    GuiNameSplit(instrument, stamp);
    FourFieldsOf(GuiSettingsName(instrument, stamp).value, "settings", "EDF2NXsas", instrument, stamp + ".txt");
    EdfToNxsas();
    StampStrip(stamp);
  }

  lemma StampStrip(stamp: string)
    requires |stamp| > 0 && IsDigit(stamp[0]) && IsDigit(stamp[|stamp| - 1])
    ensures Strip(stamp + ".txt", {'.', 't', 'x'}) == stamp
  {
    StripTail(stamp, ".txt", {'.', 't', 'x'});
  }

  lemma GuiNameSplit(instrument: string, stamp: string)
    requires '_' !in instrument && '_' !in stamp
    ensures GuiSettingsName(instrument, stamp).Some?
    ensures Split(GuiSettingsName(instrument, stamp).value, '_') == ["settings", "EDF2NXsas", instrument, stamp + ".txt"]
  {
    var last := stamp + ".txt";
    NameShape("settings_EDF2NXsas_", "settings", "EDF2NXsas", instrument, stamp, ".txt");
    assert '_' !in last;
    FourFieldsSplit("settings", "EDF2NXsas", instrument, last, '_');
  }

  /** A name the saxs configuration editor writes also has four `_`-fields: the older
      managers accept it, with the `.json` extension left on the date, since `strip`
      removes only the characters `.`, `t` and `x`. */
  lemma OlderReadsConfigName(instrument: string, stamp: string)
    requires '_' !in instrument && '_' !in stamp
    requires |stamp| > 0 && IsDigit(stamp[0])
    ensures ConfigSettingsName(instrument, stamp).Some?
    ensures FourFields(ConfigSettingsName(instrument, stamp).value) == Ok(Fields("EDF", "NX", instrument, stamp + ".json"))
  {
    var last := stamp + ".json";
    ConfigNameSplit(instrument, stamp);
    FourFieldsOf(ConfigSettingsName(instrument, stamp).value, "settings", "EDF2NX", instrument, last);
    EdfToNx();
    assert last + "" == last;
    StripTail(last, "", {'.', 't', 'x'});
  }

  lemma ConfigNameSplit(instrument: string, stamp: string)
    requires '_' !in instrument && '_' !in stamp
    ensures ConfigSettingsName(instrument, stamp).Some?
    ensures Split(ConfigSettingsName(instrument, stamp).value, '_') == ["settings", "EDF2NX", instrument, stamp + ".json"]
  {
    var last := stamp + ".json";
    NameShape("settings_EDF2NX_", "settings", "EDF2NX", instrument, stamp, ".json");
    assert '_' !in last;
    FourFieldsSplit("settings", "EDF2NX", instrument, last, '_');
  }

  /** `strip` takes a set of characters: it eats letters of the name too, and does not
      remove a suffix. */
  lemma StripIsNotSuffixRemoval()
    ensures Strip("next.txt", {'.', 't', 'x'}) == "ne"
    ensures Strip("ref.edf", ExperimentChars(AutoVariant)) == "r"
    ensures Strip("person.json", ExperimentChars(GeneratorVariant)) == "per"
  {
    StripNext();
    StripRef();
    StripPerson();
  }

  lemma StripNext()
    ensures Strip("next.txt", {'.', 't', 'x'}) == "ne"
  {
    assert "next.txt" == "ne" + "xt.txt";
    StripTail("ne", "xt.txt", {'.', 't', 'x'});
  }

  lemma StripRef()
    ensures Strip("ref.edf", {'.', 'e', 'd', 'f'}) == "r"
  {
    assert "ref.edf" == "r" + "ef.edf";
    StripTail("r", "ef.edf", {'.', 'e', 'd', 'f'});
  }

  lemma StripPerson()
    ensures Strip("person.json", {'.', 'j', 's', 'o', 'n'}) == "per"
  {
    assert "person.json" == "per" + "son.json";
    StripTail("per", "son.json", {'.', 'j', 's', 'o', 'n'});
  }

  /** `root + "/" + p0 + "/" + p1 ...` splits into the root's fields and the names. */
  lemma {:induction false} SplitSlashed(root: string, parts: seq<string>)
    requires forall k | 0 <= k < |parts| :: '/' !in parts[k]
    ensures Split(root + Slashed(parts), '/') == Split(root, '/') + parts
    decreases |parts|
  {
    if |parts| == 0 {
      assert root + Slashed(parts) == root;
    } else {
      var r := root + ['/'] + parts[0];
      var tail := parts[1..];
      SlashedHead(root, parts);
      SlashStep(root, parts[0]);
      SplitSlashed(r, tail);
      assert [parts[0]] + tail == parts;
      AppendAfter(Split(root, '/'), Split(r, '/'), parts[0], tail, parts);
    }
  }

  lemma AppendAfter(x: seq<string>, y: seq<string>, p: string, tail: seq<string>, parts: seq<string>)
    requires y == x + [p] && parts == [p] + tail
    ensures y + tail == x + parts
  {
  }

  /** The first name comes first, and the other names stay free of `/`. */
  lemma SlashedHead(root: string, parts: seq<string>)
    requires |parts| > 0 && forall k | 0 <= k < |parts| :: '/' !in parts[k]
    ensures root + Slashed(parts) == root + ['/'] + parts[0] + Slashed(parts[1..])
    ensures forall k | 0 <= k < |parts[1..]| :: '/' !in parts[1..][k]
  {
    var a := ['/'] + parts[0];
    var b := Slashed(parts[1..]);
    assert Slashed(parts) == a + b;
    StringAssoc(root, a, b);
    StringAssoc(root, ['/'], parts[0]);
    assert forall k | 0 <= k < |parts[1..]| :: parts[1..][k] == parts[k + 1];
  }

  lemma StringAssoc(a: string, b: string, c: string)
    ensures a + (b + c) == a + b + c
  {
  }

  lemma ListAssoc(a: seq<string>, b: seq<string>, c: seq<string>)
    ensures a + (b + c) == a + b + c
  {
  }

  lemma SlashStep(root: string, p: string)
    requires '/' !in p
    ensures Split(root + ['/'] + p, '/') == Split(root, '/') + [p]
  {
    SplitConcat(root, p, '/');
    IndexOfAbsent(p, '/');
  }

  /** The older directories: the tree root, then the instrument, configuration, sample,
      experiment and format directories; the two differ in the format alone. */
  lemma OlderDirectories(v: Variant, file: string, settings: string)
    requires OlderTree(v, file, settings, true).Ok?
    requires '/' !in file && '/' !in settings
    ensures SampleFields(v, file).Ok? && FourFields(settings).Ok?
    ensures var (sample, exp) := SampleFields(v, file).value;
      var f := FourFields(settings).value;
      var t := OlderTree(v, file, settings, true).value;
      && t.Dirs?
      && Split(t.target, '/') == Split(TreeRoot(v), '/') + OlderParts(f, sample, exp, f.ending)
      && Split(t.other, '/') == Split(TreeRoot(v), '/') + OlderParts(f, sample, exp, f.origin)
      && (t.target == t.other <==> f.ending == f.origin)
  {
    var (sample, exp) := SampleFields(v, file).value;
    var f := FourFields(settings).value;
    OlderFieldsWithoutSlash(v, file, settings);
    OlderDirsOfFields(v, f, sample, exp);
  }

  lemma OlderDirsOfFields(v: Variant, f: Fields, sample: string, exp: string)
    requires '/' !in f.instrument && '/' !in f.date && '/' !in sample && '/' !in exp && '/' !in f.ending && '/' !in f.origin
    ensures var x := OlderDir(v, f, sample, exp, f.ending);
      var y := OlderDir(v, f, sample, exp, f.origin);
      && Split(x, '/') == Split(TreeRoot(v), '/') + OlderParts(f, sample, exp, f.ending)
      && Split(y, '/') == Split(TreeRoot(v), '/') + OlderParts(f, sample, exp, f.origin)
      && (x == y <==> f.ending == f.origin)
  {
    var lead := OlderDirSplit(v, f, sample, exp, f.ending);
    var lead' := OlderDirSplit(v, f, sample, exp, f.origin);
    LastDirDecides(OlderDir(v, f, sample, exp, f.ending), OlderDir(v, f, sample, exp, f.origin), lead, f.ending, f.origin, [""]);
  }

  lemma OlderPartsClean(f: Fields, sample: string, exp: string, format: string)
    requires '/' !in "instrument - " + f.instrument && '/' !in "config - " + f.date && '/' !in "sample - " + sample
    requires '/' !in "experiment - " + exp && '/' !in "format - " + format
    ensures var p := OlderParts(f, sample, exp, format); forall k | 0 <= k < |p| :: '/' !in p[k]
  {
  }

  lemma OlderDirSplit(v: Variant, f: Fields, sample: string, exp: string, format: string) returns (lead: seq<string>)
    requires '/' !in f.instrument && '/' !in f.date && '/' !in sample && '/' !in exp && '/' !in format
    ensures lead == Split(TreeRoot(v), '/') + ["instrument - " + f.instrument, "config - " + f.date,
                                               "sample - " + sample, "experiment - " + exp]
    ensures Split(OlderDir(v, f, sample, exp, format), '/') == Split(TreeRoot(v), '/') + OlderParts(f, sample, exp, format)
    ensures Split(OlderDir(v, f, sample, exp, format), '/') == lead + ["format - " + format] + [""]
  {
    lead := PartsBelow(TreeRoot(v), f, sample, exp, format);
  }

  lemma PartsBelow(root: string, f: Fields, sample: string, exp: string, format: string) returns (lead: seq<string>)
    requires '/' !in f.instrument && '/' !in f.date && '/' !in sample && '/' !in exp && '/' !in format
    ensures lead == Split(root, '/') + ["instrument - " + f.instrument, "config - " + f.date,
                                        "sample - " + sample, "experiment - " + exp]
    ensures Split(root + Slashed(OlderParts(f, sample, exp, format)), '/') == Split(root, '/') + OlderParts(f, sample, exp, format)
    ensures Split(root + Slashed(OlderParts(f, sample, exp, format)), '/') == lead + ["format - " + format] + [""]
  {
    NoSlashAfter("instrument - ", f.instrument);
    NoSlashAfter("config - ", f.date);
    NoSlashAfter("sample - ", sample);
    NoSlashAfter("experiment - ", exp);
    NoSlashAfter("format - ", format);
    var p := OlderParts(f, sample, exp, format);
    OlderPartsClean(f, sample, exp, format);
    SplitSlashed(root, p);
    lead := Split(root, '/') + p[..4];
    assert p == p[..4] + ["format - " + format] + [""];
  }

  lemma OlderFieldsWithoutSlash(v: Variant, file: string, settings: string)
    requires SampleFields(v, file).Ok? && FourFields(settings).Ok?
    requires '/' !in file && '/' !in settings
    ensures var f := FourFields(settings).value;
      && '/' !in f.origin && '/' !in f.ending && '/' !in f.instrument && '/' !in f.date
      && '/' !in SampleFields(v, file).value.0 && '/' !in SampleFields(v, file).value.1
  {
    SplitChars(settings, '_');
    var parts := Split(settings, '_');
    SplitChars(parts[1], '2');
    StripChars(parts[3], {'.', 't', 'x'});
    SplitChars(file, '_');
    StripChars(Split(file, '_')[1], ExperimentChars(v));
  }

  lemma StripChars(s: string, cs: set<char>)
    ensures forall x | x in Strip(s, cs) :: x in s
  {
    var l := StripLeft(s, cs);
    StripLeftSuffix(s, cs);
    StripRightPrefix(l, cs);
    assert forall x | x in l :: x in s;
    assert forall x | x in StripRight(l, cs) :: x in l;
  }
}
