/** The NXsas writer of the package: the tables of package/nexus_format.py (the group
    structure and the parameter dictionary) and nexus_generation.py's
    `generate_nxsas_file`, which builds one HDF5 file from a filled parameter dictionary
    and the detector image. */
module Nxsas {
  import opened Wrappers
  import opened Text
  import opened PyValues
  import opened Units
  import opened H5
  import Containers
  import Layout

  // ------------------------------------------------------------ the tables

  /** A value of `dictParamNXsas`: `[name, value, options, attributes]`. */
  datatype Param = Param(name: string, value: PyValue, options: seq<string>, attrs: map<string, string>)

  /** One item of a parameter dictionary. Its key, a path such as "/entry/sample/name",
      is held as its components ["entry", "sample", "name"]. */
  datatype Entry = Entry(path: Path, param: Param)

  /** A parameter dictionary, in insertion order. */
  type ParamDict = seq<Entry>

  /** Dictionary keys are distinct. */
  predicate Keyed(d: ParamDict) {
    forall i, j | 0 <= i < j < |d| :: d[i].path != d[j].path
  }

  /** `d[key]`, or nothing when the key is absent. */
  function Find(d: ParamDict, p: Path): (r: Option<Param>)
    ensures r.Some? <==> exists i | 0 <= i < |d| :: d[i].path == p
    ensures r.Some? ==> exists i | 0 <= i < |d| :: d[i] == Entry(p, r.value)
    decreases |d|
  {
    if |d| == 0 then None
    else if d[0].path == p then Some(d[0].param)
    else
      var r := Find(d[1..], p);
      assert r.Some? ==> exists i | 0 <= i < |d| :: d[i] == Entry(p, r.value) by {
        if r.Some? {
          var i :| 0 <= i < |d[1..]| && d[1..][i] == Entry(p, r.value);
          assert d[i + 1] == Entry(p, r.value);
        }
      }
      assert (exists i | 0 <= i < |d| :: d[i].path == p) ==> r.Some? by {
        if exists i | 0 <= i < |d| :: d[i].path == p {
          var i :| 0 <= i < |d| && d[i].path == p;
          assert d[1..][i - 1].path == p;
        }
      }
      r
  }

  /** A value of `dictStructureNXsas`: the group's path, its name and its attributes. */
  datatype GroupSpec = GroupSpec(path: Path, name: string, attrs: map<string, string>)

  const StructureNxsas: seq<GroupSpec> := [
    GroupSpec(["entry"], "entry",
      map["NX_class" := "NXentry", "EX_required" := "true", "entry" := "SAMPLE-CHAR-DATA", "default" := "data"]),
    GroupSpec(["entry", "instrument"], "instrument", map["NX_class" := "NXinstrument", "EX_required" := "true"]),
    GroupSpec(["entry", "instrument", "source"], "source", map["NX_class" := "NXsource", "EX_required" := "true"]),
    GroupSpec(["entry", "instrument", "monochromator"], "monochromator",
      map["NX_class" := "NXmonochromator", "EX_required" := "true"]),
    GroupSpec(["entry", "instrument", "aperture"], "aperture", map["NX_class" := "NXaperture", "EX_required" := "true"]),
    GroupSpec(["entry", "instrument", "detector"], "detector", map["NX_class" := "NXdetector", "EX_required" := "true"]),
    GroupSpec(["entry", "sample"], "sample", map["NX_class" := "NXsample", "EX_required" := "true"]),
    GroupSpec(["entry", "data"], "data", map["NX_class" := "NXdata", "EX_required" := "true", "signal" := "data"])
  ]

  function Char(required: string): map<string, string> {
    map["type" := "NX_CHAR", "EX_required" := required]
  }

  function Float(required: string, units: string): map<string, string> {
    map["type" := "NX_FLOAT", "EX_required" := required, "units" := units]
  }

  const DataLinkPath: Path := ["entry", "data", "data"]
  const DetectorDataPath: Path := ["entry", "instrument", "detector", "data"]
  const SampleNamePath: Path := ["entry", "sample", "name"]
  const ExperimentTypePath: Path := ["entry", "experiment_type"]

  const ParamNxsas: ParamDict := [
    Entry(["entry", "title"], Param("title", PNone, [], Char("true"))),
    Entry(["entry", "start_time"], Param("start_time", PNone, [], map["type" := "NX_DATE_TIME", "EX_required" := "false"])),
    Entry(["entry", "end_time"], Param("end_time", PNone, [], map["type" := "NX_DATE_TIME", "EX_required" := "false"])),
    Entry(["entry", "definition"], Param("definition", PStr("NXsas"), ["NXsas"], Char("true"))),
    Entry(ExperimentTypePath, Param("experiment_type", PStr("SAXS"), ["None", "SAXS", "WAXS"], Char("false"))),
    Entry(["entry", "instrument", "name"], Param("name", PNone, [], Char("false"))),
    Entry(["entry", "instrument", "source", "type"], Param("type", PNone, [], Char("false"))),
    Entry(["entry", "instrument", "source", "name"], Param("name", PNone, [], Char("false"))),
    Entry(["entry", "instrument", "source", "probe"], Param("probe", PNone, ["None", "neutron", "x-ray"], Char("false"))),
    Entry(["entry", "instrument", "monochromator", "wavelength"], Param("wavelength", PNone, [], Float("true", "nm"))),
    Entry(["entry", "instrument", "monochromator", "wavelength_spread"],
      Param("wavelength_spread", PNone, [], map["type" := "NX_FLOAT", "EX_required" := "false"])),
    Entry(["entry", "instrument", "aperture", "shape"], Param("shape", PNone, ["None", "4-blade slit", "pinhole"], Char("false"))),
    Entry(["entry", "instrument", "aperture", "x_gap"], Param("x_gap", PNone, [], Float("false", "m"))),
    Entry(["entry", "instrument", "aperture", "y_gap"], Param("y_gap", PNone, [], Float("false", "m"))),
    Entry(["entry", "instrument", "detector", "name"], Param("name", PNone, [], Char("true"))),
    Entry(DetectorDataPath, Param("data", PNone, ["Autofilled"], map["type" := "NX_CHAR", "EX_required" := "true", "signal" := "1"])),
    Entry(["entry", "instrument", "detector", "distance"], Param("distance", PNone, [], Float("true", "mm"))),
    Entry(["entry", "instrument", "detector", "x_pixel_size"], Param("x_pixel_size", PNone, [], Float("true", "m"))),
    Entry(["entry", "instrument", "detector", "y_pixel_size"], Param("y_pixel_size", PNone, [], Float("true", "m"))),
    Entry(["entry", "instrument", "detector", "roll"], Param("roll", PNone, [], Float("false", "rad"))),
    Entry(["entry", "instrument", "detector", "pitch"], Param("pitch", PNone, [], Float("true", "rad"))),
    Entry(["entry", "instrument", "detector", "yaw"], Param("yaw", PNone, [], Float("true", "rad"))),
    Entry(["entry", "instrument", "detector", "beam_center_x"], Param("beam_center_x", PNone, [], Float("true", ""))),
    Entry(["entry", "instrument", "detector", "beam_center_y"], Param("beam_center_y", PNone, [], Float("true", ""))),
    Entry(["entry", "instrument", "detector", "geometry"],
      Param("geometry", PNone, ["reflexion", "transmission"], Char("true"))),
    Entry(SampleNamePath, Param("name", PNone, [], Char("true"))),
    Entry(["entry", "sample", "pitch"], Param("pitch", PNone, [], Float("true", "rad"))),
    Entry(DataLinkPath, Param("data", PNone, ["Autofilled"],
      map["EX_required" := "true", "target" := "/entry/instrument/detector/data", "signal" := "1"]))
  ]

  /** What `generate_nxsas_file` reads besides its arguments: `dictParamNXsas` and the
      unit table used by `convert`. */
  datatype Tables = Tables(params: ParamDict, units: UnitTable)

  // ------------------------------------------------------------ writing one file

  /** String attributes as stored HDF5 attribute values. */
  function Stringly(a: map<string, string>): (r: Attrs)
    ensures r.Keys == a.Keys
  {
    map k | k in a :: PStr(a[k])
  }

  /** The array h5py makes of a value: a list becomes a vector, anything else a scalar. */
  function ValueData(v: PyValue): Data {
    if v.PList? then Data([|v.items|], v.items) else Data([], [v])
  }

  /** The value a `None` parameter is written as, by its NeXus type. */
  function TypeDefault(valueType: string): PyValue {
    if valueType == "NX_FLOAT" then PFloat(0.0)
    else if valueType == "NX_CHAR" then PStr("N/A")
    else if valueType == "NX_DATE_TIME" then PStr("0000-00-00T00:00:00")
    else PStr("None")
  }

  function Defaulted(v: PyValue, attrs: map<string, string>): Result<PyValue, PyError> {
    if v != PNone then Ok(v)
    else if "type" !in attrs then Err(KeyError("type"))
    else Ok(TypeDefault(attrs["type"]))
  }

  /** `os.path.dirname(key)` */
  function DirOf(p: Path): Path {
    if p == [] then [] else Parent(p)
  }

  /** Setting the attributes one by one on an existing group or dataset. */
  function AddAttrs(t: Tree, p: Path, a: Attrs): Result<Tree, PyError> {
    if a == map[] then Ok(t)
    else if p !in t || t[p].SoftLink? then Err(KeyError(PathText(p)))
    else Ok(t[p := WithAttrs(t[p], AttrsOf(t[p]) + a)])
  }

  /** One group of the structure: `require_group` and its attributes. */
  function GroupStep(t: Tree, g: GroupSpec): Containers.Run {
    var r := RequireGroup(t, g.path);
    if r.Err? then Containers.Run(t, Some(r.error))
    else Containers.Lift(r.value, AddAttrs(r.value, g.path, Stringly(g.attrs)))
  }

  /** The structure loop, over the groups in table order. */
  function Structure(t: Tree, gs: seq<GroupSpec>): Containers.Run
    decreases |gs|
  {
    if gs == [] then Containers.Run(t, None)
    else
      var r := Structure(t, gs[..|gs| - 1]);
      if r.err.Some? then r else GroupStep(r.tree, gs[|gs| - 1])
  }

  /** The units forcing of one parameter: a parameter with a `units` attribute has its
      value converted to the unit of `dictParamNXsas`, and that unit replaces its own.
      The result is the updated entry and the value to write. */
  function Force(tb: Tables, e: Entry): Result<(Entry, PyValue), PyError> {
    var p := e.param;
    if "units" !in p.attrs then Ok((e, p.value))
    else
      var d := Find(tb.params, e.path);
      if d.None? then Err(KeyError(PathText(e.path)))
      else if "units" !in d.value.attrs then Err(KeyError("units"))
      else
        var forced := d.value.attrs["units"];
        var v :- ConvertSpec(Legacy, tb.units, p.value, p.attrs["units"], forced, false).result;
        Ok((Entry(e.path, p.(attrs := p.attrs["units" := forced])), v))
  }

  /** Where the attributes of an entry go: the group above `/entry/data/data` for that
      key, otherwise the dataset the entry creates. */
  function Target(e: Entry): Path {
    if e.path == DataLinkPath then DirOf(e.path) else DirOf(e.path) + [e.param.name]
  }

  /** The content of an entry's dataset: the image for the detector data, otherwise the
      value, or the default of the entry's type when it is `None`; a `None` value with no
      `type` attribute raises. */
  function Content(e: Entry, value: PyValue, data: Data): (r: Result<Data, PyError>)
    ensures r.Err? <==> e.path != DetectorDataPath && value == PNone && "type" !in e.param.attrs
    ensures r.Err? ==> r.error == KeyError("type")
    ensures e.path == DetectorDataPath ==> r == Ok(data)
    ensures r.Ok? && e.path != DetectorDataPath ==> r.value == ValueData(WrittenValue(e, value))
  {
    if e.path == DetectorDataPath then Ok(data)
    else
      var v :- Defaulted(value, e.param.attrs);
      Ok(ValueData(v))
  }

  /** Writing one parameter: its group is required, its dataset created (none for
      `/entry/data/data`, the image for the detector data) and its attributes set. */
  function Write(t: Tree, e: Entry, value: PyValue, data: Data): Containers.Run {
    var g := DirOf(e.path);
    var r := RequireGroup(t, g);
    if r.Err? then Containers.Run(t, Some(r.error))
    else if e.path == DataLinkPath then Containers.Lift(r.value, AddAttrs(r.value, g, Stringly(e.param.attrs)))
    else
      var c := Content(e, value, data);
      if c.Err? then Containers.Run(r.value, Some(c.error))
      else
        var q := g + [e.param.name];
        var s := CreateNode(r.value, q, Dataset(map[], c.value));
        if s.Err? then Containers.Run(r.value, Some(s.error))
        else Containers.Lift(s.value, AddAttrs(s.value, q, Stringly(e.param.attrs)))
  }

  /** One iteration of the parameter loop: the entry as the loop leaves it in the
      caller's dictionary, and the file after it. */
  function Step(tb: Tables, t: Tree, e: Entry, data: Data): (Entry, Containers.Run) {
    var f := Force(tb, e);
    if f.Err? then (e, Containers.Run(t, Some(f.error)))
    else (f.value.0, Write(t, f.value.0, f.value.1, data))
  }

  /** The file, the caller's dictionary as mutated, and the exception if one stopped the loop. */
  datatype Stage = Stage(tree: Tree, entries: ParamDict, err: Option<PyError>)

  /** The parameter loop, in dictionary order; after an exception the remaining entries
      are left as they were. */
  function ParamPhase(tb: Tables, t: Tree, es: ParamDict, data: Data): Stage
    decreases |es|
  {
    if es == [] then Stage(t, [], None)
    else
      var s := ParamPhase(tb, t, es[..|es| - 1], data);
      var last := es[|es| - 1];
      if s.err.Some? then Stage(s.tree, s.entries + [last], s.err)
      else
        var (e, r) := Step(tb, s.tree, last, data);
        Stage(r.tree, s.entries + [e], r.err)
  }

  /** The file name: `<sample>_<experiment type>_<stamp>.h5` in the output directory. */
  function OutputName(params: ParamDict, outdir: string, stamp: string): (r: Result<string, PyError>)
    ensures Find(params, SampleNamePath).None? ==> r == Err(KeyError(PathText(SampleNamePath)))
    ensures (Find(params, SampleNamePath).Some? && Find(params, ExperimentTypePath).None?
             && PyStr(Find(params, SampleNamePath).value.value).Ok?) ==> r == Err(KeyError(PathText(ExperimentTypePath)))
  {
    var s := Find(params, SampleNamePath);
    if s.None? then Err(KeyError(PathText(SampleNamePath)))
    else
      var sample :- PyStr(s.value.value);
      var x := Find(params, ExperimentTypePath);
      if x.None? then Err(KeyError(PathText(ExperimentTypePath)))
      else
        var exp :- PyStr(x.value.value);
        Ok(PathJoin(outdir, sample + "_" + exp + "_" + stamp + ".h5"))
  }

  /** Everything written once the file is open: the structure, the soft link from
      `/entry/data/data` to the detector data, then the parameters. */
  function WriteSpec(tb: Tables, params: ParamDict, data: Data): Stage {
    var s := Structure(EmptyFile(), StructureNxsas);
    if s.err.Some? then Stage(s.tree, params, s.err)
    else
      var l := Containers.Lift(s.tree, CreateNode(s.tree, DataLinkPath, SoftLink(DetectorDataPath)));
      if l.err.Some? then Stage(l.tree, params, l.err)
      else ParamPhase(tb, l.tree, params, data)
  }

  function GenerateSpec(tb: Tables, params: ParamDict, data: Data, outdir: string, stamp: string)
    : Result<(string, Stage), PyError>
  {
    var name :- OutputName(params, outdir, stamp);
    Ok((name, WriteSpec(tb, params, data)))
  }

  // ------------------------------------------------------------ the writer, step by step

  /** The node `n0` once the attributes of `a` outside `todo` are set on it. */
  function Partly(n0: Node, a: Attrs, todo: set<string>): Node {
    WithAttrs(n0, AttrsOf(n0) + Containers.Restrict(a, a.Keys - todo))
  }

  /** `for k, v in attrs.items(): f[p].attrs[k] = v` */
  method AddAttrsOn(f: File, p: Path, a: Attrs) returns (err: Option<PyError>)
    modifies f
    ensures Containers.Ran(Containers.Lift(old(f.tree), AddAttrs(old(f.tree), p, a)), f.tree, err)
  {
    if a == map[] {
      return None;
    }
    if p !in f.tree || f.tree[p].SoftLink? {
      return Some(KeyError(PathText(p)));
    }
    var n0 := f.tree[p];
    var todo := a.Keys;
    PartlyNone(n0, a);
    while todo != {}
      invariant todo <= a.Keys
      invariant f.tree == old(f.tree)[p := Partly(n0, a, todo)]
      decreases todo
    {
      var k :| k in todo;
      PartlyMore(n0, a, todo, k);
      var e := f.SetAttr(p, k, a[k]);
      todo := todo - {k};
    }
    assert Containers.Restrict(a, a.Keys - todo) == a;
    err := None;
  }

  lemma PartlyNone(n0: Node, a: Attrs)
    requires !n0.SoftLink?
    ensures Partly(n0, a, a.Keys) == n0
  {
    assert Containers.Restrict(a, a.Keys - a.Keys) == map[];
    assert AttrsOf(n0) + map[] == AttrsOf(n0);
  }

  lemma PartlyMore(n0: Node, a: Attrs, todo: set<string>, k: string)
    requires !n0.SoftLink? && k in todo && todo <= a.Keys
    ensures var n := Partly(n0, a, todo);
      WithAttrs(n, AttrsOf(n)[k := a[k]]) == Partly(n0, a, todo - {k})
  {
    var before := Containers.Restrict(a, a.Keys - todo);
    assert Containers.Restrict(a, a.Keys - (todo - {k})) == before[k := a[k]];
    assert (AttrsOf(n0) + before)[k := a[k]] == AttrsOf(n0) + before[k := a[k]];
  }

  /** The structure loop of `generate_nxsas_file`. */
  method BuildStructure(f: File, gs: seq<GroupSpec>) returns (err: Option<PyError>)
    modifies f
    ensures Containers.Ran(Structure(old(f.tree), gs), f.tree, err)
  {
    var i := 0;
    while i < |gs|
      invariant 0 <= i <= |gs|
      invariant Structure(old(f.tree), gs[..i]) == Containers.Run(f.tree, None)
    {
      assert gs[..i + 1][..i] == gs[..i];
      err := f.Require(gs[i].path);
      if err.Some? {
        StructureAfterError(old(f.tree), gs, i + 1);
        return;
      }
      err := AddAttrsOn(f, gs[i].path, Stringly(gs[i].attrs));
      if err.Some? {
        StructureAfterError(old(f.tree), gs, i + 1);
        return;
      }
      i := i + 1;
    }
    assert gs[..i] == gs;
    err := None;
  }

  /** One parameter written to the file. */
  method WriteEntry(f: File, e: Entry, value: PyValue, data: Data) returns (err: Option<PyError>)
    modifies f
    ensures Containers.Ran(Write(old(f.tree), e, value, data), f.tree, err)
  {
    var g := DirOf(e.path);
    err := f.Require(g);
    if err.Some? {
      return;
    }
    if e.path == DataLinkPath {
      err := AddAttrsOn(f, g, Stringly(e.param.attrs));
      return;
    }
    var c := Content(e, value, data);
    if c.Err? {
      return Some(c.error);
    }
    var q := g + [e.param.name];
    err := f.CreateDataset(q, c.value);
    if err.Some? {
      return;
    }
    err := AddAttrsOn(f, q, Stringly(e.param.attrs));
  }

  /** One iteration of the parameter loop. */
  method WriteOne(f: File, tb: Tables, e: Entry, data: Data) returns (entry: Entry, err: Option<PyError>)
    modifies f
    ensures (entry, Containers.Run(f.tree, err)) == Step(tb, old(f.tree), e, data)
  {
    var forced := Force(tb, e);
    if forced.Err? {
      return e, Some(forced.error);
    }
    entry := forced.value.0;
    err := WriteEntry(f, entry, forced.value.1, data);
  }

  /** The parameter loop of `generate_nxsas_file`; `out` is the caller's dictionary
      after the loop's in-place units updates. */
  method WriteParams(f: File, tb: Tables, params: ParamDict, data: Data) returns (out: ParamDict, err: Option<PyError>)
    modifies f
    ensures Stage(f.tree, out, err) == ParamPhase(tb, old(f.tree), params, data)
  {
    var done: ParamDict := [];
    var i := 0;
    while i < |params|
      invariant 0 <= i <= |params| && |done| == i
      invariant ParamPhase(tb, old(f.tree), params[..i], data) == Stage(f.tree, done, None)
    {
      PhaseNext(tb, old(f.tree), params, data, i);
      var entry;
      entry, err := WriteOne(f, tb, params[i], data);
      done := done + [entry];
      if err.Some? {
        PhaseAfterError(tb, old(f.tree), params, data, i + 1);
        return done + params[i + 1..], err;
      }
      i := i + 1;
    }
    assert params[..i] == params;
    return done, None;
  }

  /** `generate_nxsas_file(param_dict, data, output_directory)`, the clock reading
      given as `stamp`. */
  method GenerateNxsasFile(tb: Tables, params: ParamDict, data: Data, outdir: string, stamp: string)
    returns (r: Result<(string, Stage), PyError>)
    ensures r == GenerateSpec(tb, params, data, outdir, stamp)
  {
    var name := OutputName(params, outdir, stamp);
    if name.Err? {
      return Err(name.error);
    }
    var f := new File(EmptyFile());
    var err := BuildStructure(f, StructureNxsas);
    if err.Some? {
      return Ok((name.value, Stage(f.tree, params, err)));
    }
    err := f.CreateSoftLink(DataLinkPath, DetectorDataPath);
    if err.Some? {
      return Ok((name.value, Stage(f.tree, params, err)));
    }
    var out;
    out, err := WriteParams(f, tb, params, data);
    return Ok((name.value, Stage(f.tree, out, err)));
  }

  // ------------------------------------------------------------ lemmas

  /** Once the structure loop has stopped, the later groups are never reached. */
  lemma {:induction false} StructureAfterError(t: Tree, gs: seq<GroupSpec>, k: nat)
    requires k <= |gs| && Structure(t, gs[..k]).err.Some?
    ensures Structure(t, gs) == Structure(t, gs[..k])
    decreases |gs| - k
  {
    if k < |gs| {
      assert gs[..k + 1][..k] == gs[..k];
      StructureAfterError(t, gs, k + 1);
    } else {
      assert gs[..k] == gs;
    }
  }

  /** One more iteration of the parameter loop. */
  lemma PhaseNext(tb: Tables, t: Tree, es: ParamDict, data: Data, i: nat)
    requires i < |es| && ParamPhase(tb, t, es[..i], data).err.None?
    ensures var s := ParamPhase(tb, t, es[..i], data);
      var (e, r) := Step(tb, s.tree, es[i], data);
      ParamPhase(tb, t, es[..i + 1], data) == Stage(r.tree, s.entries + [e], r.err)
  {
    assert es[..i + 1][..i] == es[..i];
  }

  /** Once the parameter loop has stopped, the remaining entries stay as given. */
  lemma {:induction false} PhaseAfterError(tb: Tables, t: Tree, es: ParamDict, data: Data, k: nat)
    requires k <= |es| && ParamPhase(tb, t, es[..k], data).err.Some?
    ensures var s := ParamPhase(tb, t, es[..k], data);
      ParamPhase(tb, t, es, data) == Stage(s.tree, s.entries + es[k..], s.err)
    decreases |es| - k
  {
    var s := ParamPhase(tb, t, es[..k], data);
    if k < |es| {
      assert es[..k + 1][..k] == es[..k];
      assert es[..k + 1][k] == es[k];
      assert s.entries + [es[k]] + es[k + 1..] == s.entries + es[k..];
      PhaseAfterError(tb, t, es, data, k + 1);
    } else {
      assert es[..k] == es;
    }
  }

  // ------------------------------------------------------------ the structure

  function PathsOf(gs: seq<GroupSpec>): set<Path>
    decreases |gs|
  {
    if gs == [] then {} else PathsOf(gs[..|gs| - 1]) + {gs[|gs| - 1].path}
  }

  /** Every group comes after its parent group (or hangs below the root) and no path
      is listed twice. */
  predicate Layered(gs: seq<GroupSpec>)
    decreases |gs|
  {
    gs == [] ||
    (var init := gs[..|gs| - 1];
     var p := gs[|gs| - 1].path;
     && Layered(init)
     && p != []
     && (Parent(p) == [] || Parent(p) in PathsOf(init))
     && p !in PathsOf(init))
  }

  lemma {:induction false} InPathsOf(gs: seq<GroupSpec>, g: GroupSpec)
    requires g in gs
    ensures g.path in PathsOf(gs)
    decreases |gs|
  {
    if g != gs[|gs| - 1] {
      assert g in gs[..|gs| - 1];
      InPathsOf(gs[..|gs| - 1], g);
    }
  }

  /** A new group below an existing one: it is created, and its attributes are exactly
      the listed ones. */
  lemma GroupStepAdds(t: Tree, g: GroupSpec)
    requires Valid(t) && g.path != [] && g.path !in t && Parent(g.path) in t
    requires forall q | q in t :: t[q].Group?
    ensures GroupStep(t, g) == Containers.Run(t[g.path := Group(Stringly(g.attrs))], None)
  {
    var p := g.path;
    assert H5.Get(t, p).None?;
    Containers.AncestorsPresent(t, Parent(p));
    assert Ancestors(p) <= t.Keys by {
      forall i | 0 <= i < |p|
        ensures p[..i] in t
      {
        if i < |p| - 1 {
          assert p[..i] == Parent(p)[..i];
        }
      }
    }
    var t1 := t[p := Group(map[])];
    assert Graft(t, p, Group(map[])) == t1;
    assert RequireGroup(t, p) == Ok(t1);
    var t2 := t[p := Group(Stringly(g.attrs))];
    assert AddAttrs(t1, p, Stringly(g.attrs)) == Ok(t2) by {
      if Stringly(g.attrs) == map[] {
        assert Group(Stringly(g.attrs)) == Group(map[]);
      } else {
        assert map[] + Stringly(g.attrs) == Stringly(g.attrs);
        assert t1[p := Group(Stringly(g.attrs))] == t2;
      }
    }
  }

  /** A layered structure table written into an empty file gives exactly its groups,
      each with exactly its listed attributes. */
  lemma {:induction false} StructureExact(gs: seq<GroupSpec>)
    requires Layered(gs)
    ensures var r := Structure(EmptyFile(), gs);
      && r.err.None?
      && Valid(r.tree)
      && r.tree.Keys == {[]} + PathsOf(gs)
      && (forall q | q in r.tree :: r.tree[q].Group?)
      && forall g | g in gs :: g.path in r.tree && r.tree[g.path] == Group(Stringly(g.attrs))
    decreases |gs|
  {
    if gs != [] {
      var init := gs[..|gs| - 1];
      var g := gs[|gs| - 1];
      StructureExact(init);
      var t := Structure(EmptyFile(), init).tree;
      GroupStepAdds(t, g);
      var t2 := t[g.path := Group(Stringly(g.attrs))];
      assert Structure(EmptyFile(), gs) == Containers.Run(t2, None);
      forall h | h in gs
        ensures h.path in t2 && t2[h.path] == Group(Stringly(h.attrs))
      {
        if h != g {
          assert h in init;
          InPathsOf(init, h);
        }
      }
    }
  }

  lemma LayeredSnoc(gs: seq<GroupSpec>, k: nat)
    requires k < |gs| && Layered(gs[..k]) && gs[k].path != []
    requires Parent(gs[k].path) == [] || Parent(gs[k].path) in PathsOf(gs[..k])
    requires gs[k].path !in PathsOf(gs[..k])
    ensures Layered(gs[..k + 1]) && PathsOf(gs[..k + 1]) == PathsOf(gs[..k]) + {gs[k].path}
  {
    assert gs[..k + 1][..k] == gs[..k];
  }

  const EntryGroup: Path := ["entry"]
  const InstrumentGroup: Path := ["entry", "instrument"]

  /** The paths of `dictStructureNXsas`, in its order. */
  predicate TablePaths(gs: seq<GroupSpec>)
  {
    && |gs| == 8
    && gs[0].path == EntryGroup && gs[1].path == InstrumentGroup
    && gs[2].path == InstrumentGroup + ["source"] && gs[3].path == InstrumentGroup + ["monochromator"]
    && gs[4].path == InstrumentGroup + ["aperture"] && gs[5].path == InstrumentGroup + ["detector"]
    && gs[6].path == EntryGroup + ["sample"] && gs[7].path == EntryGroup + ["data"]
  }

  lemma LayeredInstrument(gs: seq<GroupSpec>)
    requires TablePaths(gs)
    ensures Layered(gs[..4])
    ensures PathsOf(gs[..4]) == {EntryGroup, InstrumentGroup, InstrumentGroup + ["source"], InstrumentGroup + ["monochromator"]}
  {
    assert gs[..0] == [];
    LayeredSnoc(gs, 0);
    assert Parent(InstrumentGroup) == EntryGroup;
    LayeredSnoc(gs, 1);
    LayeredSnoc(gs, 2);
    LayeredSnoc(gs, 3);
  }

  /** Groups whose paths are those of `dictStructureNXsas` are layered. */
  lemma LayeredByPaths(gs: seq<GroupSpec>)
    requires TablePaths(gs)
    ensures Layered(gs)
    ensures DataLinkPath !in PathsOf(gs)
  {
    LayeredInstrument(gs);
    LayeredSnoc(gs, 4);
    LayeredSnoc(gs, 5);
    assert PathsOf(gs[..6]) == {EntryGroup, InstrumentGroup, InstrumentGroup + ["source"], InstrumentGroup + ["monochromator"],
      InstrumentGroup + ["aperture"], InstrumentGroup + ["detector"]};
    LayeredSnoc(gs, 6);
    LayeredSnoc(gs, 7);
    assert gs[..8] == gs;
    assert PathsOf(gs) == PathsOf(gs[..6]) + {EntryGroup + ["sample"], EntryGroup + ["data"]};
  }

  /** The structure of `dictStructureNXsas`: every listed group with exactly its listed
      attributes, and nothing else; `/entry/data/data` is then free for the soft link. */
  lemma StructureOfTable()
    ensures var r := Structure(EmptyFile(), StructureNxsas);
      && r.err.None?
      && Valid(r.tree)
      && r.tree.Keys == {[]} + PathsOf(StructureNxsas)
      && (forall g | g in StructureNxsas :: g.path in r.tree && r.tree[g.path] == Group(Stringly(g.attrs)))
      && CreateNode(r.tree, DataLinkPath, SoftLink(DetectorDataPath)).Ok?
  {
    LayeredByPaths(StructureNxsas);
    StructureExact(StructureNxsas);
    var t := Structure(EmptyFile(), StructureNxsas).tree;
    assert DataLinkPath !in t;
    assert AncestorsAreGroups(t, DataLinkPath);
  }

  // ------------------------------------------------------------ lemmas: the parameter loop

  /** A successful `require_group` keeps the file well-formed and every node in it, and
      leaves a group reachable at `p`. */
  lemma RequireKeeps(t: Tree, p: Path)
    requires Valid(t) && RequireGroup(t, p).Ok?
    ensures var u := RequireGroup(t, p).value;
      && Valid(u)
      && (forall q | q in t :: q in u && u[q] == t[q])
      && H5.Get(u, p).Some? && H5.Get(u, p).value.Group?
  {
    if !Exists(t, p) {
      CreateKeepsValid(t, p, Group(map[]));
    }
  }

  /** Setting attributes changes the attributes of that one node and nothing else. */
  lemma AddAttrsKeeps(t: Tree, p: Path, a: Attrs)
    requires Valid(t) && AddAttrs(t, p, a).Ok?
    ensures var u := AddAttrs(t, p, a).value;
      && Valid(u)
      && u.Keys == t.Keys
      && (forall q | q in t && q != p :: u[q] == t[q])
      && (a != map[] ==> u[p] == WithAttrs(t[p], AttrsOf(t[p]) + a))
  {
  }

  /** The forcing keeps the key, the name, the value's place and the attribute names;
      with a `units` attribute it sets that attribute to the unit `dictParamNXsas` gives
      for the key, and otherwise it changes nothing. */
  lemma ForceShape(tb: Tables, e: Entry)
    requires Force(tb, e).Ok?
    ensures var (e2, v) := Force(tb, e).value;
      && e2.path == e.path
      && e2.param.name == e.param.name && e2.param.value == e.param.value && e2.param.options == e.param.options
      && e2.param.attrs.Keys == e.param.attrs.Keys
      && (forall k | k in e.param.attrs && k != "units" :: e2.param.attrs[k] == e.param.attrs[k])
      && ("units" !in e.param.attrs ==> e2 == e && v == e.param.value)
      && ("units" in e.param.attrs ==>
            && Find(tb.params, e.path).Some?
            && "units" in Find(tb.params, e.path).value.attrs
            && e2.param.attrs["units"] == Find(tb.params, e.path).value.attrs["units"])
  {
  }

  /** A value already in the forced unit is written unchanged (outside angles, whose
      conversion goes through the turn). */
  lemma ForceInPlace(tb: Tables, e: Entry, x: real, ty: string, s: real)
    requires e.param.value == PFloat(x) && "units" in e.param.attrs
    requires Find(tb.params, e.path).Some? && "units" in Find(tb.params, e.path).value.attrs
    requires Find(tb.params, e.path).value.attrs["units"] == e.param.attrs["units"]
    requires LastTypeOf(tb.units, e.param.attrs["units"]) == Some(ty) && ty != "NX_ANGLE"
    requires FactorOf(tb.units, e.param.attrs["units"]) == Some(s) && s != 0.0
    ensures Force(tb, e).Ok? && Force(tb, e).value.1 == PFloat(x)
  {
    var u := e.param.attrs["units"];
    ConvertSameType(Legacy, tb.units, PFloat(x), u, u, false, ty);
    RescaleLinear(Legacy, tb.units, ty, x, u, u, s, s);
    assert x * (s / s) == x;
  }

  /** A successful step: the entry keeps its key and name, every dataset and link already
      in the file is left alone, and at most one group (the target of `/entry/data/data`)
      has attributes added. */
  lemma StepKeeps(tb: Tables, t: Tree, e: Entry, data: Data)
    requires Valid(t) && Step(tb, t, e, data).1.err.None?
    ensures var (e2, r) := Step(tb, t, e, data);
      && Valid(r.tree)
      && e2.path == e.path && e2.param.name == e.param.name
      && Target(e) in r.tree
      && (forall q | q in t && q != Target(e) :: q in r.tree && r.tree[q] == t[q])
      && (forall q | q in t && !t[q].Group? :: q in r.tree && r.tree[q] == t[q])
  {
    ForceShape(tb, e);
    var (e2, v) := Force(tb, e).value;
    var g := DirOf(e.path);
    RequireKeeps(t, g);
    var u := RequireGroup(t, g).value;
    if e.path == DataLinkPath {
      AddAttrsKeeps(u, g, Stringly(e2.param.attrs));
    } else {
      var q := g + [e2.param.name];
      var c := Content(e2, v, data).value;
      CreateKeepsValid(u, q, Dataset(map[], c));
      var w := CreateNode(u, q, Dataset(map[], c)).value;
      AddAttrsKeeps(w, q, Stringly(e2.param.attrs));
    }
  }

  /** The value a successfully forced entry is written with: its forced value, or the
      default of its type when that is `None`. */
  function WrittenValue(e: Entry, v: PyValue): PyValue
    requires v == PNone ==> "type" in e.param.attrs
  {
    if v == PNone then TypeDefault(e.param.attrs["type"]) else v
  }

  /** `/entry/data/data` writes no dataset: the group above it, required, has the entry's
      attributes added. */
  lemma WriteLinkGroup(t: Tree, e: Entry, v: PyValue, data: Data)
    requires Valid(t) && e.path == DataLinkPath && Write(t, e, v, data).err.None?
    ensures var r := Write(t, e, v, data).tree;
      var g := DirOf(e.path);
      && Valid(r)
      && g in r
      && r[g] == (if g in t then WithAttrs(t[g], AttrsOf(t[g]) + Stringly(e.param.attrs)) else Group(Stringly(e.param.attrs)))
      && (forall q | q in t && q != g :: q in r && r[q] == t[q])
  {
    var g := DirOf(e.path);
    RequireKeeps(t, g);
    var u := RequireGroup(t, g).value;
    AddAttrsKeeps(u, g, Stringly(e.param.attrs));
    if g !in t {
      assert u[g] == Group(map[]);
    } else if Stringly(e.param.attrs) == map[] {
      assert AttrsOf(t[g]) + map[] == AttrsOf(t[g]);
    }
  }

  /** Any other key writes a new dataset next to the existing nodes, holding the content
      and exactly the entry's attributes. */
  lemma WriteDataset(t: Tree, e: Entry, v: PyValue, data: Data)
    requires Valid(t) && e.path != DataLinkPath && Write(t, e, v, data).err.None?
    ensures Content(e, v, data).Ok?
    ensures var r := Write(t, e, v, data).tree;
      && Valid(r)
      && Target(e) !in t && Target(e) in r
      && r[Target(e)] == Dataset(Stringly(e.param.attrs), Content(e, v, data).value)
      && (forall q | q in t :: q in r && r[q] == t[q])
  {
    var g := DirOf(e.path);
    RequireKeeps(t, g);
    var u := RequireGroup(t, g).value;
    var q := g + [e.param.name];
    var c := Content(e, v, data).value;
    CreateKeepsValid(u, q, Dataset(map[], c));
    var w := CreateNode(u, q, Dataset(map[], c)).value;
    AddAttrsKeeps(w, q, Stringly(e.param.attrs));
    if Stringly(e.param.attrs) == map[] {
      assert w[q] == Dataset(Stringly(e.param.attrs), c);
    }
  }

  /** `e2` is `e` after the units forcing. */
  predicate Forced(tb: Tables, e: Entry, e2: Entry) {
    Force(tb, e).Ok? && e2 == Force(tb, e).value.0
  }

  /** The loop hands back one entry per entry, in order: each one either left as it was
      or forced; when no exception stopped the loop, every one was forced. */
  lemma {:induction false} PhaseShape(tb: Tables, t: Tree, es: ParamDict, data: Data)
    ensures var s := ParamPhase(tb, t, es, data);
      && |s.entries| == |es|
      && (forall i | 0 <= i < |es| :: s.entries[i] == es[i] || Forced(tb, es[i], s.entries[i]))
      && (s.err.None? ==> forall i | 0 <= i < |es| :: Forced(tb, es[i], s.entries[i]))
    decreases |es|
  {
    if es != [] {
      var init := es[..|es| - 1];
      PhaseShape(tb, t, init, data);
      var s0 := ParamPhase(tb, t, init, data);
      var last := es[|es| - 1];
      var s := ParamPhase(tb, t, es, data);
      var e2 := if s0.err.None? then Step(tb, s0.tree, last, data).0 else last;
      assert s.entries == s0.entries + [e2];
      assert s.err.None? ==> s0.err.None?;
      if s0.err.None? {
        StepEntry(tb, s0.tree, last, data);
        assert s.err == Step(tb, s0.tree, last, data).1.err;
      }
      forall i | 0 <= i < |es|
        ensures s.entries[i] == es[i] || Forced(tb, es[i], s.entries[i])
        ensures s.err.None? ==> Forced(tb, es[i], s.entries[i])
      {
        if i < |init| {
          assert es[i] == init[i] && s.entries[i] == s0.entries[i];
        } else {
          assert es[i] == last && s.entries[i] == e2;
        }
      }
    }
  }

  lemma StepEntry(tb: Tables, t: Tree, e: Entry, data: Data)
    ensures Step(tb, t, e, data).0 == e || Forced(tb, e, Step(tb, t, e, data).0)
    ensures Step(tb, t, e, data).1.err.None? ==> Forced(tb, e, Step(tb, t, e, data).0)
  {
  }

  /** A successful loop keeps the file well-formed and leaves every dataset and link that
      was in it before alone. */
  lemma {:induction false} PhaseKeeps(tb: Tables, t: Tree, es: ParamDict, data: Data)
    requires Valid(t) && ParamPhase(tb, t, es, data).err.None?
    ensures var r := ParamPhase(tb, t, es, data).tree;
      Valid(r) && forall q | q in t && !t[q].Group? :: q in r && r[q] == t[q]
    decreases |es|
  {
    if es != [] {
      var init := es[..|es| - 1];
      PhaseKeeps(tb, t, init, data);
      StepKeeps(tb, ParamPhase(tb, t, init, data).tree, es[|es| - 1], data);
    }
  }

  /** After a successful loop every key but `/entry/data/data` has its dataset, holding
      what `Content` gives for the forced entry and exactly the forced entry's attributes. */
  lemma {:induction false} PhaseWrites(tb: Tables, t: Tree, es: ParamDict, data: Data, i: nat)
    requires Valid(t) && ParamPhase(tb, t, es, data).err.None?
    requires i < |es| && es[i].path != DataLinkPath
    ensures Force(tb, es[i]).Ok? && |ParamPhase(tb, t, es, data).entries| == |es|
    ensures var s := ParamPhase(tb, t, es, data);
      var e2 := s.entries[i];
      && e2 == Force(tb, es[i]).value.0
      && Content(e2, Force(tb, es[i]).value.1, data).Ok?
      && Target(es[i]) in s.tree
      && s.tree[Target(es[i])] == Dataset(Stringly(e2.param.attrs), Content(e2, Force(tb, es[i]).value.1, data).value)
    decreases |es|
  {
    PhaseShape(tb, t, es, data);
    var init := es[..|es| - 1];
    var s0 := ParamPhase(tb, t, init, data);
    PhaseShape(tb, t, init, data);
    if i == |es| - 1 {
      PhaseKeeps(tb, t, init, data);
      ForceShape(tb, es[i]);
      var (e2, v) := Force(tb, es[i]).value;
      WriteDataset(s0.tree, e2, v, data);
    } else {
      PhaseWrites(tb, t, init, data, i);
      PhaseKeeps(tb, t, init, data);
      StepKeeps(tb, s0.tree, es[|es| - 1], data);
    }
  }

  /** A loop started on a file where `/entry/data/data` links to the detector data and
      the detector data entry is written: the link then resolves to that dataset. */
  lemma LinkResolves(tb: Tables, t: Tree, params: ParamDict, data: Data, i: nat)
    requires Valid(t) && DataLinkPath in t && t[DataLinkPath] == SoftLink(DetectorDataPath)
    requires ParamPhase(tb, t, params, data).err.None?
    requires i < |params| && params[i].path == DetectorDataPath && params[i].param.name == "data"
    ensures |ParamPhase(tb, t, params, data).entries| == |params|
    ensures var s := ParamPhase(tb, t, params, data);
      H5.Get(s.tree, DataLinkPath) == Some(Dataset(Stringly(s.entries[i].param.attrs), data))
  {
    PhaseKeeps(tb, t, params, data);
    PhaseWrites(tb, t, params, data, i);
    ForceShape(tb, params[i]);
    assert Target(params[i]) == DetectorDataPath;
  }

  /** The file before the parameter loop: the structure and the soft link. */
  lemma Skeleton(tb: Tables, params: ParamDict, data: Data) returns (t: Tree)
    ensures Valid(t) && DataLinkPath in t && t[DataLinkPath] == SoftLink(DetectorDataPath)
    ensures WriteSpec(tb, params, data) == ParamPhase(tb, t, params, data)
  {
    StructureOfTable();
    var t0 := Structure(EmptyFile(), StructureNxsas).tree;
    CreateKeepsValid(t0, DataLinkPath, SoftLink(DetectorDataPath));
    t := CreateNode(t0, DataLinkPath, SoftLink(DetectorDataPath)).value;
  }

  /** In a file written without an exception, `/entry/data/data` resolves to the detector
      dataset: the image with the detector entry's forced attributes. */
  lemma GenerateLinksDetector(tb: Tables, params: ParamDict, data: Data, i: nat)
    requires WriteSpec(tb, params, data).err.None?
    requires i < |params| && params[i].path == DetectorDataPath && params[i].param.name == "data"
    ensures |WriteSpec(tb, params, data).entries| == |params|
    ensures var s := WriteSpec(tb, params, data);
      H5.Get(s.tree, DataLinkPath) == Some(Dataset(Stringly(s.entries[i].param.attrs), data))
  {
    var t := Skeleton(tb, params, data);
    LinkResolves(tb, t, params, data, i);
  }

  /** With a sample name, an experiment type and a stamp free of `_`, the file name
      splits back into those three fields (the last one with the `.h5` suffix). */
  lemma OutputNameFields(params: ParamDict, outdir: string, stamp: string, sample: string, exp: string)
    requires Find(params, SampleNamePath).Some? && PyStr(Find(params, SampleNamePath).value.value) == Ok(sample)
    requires Find(params, ExperimentTypePath).Some? && PyStr(Find(params, ExperimentTypePath).value.value) == Ok(exp)
    requires '_' !in sample && '_' !in exp && '_' !in stamp
    ensures OutputName(params, outdir, stamp) == Ok(PathJoin(outdir, sample + "_" + exp + "_" + stamp + ".h5"))
    ensures Split(sample + "_" + exp + "_" + stamp + ".h5", '_') == [sample, exp, stamp + ".h5"]
  {
    var last := stamp + ".h5";
    assert '_' !in last;
    assert sample + "_" + exp + "_" + stamp + ".h5" == sample + ['_'] + exp + ['_'] + last;
    Layout.ThreeFields(sample, exp, last, '_');
  }
}
