/** saxs_nxformat/nxfile_generator.py: an EDF image and a settings tree become an
    NXcanSAS file. `fill_hdf5` builds the file from the settings, `data_treatment`
    computes the pixel-position grid and the mask of the image, and `generate_nexus`
    names the file and puts the arrays in place. Reading the EDF file and the JSON
    settings is outside the model: the header, the image and the settings tree are
    parameters, and so is the time stamp. */
module Generator {
  import opened Wrappers
  import opened Text
  import opened PyValues
  import opened H5
  import opened Containers
  import opened Grids
  import opened Parsing
  import opened Units

  // ------------------------------------------------------------ data_treatment

  const DetectorGroup: Path := ["ENTRY", "INSTRUMENT", "DETECTOR"]

  /** `f[p][()]` of a metadata dataset, as the number the grid arithmetic uses. */
  function ReadNumber(t: Tree, p: Path): Result<real, PyError> {
    match H5.Get(t, p)
    case None => Err(KeyError(PathText(p)))
    case Some(n) =>
      if !n.Dataset? then Err(TypeError("Accessing a group is done with bytes or str"))
      else if n.data.shape != [] || |n.data.cells| != 1 then Err(NotModelled("arithmetic on an array"))
      else if Numeric(n.data.cells[0]).None? then Err(TypeError("unsupported operand type(s) for -"))
      else Ok(Numeric(n.data.cells[0]).value)
  }

  /** The positions of `n` pixels around `center`: `np.linspace(0 - center, n - center, n) * size`. */
  function PixelAxis(center: real, n: nat, size: real): (xs: seq<real>)
    ensures |xs| == n
  {
    Scale(Linspace(0.0 - center, n as real - center, n), size)
  }

  /** Pixel `k` at `(k - center) * size`, one pixel size apart. */
  function CentredAxis(center: real, n: nat, size: real): (xs: seq<real>)
    ensures |xs| == n
  {
    seq(n, k requires 0 <= k < n => (k as real - center) * size)
  }

  /** Which of the two axes a treatment lays out. */
  datatype AxisRule = AsWritten | Centred

  function AxisOf(rule: AxisRule, center: real, n: nat, size: real): (xs: seq<real>)
    ensures |xs| == n
  {
    match rule
    case AsWritten => PixelAxis(center, n, size)
    case Centred => CentredAxis(center, n, size)
  }

  /** `np.logical_not(data >= 0)`; comparing a string array with 0 raises. */
  function NegativeMask(d: Data): (r: Result<Data, PyError>)
    ensures r.Ok? <==> forall k | 0 <= k < |d.cells| :: Numeric(d.cells[k]).Some?
    ensures r.Ok? ==> r.value.shape == d.shape && |r.value.cells| == |d.cells|
    ensures r.Ok? ==> forall k | 0 <= k < |d.cells| ::
      r.value.cells[k] == PBool(Numeric(d.cells[k]).value < 0.0)
  {
    if forall k | 0 <= k < |d.cells| :: Numeric(d.cells[k]).Some? then
      Ok(Data(d.shape, seq(|d.cells|, k requires 0 <= k < |d.cells| && Numeric(d.cells[k]).Some? =>
                                      PBool(!(Numeric(d.cells[k]).value >= 0.0)))))
    else Err(TypeError("'>=' not supported between instances of 'str' and 'int'"))
  }

  /** The dictionary `data_treatment` returns. */
  datatype Treated = Treated(r: Data, i: Data, mask: Data)

  /** `data_treatment(data, h5_file)`: the reads come in program order, and `dim[1]`
      raises for an image of rank below 2 before the pixel sizes are read. */
  function DataTreatment(data: Data, t: Tree, rule: AxisRule): Result<Treated, PyError> {
    var bcx :- ReadNumber(t, DetectorGroup + ["beam_center_x"]);
    var bcy :- ReadNumber(t, DetectorGroup + ["beam_center_y"]);
    if |data.shape| < 2 then Err(IndexError)
    else
      var px :- ReadNumber(t, DetectorGroup + ["x_pixel_size"]);
      var py :- ReadNumber(t, DetectorGroup + ["y_pixel_size"]);
      var mask :- NegativeMask(data);
      Ok(Treated(Mesh(AxisOf(rule, bcx, data.shape[1], px), AxisOf(rule, bcy, data.shape[0], py)), data, mask))
  }

  // ------------------------------------------------------------ reading the settings

  /** The EDF header: a dictionary of strings. */
  type Header = map<string, string>

  /** Which `fill_hdf5`: that of saxs_nxformat/nxfile_generator.py, or the older copy in
      edf2nxsas/nexus_file_generator.py, which types values with its own
      `string_2_value` and reads attribute values the other way round. */
  datatype Edition = Current | Older

  /** What `fill_hdf5` and `generate_nexus` take from outside the settings tree. */
  datatype Env = Env(header: Header, table: UnitTable, edition: Edition)

  /** `j[key]` on a value of the settings tree. */
  function Index(j: Json, key: string): Result<Json, PyError> {
    match j
    case JObject(ms) => if PyValues.Get(ms, key).Some? then Ok(PyValues.Get(ms, key).value) else Err(KeyError(key))
    case JList(_) => Err(TypeError("list indices must be integers or slices, not str"))
    case JStr(_) => Err(TypeError("string indices must be integers"))
    case _ => Err(TypeError("object is not subscriptable"))
  }

  /** `j[k]` with an integer index. */
  function Item(j: Json, k: nat): Result<Json, PyError> {
    match j
    case JList(items) => if k < |items| then Ok(items[k]) else Err(IndexError)
    case JStr(s) => if k < |s| then Ok(JStr([s[k]])) else Err(IndexError)
    case JObject(_) => Err(KeyError(IntToString(k)))
    case _ => Err(TypeError("object is not subscriptable"))
  }

  /** `value[key]` on the fields of a settings entry. */
  function Field(fields: seq<Member>, key: string): (r: Result<Json, PyError>)
    ensures r.Ok? <==> PyValues.Get(fields, key).Some?
    ensures r.Ok? ==> r.value == PyValues.Get(fields, key).value
  {
    if PyValues.Get(fields, key).Some? then Ok(PyValues.Get(fields, key).value) else Err(KeyError(key))
  }

  /** `str(header.get(key, key))`: the header's text for a key it has, else the key itself. */
  function HeaderOrLiteral(h: Header, key: Json): Result<string, PyError> {
    match key
    case JStr(s) => Ok(if s in h then h[s] else s)
    case JList(_) => Err(TypeError("unhashable type: 'list'"))
    case JObject(_) => Err(TypeError("unhashable type: 'dict'"))
    case _ => JsonStr(key)
  }

  /** The `unit_type` argument of `string_2_value`: `None` for a JSON null, otherwise a
      value that only decides the result of an empty string (a non-string type then
      matches no NeXus type). */
  function TypeArg(ty: Json): Option<string> {
    match ty
    case JNull => None
    case JStr(s) => Some(s)
    case _ => Some("")
  }

  /** `string_2_value(s, value["type"])` of the edition. */
  function Typed(ed: Edition, s: string, ty: Json): Result<PyValue, PyError> {
    if ed == Current then TypedValue(s, TypeArg(ty))
    else RawValue(Some(s), if ty.JStr? then ty.s else "")
  }

  function UnitName(j: Json): Result<string, PyError> {
    if j.JStr? then Ok(j.s) else Err(NotModelled("a unit that is not a string"))
  }

  /** The value of a `dataset` entry: looked up in the header, typed, and converted when
      its content has a truthy `@units` entry `[from, to]`. */
  function DatasetValue(env: Env, fields: seq<Member>): Result<PyValue, PyError> {
    var lit :- Field(fields, "value");
    var s :- HeaderOrLiteral(env.header, lit);
    var ty :- Field(fields, "type");
    var v :- Typed(env.edition, s, ty);
    var content := PyValues.Get(fields, "content");
    if content.None? || !Truthy(content.value) then Ok(v)
    else if !content.value.JObject? then Err(AttributeError("get"))
    else
      var unit := PyValues.Get(content.value.members, "@units");
      if unit.None? || !Truthy(unit.value) then Ok(v)
      else
        var pair :- Index(unit.value, "value");
        var j0 :- Item(pair, 0);
        var j1 :- Item(pair, 1);
        var us :- UnitName(j0);
        var ue :- UnitName(j1);
        ConvertSpec(Saxs, env.table, v, us, ue, false).result
  }

  /** The text of an `attribute` entry: a list gives its second element, anything else
      is looked up in the header. */
  function AttributeText(h: Header, lit: Json): Result<string, PyError> {
    if lit.JList? then (if |lit.items| > 1 then JsonStr(lit.items[1]) else Err(IndexError))
    else HeaderOrLiteral(h, lit)
  }

  /** The older copy tests `isinstance(value, list)` without the negation: a list is
      looked up in the header, which cannot hash it, and anything else is indexed at 1
      (a string gives its second character). */
  function OlderAttributeText(h: Header, lit: Json): Result<string, PyError> {
    if lit.JList? then HeaderOrLiteral(h, lit)
    else
      var second :- Item(lit, 1);
      JsonStr(second)
  }

  /** The value of an `attribute` entry: its text, typed. */
  function AttributeValue(env: Env, fields: seq<Member>): Result<PyValue, PyError> {
    var lit :- Field(fields, "value");
    var s :- if env.edition == Current then AttributeText(env.header, lit) else OlderAttributeText(env.header, lit);
    var ty :- Field(fields, "type");
    Typed(env.edition, s, ty)
  }

  /** `key.strip("/").strip("@")` */
  function CleanKey(k: string): string {
    Strip(Strip(k, {'/'}), {'@'})
  }

  // ------------------------------------------------------------ fill_hdf5

  /** `obj.attrs[k] = v`; h5py has no stored form for `None`. */
  function StoreAttr(t: Tree, p: Path, k: string, v: PyValue): Run {
    if v == PNone then Run(t, Some(TypeError("Object dtype dtype('O') has no native HDF5 equivalent")))
    else Lift(t, PutAttr(t, p, k, v))
  }

  /** `current_element.attrs[k] = value[k]` */
  function PutField(t: Tree, fields: seq<Member>, p: Path, k: string): Run {
    match Field(fields, k)
    case Err(e) => Run(t, Some(e))
    case Ok(j) =>
      match JsonToPy(j)
      case Err(e) => Run(t, Some(e))
      case Ok(v) => StoreAttr(t, p, k, v)
  }

  /** The three attributes every created group and dataset receives, last. */
  function DescribeRun(t: Tree, fields: seq<Member>, p: Path): Run {
    var r1 := PutField(t, fields, p, "EX_required");
    if r1.err.Some? then r1
    else
      var r2 := PutField(r1.tree, fields, p, "type");
      if r2.err.Some? then r2 else PutField(r2.tree, fields, p, "docstring")
  }

  const NoData := TypeError("One of data, shape or dtype must be specified")

  /** `fill_hdf5(file, content, parent)` on a `content` value: its items are iterated. */
  function FillContent(t: Tree, env: Env, c: Json, parent: Path, onDataset: bool): Run
    decreases JsonSize(c), 3
  {
    match c
    case JObject(ms) => FillMembers(t, env, ms, parent, onDataset)
    case _ => Run(t, Some(AttributeError("items")))
  }

  /** The loop of `fill_hdf5` over the items of a dictionary; `onDataset` says that the
      parent element is a dataset, which has no `create_group` or `create_dataset`. */
  function FillMembers(t: Tree, env: Env, ms: seq<Member>, parent: Path, onDataset: bool): Run
    decreases MembersSize(ms), 2
  {
    if |ms| == 0 then Run(t, None)
    else
      var r := FillMember(t, env, ms[0], parent, onDataset);
      if r.err.Some? then r else FillMembers(r.tree, env, ms[1..], parent, onDataset)
  }

  /** The body of that loop for one item. */
  function FillMember(t: Tree, env: Env, m: Member, parent: Path, onDataset: bool): Run
    decreases JsonSize(m.value) + 1, 1
  {
    match m.value
    case JObject(fields) =>
      var key := CleanKey(m.key);
      var p := parent + [key];
      var content := PyValues.Get(fields, "content");
      var kind := PyValues.Get(fields, "element type");
      if kind == Some(JStr("group")) then
        if onDataset then Run(t, Some(AttributeError("create_group")))
        else Build(t, env, fields, p, None)
      else if kind == Some(JStr("dataset")) then
        match DatasetValue(env, fields)
        case Err(e) => Run(t, Some(e))
        case Ok(v) =>
          if onDataset then Run(t, Some(AttributeError("create_dataset")))
          else if v == PNone then Run(t, Some(NoData))
          else Build(t, env, fields, p, Some(v))
      else if kind == Some(JStr("attribute")) then
        match AttributeValue(env, fields)
        case Err(e) => Run(t, Some(e))
        case Ok(v) => StoreAttr(t, parent, key, v)
      else Run(t, None)
    case _ => Run(t, Some(AttributeError("get")))
  }

  /** The node `create_group` (no value) or `create_dataset(data=v)` makes. */
  function ElementNode(value: Option<PyValue>): Node {
    if value.None? then Group(map[]) else Dataset(map[], Data([], [value.value]))
  }

  /** A group or dataset element: created, then furnished. */
  function Build(t: Tree, env: Env, fields: seq<Member>, p: Path, value: Option<PyValue>): Run
    decreases MembersSize(fields), 1
  {
    var r1 := Lift(t, CreateNode(t, p, ElementNode(value)));
    if r1.err.Some? then r1 else Furnish(r1.tree, env, fields, p, value.Some?)
  }

  /** The new element filled from its truthy `content`, whose parent it then is, and
      described. */
  function Furnish(t: Tree, env: Env, fields: seq<Member>, p: Path, isDataset: bool): Run
    decreases MembersSize(fields), 0
  {
    var content := PyValues.Get(fields, "content");
    var r := if content.Some? && Truthy(content.value) then FillContent(t, env, content.value, p, isDataset) else Run(t, None);
    if r.err.Some? then r else DescribeRun(r.tree, fields, p)
  }

  // ------------------------------------------------------------ fill_hdf5 on the file

  method StoreAttrOn(f: File, p: Path, k: string, v: PyValue) returns (err: Option<PyError>)
    modifies f
    ensures Ran(StoreAttr(old(f.tree), p, k, v), f.tree, err)
  {
    if v == PNone {
      return Some(TypeError("Object dtype dtype('O') has no native HDF5 equivalent"));
    }
    err := f.SetAttr(p, k, v);
  }

  method PutFieldOn(f: File, fields: seq<Member>, p: Path, k: string) returns (err: Option<PyError>)
    modifies f
    ensures Ran(PutField(old(f.tree), fields, p, k), f.tree, err)
  {
    var j := Field(fields, k);
    if j.Err? {
      return Some(j.error);
    }
    var v := JsonToPy(j.value);
    if v.Err? {
      return Some(v.error);
    }
    err := StoreAttrOn(f, p, k, v.value);
  }

  method Describe(f: File, fields: seq<Member>, p: Path) returns (err: Option<PyError>)
    modifies f
    ensures Ran(DescribeRun(old(f.tree), fields, p), f.tree, err)
  {
    err := PutFieldOn(f, fields, p, "EX_required");
    if err.Some? {
      return;
    }
    err := PutFieldOn(f, fields, p, "type");
    if err.Some? {
      return;
    }
    err := PutFieldOn(f, fields, p, "docstring");
  }

  method FillContentOn(f: File, env: Env, c: Json, parent: Path, onDataset: bool) returns (err: Option<PyError>)
    modifies f
    ensures Ran(FillContent(old(f.tree), env, c, parent, onDataset), f.tree, err)
    decreases JsonSize(c), 3
  {
    if !c.JObject? {
      return Some(AttributeError("items"));
    }
    err := Fill(f, env, c.members, parent, onDataset);
  }

  /** `fill_hdf5(file, dict_content, parent_element)` */
  method Fill(f: File, env: Env, ms: seq<Member>, parent: Path, onDataset: bool) returns (err: Option<PyError>)
    modifies f
    ensures Ran(FillMembers(old(f.tree), env, ms, parent, onDataset), f.tree, err)
    decreases MembersSize(ms), 2
  {
    var i := 0;
    while i < |ms|
      invariant 0 <= i <= |ms|
      invariant FillMembers(old(f.tree), env, ms, parent, onDataset) == FillMembers(f.tree, env, ms[i..], parent, onDataset)
    {
      MemberSizeBound(ms, i);
      assert ms[i..][0] == ms[i] && ms[i..][1..] == ms[i + 1..];
      err := FillItem(f, env, ms[i], parent, onDataset);
      if err.Some? {
        return;
      }
      i := i + 1;
    }
    err := None;
  }

  method FillItem(f: File, env: Env, m: Member, parent: Path, onDataset: bool) returns (err: Option<PyError>)
    modifies f
    ensures Ran(FillMember(old(f.tree), env, m, parent, onDataset), f.tree, err)
    decreases JsonSize(m.value) + 1, 1
  {
    if !m.value.JObject? {
      return Some(AttributeError("get"));
    }
    var fields := m.value.members;
    var key := CleanKey(m.key);
    var p := parent + [key];
    var content := PyValues.Get(fields, "content");
    var kind := PyValues.Get(fields, "element type");
    if kind == Some(JStr("group")) {
      if onDataset {
        return Some(AttributeError("create_group"));
      }
      err := BuildOn(f, env, fields, p, None);
    } else if kind == Some(JStr("dataset")) {
      var v := DatasetValue(env, fields);
      if v.Err? {
        return Some(v.error);
      }
      if onDataset {
        return Some(AttributeError("create_dataset"));
      }
      if v.value == PNone {
        return Some(NoData);
      }
      err := BuildOn(f, env, fields, p, Some(v.value));
    } else if kind == Some(JStr("attribute")) {
      var v := AttributeValue(env, fields);
      if v.Err? {
        return Some(v.error);
      }
      err := StoreAttrOn(f, parent, key, v.value);
    } else {
      err := None;
    }
  }

  method BuildOn(f: File, env: Env, fields: seq<Member>, p: Path, value: Option<PyValue>)
    returns (err: Option<PyError>)
    modifies f
    ensures Ran(Build(old(f.tree), env, fields, p, value), f.tree, err)
    decreases MembersSize(fields), 1
  {
    if value.None? {
      err := f.CreateGroup(p);
    } else {
      err := f.CreateDataset(p, Data([], [value.value]));
    }
    if err.Some? {
      return;
    }
    err := FurnishOn(f, env, fields, p, value.Some?);
  }

  method FurnishOn(f: File, env: Env, fields: seq<Member>, p: Path, isDataset: bool)
    returns (err: Option<PyError>)
    modifies f
    ensures Ran(Furnish(old(f.tree), env, fields, p, isDataset), f.tree, err)
    decreases MembersSize(fields), 0
  {
    var content := PyValues.Get(fields, "content");
    if content.Some? && Truthy(content.value) {
      err := FillContentOn(f, env, content.value, p, isDataset);
      if err.Some? {
        return;
      }
    }
    err := Describe(f, fields, p);
  }

  lemma {:induction false} MemberSizeBound(ms: seq<Member>, i: nat)
    requires i < |ms|
    ensures 1 + JsonSize(ms[i].value) <= MembersSize(ms)
    decreases i
  {
    if i > 0 {
      MemberSizeBound(ms[1..], i - 1);
      assert ms[1..][i - 1] == ms[i];
    }
  }

  // ------------------------------------------------------------ generate_nexus

  /** `config["/ENTRY"]["content"]["/SAMPLE"]["content"]["name"]["value"]`: the header
      key of the sample name. */
  function SampleKey(cfg: Json): Result<Json, PyError> {
    var e :- Index(cfg, "/ENTRY");
    var c :- Index(e, "content");
    var s :- Index(c, "/SAMPLE");
    var c2 :- Index(s, "content");
    var n :- Index(c2, "name");
    Index(n, "value")
  }

  /** The sample name: `header.get(key, "defaultSampleName")`. */
  function SampleName(cfg: Json, h: Header): Result<string, PyError> {
    var key :- SampleKey(cfg);
    match key
    case JStr(k) => Ok(if k in h then h[k] else "defaultSampleName")
    case JList(_) => Err(TypeError("unhashable type: 'list'"))
    case JObject(_) => Err(TypeError("unhashable type: 'dict'"))
    case _ => Ok("defaultSampleName")
  }

  /** The last `_`-field of the EDF name without its `.edf` suffix. */
  function ImageIndex(edfName: string): string {
    var fields := Split(RemoveSuffix(edfName, ".edf"), '_');
    fields[|fields| - 1]
  }

  /** `f"{sample_name}_img{split_edf_name[-1]}_{time_stamp}.h5"` */
  function OutputName(sample: string, edfName: string, stamp: string): string {
    sample + "_img" + ImageIndex(edfName) + "_" + stamp + ".h5"
  }

  /** The call `replace_h5_dataset(save_file, path, data)` omits the required fourth
      argument `new_dataset_type`. */
  const MissingType := TypeError("replace_h5_dataset() missing 1 required positional argument: 'new_dataset_type'")

  /** What `generate_nexus` leaves in the new file, as written: the tree is filled and the
      arrays computed, then the first `replace_h5_dataset` call raises. */
  function GenerateRun(env: Env, cfg: Json, data: Data): Run {
    var r1 := FillContent(EmptyFile(), env, cfg, [], false);
    if r1.err.Some? then r1
    else
      match DataTreatment(data, r1.tree, AsWritten)
      case Err(e) => Run(r1.tree, Some(e))
      case Ok(_) => Run(r1.tree, Some(MissingType))
  }

  /** The three replacements `generate_nexus` intends, each keeping the attributes the
      settings gave the placeholder dataset. */
  function PlaceArrays(tr: Treated): Ops {
    Then(Replace(DataPath + ["R"], tr.r, None, UnitsDefault),
    Then(Replace(DataPath + ["I"], tr.i, None, UnitsDefault),
    Then(Replace(DataPath + ["mask"], tr.mask, None, UnitsDefault), Done)))
  }

  /** `generate_nexus` with the dataset type passed: the arrays are put in place. The
      pixel axis is built by `rule`: `AsWritten` corrects the missing argument alone,
      `Centred` the step of the axis as well. */
  function CorrectedGenerateRun(env: Env, cfg: Json, data: Data, rule: AxisRule): Run {
    var r1 := FillContent(EmptyFile(), env, cfg, [], false);
    if r1.err.Some? then r1
    else
      match DataTreatment(data, r1.tree, rule)
      case Err(e) => Run(r1.tree, Some(e))
      case Ok(tr) => Exec(r1.tree, PlaceArrays(tr))
  }

  /** `generate_nexus(edf_path, hdf5_path, settings_path)` as written. The sample name is
      computed before the file is opened; `h5py.File(path, "w")` starts from an empty file. */
  method GenerateNexus(f: File, env: Env, cfg: Json, data: Data, dir: string, edfName: string, stamp: string)
    returns (r: Result<string, PyError>)
    modifies f
    ensures SampleName(cfg, env.header).Err? ==> f.tree == old(f.tree) && r == Err(SampleName(cfg, env.header).error)
    ensures SampleName(cfg, env.header).Ok? ==>
      r.Err? && Ran(GenerateRun(env, cfg, data), f.tree, Some(r.error))
  {
    var sample := SampleName(cfg, env.header);
    if sample.Err? {
      return Err(sample.error);
    }
    f.tree := EmptyFile();
    var e := FillContentOn(f, env, cfg, [], false);
    if e.Some? {
      return Err(e.value);
    }
    var treated := DataTreatment(data, f.tree, AsWritten);
    if treated.Err? {
      return Err(treated.error);
    }
    return Err(MissingType);
  }

  method PlaceArraysOn(f: File, tr: Treated) returns (err: Option<PyError>)
    modifies f
    ensures Ran(Exec(old(f.tree), PlaceArrays(tr)), f.tree, err)
  {
    ghost var todo := PlaceArrays(tr);
    Step(f.tree, todo);
    err := ReplaceDataset(f, DataPath + ["R"], tr.r, None, UnitsDefault);
    if err.Some? { return; }
    todo := todo.rest;
    Step(f.tree, todo);
    err := ReplaceDataset(f, DataPath + ["I"], tr.i, None, UnitsDefault);
    if err.Some? { return; }
    todo := todo.rest;
    Step(f.tree, todo);
    err := ReplaceDataset(f, DataPath + ["mask"], tr.mask, None, UnitsDefault);
  }

  /** The same with the dataset type passed: it returns the path of the new file. */
  method GenerateNexusCorrected(f: File, env: Env, cfg: Json, data: Data, rule: AxisRule, dir: string, edfName: string, stamp: string)
    returns (r: Result<string, PyError>)
    modifies f
    ensures SampleName(cfg, env.header).Err? ==> f.tree == old(f.tree) && r == Err(SampleName(cfg, env.header).error)
    ensures SampleName(cfg, env.header).Ok? ==>
      && Ran(CorrectedGenerateRun(env, cfg, data, rule), f.tree, if r.Ok? then None else Some(r.error))
      && (r.Ok? ==> r.value == PathJoin(dir, OutputName(SampleName(cfg, env.header).value, edfName, stamp)))
  {
    var sample := SampleName(cfg, env.header);
    if sample.Err? {
      return Err(sample.error);
    }
    var path := PathJoin(dir, OutputName(sample.value, edfName, stamp));
    f.tree := EmptyFile();
    var e := FillContentOn(f, env, cfg, [], false);
    if e.Some? {
      return Err(e.value);
    }
    var treated := DataTreatment(data, f.tree, rule);
    if treated.Err? {
      return Err(treated.error);
    }
    e := PlaceArraysOn(f, treated.value);
    if e.Some? {
      return Err(e.value);
    }
    r := Ok(path);
  }

  // ------------------------------------------------------------ the pixel grid

  /** The two ends of the written axis: the first pixel at `-center`, and the last at
      `n - center`, one pixel beyond the last pixel's own index. */
  lemma PixelAxisEnds(center: real, n: nat, size: real)
    requires n > 1
    ensures PixelAxis(center, n, size)[0] == (0.0 - center) * size
    ensures PixelAxis(center, n, size)[n - 1] == (n as real - center) * size
  {
    LinspaceEnds(0.0 - center, n as real - center, n);
  }

  /** Neighbouring positions of the written axis are `n / (n - 1)` pixel sizes apart. */
  lemma PixelAxisSpacing(center: real, n: nat, size: real, k: nat)
    requires n > 1 && k + 1 < n
    ensures PixelAxis(center, n, size)[k + 1] - PixelAxis(center, n, size)[k]
            == (n as real / (n - 1) as real) * size
  {
    var a := 0.0 - center;
    var b := n as real - center;
    LinspaceStep(a, b, n, k);
    var xs := Linspace(a, b, n);
    assert b - a == n as real;
    assert xs[k + 1] - xs[k] == n as real / (n - 1) as real;
    assert PixelAxis(center, n, size)[k + 1] - PixelAxis(center, n, size)[k] == (xs[k + 1] - xs[k]) * size;
  }

  /** Two pixels of size 1 with the centre on the first: the written axis puts the
      second one 2 away. */
  lemma PixelAxisOvershoots()
    ensures PixelAxis(0.0, 2, 1.0) == [0.0, 2.0]
    ensures CentredAxis(0.0, 2, 1.0) == [0.0, 1.0]
  {
    assert Linspace(0.0, 2.0, 2) == [0.0, 2.0];
  }

  /** The centred axis: pixel `k` lies `k - center` pixel sizes from the beam, so
      neighbours are one pixel size apart and the axes agree on the first pixel. */
  lemma CentredAxisSpacing(center: real, n: nat, size: real, k: nat)
    requires k + 1 < n
    ensures CentredAxis(center, n, size)[k + 1] - CentredAxis(center, n, size)[k] == size
    ensures CentredAxis(center, n, size)[0] == PixelAxis(center, n, size)[0]
  {
    var xs := CentredAxis(center, n, size);
    assert xs[k + 1] - xs[k] == ((k + 1) as real - center) * size - (k as real - center) * size;
  }

  /** What `data_treatment` returns: the image unchanged, the mask of its negative
      pixels, and the stacked grid with pixel (i, j) at the positions of the two axes. */
  lemma TreatmentGrid(data: Data, t: Tree, rule: AxisRule)
    requires DataTreatment(data, t, rule).Ok?
    ensures var tr := DataTreatment(data, t, rule).value;
      && |data.shape| >= 2
      && tr.i == data
      && tr.mask == NegativeMask(data).value
      && tr.r.shape == [data.shape[0], data.shape[1], 2]
    ensures var tr := DataTreatment(data, t, rule).value;
      var xs := AxisOf(rule, ReadNumber(t, DetectorGroup + ["beam_center_x"]).value, data.shape[1],
                       ReadNumber(t, DetectorGroup + ["x_pixel_size"]).value);
      var ys := AxisOf(rule, ReadNumber(t, DetectorGroup + ["beam_center_y"]).value, data.shape[0],
                       ReadNumber(t, DetectorGroup + ["y_pixel_size"]).value);
      forall i, j | 0 <= i < data.shape[0] && 0 <= j < data.shape[1] :: PointAt(tr.r, i, j, xs[j], ys[i])
  {
    var tr := DataTreatment(data, t, rule).value;
    var xs := AxisOf(rule, ReadNumber(t, DetectorGroup + ["beam_center_x"]).value, data.shape[1],
                     ReadNumber(t, DetectorGroup + ["x_pixel_size"]).value);
    var ys := AxisOf(rule, ReadNumber(t, DetectorGroup + ["beam_center_y"]).value, data.shape[0],
                     ReadNumber(t, DetectorGroup + ["y_pixel_size"]).value);
    assert tr.r == Mesh(xs, ys);
    forall i, j | 0 <= i < data.shape[0] && 0 <= j < data.shape[1]
      ensures PointAt(tr.r, i, j, xs[j], ys[i])
    {
      MeshPoint(xs, ys, i, j);
    }
  }

  // ------------------------------------------------------------ what fill_hdf5 builds

  /** `u` keeps every node of `t`: links as they were, groups and datasets with the same
      kind and data and possibly other attributes. */
  predicate Grows(t: Tree, u: Tree) {
    forall q | q in t :: q in u && u[q] == WithAttrs(t[q], AttrsOf(u[q]))
  }

  lemma GrowsRefl(t: Tree)
    ensures Grows(t, t)
  {
    forall q | q in t
      ensures t[q] == WithAttrs(t[q], AttrsOf(t[q]))
    {
    }
  }

  lemma GrowsTrans(a: Tree, b: Tree, c: Tree)
    requires Grows(a, b) && Grows(b, c)
    ensures Grows(a, c)
  {
    forall q | q in a
      ensures q in c && c[q] == WithAttrs(a[q], AttrsOf(c[q]))
    {
      assert b[q] == WithAttrs(a[q], AttrsOf(b[q]));
      assert c[q] == WithAttrs(b[q], AttrsOf(c[q]));
    }
  }

  lemma CreateGrows(t: Tree, p: Path, n: Node)
    requires Valid(t)
    ensures var r := Lift(t, CreateNode(t, p, n)); Valid(r.tree) && Grows(t, r.tree)
    ensures CreateNode(t, p, n).Ok? ==> p in CreateNode(t, p, n).value && CreateNode(t, p, n).value[p] == n
  {
    if CreateNode(t, p, n).Ok? {
      CreateKeepsValid(t, p, n);
    }
  }

  lemma StoreAttrGrows(t: Tree, p: Path, k: string, v: PyValue)
    requires Valid(t)
    ensures var r := StoreAttr(t, p, k, v); Valid(r.tree) && Grows(t, r.tree) && r.tree.Keys == t.Keys
    ensures StoreAttr(t, p, k, v).err == None ==>
      var u := StoreAttr(t, p, k, v).tree; p in t && AttrsOf(u[p]) == AttrsOf(t[p])[k := v]
  {
    if v != PNone && PutAttr(t, p, k, v).Ok? {
      PutAttrKeepsValid(t, p, k, v);
    }
  }

  /** The attribute `k` of the node at `p` holds the settings entry's field `k`. */
  predicate HasField(u: Tree, fields: seq<Member>, p: Path, k: string) {
    && p in u && Field(fields, k).Ok? && JsonToPy(Field(fields, k).value).Ok?
    && k in AttrsOf(u[p]) && AttrsOf(u[p])[k] == JsonToPy(Field(fields, k).value).value
  }

  predicate Described(u: Tree, fields: seq<Member>, p: Path) {
    HasField(u, fields, p, "EX_required") && HasField(u, fields, p, "type") && HasField(u, fields, p, "docstring")
  }

  lemma PutFieldGrows(t: Tree, fields: seq<Member>, p: Path, k: string)
    requires Valid(t)
    ensures var r := PutField(t, fields, p, k); Valid(r.tree) && Grows(t, r.tree) && r.tree.Keys == t.Keys
    ensures PutField(t, fields, p, k).err == None ==> HasField(PutField(t, fields, p, k).tree, fields, p, k)
    ensures PutField(t, fields, p, k).err == None ==>
      forall a | a != k && p in t && a in AttrsOf(t[p]) ::
        a in AttrsOf(PutField(t, fields, p, k).tree[p]) && AttrsOf(PutField(t, fields, p, k).tree[p])[a] == AttrsOf(t[p])[a]
  {
    if Field(fields, k).Ok? && JsonToPy(Field(fields, k).value).Ok? {
      StoreAttrGrows(t, p, k, JsonToPy(Field(fields, k).value).value);
    }
  }

  /** After the three attribute writes the node carries all three fields. */
  lemma DescribeSets(t: Tree, fields: seq<Member>, p: Path)
    requires Valid(t)
    ensures var r := DescribeRun(t, fields, p); Valid(r.tree) && Grows(t, r.tree) && r.tree.Keys == t.Keys
    ensures DescribeRun(t, fields, p).err == None ==> Described(DescribeRun(t, fields, p).tree, fields, p)
  {
    PutFieldGrows(t, fields, p, "EX_required");
    var r1 := PutField(t, fields, p, "EX_required");
    if r1.err == None {
      PutFieldGrows(r1.tree, fields, p, "type");
      var r2 := PutField(r1.tree, fields, p, "type");
      GrowsTrans(t, r1.tree, r2.tree);
      if r2.err == None {
        PutFieldGrows(r2.tree, fields, p, "docstring");
        GrowsTrans(t, r2.tree, DescribeRun(t, fields, p).tree);
      }
    }
  }

  /** Filling keeps the file well formed and every node it already had; inside a
      dataset it creates nothing, since a dataset has no `create_group`. */
  lemma {:induction false} FillMembersGrows(t: Tree, env: Env, ms: seq<Member>, parent: Path, onDataset: bool)
    requires Valid(t)
    ensures var r := FillMembers(t, env, ms, parent, onDataset);
      Valid(r.tree) && Grows(t, r.tree) && (onDataset ==> r.tree.Keys == t.Keys)
    decreases MembersSize(ms), 2
  {
    if |ms| > 0 {
      MemberSizeBound(ms, 0);
      FillMemberGrows(t, env, ms[0], parent, onDataset);
      var r := FillMember(t, env, ms[0], parent, onDataset);
      if r.err.None? {
        assert MembersSize(ms[1..]) < MembersSize(ms);
        FillMembersGrows(r.tree, env, ms[1..], parent, onDataset);
        GrowsTrans(t, r.tree, FillMembers(r.tree, env, ms[1..], parent, onDataset).tree);
      }
    }
  }

  lemma {:induction false} FillContentGrows(t: Tree, env: Env, c: Json, parent: Path, onDataset: bool)
    requires Valid(t)
    ensures var r := FillContent(t, env, c, parent, onDataset);
      Valid(r.tree) && Grows(t, r.tree) && (onDataset ==> r.tree.Keys == t.Keys)
    decreases JsonSize(c), 3
  {
    if c.JObject? {
      FillMembersGrows(t, env, c.members, parent, onDataset);
    }
  }

  lemma {:induction false} FillMemberGrows(t: Tree, env: Env, m: Member, parent: Path, onDataset: bool)
    requires Valid(t)
    ensures var r := FillMember(t, env, m, parent, onDataset);
      Valid(r.tree) && Grows(t, r.tree) && (onDataset ==> r.tree.Keys == t.Keys)
    decreases JsonSize(m.value) + 1, 1
  {
    GrowsRefl(t);
    if m.value.JObject? {
      var fields := m.value.members;
      var key := CleanKey(m.key);
      var p := parent + [key];
      var kind := PyValues.Get(fields, "element type");
      if kind == Some(JStr("group")) && !onDataset {
        BuildGrows(t, env, fields, p, None);
      } else if kind == Some(JStr("dataset")) && DatasetValue(env, fields).Ok? && !onDataset {
        BuildGrows(t, env, fields, p, Some(DatasetValue(env, fields).value));
      } else if kind == Some(JStr("attribute")) && AttributeValue(env, fields).Ok? {
        StoreAttrGrows(t, parent, key, AttributeValue(env, fields).value);
      }
    }
  }

  lemma {:induction false} BuildGrows(t: Tree, env: Env, fields: seq<Member>, p: Path, value: Option<PyValue>)
    requires Valid(t)
    ensures var r := Build(t, env, fields, p, value); Valid(r.tree) && Grows(t, r.tree)
    decreases MembersSize(fields), 1
  {
    CreateGrows(t, p, ElementNode(value));
    var r1 := Lift(t, CreateNode(t, p, ElementNode(value)));
    if r1.err.None? {
      FurnishGrows(r1.tree, env, fields, p, value.Some?);
      GrowsTrans(t, r1.tree, Build(t, env, fields, p, value).tree);
    }
  }

  lemma {:induction false} FurnishGrows(t: Tree, env: Env, fields: seq<Member>, p: Path, isDataset: bool)
    requires Valid(t)
    ensures var r := Furnish(t, env, fields, p, isDataset); Valid(r.tree) && Grows(t, r.tree) && (isDataset ==> r.tree.Keys == t.Keys)
    decreases MembersSize(fields), 0
  {
    var content := PyValues.Get(fields, "content");
    var r := if content.Some? && Truthy(content.value) then FillContent(t, env, content.value, p, isDataset) else Run(t, None);
    if content.Some? && Truthy(content.value) {
      FillContentGrows(t, env, content.value, p, isDataset);
    }
    if r.err.None? {
      DescribeSets(r.tree, fields, p);
      GrowsTrans(t, r.tree, DescribeRun(r.tree, fields, p).tree);
    }
  }

  /** A furnished element carries the three described fields. */
  lemma FurnishDescribes(t: Tree, env: Env, fields: seq<Member>, p: Path, isDataset: bool)
    requires Valid(t) && Furnish(t, env, fields, p, isDataset).err == None
    ensures Described(Furnish(t, env, fields, p, isDataset).tree, fields, p)
  {
    var content := PyValues.Get(fields, "content");
    var r := if content.Some? && Truthy(content.value) then FillContent(t, env, content.value, p, isDataset) else Run(t, None);
    if content.Some? && Truthy(content.value) {
      FillContentGrows(t, env, content.value, p, isDataset);
    }
    DescribeSets(r.tree, fields, p);
  }

  /** A built element is new, of the kind created, and described. */
  lemma BuildPlaces(t: Tree, env: Env, fields: seq<Member>, p: Path, value: Option<PyValue>)
    requires Valid(t) && Build(t, env, fields, p, value).err == None
    ensures var u := Build(t, env, fields, p, value).tree;
      && p !in t && p in u && u[p] == WithAttrs(ElementNode(value), AttrsOf(u[p]))
      && Described(u, fields, p)
  {
    CreateGrows(t, p, ElementNode(value));
    var r1 := Lift(t, CreateNode(t, p, ElementNode(value)));
    FurnishGrows(r1.tree, env, fields, p, value.Some?);
    FurnishDescribes(r1.tree, env, fields, p, value.Some?);
  }

  /** What one settings entry leaves when it is filled without error: a group entry a
      described group, a dataset entry a described dataset holding its converted value,
      an attribute entry the parent's attribute, and any other entry nothing. */
  lemma FillMemberPlaces(t: Tree, env: Env, m: Member, parent: Path, onDataset: bool)
    requires Valid(t) && m.value.JObject? && FillMember(t, env, m, parent, onDataset).err == None
    ensures var fields := m.value.members;
      var p := parent + [CleanKey(m.key)];
      var u := FillMember(t, env, m, parent, onDataset).tree;
      var kind := PyValues.Get(fields, "element type");
      && (kind == Some(JStr("group")) ==> !onDataset && p !in t && p in u && u[p].Group? && Described(u, fields, p))
      && (kind == Some(JStr("dataset")) ==>
            && !onDataset && DatasetValue(env, fields).Ok? && DatasetValue(env, fields).value != PNone
            && p !in t && p in u && u[p].Dataset? && u[p].data == Data([], [DatasetValue(env, fields).value])
            && Described(u, fields, p))
      && (kind == Some(JStr("attribute")) ==>
            && AttributeValue(env, fields).Ok? && parent in u
            && CleanKey(m.key) in AttrsOf(u[parent]) && AttrsOf(u[parent])[CleanKey(m.key)] == AttributeValue(env, fields).value)
      && (kind !in {Some(JStr("group")), Some(JStr("dataset")), Some(JStr("attribute"))} ==> u == t)
  {
    var fields := m.value.members;
    var p := parent + [CleanKey(m.key)];
    var kind := PyValues.Get(fields, "element type");
    if kind == Some(JStr("group")) {
      BuildPlaces(t, env, fields, p, None);
    } else if kind == Some(JStr("dataset")) {
      BuildPlaces(t, env, fields, p, Some(DatasetValue(env, fields).value));
    } else if kind == Some(JStr("attribute")) {
      StoreAttrGrows(t, parent, CleanKey(m.key), AttributeValue(env, fields).value);
    }
  }

  // ------------------------------------------------------------ generate_nexus

  /** The file name carries the image index, the last `_`-field of the EDF name. */
  lemma OutputNameOfImage(sample: string, stem: string, index: string, stamp: string)
    requires '_' !in index
    ensures OutputName(sample, stem + "_" + index + ".edf", stamp) == sample + "_img" + index + "_" + stamp + ".h5"
  {
    assert stem + "_" + index + ".edf" == (stem + "_" + index) + ".edf";
    RemoveAppendedSuffix(stem + "_" + index, ".edf");
    assert stem + "_" + index == stem + ['_'] + index;
    SplitLast(stem, index, '_');
  }

  /** As written, `generate_nexus` never returns: it always ends in an exception, the
      arity error once the settings were filled and the arrays computed. */
  lemma GenerateAlwaysRaises(env: Env, cfg: Json, data: Data)
    ensures GenerateRun(env, cfg, data).err.Some?
    ensures FillContent(EmptyFile(), env, cfg, [], false).err == None
            && DataTreatment(data, FillContent(EmptyFile(), env, cfg, [], false).tree, AsWritten).Ok?
            ==> GenerateRun(env, cfg, data).err == Some(MissingType)
  {
  }

  /** With the type passed, the three placeholder datasets the settings created keep
      their attributes and receive the computed arrays, and nothing else changes. */
  lemma CorrectedPlacesArrays(env: Env, cfg: Json, data: Data, rule: AxisRule)
    requires FillContent(EmptyFile(), env, cfg, [], false).err == None
    requires DataTreatment(data, FillContent(EmptyFile(), env, cfg, [], false).tree, rule).Ok?
    requires HasPlaceholders(FillContent(EmptyFile(), env, cfg, [], false).tree)
    ensures var u := FillContent(EmptyFile(), env, cfg, [], false).tree;
      var tr := DataTreatment(data, u, rule).value;
      var rp := DataPath + ["R"];
      var ip := DataPath + ["I"];
      var mp := DataPath + ["mask"];
      CorrectedGenerateRun(env, cfg, data, rule)
      == Run(u[rp := Dataset(u[rp].attrs, tr.r)][ip := Dataset(u[ip].attrs, tr.i)][mp := Dataset(u[mp].attrs, tr.mask)], None)
  {
    var u := FillContent(EmptyFile(), env, cfg, [], false).tree;
    FillContentGrows(EmptyFile(), env, cfg, [], false);
    PlaceArraysInPlace(u, DataTreatment(data, u, rule).value);
  }

  /** The settings created the three datasets `generate_nexus` replaces. */
  predicate HasPlaceholders(u: Tree) {
    && DataPath + ["R"] in u && u[DataPath + ["R"]].Dataset?
    && DataPath + ["I"] in u && u[DataPath + ["I"]].Dataset?
    && DataPath + ["mask"] in u && u[DataPath + ["mask"]].Dataset?
  }

  lemma PlaceArraysInPlace(u: Tree, tr: Treated)
    requires Valid(u) && HasPlaceholders(u)
    ensures var rp := DataPath + ["R"];
      var ip := DataPath + ["I"];
      var mp := DataPath + ["mask"];
      Exec(u, PlaceArrays(tr))
      == Run(u[rp := Dataset(u[rp].attrs, tr.r)][ip := Dataset(u[ip].attrs, tr.i)][mp := Dataset(u[mp].attrs, tr.mask)], None)
  {
    var rp := DataPath + ["R"];
    var ip := DataPath + ["I"];
    var mp := DataPath + ["mask"];
    var ops := PlaceArrays(tr);
    ReplaceInPlace(u, rp, tr.r, UnitsDefault);
    ReplaceKeepsValid(u, rp, tr.r, None, UnitsDefault);
    Step(u, ops);
    var u1 := u[rp := Dataset(u[rp].attrs, tr.r)];
    assert rp != ip && rp != mp && ip != mp;
    PlaceTwoInPlace(u1, tr);
  }

  lemma PlaceTwoInPlace(u: Tree, tr: Treated)
    requires Valid(u)
    requires DataPath + ["I"] in u && u[DataPath + ["I"]].Dataset?
    requires DataPath + ["mask"] in u && u[DataPath + ["mask"]].Dataset?
    ensures var ip := DataPath + ["I"];
      var mp := DataPath + ["mask"];
      Exec(u, PlaceArrays(tr).rest) == Run(u[ip := Dataset(u[ip].attrs, tr.i)][mp := Dataset(u[mp].attrs, tr.mask)], None)
  {
    var ip := DataPath + ["I"];
    var mp := DataPath + ["mask"];
    var ops := PlaceArrays(tr).rest;
    ReplaceInPlace(u, ip, tr.i, UnitsDefault);
    ReplaceKeepsValid(u, ip, tr.i, None, UnitsDefault);
    Step(u, ops);
    var u1 := u[ip := Dataset(u[ip].attrs, tr.i)];
    assert ip != mp;
    ReplaceInPlace(u1, mp, tr.mask, UnitsDefault);
    Step(u1, ops.rest);
  }
}
