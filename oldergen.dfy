/** edf2nxsas/nexus_file_generator.py, the older converter: the same `fill_hdf5` in its
    older edition (`Generator.Older`), a `data_treatment` without the mask, its own
    `replace_h5_dataset`, which needs the old dataset, and a `generate_nexus` that names
    the file after the sample and `SAXS` and puts the two arrays in place. */
module OlderGenerator {
  import opened Wrappers
  import opened Text
  import opened PyValues
  import opened H5
  import opened Containers
  import opened Grids
  import opened Units
  import Generator

  /** The dictionary the older `data_treatment` returns. */
  datatype OlderTreated = OlderTreated(r: Data, i: Data)

  /** `data_treatment(data, h5_file)`: the pixel grid of the current converter, and the
      image itself; there is no mask. */
  function OlderTreatment(data: Data, t: Tree): Result<OlderTreated, PyError> {
    var bcx :- Generator.ReadNumber(t, Generator.DetectorGroup + ["beam_center_x"]);
    var bcy :- Generator.ReadNumber(t, Generator.DetectorGroup + ["beam_center_y"]);
    if |data.shape| < 2 then Err(IndexError)
    else
      var px :- Generator.ReadNumber(t, Generator.DetectorGroup + ["x_pixel_size"]);
      var py :- Generator.ReadNumber(t, Generator.DetectorGroup + ["y_pixel_size"]);
      Ok(OlderTreated(Mesh(Generator.PixelAxis(bcx, data.shape[1], px), Generator.PixelAxis(bcy, data.shape[0], py)), data))
  }

  /** `edf_header[key]`: unlike the current converter there is no default name. */
  function OlderSampleName(cfg: Json, h: Generator.Header): Result<string, PyError> {
    var key :- Generator.SampleKey(cfg);
    match key
    case JStr(k) => if k in h then Ok(h[k]) else Err(KeyError(k))
    case JList(_) => Err(TypeError("unhashable type: 'list'"))
    case JObject(_) => Err(TypeError("unhashable type: 'dict'"))
    case _ =>
      var text :- JsonStr(key);
      Err(KeyError(text))
  }

  /** `f"{sample_name}_{exp_type}_{time_stamp}.h5"` with `exp_type = "SAXS"`. */
  function OlderOutputName(sample: string, stamp: string): string {
    sample + "_SAXS_" + stamp + ".h5"
  }

  /** The two calls `replace_h5_dataset(save_file, "ENTRY/DATA/R" | "ENTRY/DATA/I", …)`. */
  function OlderPlaceArrays(tr: OlderTreated): Ops {
    Then(Replace(DataPath + ["R"], tr.r, None, Raise),
    Then(Replace(DataPath + ["I"], tr.i, None, Raise), Done))
  }

  function OlderEnv(h: Generator.Header, table: UnitTable): Generator.Env {
    Generator.Env(h, table, Generator.Older)
  }

  /** What the older `generate_nexus` leaves in the new file. */
  function OlderGenerateRun(h: Generator.Header, table: UnitTable, cfg: Json, data: Data): Run {
    var r1 := Generator.FillContent(EmptyFile(), OlderEnv(h, table), cfg, [], false);
    if r1.err.Some? then r1
    else
      match OlderTreatment(data, r1.tree)
      case Err(e) => Run(r1.tree, Some(e))
      case Ok(tr) => Exec(r1.tree, OlderPlaceArrays(tr))
  }

  /** `generate_nexus(edf_path, hdf5_path, settings_path)` of the older converter; the
      result is the path of the file it writes. */
  method OlderGenerateNexus(f: File, h: Generator.Header, table: UnitTable, cfg: Json, data: Data,
                            dir: string, stamp: string)
    returns (r: Result<string, PyError>)
    modifies f
    ensures OlderSampleName(cfg, h).Err? ==> f.tree == old(f.tree) && r == Err(OlderSampleName(cfg, h).error)
    ensures OlderSampleName(cfg, h).Ok? ==>
      && Ran(OlderGenerateRun(h, table, cfg, data), f.tree, if r.Ok? then None else Some(r.error))
      && (r.Ok? ==> r.value == PathJoin(dir, OlderOutputName(OlderSampleName(cfg, h).value, stamp)))
  {
    var sample := OlderSampleName(cfg, h);
    if sample.Err? {
      return Err(sample.error);
    }
    var path := PathJoin(dir, OlderOutputName(sample.value, stamp));
    f.tree := EmptyFile();
    var e := Generator.FillContentOn(f, OlderEnv(h, table), cfg, [], false);
    if e.Some? {
      return Err(e.value);
    }
    var treated := OlderTreatment(data, f.tree);
    if treated.Err? {
      return Err(treated.error);
    }
    e := OlderPlaceArraysOn(f, treated.value);
    if e.Some? {
      return Err(e.value);
    }
    r := Ok(path);
  }

  method OlderPlaceArraysOn(f: File, tr: OlderTreated) returns (err: Option<PyError>)
    modifies f
    ensures Ran(Exec(old(f.tree), OlderPlaceArrays(tr)), f.tree, err)
  {
    ghost var todo := OlderPlaceArrays(tr);
    Step(f.tree, todo);
    err := ReplaceDataset(f, DataPath + ["R"], tr.r, None, Raise);
    if err.Some? { return; }
    todo := todo.rest;
    Step(f.tree, todo);
    err := ReplaceDataset(f, DataPath + ["I"], tr.i, None, Raise);
  }

  // ------------------------------------------------------------ properties

  /** The older treatment is the current one without the mask: on any image and file it
      succeeds with the same grid and image whenever the current one does, and the
      current one then fails only where the mask does. */
  lemma OlderTreatmentIsCurrentWithoutMask(data: Data, t: Tree)
    ensures var cur := Generator.DataTreatment(data, t, Generator.AsWritten);
      && (cur.Ok? ==> OlderTreatment(data, t) == Ok(OlderTreated(cur.value.r, cur.value.i)))
      && (OlderTreatment(data, t).Ok? ==> (cur.Ok? <==> Generator.NegativeMask(data).Ok?))
      && (OlderTreatment(data, t).Ok? ==> OlderTreatment(data, t).value.i == data)
  {
  }

  /** The older `replace_h5_dataset` raises `KeyError` on a path with nothing there and
      leaves the file as it was. */
  lemma OlderReplaceNeedsOld(t: Tree, p: Path, d: Data)
    requires !Exists(t, p)
    ensures ReplaceRun(t, p, d, None, Raise) == Run(t, Some(KeyError(PathText(p))))
  {
  }

  /** A settings tree that made the two placeholder datasets gets the grid and the image
      in them, each keeping the attributes the settings gave it. */
  lemma OlderPlacesArrays(h: Generator.Header, table: UnitTable, cfg: Json, data: Data)
    requires Generator.FillContent(EmptyFile(), OlderEnv(h, table), cfg, [], false).err == None
    requires OlderTreatment(data, Generator.FillContent(EmptyFile(), OlderEnv(h, table), cfg, [], false).tree).Ok?
    requires var u := Generator.FillContent(EmptyFile(), OlderEnv(h, table), cfg, [], false).tree;
      && DataPath + ["R"] in u && u[DataPath + ["R"]].Dataset?
      && DataPath + ["I"] in u && u[DataPath + ["I"]].Dataset?
    ensures var u := Generator.FillContent(EmptyFile(), OlderEnv(h, table), cfg, [], false).tree;
      var tr := OlderTreatment(data, u).value;
      var rp := DataPath + ["R"];
      var ip := DataPath + ["I"];
      OlderGenerateRun(h, table, cfg, data) == Run(u[rp := Dataset(u[rp].attrs, tr.r)][ip := Dataset(u[ip].attrs, tr.i)], None)
  {
    var u := Generator.FillContent(EmptyFile(), OlderEnv(h, table), cfg, [], false).tree;
    Generator.FillContentGrows(EmptyFile(), OlderEnv(h, table), cfg, [], false);
    OlderPlaceInPlace(u, OlderTreatment(data, u).value);
  }

  lemma OlderPlaceInPlace(u: Tree, tr: OlderTreated)
    requires Valid(u)
    requires DataPath + ["R"] in u && u[DataPath + ["R"]].Dataset?
    requires DataPath + ["I"] in u && u[DataPath + ["I"]].Dataset?
    ensures var rp := DataPath + ["R"];
      var ip := DataPath + ["I"];
      Exec(u, OlderPlaceArrays(tr)) == Run(u[rp := Dataset(u[rp].attrs, tr.r)][ip := Dataset(u[ip].attrs, tr.i)], None)
  {
    var rp := DataPath + ["R"];
    var ip := DataPath + ["I"];
    var ops := OlderPlaceArrays(tr);
    ReplaceInPlace(u, rp, tr.r, Raise);
    ReplaceKeepsValid(u, rp, tr.r, None, Raise);
    Step(u, ops);
    var u1 := u[rp := Dataset(u[rp].attrs, tr.r)];
    assert rp != ip;
    ReplaceInPlace(u1, ip, tr.i, Raise);
    Step(u1, ops.rest);
  }

  // ------------------------------------------------------------ the attribute rule

  /** As written, the older `fill_hdf5` cannot store a list-valued attribute such as
      `["A", "1/nm"]`: the list goes to `edf_header.get`, which cannot hash it. */
  lemma OlderListAttributeRaises(h: Generator.Header, table: UnitTable, fields: seq<Member>)
    requires PyValues.Get(fields, "value").Some? && PyValues.Get(fields, "value").value.JList?
    ensures Generator.AttributeValue(OlderEnv(h, table), fields) == Err(TypeError("unhashable type: 'list'"))
  {
  }

  /** As written, a text-valued attribute is indexed at 1: only its second character is
      stored. */
  lemma OlderTextAttributeSecondChar(h: Generator.Header, s: string)
    requires |s| >= 2
    ensures Generator.OlderAttributeText(h, JStr(s)) == Ok([s[1]])
  {
  }

  /** The rule the current converter has: the second element of a list is taken as the
      text, and any other value is looked up in the header, the value itself when the
      header lacks it. */
  lemma CurrentAttributeRule(h: Generator.Header, lit: Json)
    ensures lit.JList? && |lit.items| > 1 ==> Generator.AttributeText(h, lit) == JsonStr(lit.items[1])
    ensures lit.JStr? ==> Generator.AttributeText(h, lit) == Ok(if lit.s in h then h[lit.s] else lit.s)
  {
  }
}
