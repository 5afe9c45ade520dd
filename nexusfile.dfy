/** The `NexusFile` class of saxs_nxformat/class_nexus_file.py: the parameters of one
    NXcanSAS file are read, handed to the scattering-geometry library `SMI_beamline`,
    and each reduction the library performs can be written back into the file as a
    new data group with a `PROCESS_*` provenance group. The library itself is not part
    of this model: it is a log of the calls made to it, with its `qp` and `qz` axes
    (non-empty) and the arrays it produces taken as given. */
module Nexus {
  import opened Wrappers
  import opened Text
  import opened PyValues
  import opened H5
  import opened Containers
  import opened Grids

  // ------------------------------------------------------------ reading the file

  /** What `extract_from_h5` hands back: the value of a scalar dataset or of an
      attribute, the whole content of an array dataset, or `None` (after printing). */
  datatype Extracted = Scalar(v: PyValue) | Whole(d: Data) | Nothing

  predicate IsScalar(d: Data) {
    d.shape == [] && |d.cells| == 1
  }

  /** `extract_from_h5(path, data_type, attribute_name)`; `f[path]` raises first. */
  function ExtractFromH5(t: Tree, p: Path, dataType: string, attr: Option<string>): Result<Extracted, PyError> {
    match H5.Get(t, p)
    case None => Err(KeyError(PathText(p)))
    case Some(n) =>
      if dataType == "dataset" && n.Dataset? then
        if IsScalar(n.data) then Ok(Scalar(n.data.cells[0])) else Ok(Whole(n.data))
      else if dataType == "dataset" then Err(NotModelled("np.shape of a group"))
      else if dataType == "attribute" && attr.Some? && attr.value in AttrsOf(n) then
        Ok(Scalar(AttrsOf(n)[attr.value]))
      else Ok(Nothing)
  }

  /** `f[path][:]`: the whole array; slicing a scalar dataset or a group raises. */
  function ReadArray(t: Tree, p: Path): (r: Result<Data, PyError>)
    ensures r.Ok? <==> H5.Get(t, p).Some? && H5.Get(t, p).value.Dataset? && H5.Get(t, p).value.data.shape != []
    ensures r.Ok? ==> r.value == H5.Get(t, p).value.data
    ensures H5.Get(t, p).None? ==> r == Err(KeyError(PathText(p)))
  {
    match H5.Get(t, p)
    case None => Err(KeyError(PathText(p)))
    case Some(n) =>
      if n.Dataset? && n.data.shape != [] then Ok(n.data)
      else if n.Dataset? then Err(ValueError("Illegal slicing argument for scalar dataspace"))
      else Err(TypeError("Accessing a group is done with bytes or str"))
  }

  /** `x * f` for a value read from the file (numpy scalars, booleans included). */
  function Times(e: Extracted, f: real): Result<Extracted, PyError> {
    match e
    case Scalar(v) =>
      if Numeric(v).Some? then Ok(Scalar(PFloat(Numeric(v).value * f)))
      else Err(TypeError("unsupported operand type(s) for *"))
    case Whole(_) => Err(NotModelled("arithmetic on an array"))
    case Nothing => Err(TypeError("unsupported operand type(s) for *: 'NoneType' and 'float'"))
  }

  /** `-x` for a value read from the file; numpy refuses to negate a boolean. */
  function Negate(e: Extracted): Result<Extracted, PyError> {
    match e
    case Scalar(v) =>
      (match v
       case PInt(i) => Ok(Scalar(PInt(-i)))
       case PFloat(r) => Ok(Scalar(PFloat(-r)))
       case _ => Err(TypeError("bad operand type for unary -")))
    case Whole(_) => Err(NotModelled("arithmetic on an array"))
    case Nothing => Err(TypeError("bad operand type for unary -: 'NoneType'"))
  }

  /** `str(x)` for a value read from the file. */
  function StrOf(e: Extracted): Result<string, PyError> {
    match e
    case Scalar(v) => PyStr(v)
    case Whole(_) => Err(NotModelled("repr of an array"))
    case Nothing => Ok("None")
  }

  // ------------------------------------------------------------ parameters

  const DetectorPath: Path := ["ENTRY", "INSTRUMENT", "DETECTOR"]
  const Eiger1MId := "dectris eiger2 si 1m, s/n e-02-0299"
  const Eiger500kId := "dectris eiger2 r 500k, s/n e-01-0326"

  /** How the lower-cased detector name is compared with the known identifiers: for
      equality here, as a substring in edf2nxsas/data_treatment.py. */
  datatype Matching = Exact | Substring

  predicate Names(m: Matching, low: string, id: string) {
    if m == Exact then low == id else Contains(low, id)
  }

  /** The library's name for the detector, absent for an unknown one. */
  function DetectorName(m: Matching, name: string): (n: Option<string>)
    ensures n.Some? ==> n.value in {"Eiger1M_xeuss", "Eiger500k_xeuss"}
    ensures n.Some? <==> Names(m, Lower(name), Eiger1MId) || Names(m, Lower(name), Eiger500kId)
  {
    var low := Lower(name);
    if Names(m, low, Eiger1MId) then Some("Eiger1M_xeuss")
    else if Names(m, low, Eiger500kId) then Some("Eiger500k_xeuss")
    else None
  }

  /** `dict_parameters`; an unknown detector leaves "detector name" unset. */
  datatype Parameters = Parameters(
    beamStop: seq<seq<int>>,
    rawIntensity: seq<Data>,
    rawPosition: seq<Data>,
    wavelength: Extracted,
    incidentAngle: Extracted,
    detectorName: Option<string>,
    beamCenter: seq<Extracted>,
    rotation: seq<seq<Extracted>>,
    distance: Extracted)

  const Nano: real := 0.000000001

  /** The reads of `__init__`, in program order; the first failing one raises. */
  function ReadParameters(t: Tree, m: Matching): Result<Parameters, PyError> {
    var i :- ReadArray(t, DataPath + ["I"]);
    var r :- ReadArray(t, DataPath + ["R"]);
    var w :- ExtractFromH5(t, ["ENTRY", "INSTRUMENT", "SOURCE", "incident_wavelength"], "dataset", None);
    var wavelength :- Times(w, Nano);
    var alpha :- ExtractFromH5(t, ["ENTRY", "SAMPLE", "yaw"], "dataset", None);
    var nameRead :- ExtractFromH5(t, DetectorPath + ["name"], "dataset", None);
    var name :- StrOf(nameRead);
    var bcx :- ExtractFromH5(t, DetectorPath + ["beam_center_x"], "dataset", None);
    var bcy :- ExtractFromH5(t, DetectorPath + ["beam_center_y"], "dataset", None);
    var yaw :- ExtractFromH5(t, DetectorPath + ["yaw"], "dataset", None);
    var rot1 :- Negate(yaw);
    var rot2 :- ExtractFromH5(t, DetectorPath + ["pitch"], "dataset", None);
    var roll :- ExtractFromH5(t, DetectorPath + ["roll"], "dataset", None);
    var rot3 :- Negate(roll);
    var sdd :- ExtractFromH5(t, DetectorPath + ["SDD"], "dataset", None);
    Ok(Parameters([[0, 0]], [i], [r], wavelength, alpha, DetectorName(m, name), [bcx, bcy],
                  [[rot1, rot2, rot3]], sdd))
  }

  /** The arguments of `SMI_beamline.SMI_geometry(...)`. */
  datatype Setup = Setup(
    geometry: string,
    sdd: Extracted,
    wav: Extracted,
    alphai: Extracted,
    center: seq<Extracted>,
    bsPos: seq<seq<int>>,
    detector: string,
    detAngles: seq<seq<Extracted>>)

  /** The keyword arguments, evaluated in order: the distance in millimetres, then a
      `KeyError` for an unknown detector. */
  function SetupOf(p: Parameters): Result<Setup, PyError> {
    var sdd :- Times(p.distance, 1000.0);
    if p.detectorName.None? then Err(KeyError("detector name"))
    else Ok(Setup("Transmission", sdd, p.wavelength, p.incidentAngle, p.beamCenter, p.beamStop,
                  p.detectorName.value, p.rotation))
  }

  function Loaded(t: Tree, m: Matching): Result<(Parameters, Setup), PyError> {
    var p :- ReadParameters(t, m);
    var s :- SetupOf(p);
    Ok((p, s))
  }

  // ------------------------------------------------------------ the geometry library

  /** A range end handed to the library; `Hypot(x, y)` is `np.sqrt(x ** 2 + y ** 2)`. */
  datatype Bound = Num(x: real) | Hypot(x: real, y: real)

  /** A call made to the `SMI_geometry` object; `ResetMasks` is the assignment of an
      all-`False` mask over its images. */
  datatype Call =
    | Created(setup: Setup)
    | OpenData(images: seq<Data>)
    | Stitch
    | ResetMasks
    | IntegratorTrans(angles: seq<seq<Extracted>>)
    | Caking(azimuth: seq<Bound>, radial: seq<Bound>, nptAzim: int, nptRad: int)
    | RadialAveraging(azimuth: seq<Bound>, npt: int, radial: seq<Bound>)
    | AzimuthalAveraging(azimuth: seq<Bound>, radial: seq<Bound>)
    | HorizontalIntegration(qPer: seq<Bound>, qPar: seq<Bound>)
    | VerticalIntegration(qPer: seq<Bound>, qPar: seq<Bound>)

  /** The `smi_data` object: the calls it has received and its q axes. */
  class Geometry {
    var calls: seq<Call>
    const qp: seq<real>
    const qz: seq<real>

    constructor (setup: Setup, qp: seq<real>, qz: seq<real>)
      requires |qp| > 0 && |qz| > 0
      ensures calls == [Created(setup)] && this.qp == qp && this.qz == qz
    {
      calls := [Created(setup)];
      this.qp := qp;
      this.qz := qz;
    }

    method Record(c: Call)
      modifies this
      ensures calls == old(calls) + [c]
    {
      calls := calls + [c];
    }
  }

  // ------------------------------------------------------------ default resolution

  /** `x if x is not None else d` */
  function Or(x: Option<real>, d: Bound): (b: Bound)
    ensures x.Some? ==> b == Num(x.value)
    ensures x.None? ==> b == d
  {
    if x.Some? then Num(x.value) else d
  }

  function OrInt(x: Option<int>, d: int): (n: int)
    ensures x.Some? ==> n == x.value
    ensures x.None? ==> n == d
  {
    if x.Some? then x.value else d
  }

  /** The default upper radius: the norm of the largest `qp` and `qz`. */
  function RMax(qp: seq<real>, qz: seq<real>): Bound
    requires |qp| > 0 && |qz| > 0
  {
    Hypot(Max(qp), Max(qz))
  }

  /** The call of `process_caking`. */
  function CakingCall(qz: seq<real>, aziMin: Option<real>, aziMax: Option<real>, ptsAzi: Option<int>,
                      radialMin: Option<real>, radialMax: Option<real>, ptsRad: Option<int>): Call
    requires |qz| > 0
  {
    Caking([Or(aziMin, Num(-180.0)), Or(aziMax, Num(180.0))],
           [Or(radialMin, Num(Min(qz))), Or(radialMax, Num(Max(qz)))],
           OrInt(ptsAzi, 1000), OrInt(ptsRad, 1000))
  }

  /** The call of `process_radial_average`. */
  function RadialCall(qp: seq<real>, qz: seq<real>, rMin: Option<real>, rMax: Option<real>,
                      angleMin: Option<real>, angleMax: Option<real>, pts: Option<int>): Call
    requires |qp| > 0 && |qz| > 0
  {
    RadialAveraging([Or(angleMin, Num(-180.0)), Or(angleMax, Num(180.0))], OrInt(pts, 2000),
                    [Or(rMin, Num(0.0)), Or(rMax, RMax(qp, qz))])
  }

  /** The call of `process_azimuthal_average`. */
  function AzimuthalCall(qp: seq<real>, qz: seq<real>, rMin: Option<real>, rMax: Option<real>,
                         angleMin: Option<real>, angleMax: Option<real>): Call
    requires |qp| > 0 && |qz| > 0
  {
    AzimuthalAveraging([Or(angleMin, Num(-180.0)), Or(angleMax, Num(180.0))],
                       [Or(rMin, Num(0.0)), Or(rMax, RMax(qp, qz))])
  }

  /** The call of `process_horizontal_integration` (and the first library call of
      `process_vertical_integration`): `q_per` is the `qy` range, `q_par` the `qx` range. */
  function HorizontalCall(qp: seq<real>, qz: seq<real>, qxMin: Option<real>, qxMax: Option<real>,
                          qyMin: Option<real>, qyMax: Option<real>): Call
    requires |qp| > 0 && |qz| > 0
  {
    HorizontalIntegration([Or(qyMin, Num(qz[0])), Or(qyMax, Num(qz[|qz| - 1]))],
                          [Or(qxMin, Num(qp[0])), Or(qxMax, Num(qp[|qp| - 1]))])
  }

  // ------------------------------------------------------------ writing results

  /** A `PROCESS_*` provenance group. */
  datatype Process = Process(path: Path, name: string, desc: string)

  const QSpaceProcess := Process(["ENTRY", "PROCESS_Q_SPACE"], "Conversion to q-space",
    "This process converts the 2D array Q containing the position in A into a 2D "
    + "array containing the positions in q-space, A^-1. "
    + "Each element of the array Q is a vector containing qx and qy")
  const CakedProcess := Process(["ENTRY", "PROCESS_CAKED"], "Data caking",
    "This process plots the intensity with respect to the azimuthal angle and the distance from"
    + "the center of the q-space. That way the rings are flattened.")
  const RadialProcess := Process(["ENTRY", "PROCESS_RAD_AVG"], "Radial averaging",
    "This process integrates the intensity signal over a specified radial angle range"
    + " and q range, effectively rendering the signal 1D instead of 2D")
  const AzimuthalProcess := Process(["ENTRY", "PROCESS_AZI_AVG"], "Azimuthal averaging",
    "This process integrates the intensity signal over a specified azimuthal angle range"
    + " and q range, effectively rendering the signal 1D instead of 2D")
  const HorizontalProcess := Process(["ENTRY", "PROCESS_HOR_INT"], "Horizontal integration",
    "This process integrates the intensity signal over a specified horizontal strip in q-space"
    + "effectively rendering the signal 1D instead of 2D")

  /** `self.save_data(symbol, param, group, i)` followed by `create_process`. */
  function ResultOps(symbol: string, param: Data, group: string, i: Data, pr: Process): Ops {
    Chain(ClassSaveOps(symbol, param, group, i), ProcessOps(pr.path, pr.name, pr.desc))
  }

  /** The q-space mesh of `process_q_space`: `qx` runs over `qp` along the columns of the
      raw position array, `qy` from the last `qz` down to the first along its rows. */
  function QSpaceMesh(qp: seq<real>, qz: seq<real>, rows: nat, cols: nat): Data
    requires |qp| > 0 && |qz| > 0
  {
    Mesh(Linspace(qp[0], qp[|qp| - 1], cols), Linspace(qz[|qz| - 1], qz[0], rows))
  }

  /** What the `save` branch of `process_q_space` does: `dim[1]` raises `IndexError`
      for a position array of rank below 2, before the file is touched. */
  function QSpacePlan(qp: seq<real>, qz: seq<real>, position: Data, group: string, imgSt: Data): Result<Ops, PyError>
    requires |qp| > 0 && |qz| > 0
  {
    if |position.shape| < 2 then Err(IndexError)
    else Ok(ResultOps("Q", QSpaceMesh(qp, qz, position.shape[0], position.shape[1]), group, imgSt, QSpaceProcess))
  }

  /** The file after a plan: unchanged if computing it raised, else the steps run. */
  predicate Performed(plan: Result<Ops, PyError>, before: Tree, after: Tree, err: Option<PyError>) {
    if plan.Err? then after == before && err == Some(plan.error)
    else Ran(Exec(before, plan.value), after, err)
  }

  // ------------------------------------------------------------ the class

  class NexusFile {
    const file: File
    const params: Parameters
    const smi: Geometry

    constructor (file: File, params: Parameters, smi: Geometry)
      ensures this.file == file && this.params == params && this.smi == smi
    {
      this.file := file;
      this.params := params;
      this.smi := smi;
    }

    predicate HasAxes() {
      |smi.qp| > 0 && |smi.qz| > 0
    }

    /** `save_data` followed by `create_process`; `create_process` is not reached when
        `save_data` raises. */
    method SaveResult(symbol: string, param: Data, group: string, i: Data, pr: Process)
      returns (err: Option<PyError>)
      modifies file
      ensures Ran(Exec(old(file.tree), ResultOps(symbol, param, group, i, pr)), file.tree, err)
    {
      ghost var t0 := file.tree;
      ExecChain(t0, ClassSaveOps(symbol, param, group, i), ProcessOps(pr.path, pr.name, pr.desc));
      err := ClassSaveData(file, symbol, param, group, i);
      if err.None? {
        err := CreateProcess(file, pr.path, pr.name, pr.desc);
      }
    }

    /** saxs_nxformat/class_nexus_file.py:189-239; `imgSt` is the library's stitched image. */
    method ProcessQSpace(save: bool, group: string, imgSt: Data) returns (err: Option<PyError>)
      requires HasAxes() && |params.rawPosition| > 0
      modifies smi, file
      ensures smi.calls == old(smi.calls) + [ResetMasks, IntegratorTrans(params.rotation)]
      ensures Performed(if save then QSpacePlan(smi.qp, smi.qz, params.rawPosition[0], group, imgSt) else Ok(Done),
                        old(file.tree), file.tree, err)
    {
      smi.Record(ResetMasks);
      smi.Record(IntegratorTrans(params.rotation));
      err := None;
      if save {
        var dim := params.rawPosition[0].shape;
        if |dim| < 2 {
          return Some(IndexError);
        }
        var mesh := QSpaceMesh(smi.qp, smi.qz, dim[0], dim[1]);
        err := SaveResult("Q", mesh, group, imgSt, QSpaceProcess);
      }
    }

    /** saxs_nxformat/class_nexus_file.py:241-330; the q and chi axes and the cake are what
        the library computed. */
    method ProcessCaking(save: bool, group: string, aziMin: Option<real>, aziMax: Option<real>,
                         ptsAzi: Option<int>, radialMin: Option<real>, radialMax: Option<real>,
                         ptsRad: Option<int>, qCake: seq<real>, chiCake: seq<real>, cake: Data)
      returns (err: Option<PyError>)
      requires HasAxes()
      modifies smi, file
      ensures smi.calls == old(smi.calls) + [CakingCall(smi.qz, aziMin, aziMax, ptsAzi, radialMin, radialMax, ptsRad)]
      ensures Ran(Exec(old(file.tree), if save then ResultOps("Q", Mesh(qCake, chiCake), group, cake, CakedProcess) else Done),
                  file.tree, err)
    {
      smi.Record(CakingCall(smi.qz, aziMin, aziMax, ptsAzi, radialMin, radialMax, ptsRad));
      err := None;
      if save {
        err := SaveResult("Q", Mesh(qCake, chiCake), group, cake, CakedProcess);
      }
    }

    /** saxs_nxformat/class_nexus_file.py:332-400. */
    method ProcessRadialAverage(save: bool, group: string, rMin: Option<real>, rMax: Option<real>,
                                angleMin: Option<real>, angleMax: Option<real>, pts: Option<int>,
                                qRad: seq<real>, iRad: seq<real>)
      returns (err: Option<PyError>)
      requires HasAxes()
      modifies smi, file
      ensures smi.calls == old(smi.calls) + [ResetMasks, IntegratorTrans(params.rotation),
                                             RadialCall(smi.qp, smi.qz, rMin, rMax, angleMin, angleMax, pts)]
      ensures Ran(Exec(old(file.tree), if save then ResultOps("Q", Vector(qRad), group, Vector(iRad), RadialProcess) else Done),
                  file.tree, err)
    {
      smi.Record(ResetMasks);
      smi.Record(IntegratorTrans(params.rotation));
      smi.Record(RadialCall(smi.qp, smi.qz, rMin, rMax, angleMin, angleMax, pts));
      err := None;
      if save {
        err := SaveResult("Q", Vector(qRad), group, Vector(iRad), RadialProcess);
      }
    }

    /** saxs_nxformat/class_nexus_file.py:402-462. */
    method ProcessAzimuthalAverage(save: bool, group: string, rMin: Option<real>, rMax: Option<real>,
                                   angleMin: Option<real>, angleMax: Option<real>,
                                   chiAzi: seq<real>, iAzi: seq<real>)
      returns (err: Option<PyError>)
      requires HasAxes()
      modifies smi, file
      ensures smi.calls == old(smi.calls) + [ResetMasks, IntegratorTrans(params.rotation),
                                             AzimuthalCall(smi.qp, smi.qz, rMin, rMax, angleMin, angleMax)]
      ensures Ran(Exec(old(file.tree), if save then ResultOps("Chi", Vector(chiAzi), group, Vector(iAzi), AzimuthalProcess) else Done),
                  file.tree, err)
    {
      smi.Record(ResetMasks);
      smi.Record(IntegratorTrans(params.rotation));
      smi.Record(AzimuthalCall(smi.qp, smi.qz, rMin, rMax, angleMin, angleMax));
      err := None;
      if save {
        err := SaveResult("Chi", Vector(chiAzi), group, Vector(iAzi), AzimuthalProcess);
      }
    }

    /** saxs_nxformat/class_nexus_file.py:464-518. */
    method ProcessHorizontalIntegration(save: bool, group: string, qxMin: Option<real>, qxMax: Option<real>,
                                        qyMin: Option<real>, qyMax: Option<real>,
                                        qHor: seq<real>, iHor: seq<real>)
      returns (err: Option<PyError>)
      requires HasAxes()
      modifies smi, file
      ensures smi.calls == old(smi.calls) + [ResetMasks, IntegratorTrans(params.rotation),
                                             HorizontalCall(smi.qp, smi.qz, qxMin, qxMax, qyMin, qyMax)]
      ensures Ran(Exec(old(file.tree), if save then ResultOps("Q", Vector(qHor), group, Vector(iHor), HorizontalProcess) else Done),
                  file.tree, err)
    {
      smi.Record(ResetMasks);
      smi.Record(IntegratorTrans(params.rotation));
      smi.Record(HorizontalCall(smi.qp, smi.qz, qxMin, qxMax, qyMin, qyMax));
      err := None;
      if save {
        err := SaveResult("Q", Vector(qHor), group, Vector(iHor), HorizontalProcess);
      }
    }

    /** saxs_nxformat/class_nexus_file.py:520-578: after the horizontal integration the
        call `vertical_integration(q_per_range=qy_range, ...)` names a variable that does
        not exist, so the method always raises `NameError` and never saves. */
    method ProcessVerticalIntegration(save: bool, group: string, qxMin: Option<real>, qxMax: Option<real>,
                                      qyMin: Option<real>, qyMax: Option<real>)
      returns (err: Option<PyError>)
      requires HasAxes()
      modifies smi
      ensures smi.calls == old(smi.calls) + [ResetMasks, IntegratorTrans(params.rotation),
                                             HorizontalCall(smi.qp, smi.qz, qxMin, qxMax, qyMin, qyMax)]
      ensures err == Some(NameError("qy_range"))
    {
      smi.Record(ResetMasks);
      smi.Record(IntegratorTrans(params.rotation));
      smi.Record(HorizontalCall(smi.qp, smi.qz, qxMin, qxMax, qyMin, qyMax));
      err := Some(NameError("qy_range"));
    }

    /** saxs_nxformat/class_nexus_file.py:597-624 */
    method SaveData(symbol: string, param: Data, group: string, i: Data) returns (err: Option<PyError>)
      modifies file
      ensures Ran(Exec(old(file.tree), ClassSaveOps(symbol, param, group, i)), file.tree, err)
    {
      err := ClassSaveData(file, symbol, param, group, i);
    }

    /** saxs_nxformat/class_nexus_file.py:626-639 */
    method DeleteData(group: string) returns (err: Option<PyError>)
      modifies file
      ensures Ran(Exec(old(file.tree), RootCheckedDeleteOps(group)), file.tree, err)
    {
      err := RootCheckedDeleteData(file, group);
    }
  }

  /** `NexusFile(h5_path)` on an opened file: the parameters are read, the geometry object
      is built from them, given the raw intensity and asked to stitch. `qp` and `qz` are
      the axes the library derives. */
  method Open(f: File, m: Matching, qp: seq<real>, qz: seq<real>) returns (r: Result<NexusFile, PyError>)
    requires |qp| > 0 && |qz| > 0
    ensures Loaded(f.tree, m).Err? ==> r == Err(Loaded(f.tree, m).error)
    ensures Loaded(f.tree, m).Ok? ==>
      var (p, s) := Loaded(f.tree, m).value;
      && r.Ok? && fresh(r.value) && fresh(r.value.smi)
      && r.value.file == f && r.value.params == p && r.value.HasAxes()
      && r.value.smi.calls == [Created(s), OpenData(p.rawIntensity), Stitch]
  {
    var loaded := Loaded(f.tree, m);
    if loaded.Err? {
      return Err(loaded.error);
    }
    var (p, s) := loaded.value;
    var smi := new Geometry(s, qp, qz);
    smi.Record(OpenData(p.rawIntensity));
    smi.Record(Stitch);
    var nf := new NexusFile(f, p, smi);
    r := Ok(nf);
  }

  // ------------------------------------------------------------ properties

  /** What `ReadParameters` took from the file: both raw arrays, as datasets that are
      not scalar. */
  lemma ReadParametersFacts(t: Tree, m: Matching)
    requires ReadParameters(t, m).Ok?
    ensures var p := ReadParameters(t, m).value;
      && H5.Get(t, DataPath + ["I"]).Some? && H5.Get(t, DataPath + ["I"]).value.Dataset?
      && p.rawIntensity == [H5.Get(t, DataPath + ["I"]).value.data] && p.rawIntensity[0].shape != []
      && H5.Get(t, DataPath + ["R"]).Some? && H5.Get(t, DataPath + ["R"]).value.Dataset?
      && p.rawPosition == [H5.Get(t, DataPath + ["R"]).value.data] && p.rawPosition[0].shape != []
      && p.beamStop == [[0, 0]]
  {
    var i := ReadArray(t, DataPath + ["I"]);
    var r := ReadArray(t, DataPath + ["R"]);
    assert i.Ok? && r.Ok?;
  }

  /** The library is only set up for a known detector and a numeric distance, which it
      receives in millimetres. */
  lemma SetupFacts(p: Parameters)
    requires SetupOf(p).Ok?
    ensures var s := SetupOf(p).value;
      && p.detectorName == Some(s.detector)
      && p.distance.Scalar? && Numeric(p.distance.v).Some?
      && s.sdd == Scalar(PFloat(Numeric(p.distance.v).value * 1000.0))
      && s.geometry == "Transmission" && s.bsPos == p.beamStop && s.detAngles == p.rotation
  {
  }

  /** A successful load: `LoadedFacts` joins the two. */
  lemma LoadedFacts(t: Tree, m: Matching)
    requires Loaded(t, m).Ok?
    ensures ReadParameters(t, m).Ok? && SetupOf(ReadParameters(t, m).value).Ok?
    ensures Loaded(t, m).value == (ReadParameters(t, m).value, SetupOf(ReadParameters(t, m).value).value)
  {
  }

  /** Every parameter read, but an unknown detector: the geometry object is never built. */
  lemma UnknownDetectorRaises(t: Tree, m: Matching)
    requires ReadParameters(t, m).Ok? && ReadParameters(t, m).value.detectorName.None?
    requires Times(ReadParameters(t, m).value.distance, 1000.0).Ok?
    ensures Loaded(t, m) == Err(KeyError("detector name"))
  {
  }

  lemma ContainsItself(s: string)
    ensures Contains(s, s)
  {
    assert OccursAt(s, s, 0);
  }

  lemma ShorterIdNotInLonger()
    ensures !Contains(Eiger500kId, Eiger1MId)
  {
    assert |Eiger1MId| == 35 && |Eiger500kId| == 36;
    assert Eiger500kId[15] != Eiger1MId[15];
    assert Eiger500kId[1] != Eiger1MId[0];
    assert !OccursAt(Eiger500kId, Eiger1MId, 0);
    assert !OccursAt(Eiger500kId, Eiger1MId, 1);
  }

  /** A name the exact comparison recognises gets the same library name under the
      substring test of the older reader. */
  lemma ExactMatchAgreesWithSubstring(name: string)
    requires DetectorName(Exact, name).Some?
    ensures DetectorName(Substring, name) == DetectorName(Exact, name)
  {
    var low := Lower(name);
    if low == Eiger1MId {
      ContainsItself(low);
    } else {
      assert low == Eiger500kId;
      ShorterIdNotInLonger();
      ContainsItself(low);
    }
  }

  /** The substring test also accepts a name the exact comparison rejects. */
  lemma SubstringAcceptsDecoratedName()
    ensures DetectorName(Substring, Eiger1MId + " (spare)") == Some("Eiger1M_xeuss")
    ensures DetectorName(Exact, Eiger1MId + " (spare)") == None
  {
    var name := Eiger1MId + " (spare)";
    LowerOfLowercase(name);
    assert Lower(name) == name;
    assert OccursAt(name, Eiger1MId, 0);
    assert |name| != |Eiger1MId| && |name| != |Eiger500kId|;
  }

  lemma LowerOfLowercase(s: string)
    requires forall k | 0 <= k < |s| :: !('A' <= s[k] <= 'Z')
    ensures Lower(s) == s
  {
  }

  /** The caking defaults: a full turn in azimuth and the span of `qz` in radius, which
      holds every `qz`. */
  lemma CakingDefaults(qz: seq<real>)
    requires |qz| > 0
    ensures CakingCall(qz, None, None, None, None, None, None)
            == Caking([Num(-180.0), Num(180.0)], [Num(Min(qz)), Num(Max(qz))], 1000, 1000)
    ensures Min(qz) in qz && Max(qz) in qz
    ensures forall k | 0 <= k < |qz| :: Min(qz) <= qz[k] <= Max(qz)
  {
    MinIsLeast(qz);
    MaxIsGreatest(qz);
  }

  /** The averaging defaults: a full turn, zero up to the norm of the largest `qp` and
      `qz`, 2000 points for the radial average; given values pass through. */
  lemma AveragingDefaults(qp: seq<real>, qz: seq<real>, a: real, b: real, c: real, d: real, n: int)
    requires |qp| > 0 && |qz| > 0
    ensures Max(qp) in qp && Max(qz) in qz
    ensures RadialCall(qp, qz, None, None, None, None, None)
            == RadialAveraging([Num(-180.0), Num(180.0)], 2000, [Num(0.0), Hypot(Max(qp), Max(qz))])
    ensures AzimuthalCall(qp, qz, None, None, None, None)
            == AzimuthalAveraging([Num(-180.0), Num(180.0)], [Num(0.0), Hypot(Max(qp), Max(qz))])
    ensures RadialCall(qp, qz, Some(a), Some(b), Some(c), Some(d), Some(n))
            == RadialAveraging([Num(c), Num(d)], n, [Num(a), Num(b)])
  {
    MaxIsGreatest(qp);
    MaxIsGreatest(qz);
  }

  lemma SquareMono(x: real, m: real)
    requires 0.0 <= x <= m
    ensures x * x <= m * m
  {
    assert x * x <= x * m;
    assert x * m <= m * m;
  }

  /** `x ** 2 + y ** 2` */
  function SquaredNorm(x: real, y: real): real {
    x * x + y * y
  }

  lemma SumOfSquaresMono(x: real, m: real, y: real, n: real)
    requires 0.0 <= x <= m && 0.0 <= y <= n
    ensures SquaredNorm(x, y) <= SquaredNorm(m, n)
  {
    SquareMono(x, m);
    SquareMono(y, n);
  }

  /** The default averaging radius reaches every point of the q plane when no axis value
      is negative. */
  lemma RMaxCoversNonNegativeAxes(qp: seq<real>, qz: seq<real>, k: nat, j: nat)
    requires |qp| > 0 && |qz| > 0 && k < |qp| && j < |qz| && 0.0 <= qp[k] && 0.0 <= qz[j]
    ensures SquaredNorm(qp[k], qz[j]) <= SquaredNorm(Max(qp), Max(qz))
  {
    var x, y, mx, my := qp[k], qz[j], Max(qp), Max(qz);
    assert x <= mx by { MaxIsGreatest(qp); }
    assert y <= my by { MaxIsGreatest(qz); }
    SumOfSquaresMono(x, mx, y, my);
  }

  /** The largest value is not the largest magnitude: with `qp = [-2, 1]` and `qz = [1]`
      the point (-2, 1) lies beyond the default radius. */
  lemma RMaxMissesNegativeAxis()
    ensures Max([-2.0, 1.0]) == 1.0 && Max([1.0]) == 1.0
    ensures SquaredNorm(-2.0, 1.0) > SquaredNorm(Max([-2.0, 1.0]), Max([1.0]))
  {
    MaxIsGreatest([-2.0, 1.0]);
    MaxIsGreatest([1.0]);
  }

  function Magnitudes(s: seq<real>): (r: seq<real>)
    ensures |r| == |s|
    ensures forall k | 0 <= k < |s| :: r[k] >= 0.0 && (r[k] == s[k] || r[k] == -s[k])
  {
    seq(|s|, k requires 0 <= k < |s| => if s[k] < 0.0 then -s[k] else s[k])
  }

  lemma SquareOfMagnitude(x: real, a: real, y: real, b: real)
    requires a == x || a == -x
    requires b == y || b == -y
    ensures SquaredNorm(x, y) == SquaredNorm(a, b)
  {
  }

  /** A default radius built from the largest magnitudes. */
  function CoveringRMax(qp: seq<real>, qz: seq<real>): Bound
    requires |qp| > 0 && |qz| > 0
  {
    Hypot(Max(Magnitudes(qp)), Max(Magnitudes(qz)))
  }

  /** ... which reaches every point of the q plane. */
  lemma CoveringRMaxCovers(qp: seq<real>, qz: seq<real>, k: nat, j: nat)
    requires |qp| > 0 && |qz| > 0 && k < |qp| && j < |qz|
    ensures SquaredNorm(qp[k], qz[j]) <= SquaredNorm(CoveringRMax(qp, qz).x, CoveringRMax(qp, qz).y)
  {
    var mp, mz := Magnitudes(qp), Magnitudes(qz);
    MaxIsGreatest(mp);
    MaxIsGreatest(mz);
    SumOfSquaresMono(mp[k], Max(mp), mz[j], Max(mz));
    SquareOfMagnitude(qp[k], mp[k], qz[j], mz[j]);
  }

  /** The q-space mesh has the shape of the raw position array; the first row holds the
      largest `qz` and the first column the first `qp`, so the top-left point is (first
      `qp`, last `qz`) and the bottom-right point (last `qp`, first `qz`). */
  lemma QSpaceMeshCorners(qp: seq<real>, qz: seq<real>, rows: nat, cols: nat)
    requires |qp| > 0 && |qz| > 0 && rows > 1 && cols > 1
    ensures QSpaceMesh(qp, qz, rows, cols).shape == [rows, cols, 2]
    ensures PointAt(QSpaceMesh(qp, qz, rows, cols), 0, 0, qp[0], qz[|qz| - 1])
    ensures PointAt(QSpaceMesh(qp, qz, rows, cols), rows - 1, cols - 1, qp[|qp| - 1], qz[0])
  {
    var xs := Linspace(qp[0], qp[|qp| - 1], cols);
    var ys := Linspace(qz[|qz| - 1], qz[0], rows);
    LinspaceEnds(qp[0], qp[|qp| - 1], cols);
    LinspaceEnds(qz[|qz| - 1], qz[0], rows);
    MeshPoint(xs, ys, 0, 0);
    MeshPoint(xs, ys, rows - 1, cols - 1);
  }

  /** Below rank 2 the q-space plan fails with `IndexError`, so `Performed` leaves the
      file as it was; otherwise it saves the mesh and records the process. */
  lemma QSpacePlanShape(qp: seq<real>, qz: seq<real>, position: Data, group: string, imgSt: Data)
    requires |qp| > 0 && |qz| > 0
    ensures |position.shape| < 2 <==> QSpacePlan(qp, qz, position, group, imgSt) == Err(IndexError)
    ensures |position.shape| >= 2 ==>
      (&& QSpacePlan(qp, qz, position, group, imgSt).Ok?
       && QSpacePlan(qp, qz, position, group, imgSt).value
          == Chain(ClassSaveOps("Q", QSpaceMesh(qp, qz, position.shape[0], position.shape[1]), group, imgSt),
                   ProcessOps(["ENTRY", "PROCESS_Q_SPACE"], "Conversion to q-space", QSpaceProcess.desc)))
  {
  }
}
