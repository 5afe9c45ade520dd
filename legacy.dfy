/** The older `NexusFile` of edf2nxsas/data_treatment.py. It reads the same parameters as
    the current class but recognises the detector by substring, takes its ranges as
    lists, writes no `PROCESS_*` group, and its vertical integration does call the
    library's vertical integration. */
module LegacyNexus {
  import opened Wrappers
  import opened PyValues
  import opened H5
  import opened Containers
  import opened Grids
  import opened Nexus

  /** A range argument: the given list as it is, else the default pair. */
  function RangeOr(r: Option<seq<real>>, lo: Bound, hi: Bound): (b: seq<Bound>)
    ensures r.Some? ==> |b| == |r.value| && forall k | 0 <= k < |b| :: b[k] == Num(r.value[k])
    ensures r.None? ==> b == [lo, hi]
  {
    if r.Some? then seq(|r.value|, k requires 0 <= k < |r.value| => Num(r.value[k])) else [lo, hi]
  }

  /** The fixed call of `caking`. */
  function LegacyCakingCall(qz: seq<real>): Call
    requires |qz| > 0
  {
    Call.Caking([Num(-180.0), Num(180.0)], [Num(Min(qz)), Num(Max(qz))], 1000, 1000)
  }

  /** The call of `radial_average`, always with 2000 points. */
  function LegacyRadialCall(qp: seq<real>, qz: seq<real>, rRange: Option<seq<real>>, angleRange: Option<seq<real>>): Call
    requires |qp| > 0 && |qz| > 0
  {
    RadialAveraging(RangeOr(angleRange, Num(-180.0), Num(180.0)), 2000, RangeOr(rRange, Num(0.0), RMax(qp, qz)))
  }

  /** The ranges of both strip integrations: `q_per` is the `qy` range, `q_par` the `qx` one. */
  function PerRange(qz: seq<real>, qyRange: Option<seq<real>>): seq<Bound>
    requires |qz| > 0
  {
    RangeOr(qyRange, Num(qz[0]), Num(qz[|qz| - 1]))
  }

  function ParRange(qp: seq<real>, qxRange: Option<seq<real>>): seq<Bound>
    requires |qp| > 0
  {
    RangeOr(qxRange, Num(qp[0]), Num(qp[|qp| - 1]))
  }

  class LegacyNexusFile {
    const file: File
    const params: Parameters
    const smi: Geometry

    constructor (file: File, params: Parameters, smi: Geometry)
      ensures this.file == file && this.params == params && this.smi == smi
    {
      this.file := file;
      this.params := params;
      this.smi := smi;
    }

    predicate HasAxes() {
      |smi.qp| > 0 && |smi.qz| > 0
    }

    /** edf2nxsas/data_treatment.py:180-222 */
    method QSpace(save: bool, group: string, imgSt: Data) returns (err: Option<PyError>)
      requires HasAxes() && |params.rawPosition| > 0
      modifies smi, file
      ensures smi.calls == old(smi.calls) + [ResetMasks, IntegratorTrans(params.rotation)]
      ensures var dim := params.rawPosition[0].shape;
        if !save then file.tree == old(file.tree) && err == None
        else if |dim| < 2 then file.tree == old(file.tree) && err == Some(IndexError)
        else Ran(Exec(old(file.tree), ClassSaveOps("Q", QSpaceMesh(smi.qp, smi.qz, dim[0], dim[1]), group, imgSt)),
                 file.tree, err)
    {
      smi.Record(ResetMasks);
      smi.Record(IntegratorTrans(params.rotation));
      err := None;
      if save {
        var dim := params.rawPosition[0].shape;
        if |dim| < 2 {
          return Some(IndexError);
        }
        err := ClassSaveData(file, "Q", QSpaceMesh(smi.qp, smi.qz, dim[0], dim[1]), group, imgSt);
      }
    }

    /** edf2nxsas/data_treatment.py:224-267: no mask reset and fixed ranges. */
    method Caking(save: bool, group: string, qCake: seq<real>, chiCake: seq<real>, cake: Data)
      returns (err: Option<PyError>)
      requires HasAxes()
      modifies smi, file
      ensures smi.calls == old(smi.calls) + [LegacyCakingCall(smi.qz)]
      ensures Ran(Exec(old(file.tree), if save then ClassSaveOps("Q", Mesh(qCake, chiCake), group, cake) else Done),
                  file.tree, err)
    {
      smi.Record(LegacyCakingCall(smi.qz));
      err := None;
      if save {
        err := ClassSaveData(file, "Q", Mesh(qCake, chiCake), group, cake);
      }
    }

    /** edf2nxsas/data_treatment.py:269-319 */
    method RadialAverage(rRange: Option<seq<real>>, angleRange: Option<seq<real>>, save: bool, group: string,
                         qRad: seq<real>, iRad: seq<real>)
      returns (err: Option<PyError>)
      requires HasAxes()
      modifies smi, file
      ensures smi.calls == old(smi.calls) + [ResetMasks, IntegratorTrans(params.rotation),
                                             LegacyRadialCall(smi.qp, smi.qz, rRange, angleRange)]
      ensures Ran(Exec(old(file.tree), if save then ClassSaveOps("Q", Vector(qRad), group, Vector(iRad)) else Done),
                  file.tree, err)
    {
      smi.Record(ResetMasks);
      smi.Record(IntegratorTrans(params.rotation));
      smi.Record(LegacyRadialCall(smi.qp, smi.qz, rRange, angleRange));
      err := None;
      if save {
        err := ClassSaveData(file, "Q", Vector(qRad), group, Vector(iRad));
      }
    }

    /** edf2nxsas/data_treatment.py:321-363 */
    method HorizontalIntegration(qxRange: Option<seq<real>>, qyRange: Option<seq<real>>, save: bool, group: string,
                                 qHor: seq<real>, iHor: seq<real>)
      returns (err: Option<PyError>)
      requires HasAxes()
      modifies smi, file
      ensures smi.calls == old(smi.calls) + [ResetMasks, IntegratorTrans(params.rotation),
                                             Call.HorizontalIntegration(PerRange(smi.qz, qyRange), ParRange(smi.qp, qxRange))]
      ensures Ran(Exec(old(file.tree), if save then ClassSaveOps("Q", Vector(qHor), group, Vector(iHor)) else Done),
                  file.tree, err)
    {
      smi.Record(ResetMasks);
      smi.Record(IntegratorTrans(params.rotation));
      smi.Record(Call.HorizontalIntegration(PerRange(smi.qz, qyRange), ParRange(smi.qp, qxRange)));
      err := None;
      if save {
        err := ClassSaveData(file, "Q", Vector(qHor), group, Vector(iHor));
      }
    }

    /** edf2nxsas/data_treatment.py:365-407 */
    method VerticalIntegration(qxRange: Option<seq<real>>, qyRange: Option<seq<real>>, save: bool, group: string,
                               qVer: seq<real>, iVer: seq<real>)
      returns (err: Option<PyError>)
      requires HasAxes()
      modifies smi, file
      ensures smi.calls == old(smi.calls) + [ResetMasks, IntegratorTrans(params.rotation),
                                             Call.VerticalIntegration(PerRange(smi.qz, qyRange), ParRange(smi.qp, qxRange))]
      ensures Ran(Exec(old(file.tree), if save then ClassSaveOps("Q", Vector(qVer), group, Vector(iVer)) else Done),
                  file.tree, err)
    {
      smi.Record(ResetMasks);
      smi.Record(IntegratorTrans(params.rotation));
      smi.Record(Call.VerticalIntegration(PerRange(smi.qz, qyRange), ParRange(smi.qp, qxRange)));
      err := None;
      if save {
        err := ClassSaveData(file, "Q", Vector(qVer), group, Vector(iVer));
      }
    }

    /** edf2nxsas/data_treatment.py:409-435 */
    method SaveData(symbol: string, param: Data, group: string, i: Data) returns (err: Option<PyError>)
      modifies file
      ensures Ran(Exec(old(file.tree), ClassSaveOps(symbol, param, group, i)), file.tree, err)
    {
      err := ClassSaveData(file, symbol, param, group, i);
    }

    /** edf2nxsas/data_treatment.py:437-450 */
    method DeleteData(group: string) returns (err: Option<PyError>)
      modifies file
      ensures Ran(Exec(old(file.tree), RootCheckedDeleteOps(group)), file.tree, err)
    {
      err := RootCheckedDeleteData(file, group);
    }
  }

  /** `NexusFile(h5_path)` of the older reader: the detector is found by substring. */
  method OpenLegacy(f: File, qp: seq<real>, qz: seq<real>) returns (r: Result<LegacyNexusFile, PyError>)
    requires |qp| > 0 && |qz| > 0
    ensures Loaded(f.tree, Substring).Err? ==> r == Err(Loaded(f.tree, Substring).error)
    ensures Loaded(f.tree, Substring).Ok? ==>
      var (p, s) := Loaded(f.tree, Substring).value;
      && r.Ok? && fresh(r.value) && fresh(r.value.smi)
      && r.value.file == f && r.value.params == p && r.value.HasAxes()
      && r.value.smi.calls == [Created(s), OpenData(p.rawIntensity), Stitch]
  {
    var loaded := Loaded(f.tree, Substring);
    if loaded.Err? {
      return Err(loaded.error);
    }
    var (p, s) := loaded.value;
    var smi := new Geometry(s, qp, qz);
    smi.Record(OpenData(p.rawIntensity));
    smi.Record(Stitch);
    var nf := new LegacyNexusFile(f, p, smi);
    r := Ok(nf);
  }

  // ------------------------------------------------------------ the two versions

  /** Without arguments the older calls are those of the current class, and a pair of
      given values reaches the library as the current class passes them. */
  lemma LegacyCallsAgree(qp: seq<real>, qz: seq<real>, a: real, b: real, c: real, d: real)
    requires |qp| > 0 && |qz| > 0
    ensures LegacyCakingCall(qz) == CakingCall(qz, None, None, None, None, None, None)
    ensures LegacyRadialCall(qp, qz, None, None) == RadialCall(qp, qz, None, None, None, None, None)
    ensures LegacyRadialCall(qp, qz, Some([a, b]), Some([c, d]))
            == RadialCall(qp, qz, Some(a), Some(b), Some(c), Some(d), None)
    ensures Call.HorizontalIntegration(PerRange(qz, None), ParRange(qp, None))
            == HorizontalCall(qp, qz, None, None, None, None)
    ensures Call.HorizontalIntegration(PerRange(qz, Some([c, d])), ParRange(qp, Some([a, b])))
            == HorizontalCall(qp, qz, Some(a), Some(b), Some(c), Some(d))
  {
    assert RangeOr(Some([a, b]), Num(0.0), RMax(qp, qz)) == [Num(a), Num(b)];
    assert RangeOr(Some([c, d]), Num(-180.0), Num(180.0)) == [Num(c), Num(d)];
    assert PerRange(qz, Some([c, d])) == [Num(c), Num(d)];
    assert ParRange(qp, Some([a, b])) == [Num(a), Num(b)];
  }

  /** A name holding a known identifier between other text opens under the older test
      and fails the current one, which only accepts the identifier itself. */
  lemma LegacyAcceptsMoreDetectorNames(name: string)
    requires DetectorName(Exact, name).Some?
    ensures DetectorName(Substring, name) == DetectorName(Exact, name)
    ensures DetectorName(Substring, Eiger1MId + " (spare)").Some? && DetectorName(Exact, Eiger1MId + " (spare)").None?
  {
    ExactMatchAgreesWithSubstring(name);
    SubstringAcceptsDecoratedName();
  }
}
