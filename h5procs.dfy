/** The container-layout procedures built on the HDF5 primitives: replacing a dataset
    while keeping its attributes, saving a result group as a copy of `/ENTRY/DATA`,
    deleting result groups and writing a `PROCESS_*` provenance group.

    Each procedure is a method on an open `File` and a function computing what the
    method leaves behind. h5py applies every primitive at once, so an exception half-way
    leaves the earlier steps done: the function returns that partial state with the
    exception. */
module Containers {
  import opened Wrappers
  import opened Text
  import opened PyValues
  import opened H5

  /** The file after a procedure, and the exception that stopped it, if any. */
  datatype Run = Run(tree: Tree, err: Option<PyError>)

  function Lift(t: Tree, r: Result<Tree, PyError>): Run {
    if r.Ok? then Run(r.value, None) else Run(t, Some(r.error))
  }

  predicate Ran(r: Run, after: Tree, err: Option<PyError>) {
    after == r.tree && err == r.err
  }

  /** The number of cells of an array of the given shape. */
  function Size(shape: seq<nat>): nat {
    if |shape| == 0 then 1 else shape[0] * Size(shape[1..])
  }

  /** `np.zeros(shape)` */
  function Zeros(shape: seq<nat>): (d: Data)
    ensures d.shape == shape && |d.cells| == Size(shape)
    ensures forall i | 0 <= i < |d.cells| :: d.cells[i] == PFloat(0.0)
  {
    Data(shape, seq(Size(shape), _ => PFloat(0.0)))
  }

  /** A scalar string dataset, as `create_dataset(name, data=s)` stores a `str`. */
  function ScalarString(s: string): Data {
    Data([], [PStr(s)])
  }

  // ------------------------------------------------------------ replace_h5_dataset

  /** What `replace_h5_dataset` does when the old dataset is absent: the function of
      saxs_nxformat/utils.py falls back to `{"units": "1/nm"}`, the class modules'
      copies index the file and raise. */
  datatype Missing = UnitsDefault | Raise

  /** The attributes the new dataset is given. */
  function OldAttrs(t: Tree, p: Path, m: Missing): Result<Attrs, PyError> {
    if Exists(t, p) then Ok(AttrsOf(H5.Get(t, p).value))
    else if m == UnitsDefault then Ok(map["units" := PStr("1/nm")])
    else Err(KeyError(PathText(p)))
  }

  /** Where the new dataset goes; `None` stands for a new path that is `None` or empty. */
  function Target(p: Path, newPath: Option<Path>): Path {
    if newPath.Some? then newPath.value else p
  }

  /** `replace_h5_dataset(f, p, d, newPath)`: read the old attributes, delete the old
      link, create the new dataset and copy the attributes onto it. */
  function ReplaceRun(t: Tree, p: Path, d: Data, newPath: Option<Path>, m: Missing): Run {
    match OldAttrs(t, p, m)
    case Err(e) => Run(t, Some(e))
    case Ok(a) =>
      var r1 := if Exists(t, p) then Lift(t, DeleteLink(t, p)) else Run(t, None);
      if r1.err.Some? then r1
      else
        var q := Target(p, newPath);
        var r2 := Lift(r1.tree, CreateNode(r1.tree, q, Dataset(map[], d)));
        if r2.err.Some? then r2 else Run(r2.tree[q := Dataset(a, d)], None)
  }

  /** The attributes whose keys are in `ks`. */
  function Restrict(a: Attrs, ks: set<string>): Attrs {
    map k | k in a.Keys && k in ks :: a[k]
  }

  method ReplaceDataset(f: File, p: Path, d: Data, newPath: Option<Path>, m: Missing)
    returns (err: Option<PyError>)
    modifies f
    ensures Ran(ReplaceRun(old(f.tree), p, d, newPath, m), f.tree, err)
  {
    var a := OldAttrs(f.tree, p, m);
    if a.Err? {
      return Some(a.error);
    }
    if Exists(f.tree, p) {
      err := f.Delete(p);
      if err.Some? {
        return;
      }
    }
    var q := Target(p, newPath);
    err := f.CreateDataset(q, d);
    if err.Some? {
      return;
    }
    SetAttrs(f, q, a.value, d);
    err := None;
  }

  /** The loop of `replace_h5_dataset` copying the old attributes onto the new dataset. */
  method SetAttrs(f: File, q: Path, attrs: Attrs, d: Data)
    requires q in f.tree && f.tree[q] == Dataset(map[], d)
    modifies f
    ensures f.tree == old(f.tree)[q := Dataset(attrs, d)]
  {
    var todo := attrs.Keys;
    while todo != {}
      invariant todo <= attrs.Keys
      invariant f.tree == old(f.tree)[q := Dataset(Restrict(attrs, attrs.Keys - todo), d)]
      decreases todo
    {
      var k :| k in todo;
      ghost var before := Restrict(attrs, attrs.Keys - todo);
      var e := f.SetAttr(q, k, attrs[k]);
      todo := todo - {k};
      assert Restrict(attrs, attrs.Keys - todo) == before[k := attrs[k]];
    }
    assert Restrict(attrs, attrs.Keys - todo) == attrs;
  }

  // ------------------------------------------------------------ procedures as step lists

  /** One h5py call of a procedure, or one call of `replace_h5_dataset`. */
  datatype Op =
    | Replace(p: Path, d: Data, newPath: Option<Path>, m: Missing)
      /** `if cond in f: del f[p]` */
    | DelIf(cond: Path, p: Path)
    | Del(p: Path)
      /** `f[p]` evaluated for its `KeyError` */
    | Need(p: Path)
    | CopyTo(src: Path, dst: Path)
    | Make(p: Path, n: Node)
    | Put(p: Path, k: string, v: PyValue)
    | Drop(p: Path, k: string)

  /** The steps of a procedure, in program order. */
  datatype Ops = Done | Then(op: Op, rest: Ops)

  function Apply(t: Tree, op: Op): Run {
    match op
    case Replace(p, d, np, m) => ReplaceRun(t, p, d, np, m)
    case DelIf(c, p) => if Exists(t, c) then Lift(t, DeleteLink(t, p)) else Run(t, None)
    case Del(p) => Lift(t, DeleteLink(t, p))
    case Need(p) => if Exists(t, p) then Run(t, None) else Run(t, Some(KeyError(PathText(p))))
    case CopyTo(src, dst) => Lift(t, CopyNode(t, src, dst))
    case Make(p, n) => Lift(t, CreateNode(t, p, n))
    case Put(p, k, v) => Lift(t, PutAttr(t, p, k, v))
    case Drop(p, k) => Lift(t, DropAttr(t, p, k))
  }

  /** The steps run in order; the first exception stops the procedure. */
  function Exec(t: Tree, ops: Ops): Run
    decreases ops
  {
    match ops
    case Done => Run(t, None)
    case Then(op, rest) =>
      var r := Apply(t, op);
      if r.err.Some? then r else Exec(r.tree, rest)
  }

  function Chain(a: Ops, b: Ops): Ops {
    match a
    case Done => b
    case Then(op, rest) => Then(op, Chain(rest, b))
  }

  function GroupPath(name: string): Path {
    ["ENTRY", name]
  }

  const DataPath: Path := ["ENTRY", "DATA"]

  /** saxs_nxformat/utils.py:242-250: an existing group of that name is deleted and
      `/ENTRY/DATA` copied in its place, except for the group `DATA` itself. */
  function ClearOps(name: string): Ops {
    var gp := GroupPath(name);
    if name == "DATA" then Done
    else Then(DelIf(gp, gp), Then(Need(["ENTRY"]), Then(CopyTo(DataPath, gp), Done)))
  }

  /** saxs_nxformat/utils.py:255-285: `Q` moves to the symbol, its resolutions become zeros. */
  function AxisOps(gp: Path, symbol: string, q: Data): Ops {
    Then(Replace(gp + ["Q"], q, Some(gp + [symbol]), UnitsDefault),
    Then(Replace(gp + ["Qdev"], Zeros(q.shape), None, UnitsDefault),
    Then(Replace(gp + ["dQl"], Zeros(q.shape), None, UnitsDefault),
    Then(Replace(gp + ["dQw"], Zeros(q.shape), None, UnitsDefault),
    Then(Replace(gp + ["Qmean"], Data([1], [PInt(0)]), None, UnitsDefault), Done)))))
  }

  /** saxs_nxformat/utils.py:287-305: the intensity, its zero uncertainty and the mask. */
  function IntensityOps(gp: Path, i: Data, mask: Data): Ops {
    Then(Replace(gp + ["I"], i, None, UnitsDefault),
    Then(Replace(gp + ["Idev"], Zeros(i.shape), None, UnitsDefault),
    Then(Replace(gp + ["mask"], mask, None, UnitsDefault), Done)))
  }

  const ZeroIndex: PyValue := PList([PInt(0)])

  /** saxs_nxformat/utils.py:311-318: the axis attributes of a rank-1 result. */
  function AxesAttrOps(gp: Path): Ops {
    Then(Drop(gp, "I_axes"), Then(Put(gp, "I_axes", PStr("Q")),
    Then(Drop(gp, "Q_indices"), Then(Put(gp, "Q_indices", ZeroIndex),
    Then(Drop(gp, "mask_indices"), Then(Put(gp, "mask_indices", ZeroIndex), Done))))))
  }

  /** saxs_nxformat/utils.py:307-322: the rank-dependent schema; `rank` is that of the
      intensity just stored at `I`. */
  function SchemaOps(gp: Path, rank: nat): Ops {
    if rank == 1 then Then(Del(gp + ["mask"]), AxesAttrOps(gp))
    else if rank == 2 then Then(Del(gp + ["Qdev"]), Then(Del(gp + ["dQl"]), Then(Del(gp + ["dQw"]), Done)))
    else Done
  }

  /** `utils.save_data(f, symbol, q, group, i, mask)` */
  function SaveOps(symbol: string, q: Data, group: string, i: Data, mask: Data): Ops {
    var gp := GroupPath(Upper(group));
    Chain(ClearOps(Upper(group)),
      Chain(AxisOps(gp, symbol, q), Chain(IntensityOps(gp, i, mask), SchemaOps(gp, |i.shape|))))
  }

  /** `NexusFile.save_data(symbol, param, group, i)` of saxs_nxformat/class_nexus_file.py
      and of edf2nxsas/data_treatment.py: any group of that name is deleted (`DATA`
      included), `/ENTRY/DATA` copied, `R` moved to the symbol and `I` replaced. */
  function ClassSaveOps(symbol: string, param: Data, group: string, i: Data): Ops {
    var gp := GroupPath(Upper(group));
    Then(DelIf(gp, gp), Then(Need(["ENTRY"]), Then(CopyTo(DataPath, gp),
    Then(Replace(gp + ["R"], param, Some(gp + [symbol]), Raise),
    Then(Replace(gp + ["I"], i, None, Raise), Done)))))
  }

  /** `utils.delete_data(f, group)`: a group absent from `/ENTRY` is only reported. */
  function DeleteOps(group: string): Ops {
    var gp := GroupPath(Upper(group));
    Then(Need(["ENTRY"]), Then(DelIf(gp, gp), Done))
  }

  /** `NexusFile.delete_data(group)` as written: membership is tested at the file root
      but `/ENTRY/<GROUP>` is deleted. */
  function RootCheckedDeleteOps(group: string): Ops {
    Then(DelIf([Upper(group)], GroupPath(Upper(group))), Done)
  }

  const ProcessAttrs: Attrs := map["canSAS_class" := PStr("SASprocess")]

  /** `create_process(f, p, name, desc)` of saxs_nxformat/class_nexus_file.py. */
  function ProcessOps(p: Path, name: string, desc: string): Ops {
    Then(DelIf(p, p), Then(Make(p, Group(map[])),
    Then(Put(p, "canSAS_class", PStr("SASprocess")),
    Then(Make(p + ["name"], Dataset(map[], ScalarString(name))),
    Then(Make(p + ["description"], Dataset(map[], ScalarString(desc))), Done)))))
  }

  // ------------------------------------------------------------ the procedures on a File

  method SaveData(f: File, symbol: string, q: Data, group: string, i: Data, mask: Data)
    returns (err: Option<PyError>)
    modifies f
    ensures Ran(Exec(old(f.tree), SaveOps(symbol, q, group, i, mask)), f.tree, err)
  {
    var name := Upper(group);
    var gp := GroupPath(name);
    ghost var rest := Chain(AxisOps(gp, symbol, q), Chain(IntensityOps(gp, i, mask), SchemaOps(gp, |i.shape|)));
    ExecChain(f.tree, ClearOps(name), rest);
    err := ClearGroup(f, name);
    if err.Some? {
      return;
    }
    ghost var rest2 := Chain(IntensityOps(gp, i, mask), SchemaOps(gp, |i.shape|));
    ExecChain(f.tree, AxisOps(gp, symbol, q), rest2);
    err := WriteAxis(f, gp, symbol, q);
    if err.Some? {
      return;
    }
    ExecChain(f.tree, IntensityOps(gp, i, mask), SchemaOps(gp, |i.shape|));
    err := WriteIntensity(f, gp, i, mask);
    if err.Some? {
      return;
    }
    var dim := |i.shape|;
    err := WriteSchema(f, gp, dim);
  }

  method ClearGroup(f: File, name: string) returns (err: Option<PyError>)
    modifies f
    ensures Ran(Exec(old(f.tree), ClearOps(name)), f.tree, err)
  {
    var gp := GroupPath(name);
    err := None;
    if name != "DATA" {
      ghost var todo := ClearOps(name);
      Step(f.tree, todo);
      if Exists(f.tree, gp) {
        err := f.Delete(gp);
        if err.Some? {
          return;
        }
      }
      todo := todo.rest;
      Step(f.tree, todo);
      if !Exists(f.tree, ["ENTRY"]) {
        return Some(KeyError(PathText(["ENTRY"])));
      }
      todo := todo.rest;
      Step(f.tree, todo);
      err := f.Copy(DataPath, gp);
    }
  }

  method WriteAxis(f: File, gp: Path, symbol: string, q: Data) returns (err: Option<PyError>)
    modifies f
    ensures Ran(Exec(old(f.tree), AxisOps(gp, symbol, q)), f.tree, err)
  {
    ghost var todo := AxisOps(gp, symbol, q);
    Step(f.tree, todo);
    err := ReplaceDataset(f, gp + ["Q"], q, Some(gp + [symbol]), UnitsDefault);
    if err.Some? { return; }
    todo := todo.rest;
    Step(f.tree, todo);
    err := ReplaceDataset(f, gp + ["Qdev"], Zeros(q.shape), None, UnitsDefault);
    if err.Some? { return; }
    todo := todo.rest;
    Step(f.tree, todo);
    err := ReplaceDataset(f, gp + ["dQl"], Zeros(q.shape), None, UnitsDefault);
    if err.Some? { return; }
    todo := todo.rest;
    Step(f.tree, todo);
    err := ReplaceDataset(f, gp + ["dQw"], Zeros(q.shape), None, UnitsDefault);
    if err.Some? { return; }
    todo := todo.rest;
    Step(f.tree, todo);
    err := ReplaceDataset(f, gp + ["Qmean"], Data([1], [PInt(0)]), None, UnitsDefault);
  }

  method WriteIntensity(f: File, gp: Path, i: Data, mask: Data) returns (err: Option<PyError>)
    modifies f
    ensures Ran(Exec(old(f.tree), IntensityOps(gp, i, mask)), f.tree, err)
  {
    ghost var todo := IntensityOps(gp, i, mask);
    Step(f.tree, todo);
    err := ReplaceDataset(f, gp + ["I"], i, None, UnitsDefault);
    if err.Some? { return; }
    todo := todo.rest;
    Step(f.tree, todo);
    err := ReplaceDataset(f, gp + ["Idev"], Zeros(i.shape), None, UnitsDefault);
    if err.Some? { return; }
    todo := todo.rest;
    Step(f.tree, todo);
    err := ReplaceDataset(f, gp + ["mask"], mask, None, UnitsDefault);
  }

  method WriteSchema(f: File, gp: Path, dim: nat) returns (err: Option<PyError>)
    modifies f
    ensures Ran(Exec(old(f.tree), SchemaOps(gp, dim)), f.tree, err)
  {
    err := None;
    ghost var todo := SchemaOps(gp, dim);
    if dim == 1 {
      Step(f.tree, todo);
      err := f.Delete(gp + ["mask"]);
      if err.Some? { return; }
      todo := todo.rest;
      Step(f.tree, todo);
      err := f.DelAttr(gp, "I_axes");
      if err.Some? { return; }
      todo := todo.rest;
      Step(f.tree, todo);
      err := f.SetAttr(gp, "I_axes", PStr("Q"));
      if err.Some? { return; }
      todo := todo.rest;
      Step(f.tree, todo);
      err := f.DelAttr(gp, "Q_indices");
      if err.Some? { return; }
      todo := todo.rest;
      Step(f.tree, todo);
      err := f.SetAttr(gp, "Q_indices", ZeroIndex);
      if err.Some? { return; }
      todo := todo.rest;
      Step(f.tree, todo);
      err := f.DelAttr(gp, "mask_indices");
      if err.Some? { return; }
      todo := todo.rest;
      Step(f.tree, todo);
      err := f.SetAttr(gp, "mask_indices", ZeroIndex);
    } else if dim == 2 {
      Step(f.tree, todo);
      err := f.Delete(gp + ["Qdev"]);
      if err.Some? { return; }
      todo := todo.rest;
      Step(f.tree, todo);
      err := f.Delete(gp + ["dQl"]);
      if err.Some? { return; }
      todo := todo.rest;
      Step(f.tree, todo);
      err := f.Delete(gp + ["dQw"]);
    }
  }

  method ClassSaveData(f: File, symbol: string, param: Data, group: string, i: Data)
    returns (err: Option<PyError>)
    modifies f
    ensures Ran(Exec(old(f.tree), ClassSaveOps(symbol, param, group, i)), f.tree, err)
  {
    var gp := GroupPath(Upper(group));
    ghost var todo := ClassSaveOps(symbol, param, group, i);
    Step(f.tree, todo);
    if Exists(f.tree, gp) {
      err := f.Delete(gp);
      if err.Some? { return; }
    }
    todo := todo.rest;
    Step(f.tree, todo);
    if !Exists(f.tree, ["ENTRY"]) {
      return Some(KeyError(PathText(["ENTRY"])));
    }
    todo := todo.rest;
    Step(f.tree, todo);
    err := f.Copy(DataPath, gp);
    if err.Some? { return; }
    todo := todo.rest;
    Step(f.tree, todo);
    err := ReplaceDataset(f, gp + ["R"], param, Some(gp + [symbol]), Raise);
    if err.Some? { return; }
    todo := todo.rest;
    Step(f.tree, todo);
    err := ReplaceDataset(f, gp + ["I"], i, None, Raise);
  }

  method DeleteData(f: File, group: string) returns (err: Option<PyError>)
    modifies f
    ensures Ran(Exec(old(f.tree), DeleteOps(group)), f.tree, err)
  {
    var gp := GroupPath(Upper(group));
    ghost var todo := DeleteOps(group);
    Step(f.tree, todo);
    if !Exists(f.tree, ["ENTRY"]) {
      return Some(KeyError(PathText(["ENTRY"])));
    }
    todo := todo.rest;
    Step(f.tree, todo);
    err := None;
    if Exists(f.tree, gp) {
      err := f.Delete(gp);
    }
  }

  method RootCheckedDeleteData(f: File, group: string) returns (err: Option<PyError>)
    modifies f
    ensures Ran(Exec(old(f.tree), RootCheckedDeleteOps(group)), f.tree, err)
  {
    var name := Upper(group);
    Step(f.tree, RootCheckedDeleteOps(group));
    err := None;
    if Exists(f.tree, [name]) {
      err := f.Delete(GroupPath(name));
    }
  }

  method CreateProcess(f: File, p: Path, name: string, desc: string) returns (err: Option<PyError>)
    modifies f
    ensures Ran(Exec(old(f.tree), ProcessOps(p, name, desc)), f.tree, err)
  {
    ghost var r4 := Then(Make(p + ["description"], Dataset(map[], ScalarString(desc))), Done);
    ghost var r3 := Then(Make(p + ["name"], Dataset(map[], ScalarString(name))), r4);
    ghost var r2 := Then(Put(p, "canSAS_class", PStr("SASprocess")), r3);
    ghost var r1 := Then(Make(p, Group(map[])), r2);
    assert ProcessOps(p, name, desc) == Then(DelIf(p, p), r1);
    ghost var t0 := f.tree;
    err := None;
    if Exists(f.tree, p) {
      err := f.Delete(p);
      LiftRan(DeleteLink(t0, p), t0, f.tree, err);
    }
    Advance(t0, DelIf(p, p), r1, f.tree, err);
    if err.Some? { return; }
    t0 := f.tree;
    err := f.CreateGroup(p);
    LiftRan(CreateNode(t0, p, Group(map[])), t0, f.tree, err);
    Advance(t0, Make(p, Group(map[])), r2, f.tree, err);
    if err.Some? { return; }
    t0 := f.tree;
    err := f.SetAttr(p, "canSAS_class", PStr("SASprocess"));
    LiftRan(PutAttr(t0, p, "canSAS_class", PStr("SASprocess")), t0, f.tree, err);
    Advance(t0, Put(p, "canSAS_class", PStr("SASprocess")), r3, f.tree, err);
    if err.Some? { return; }
    t0 := f.tree;
    err := f.CreateDataset(p + ["name"], ScalarString(name));
    LiftRan(CreateNode(t0, p + ["name"], Dataset(map[], ScalarString(name))), t0, f.tree, err);
    Advance(t0, Make(p + ["name"], Dataset(map[], ScalarString(name))), r4, f.tree, err);
    if err.Some? { return; }
    t0 := f.tree;
    err := f.CreateDataset(p + ["description"], ScalarString(desc));
    LiftRan(CreateNode(t0, p + ["description"], Dataset(map[], ScalarString(desc))), t0, f.tree, err);
    Advance(t0, Make(p + ["description"], Dataset(map[], ScalarString(desc))), Done, f.tree, err);
  }

  // ------------------------------------------------------------ lemmas: step lists

  lemma Step(t: Tree, ops: Ops)
    requires ops.Then?
    ensures Exec(t, ops)
         == (var r := Apply(t, ops.op); if r.err.Some? then r else Exec(r.tree, ops.rest))
  {
  }

  /** A `File` method that did what `r` says is a run of the matching step. */
  lemma LiftRan(r: Result<Tree, PyError>, before: Tree, after: Tree, err: Option<PyError>)
    requires Stepped(r, before, after, err)
    ensures Ran(Lift(before, r), after, err)
  {
  }

  /** Having run the first step of a list, what is left is the rest of the list. */
  lemma Advance(t: Tree, op: Op, rest: Ops, after: Tree, err: Option<PyError>)
    requires Ran(Apply(t, op), after, err)
    ensures err.Some? ==> Ran(Exec(t, Then(op, rest)), after, err)
    ensures err.None? ==> Exec(t, Then(op, rest)) == Exec(after, rest)
  {
  }

  /** Running two step lists one after the other is running their concatenation. */
  lemma {:induction false} ExecChain(t: Tree, a: Ops, b: Ops)
    ensures Exec(t, Chain(a, b))
         == (var r := Exec(t, a); if r.err.Some? then r else Exec(r.tree, b))
    decreases a
  {
    match a
    case Done =>
    case Then(op, rest) =>
      var r := Apply(t, op);
      if r.err.None? {
        ExecChain(r.tree, rest, b);
      }
  }

  // ------------------------------------------------------------ lemmas: replace_h5_dataset

  /** In a well-formed file every proper prefix of a node's path is a group. */
  lemma {:induction false} AncestorsPresent(t: Tree, p: Path)
    requires Valid(t) && p in t
    ensures forall i | 0 <= i < |p| :: p[..i] in t && t[p[..i]].Group?
    decreases |p|
  {
    if p != [] {
      AncestorsPresent(t, Parent(p));
      forall i | 0 <= i < |p|
        ensures p[..i] in t && t[p[..i]].Group?
      {
        if i < |p| - 1 {
          assert p[..i] == Parent(p)[..i];
        }
      }
    }
  }

  /** Replacing a dataset in place swaps its data, keeps its attributes and changes
      nothing else in the file. */
  lemma ReplaceInPlace(t: Tree, p: Path, d: Data, m: Missing)
    requires Valid(t) && p != [] && p in t && t[p].Dataset?
    ensures ReplaceRun(t, p, d, None, m) == Run(t[p := Dataset(t[p].attrs, d)], None)
  {
    var u := Prune(t, p);
    forall r | r in t && r != p
      ensures r in u
    {
      if IsPrefix(p, r) {
        AncestorsPresent(t, r);
        assert false;
      }
    }
    assert u == t - {p};
    AncestorsPresent(t, p);
    assert AncestorsAreGroups(u, p);
    var n := Dataset(map[], d);
    assert Graft(u, p, n) == u[p := n];
    assert u[p := n][p := Dataset(t[p].attrs, d)] == t[p := Dataset(t[p].attrs, d)];
  }

  /** A successful replacement stores the new data at its target, with the attributes
      of the dataset it replaces. */
  lemma ReplaceKeepsAttributes(t: Tree, p: Path, d: Data, newPath: Option<Path>, m: Missing)
    requires Exists(t, p) && ReplaceRun(t, p, d, newPath, m).err == None
    ensures Target(p, newPath) in ReplaceRun(t, p, d, newPath, m).tree
    ensures ReplaceRun(t, p, d, newPath, m).tree[Target(p, newPath)]
         == Dataset(AttrsOf(H5.Get(t, p).value), d)
  {
  }

  /** Without an old dataset the function of saxs_nxformat/utils.py gives the new one the
      units `1/nm`, and the class modules' copies raise `KeyError` before touching the file. */
  lemma ReplaceAbsent(t: Tree, p: Path, d: Data, newPath: Option<Path>, m: Missing)
    requires !Exists(t, p)
    ensures m == Raise ==> ReplaceRun(t, p, d, newPath, m) == Run(t, Some(KeyError(PathText(p))))
    ensures m == UnitsDefault && ReplaceRun(t, p, d, newPath, m).err == None ==>
      ReplaceRun(t, p, d, newPath, m).tree[Target(p, newPath)]
        == Dataset(map["units" := PStr("1/nm")], d)
  {
  }

  /** A successful replacement stores the new data at its target. */
  lemma ReplaceStores(t: Tree, p: Path, d: Data, newPath: Option<Path>, m: Missing)
    requires ReplaceRun(t, p, d, newPath, m).err == None
    ensures Target(p, newPath) in ReplaceRun(t, p, d, newPath, m).tree
    ensures ReplaceRun(t, p, d, newPath, m).tree[Target(p, newPath)].Dataset?
    ensures ReplaceRun(t, p, d, newPath, m).tree[Target(p, newPath)].data == d
  {
  }

  /** With a new path, the old path survives exactly when the new dataset lies below it
      (h5py then recreates it as a group). */
  lemma ReplaceRemovesOld(t: Tree, p: Path, d: Data, q: Path, m: Missing)
    requires Exists(t, p) && ReplaceRun(t, p, d, Some(q), m).err == None
    ensures p in ReplaceRun(t, p, d, Some(q), m).tree <==> IsPrefix(p, q)
  {
    var t1 := Prune(t, p);
    var t2 := Graft(t1, q, Dataset(map[], d));
    assert p !in t1;
    if IsPrefix(p, q) && p != q {
      assert p == q[..|p|];
      assert p in Ancestors(q);
    }
    if p in t2 && p != q {
      var i :| 0 <= i < |q| && p == q[..i];
    }
  }

  /** A replacement touches only the old subtree, the target and the groups created above
      the target. */
  lemma ReplaceFrame(t: Tree, p: Path, d: Data, newPath: Option<Path>, m: Missing)
    requires ReplaceRun(t, p, d, newPath, m).err == None
    ensures forall r | r in t && !IsPrefix(p, r) && r != Target(p, newPath) ::
      r in ReplaceRun(t, p, d, newPath, m).tree && ReplaceRun(t, p, d, newPath, m).tree[r] == t[r]
    ensures forall r | r in ReplaceRun(t, p, d, newPath, m).tree ::
      r in t || r == Target(p, newPath) || r in Ancestors(Target(p, newPath))
  {
  }

  /** Replacing keeps the file well-formed, whether or not it raises. */
  lemma ReplaceKeepsValid(t: Tree, p: Path, d: Data, newPath: Option<Path>, m: Missing)
    requires Valid(t)
    ensures Valid(ReplaceRun(t, p, d, newPath, m).tree)
  {
    if OldAttrs(t, p, m).Ok? {
      var t1 := t;
      if Exists(t, p) && DeleteLink(t, p).Ok? {
        DeleteKeepsValid(t, p);
        t1 := DeleteLink(t, p).value;
      }
      var q := Target(p, newPath);
      var n := Dataset(map[], d);
      if (Exists(t, p) ==> DeleteLink(t, p).Ok?) && CreateNode(t1, q, n).Ok? {
        CreateKeepsValid(t1, q, n);
        var t2 := CreateNode(t1, q, n).value;
        var u := t2[q := Dataset(OldAttrs(t, p, m).value, d)];
        assert forall r | r in u :: u[r].Group? <==> t2[r].Group?;
      }
    }
  }


  // ------------------------------------------------------------ lemmas: footprints

  /** `op` leaves the node at `r` alone. */
  predicate Avoids(op: Op, r: Path) {
    match op
    case Replace(p, _, np, _) => !IsPrefix(p, r) && r != Target(p, np)
    case DelIf(_, p) => !IsPrefix(p, r)
    case Del(p) => !IsPrefix(p, r)
    case Need(_) => true
    case CopyTo(_, dst) => !IsPrefix(dst, r)
    case Make(p, _) => r != p
    case Put(p, _, _) => r != p
    case Drop(p, _) => r != p
  }

  predicate AllAvoid(ops: Ops, r: Path)
    decreases ops
  {
    match ops
    case Done => true
    case Then(op, rest) => Avoids(op, r) && AllAvoid(rest, r)
  }

  /** Everything `op` may change lies in the subtree at `gp`. */
  predicate Within(op: Op, gp: Path) {
    match op
    case Replace(p, _, np, _) => IsPrefix(gp, p) && IsPrefix(gp, Target(p, np))
    case DelIf(_, p) => IsPrefix(gp, p)
    case Del(p) => IsPrefix(gp, p)
    case Need(_) => true
    case CopyTo(_, dst) => IsPrefix(gp, dst)
    case Make(p, _) => IsPrefix(gp, p)
    case Put(p, _, _) => IsPrefix(gp, p)
    case Drop(p, _) => IsPrefix(gp, p)
  }

  predicate AllWithin(ops: Ops, gp: Path)
    decreases ops
  {
    match ops
    case Done => true
    case Then(op, rest) => Within(op, gp) && AllWithin(rest, gp)
  }

  /** Every node of `t` outside the subtree at `gp` is still in `u`, unchanged. */
  predicate Outside(t: Tree, u: Tree, gp: Path) {
    forall r | r in t && !IsPrefix(gp, r) :: r in u && u[r] == t[r]
  }

  lemma ApplyAvoids(t: Tree, op: Op, r: Path)
    requires r in t && Avoids(op, r)
    ensures r in Apply(t, op).tree && Apply(t, op).tree[r] == t[r]
  {
    match op
    case Replace(p, d, np, m) =>
      if ReplaceRun(t, p, d, np, m).err == None {
        ReplaceFrame(t, p, d, np, m);
      }
    case CopyTo(src, dst) =>
      if CopyNode(t, src, dst).Ok? && r in CopyOf(t, src, dst) {
        CopiedFrom(t, src, dst, r);
      }
    case _ =>
  }

  /** A node every step avoids survives the procedure unchanged, whether or not it raises. */
  lemma {:induction false} ExecAvoids(t: Tree, ops: Ops, r: Path)
    requires r in t && AllAvoid(ops, r)
    ensures r in Exec(t, ops).tree && Exec(t, ops).tree[r] == t[r]
    decreases ops
  {
    match ops
    case Done =>
    case Then(op, rest) =>
      ApplyAvoids(t, op, r);
      if Apply(t, op).err.None? {
        ExecAvoids(Apply(t, op).tree, rest, r);
      }
  }

  lemma PrefixExtends(gp: Path, p: Path, r: Path)
    requires IsPrefix(gp, p) && !IsPrefix(gp, r)
    ensures !IsPrefix(p, r) && r != p
  {
  }

  lemma {:induction false} AllWithinAvoids(ops: Ops, gp: Path, r: Path)
    requires AllWithin(ops, gp) && !IsPrefix(gp, r)
    ensures AllAvoid(ops, r)
    decreases ops
  {
    match ops
    case Done =>
    case Then(op, rest) =>
      match op {
        case Replace(p, _, np, _) =>
          PrefixExtends(gp, p, r);
          PrefixExtends(gp, Target(p, np), r);
        case DelIf(_, p) => PrefixExtends(gp, p, r);
        case Del(p) => PrefixExtends(gp, p, r);
        case Need(_) =>
        case CopyTo(_, dst) => PrefixExtends(gp, dst, r);
        case Make(p, _) => PrefixExtends(gp, p, r);
        case Put(p, _, _) => PrefixExtends(gp, p, r);
        case Drop(p, _) => PrefixExtends(gp, p, r);
      }
      AllWithinAvoids(rest, gp, r);
  }

  /** A procedure whose steps all lie in the subtree at `gp` changes nothing outside it,
      whether or not it raises. */
  lemma ExecOutside(t: Tree, ops: Ops, gp: Path)
    requires AllWithin(ops, gp)
    ensures Outside(t, Exec(t, ops).tree, gp)
  {
    forall r | r in t && !IsPrefix(gp, r)
      ensures r in Exec(t, ops).tree && Exec(t, ops).tree[r] == t[r]
    {
      AllWithinAvoids(ops, gp, r);
      ExecAvoids(t, ops, r);
    }
  }

  lemma {:induction false} ChainWithin(a: Ops, b: Ops, gp: Path)
    requires AllWithin(a, gp) && AllWithin(b, gp)
    ensures AllWithin(Chain(a, b), gp)
    decreases a
  {
    match a
    case Done =>
    case Then(_, rest) => ChainWithin(rest, b, gp);
  }

  lemma ApplyKeepsValid(t: Tree, op: Op)
    requires Valid(t)
    ensures Valid(Apply(t, op).tree)
  {
    match op
    case Replace(p, d, np, m) => ReplaceKeepsValid(t, p, d, np, m);
    case DelIf(c, p) =>
      if Exists(t, c) && DeleteLink(t, p).Ok? {
        DeleteKeepsValid(t, p);
      }
    case Del(p) =>
      if DeleteLink(t, p).Ok? {
        DeleteKeepsValid(t, p);
      }
    case Need(_) =>
    case CopyTo(src, dst) =>
      if CopyNode(t, src, dst).Ok? {
        CopyKeepsValid(t, src, dst);
      }
    case Make(p, n) =>
      if CreateNode(t, p, n).Ok? {
        CreateKeepsValid(t, p, n);
      }
    case Put(p, k, v) =>
      if PutAttr(t, p, k, v).Ok? {
        PutAttrKeepsValid(t, p, k, v);
      }
    case Drop(p, k) =>
      if DropAttr(t, p, k).Ok? {
        DropAttrKeepsValid(t, p, k);
      }
  }

  /** Every procedure keeps the file well-formed, also when it stops on an exception. */
  lemma {:induction false} ExecKeepsValid(t: Tree, ops: Ops)
    requires Valid(t)
    ensures Valid(Exec(t, ops).tree)
    decreases ops
  {
    match ops
    case Done =>
    case Then(op, rest) =>
      ApplyKeepsValid(t, op);
      if Apply(t, op).err.None? {
        ExecKeepsValid(Apply(t, op).tree, rest);
      }
  }

  // ------------------------------------------------------------ lemmas: save_data

  lemma ChildWithin(gp: Path, x: string)
    ensures IsPrefix(gp, gp + [x])
  {
    assert (gp + [x])[..|gp|] == gp;
  }

  lemma SiblingsApart(gp: Path, x: string, y: string)
    requires x != y
    ensures !IsPrefix(gp + [x], gp + [y]) && gp + [x] != gp + [y]
  {
    assert (gp + [y])[|gp|] == y;
  }

  /** `utils.save_data` changes nothing outside `/ENTRY/<GROUP>`, whether or not it raises. */
  lemma SaveTouchesOnlyItsGroup(t: Tree, symbol: string, q: Data, group: string, i: Data, mask: Data)
    ensures Outside(t, Exec(t, SaveOps(symbol, q, group, i, mask)).tree, GroupPath(Upper(group)))
  {
    var name := Upper(group);
    var gp := GroupPath(name);
    assert gp[..|gp|] == gp;
    ChildWithin(gp, "Q");
    ChildWithin(gp, symbol);
    ChildWithin(gp, "Qdev");
    ChildWithin(gp, "dQl");
    ChildWithin(gp, "dQw");
    ChildWithin(gp, "Qmean");
    ChildWithin(gp, "I");
    ChildWithin(gp, "Idev");
    ChildWithin(gp, "mask");
    var clear := ClearOps(name);
    var axis := AxisOps(gp, symbol, q);
    var intensity := IntensityOps(gp, i, mask);
    var schema := SchemaOps(gp, |i.shape|);
    if name != "DATA" {
      assert AllWithin(clear.rest.rest, gp);
    }
    assert AllWithin(axis.rest.rest.rest, gp);
    assert AllWithin(axis.rest, gp);
    assert AllWithin(intensity.rest, gp);
    if |i.shape| == 1 {
      var attrs := AxesAttrOps(gp);
      assert AllWithin(attrs.rest.rest.rest, gp);
      assert AllWithin(attrs.rest, gp);
    } else if |i.shape| == 2 {
      assert AllWithin(schema.rest, gp);
    }
    ChainWithin(intensity, schema, gp);
    ChainWithin(axis, Chain(intensity, schema), gp);
    ChainWithin(clear, Chain(axis, Chain(intensity, schema)), gp);
    ExecOutside(t, SaveOps(symbol, q, group, i, mask), gp);
  }

  /** `utils.save_data` never deletes or copies the group `DATA`: it only rewrites
      datasets inside it. */
  lemma DataGroupIsNeverCleared()
    ensures ClearOps("DATA") == Done
  {
  }

  /** Any other group is recreated as a copy of `/ENTRY/DATA`: every node of `DATA` is
      copied under it, attributes included, and every node under it is such a copy. */
  lemma ClearAndCopyCopiesData(t: Tree, name: string)
    requires Valid(t) && name != "DATA" && Exec(t, ClearOps(name)).err == None
    ensures forall r | r in t && IsPrefix(DataPath, r) ::
      GroupPath(name) + r[2..] in Exec(t, ClearOps(name)).tree
      && Exec(t, ClearOps(name)).tree[GroupPath(name) + r[2..]] == t[r]
    ensures forall r | r in Exec(t, ClearOps(name)).tree && IsPrefix(GroupPath(name), r) ::
      DataPath + r[2..] in t && Exec(t, ClearOps(name)).tree[r] == t[DataPath + r[2..]]
  {
    var gp := GroupPath(name);
    var t1 := if Exists(t, gp) then Prune(t, gp) else t;
    ClearSteps(t, name);
    if Exists(t, gp) {
      DeleteKeepsValid(t, gp);
    }
    CopyReplicates(t1, DataPath, gp);
    var u := Exec(t, ClearOps(name)).tree;
    assert |DataPath| == 2 && |gp| == 2;
    forall r | r in t && IsPrefix(DataPath, r)
      ensures gp + r[2..] in u && u[gp + r[2..]] == t[r]
    {
      DataSurvivesClear(t, name, r);
    }
    forall r | r in u && IsPrefix(gp, r)
      ensures DataPath + r[2..] in t && u[r] == t[DataPath + r[2..]]
    {
      DataSurvivesClear(t, name, DataPath + r[2..]);
    }
  }

  lemma DataSurvivesClear(t: Tree, name: string, r: Path)
    requires name != "DATA" && IsPrefix(DataPath, r)
    ensures var gp := GroupPath(name); var t1 := if Exists(t, gp) then Prune(t, gp) else t;
      (r in t1 <==> r in t) && (r in t ==> t1[r] == t[r])
  {
    assert r[1] == "DATA";
    assert !IsPrefix(GroupPath(name), r);
  }

  lemma ClearSteps(t: Tree, name: string)
    requires name != "DATA" && Exec(t, ClearOps(name)).err == None
    ensures
      var gp := GroupPath(name);
      var t1 := if Exists(t, gp) then Prune(t, gp) else t;
      CopyNode(t1, DataPath, gp).Ok? && Exec(t, ClearOps(name)).tree == CopyNode(t1, DataPath, gp).value
  {
    var ops := ClearOps(name);
    Step(t, ops);
    var t1 := Apply(t, ops.op).tree;
    Step(t1, ops.rest);
    Step(t1, ops.rest.rest);
  }

  /** The steps of `utils.save_data` in their three phases. */
  lemma SavePhases(t: Tree, symbol: string, q: Data, group: string, i: Data, mask: Data)
    requires Exec(t, SaveOps(symbol, q, group, i, mask)).err == None
    ensures
      var gp := GroupPath(Upper(group));
      var r1 := Exec(t, ClearOps(Upper(group)));
      var r2 := Exec(r1.tree, AxisOps(gp, symbol, q));
      var r3 := Exec(r2.tree, IntensityOps(gp, i, mask));
      && r1.err == None && r2.err == None && r3.err == None
      && Exec(t, SaveOps(symbol, q, group, i, mask)) == Exec(r3.tree, SchemaOps(gp, |i.shape|))
  {
    var gp := GroupPath(Upper(group));
    var axis := AxisOps(gp, symbol, q);
    var intensity := IntensityOps(gp, i, mask);
    var schema := SchemaOps(gp, |i.shape|);
    ExecChain(t, ClearOps(Upper(group)), Chain(axis, Chain(intensity, schema)));
    var r1 := Exec(t, ClearOps(Upper(group)));
    ExecChain(r1.tree, axis, Chain(intensity, schema));
    var r2 := Exec(r1.tree, axis);
    ExecChain(r2.tree, intensity, schema);
  }

  /** After the intensity steps the group holds the intensity at `I` and the mask at `mask`. */
  lemma IntensityStored(t: Tree, gp: Path, i: Data, mask: Data)
    requires Exec(t, IntensityOps(gp, i, mask)).err == None
    ensures gp + ["I"] in Exec(t, IntensityOps(gp, i, mask)).tree
    ensures Exec(t, IntensityOps(gp, i, mask)).tree[gp + ["I"]].Dataset?
    ensures Exec(t, IntensityOps(gp, i, mask)).tree[gp + ["I"]].data == i
    ensures gp + ["mask"] in Exec(t, IntensityOps(gp, i, mask)).tree
    ensures Exec(t, IntensityOps(gp, i, mask)).tree[gp + ["mask"]].Dataset?
    ensures Exec(t, IntensityOps(gp, i, mask)).tree[gp + ["mask"]].data == mask
  {
    var ops := IntensityOps(gp, i, mask);
    Step(t, ops);
    ReplaceStores(t, gp + ["I"], i, None, UnitsDefault);
    var t1 := Apply(t, ops.op).tree;
    SiblingsApart(gp, "Idev", "I");
    SiblingsApart(gp, "mask", "I");
    assert AllAvoid(ops.rest, gp + ["I"]);
    ExecAvoids(t1, ops.rest, gp + ["I"]);
    Step(t1, ops.rest);
    var t2 := Apply(t1, ops.rest.op).tree;
    Step(t2, ops.rest.rest);
    ReplaceStores(t2, gp + ["mask"], mask, None, UnitsDefault);
  }

  lemma AxesAttrsAvoid(gp: Path, r: Path)
    requires r != gp
    ensures AllAvoid(AxesAttrOps(gp), r)
  {
    var ops := AxesAttrOps(gp);
    assert AllAvoid(ops.rest.rest.rest.rest.rest, r);
    assert AllAvoid(ops.rest.rest.rest, r);
    assert AllAvoid(ops.rest, r);
  }

  /** The axis attributes end up on the group, whatever it held before. */
  lemma AxesAttrsSet(t: Tree, gp: Path)
    requires Exec(t, AxesAttrOps(gp)).err == None
    ensures gp in Exec(t, AxesAttrOps(gp)).tree
    ensures Exec(t, AxesAttrOps(gp)).tree.Keys == t.Keys
    ensures
      var a := AttrsOf(Exec(t, AxesAttrOps(gp)).tree[gp]);
      && "I_axes" in a && a["I_axes"] == PStr("Q")
      && "Q_indices" in a && a["Q_indices"] == ZeroIndex
      && "mask_indices" in a && a["mask_indices"] == ZeroIndex
  {
    var ops := AxesAttrOps(gp);
    ReplaceAttr(t, gp, "I_axes", PStr("Q"), ops.rest.rest);
    var t1 := t[gp := WithAttrs(t[gp], AttrsOf(t[gp])["I_axes" := PStr("Q")])];
    ReplaceAttr(t1, gp, "Q_indices", ZeroIndex, ops.rest.rest.rest.rest);
    var t2 := t1[gp := WithAttrs(t1[gp], AttrsOf(t1[gp])["Q_indices" := ZeroIndex])];
    ReplaceAttr(t2, gp, "mask_indices", ZeroIndex, Done);
  }

  /** `del attrs[k]` followed by `attrs[k] = v` overwrites an existing attribute. */
  lemma ReplaceAttr(t: Tree, p: Path, k: string, v: PyValue, rest: Ops)
    requires Exec(t, Then(Drop(p, k), Then(Put(p, k, v), rest))).err == None
    ensures p in t && !t[p].SoftLink? && k in AttrsOf(t[p])
    ensures Exec(t, Then(Drop(p, k), Then(Put(p, k, v), rest)))
         == Exec(t[p := WithAttrs(t[p], AttrsOf(t[p])[k := v])], rest)
  {
    var d := Apply(t, Drop(p, k));
    Advance(t, Drop(p, k), Then(Put(p, k, v), rest), d.tree, d.err);
    assert d == Lift(t, DropAttr(t, p, k)) && d.err == None;
    assert DropAttr(t, p, k).Ok?;
    var t1 := DropAttr(t, p, k).value;
    var u := Apply(t1, Put(p, k, v));
    Advance(t1, Put(p, k, v), rest, u.tree, u.err);
    assert AttrsOf(t1[p]) == AttrsOf(t[p]) - {k};
    assert (AttrsOf(t[p]) - {k})[k := v] == AttrsOf(t[p])[k := v];
    assert t1[p := WithAttrs(t1[p], AttrsOf(t1[p])[k := v])] == t[p := WithAttrs(t[p], AttrsOf(t[p])[k := v])];
  }

  /** The rank-1 schema: no `mask`, and the axis attributes point at `Q`; nothing else
      but the group's attributes changes. */
  lemma OneDimensionalSchema(t: Tree, gp: Path)
    requires Exec(t, SchemaOps(gp, 1)).err == None
    ensures gp + ["mask"] !in Exec(t, SchemaOps(gp, 1)).tree
    ensures gp in Exec(t, SchemaOps(gp, 1)).tree
    ensures
      var a := AttrsOf(Exec(t, SchemaOps(gp, 1)).tree[gp]);
      && "I_axes" in a && a["I_axes"] == PStr("Q")
      && "Q_indices" in a && a["Q_indices"] == ZeroIndex
      && "mask_indices" in a && a["mask_indices"] == ZeroIndex
    ensures forall r | r in t && !IsPrefix(gp + ["mask"], r) && r != gp ::
      r in Exec(t, SchemaOps(gp, 1)).tree && Exec(t, SchemaOps(gp, 1)).tree[r] == t[r]
  {
    var ops := SchemaOps(gp, 1);
    Step(t, ops);
    var t1 := Apply(t, ops.op).tree;
    AxesAttrsSet(t1, gp);
    assert gp + ["mask"] !in t1;
    forall r | r in t && !IsPrefix(gp + ["mask"], r) && r != gp
      ensures r in Exec(t, ops).tree && Exec(t, ops).tree[r] == t[r]
    {
      AxesAttrsAvoid(gp, r);
      ExecAvoids(t1, ops.rest, r);
    }
  }

  /** The rank-2 schema: no `Qdev`, `dQl` or `dQw`; nothing else changes. */
  lemma TwoDimensionalSchema(t: Tree, gp: Path)
    requires Exec(t, SchemaOps(gp, 2)).err == None
    ensures forall x | x in {"Qdev", "dQl", "dQw"} :: gp + [x] !in Exec(t, SchemaOps(gp, 2)).tree
    ensures forall r | r in t && !IsPrefix(gp + ["Qdev"], r) && !IsPrefix(gp + ["dQl"], r)
                         && !IsPrefix(gp + ["dQw"], r) ::
      r in Exec(t, SchemaOps(gp, 2)).tree && Exec(t, SchemaOps(gp, 2)).tree[r] == t[r]
  {
    var ops := SchemaOps(gp, 2);
    Step(t, ops);
    var t1 := Apply(t, ops.op).tree;
    Step(t1, ops.rest);
    var t2 := Apply(t1, ops.rest.op).tree;
    Step(t2, ops.rest.rest);
  }

  /** saxs_nxformat/utils.py:307-318: a successful save of a rank-1 intensity leaves a group
      without `mask`, holding the intensity, whose axis attributes point at `Q`. */
  lemma SaveOneDimensional(t: Tree, symbol: string, q: Data, group: string, i: Data, mask: Data)
    requires |i.shape| == 1 && Exec(t, SaveOps(symbol, q, group, i, mask)).err == None
    ensures
      var u := Exec(t, SaveOps(symbol, q, group, i, mask)).tree;
      var gp := GroupPath(Upper(group));
      && gp + ["mask"] !in u
      && gp + ["I"] in u && u[gp + ["I"]].Dataset? && u[gp + ["I"]].data == i
      && gp in u
      && "I_axes" in AttrsOf(u[gp]) && AttrsOf(u[gp])["I_axes"] == PStr("Q")
      && "Q_indices" in AttrsOf(u[gp]) && AttrsOf(u[gp])["Q_indices"] == ZeroIndex
      && "mask_indices" in AttrsOf(u[gp]) && AttrsOf(u[gp])["mask_indices"] == ZeroIndex
  {
    var gp := GroupPath(Upper(group));
    SavePhases(t, symbol, q, group, i, mask);
    var r1 := Exec(t, ClearOps(Upper(group)));
    var r2 := Exec(r1.tree, AxisOps(gp, symbol, q));
    var r3 := Exec(r2.tree, IntensityOps(gp, i, mask));
    IntensityStored(r2.tree, gp, i, mask);
    OneDimensionalSchema(r3.tree, gp);
    SiblingsApart(gp, "mask", "I");
    assert gp + ["I"] != gp;
  }

  /** saxs_nxformat/utils.py:319-322: a successful save of a rank-2 intensity leaves a group
      without `Qdev`, `dQl`, `dQw`, holding the intensity and the mask. */
  lemma SaveTwoDimensional(t: Tree, symbol: string, q: Data, group: string, i: Data, mask: Data)
    requires |i.shape| == 2 && Exec(t, SaveOps(symbol, q, group, i, mask)).err == None
    ensures
      var u := Exec(t, SaveOps(symbol, q, group, i, mask)).tree;
      var gp := GroupPath(Upper(group));
      && (forall x | x in {"Qdev", "dQl", "dQw"} :: gp + [x] !in u)
      && gp + ["I"] in u && u[gp + ["I"]].Dataset? && u[gp + ["I"]].data == i
      && gp + ["mask"] in u && u[gp + ["mask"]].Dataset? && u[gp + ["mask"]].data == mask
  {
    var gp := GroupPath(Upper(group));
    SavePhases(t, symbol, q, group, i, mask);
    var r1 := Exec(t, ClearOps(Upper(group)));
    var r2 := Exec(r1.tree, AxisOps(gp, symbol, q));
    var r3 := Exec(r2.tree, IntensityOps(gp, i, mask));
    IntensityStored(r2.tree, gp, i, mask);
    TwoDimensionalSchema(r3.tree, gp);
    SiblingsApart(gp, "Qdev", "mask");
    SiblingsApart(gp, "dQl", "mask");
    SiblingsApart(gp, "dQw", "mask");
    SiblingsApart(gp, "Qdev", "I");
    SiblingsApart(gp, "dQl", "I");
    SiblingsApart(gp, "dQw", "I");
  }

  // ------------------------------------------------------------ lemmas: NexusFile.save_data

  /** Saving into the group `DATA` with the class method deletes `/ENTRY/DATA` before
      copying it, so the copy raises and the file is left without `DATA`. */
  lemma ClassSaveOfDataLosesIt(t: Tree, symbol: string, param: Data, group: string, i: Data)
    requires Valid(t) && Upper(group) == "DATA" && DataPath in t && !t[DataPath].SoftLink?
    ensures Exec(t, ClassSaveOps(symbol, param, group, i)).err == Some(KeyError(PathText(DataPath)))
    ensures DataPath !in Exec(t, ClassSaveOps(symbol, param, group, i)).tree
  {
    var ops := ClassSaveOps(symbol, param, group, i);
    assert Exists(t, DataPath);
    Step(t, ops);
    var t1 := Apply(t, ops.op).tree;
    assert t1 == Prune(t, DataPath);
    assert ["ENTRY"] == Parent(DataPath);
    assert ["ENTRY"] in t1 && t1[["ENTRY"]].Group?;
    Step(t1, ops.rest);
    Step(t1, ops.rest.rest);
  }

  /** After a successful class save the copied `R` is at the symbol with the attributes
      it had in `DATA`, `R` itself is gone, and `I` holds the intensity with its
      attributes from `DATA`. */
  lemma ClassSaveMovesR(t: Tree, symbol: string, param: Data, group: string, i: Data)
    requires Valid(t) && Exec(t, ClassSaveOps(symbol, param, group, i)).err == None
    requires symbol != "R" && symbol != "I"
    requires DataPath + ["R"] in t && t[DataPath + ["R"]].Dataset?
    requires DataPath + ["I"] in t && t[DataPath + ["I"]].Dataset?
    ensures
      var u := Exec(t, ClassSaveOps(symbol, param, group, i)).tree;
      var gp := GroupPath(Upper(group));
      && gp + [symbol] in u && u[gp + [symbol]] == Dataset(t[DataPath + ["R"]].attrs, param)
      && gp + ["R"] !in u
      && gp + ["I"] in u && u[gp + ["I"]] == Dataset(t[DataPath + ["I"]].attrs, i)
  {
    var gp := GroupPath(Upper(group));
    var t2 := ClassSaveCopies(t, symbol, param, group, i);
    ClassSaveReplaces(t2, gp, symbol, param, i);
  }

  /** The first three steps of the class save: `DATA` copied to the group. */
  lemma ClassSaveCopies(t: Tree, symbol: string, param: Data, group: string, i: Data) returns (t2: Tree)
    requires Valid(t) && Exec(t, ClassSaveOps(symbol, param, group, i)).err == None
    requires DataPath + ["R"] in t && t[DataPath + ["R"]].Dataset?
    requires DataPath + ["I"] in t && t[DataPath + ["I"]].Dataset?
    ensures
      var gp := GroupPath(Upper(group));
      && Exec(t, ClassSaveOps(symbol, param, group, i))
         == Exec(t2, Then(Replace(gp + ["R"], param, Some(gp + [symbol]), Raise),
                      Then(Replace(gp + ["I"], i, None, Raise), Done)))
      && gp + ["R"] in t2 && t2[gp + ["R"]] == t[DataPath + ["R"]]
      && gp + ["I"] in t2 && t2[gp + ["I"]] == t[DataPath + ["I"]]
  {
    var gp := GroupPath(Upper(group));
    var ops := ClassSaveOps(symbol, param, group, i);
    Step(t, ops);
    var t1 := Apply(t, ops.op).tree;
    Step(t1, ops.rest);
    Step(t1, ops.rest.rest);
    assert DataPath in t1;
    assert Upper(group) != "DATA";
    if Exists(t, gp) {
      DeleteKeepsValid(t, gp);
    }
    t2 := CopyNode(t1, DataPath, gp).value;
    CopyReplicates(t1, DataPath, gp);
    DataSurvivesClear(t, Upper(group), DataPath + ["R"]);
    DataSurvivesClear(t, Upper(group), DataPath + ["I"]);
    assert (DataPath + ["R"])[2..] == ["R"];
    assert (DataPath + ["I"])[2..] == ["I"];
  }

  /** The last two steps of the class save: `R` renamed to the symbol, `I` rewritten. */
  lemma ClassSaveReplaces(t2: Tree, gp: Path, symbol: string, param: Data, i: Data)
    requires symbol != "R" && symbol != "I"
    requires gp + ["R"] in t2 && t2[gp + ["R"]].Dataset?
    requires gp + ["I"] in t2 && t2[gp + ["I"]].Dataset?
    requires Exec(t2, Then(Replace(gp + ["R"], param, Some(gp + [symbol]), Raise),
                      Then(Replace(gp + ["I"], i, None, Raise), Done))).err == None
    ensures
      var u := Exec(t2, Then(Replace(gp + ["R"], param, Some(gp + [symbol]), Raise),
                        Then(Replace(gp + ["I"], i, None, Raise), Done))).tree;
      && gp + [symbol] in u && u[gp + [symbol]] == Dataset(t2[gp + ["R"]].attrs, param)
      && gp + ["R"] !in u
      && gp + ["I"] in u && u[gp + ["I"]] == Dataset(t2[gp + ["I"]].attrs, i)
  {
    var r3 := ReplaceRun(t2, gp + ["R"], param, Some(gp + [symbol]), Raise);
    Advance(t2, Replace(gp + ["R"], param, Some(gp + [symbol]), Raise),
            Then(Replace(gp + ["I"], i, None, Raise), Done), r3.tree, r3.err);
    var r4 := ReplaceRun(r3.tree, gp + ["I"], i, None, Raise);
    Advance(r3.tree, Replace(gp + ["I"], i, None, Raise), Done, r4.tree, r4.err);
    ReplaceKeepsAttributes(t2, gp + ["R"], param, Some(gp + [symbol]), Raise);
    ReplaceRemovesOld(t2, gp + ["R"], param, gp + [symbol], Raise);
    SiblingsApart(gp, "R", symbol);
    SiblingsApart(gp, "R", "I");
    SiblingsApart(gp, symbol, "I");
    SiblingsApart(gp, "I", symbol);
    ReplaceFrame(t2, gp + ["R"], param, Some(gp + [symbol]), Raise);
    ReplaceKeepsAttributes(r3.tree, gp + ["I"], i, None, Raise);
    ReplaceFrame(r3.tree, gp + ["I"], i, None, Raise);
    assert gp + ["R"] !in Ancestors(gp + ["I"]);
  }

  // ------------------------------------------------------------ lemmas: delete_data

  /** `utils.delete_data` removes the group and everything below it, and nothing else. */
  lemma DeleteDataRemovesGroup(t: Tree, group: string)
    requires Exists(t, ["ENTRY"]) && Exists(t, GroupPath(Upper(group)))
    ensures Exec(t, DeleteOps(group)).err == None
    ensures !Exists(Exec(t, DeleteOps(group)).tree, GroupPath(Upper(group)))
    ensures forall r | r in t :: r in Exec(t, DeleteOps(group)).tree <==> !IsPrefix(GroupPath(Upper(group)), r)
    ensures forall r | r in Exec(t, DeleteOps(group)).tree :: r in t && Exec(t, DeleteOps(group)).tree[r] == t[r]
  {
    var ops := DeleteOps(group);
    Step(t, ops);
    Step(t, ops.rest);
  }

  /** A group absent from `/ENTRY` is only reported: the file is unchanged, and the call
      raises exactly when `/ENTRY` itself is missing. */
  lemma DeleteDataOfAbsentGroup(t: Tree, group: string)
    requires !Exists(t, GroupPath(Upper(group)))
    ensures Exec(t, DeleteOps(group)).tree == t
    ensures Exec(t, DeleteOps(group)).err == None <==> Exists(t, ["ENTRY"])
  {
    var ops := DeleteOps(group);
    Step(t, ops);
    if Exists(t, ["ENTRY"]) {
      Step(t, ops.rest);
    }
  }

  /** The class method tests for the name at the root: a group that exists only under
      `/ENTRY` is never deleted. */
  lemma RootCheckMissesEntryGroups(t: Tree, group: string)
    requires !Exists(t, [Upper(group)])
    ensures Exec(t, RootCheckedDeleteOps(group)) == Run(t, None)
  {
    Step(t, RootCheckedDeleteOps(group));
  }

  /** ... and a name present at the root but absent from `/ENTRY` makes `del` raise. */
  lemma RootCheckRaisesForRootNames(t: Tree, group: string)
    requires Exists(t, [Upper(group)]) && GroupPath(Upper(group)) !in t
    ensures Exec(t, RootCheckedDeleteOps(group)) == Run(t, Some(KeyError(PathText(GroupPath(Upper(group))))))
  {
    Step(t, RootCheckedDeleteOps(group));
  }

  /** A file with `/ENTRY/Q` and the call `delete_data("q")`: the class method keeps the
      group, `utils.delete_data` removes it. */
  lemma RootCheckCounterexample()
    ensures
      var t := map[[] := Group(map[]), ["ENTRY"] := Group(map[]), ["ENTRY", "Q"] := Group(map[])];
      && Valid(t)
      && Exec(t, RootCheckedDeleteOps("q")).tree == t
      && ["ENTRY", "Q"] !in Exec(t, DeleteOps("q")).tree
  {
    var t := map[[] := Group(map[]), ["ENTRY"] := Group(map[]), ["ENTRY", "Q"] := Group(map[])];
    assert Upper("q") == "Q" by {
      assert Upper("q")[0] == 'Q';
    }
    assert ["ENTRY"] == Parent(["ENTRY", "Q"]);
    assert [] == Parent(["ENTRY"]);
    assert ["Q"] !in t;
    assert !Exists(t, ["Q"]);
    RootCheckMissesEntryGroups(t, "q");
    assert Exists(t, ["ENTRY"]) && Exists(t, GroupPath("Q"));
    DeleteDataRemovesGroup(t, "q");
    assert IsPrefix(GroupPath("Q"), ["ENTRY", "Q"]);
  }

  // ------------------------------------------------------------ lemmas: create_process

  lemma AncestorsBelow(p: Path, x: string, r: Path)
    requires r in Ancestors(p + [x]) && IsPrefix(p, r)
    ensures r == p
  {
    var k :| 0 <= k < |p| + 1 && r == (p + [x])[..k];
    assert |r| == k;
  }

  /** `create_process` leaves at `p` a `SASprocess` group holding exactly the datasets
      `name` and `description` with the given strings, keeps the file well-formed and
      changes nothing outside `p`. */
  lemma ProcessWritesGroup(t: Tree, p: Path, name: string, desc: string)
    requires Valid(t) && Exec(t, ProcessOps(p, name, desc)).err == None
    ensures
      var u := Exec(t, ProcessOps(p, name, desc)).tree;
      && p in u && u[p] == Group(ProcessAttrs)
      && p + ["name"] in u && u[p + ["name"]] == Dataset(map[], ScalarString(name))
      && p + ["description"] in u && u[p + ["description"]] == Dataset(map[], ScalarString(desc))
      && (forall r | r in u && IsPrefix(p, r) :: r == p || r == p + ["name"] || r == p + ["description"])
      && Valid(u)
      && Outside(t, u, p)
  {
    var ops := ProcessOps(p, name, desc);
    var u := Exec(t, ops).tree;
    ExecKeepsValid(t, ops);
    ChildWithin(p, "name");
    ChildWithin(p, "description");
    assert p[..|p|] == p;
    assert AllWithin(ops.rest.rest.rest, p);
    assert AllWithin(ops, p);
    ExecOutside(t, ops, p);
    ProcessSteps(t, p, name, desc);
  }

  lemma ProcessSteps(t: Tree, p: Path, name: string, desc: string)
    requires Valid(t) && Exec(t, ProcessOps(p, name, desc)).err == None
    ensures
      var u := Exec(t, ProcessOps(p, name, desc)).tree;
      && p in u && u[p] == Group(ProcessAttrs)
      && p + ["name"] in u && u[p + ["name"]] == Dataset(map[], ScalarString(name))
      && p + ["description"] in u && u[p + ["description"]] == Dataset(map[], ScalarString(desc))
      && (forall r | r in u && IsPrefix(p, r) :: r == p || r == p + ["name"] || r == p + ["description"])
  {
    var ops := ProcessOps(p, name, desc);
    var t1 := ProcessGroupPhase(t, p, ops.rest.rest.rest);
    var t2 := ProcessChild(t1, p, "name", Dataset(map[], ScalarString(name)), ops.rest.rest.rest.rest);
    var t3 := ProcessChild(t2, p, "description", Dataset(map[], ScalarString(desc)), Done);
    SiblingsApart(p, "name", "description");
  }

  /** The first three steps of `create_process`: a fresh `SASprocess` group at `p`. */
  lemma ProcessGroupPhase(t: Tree, p: Path, rest: Ops) returns (t1: Tree)
    requires Valid(t)
    requires Exec(t, Then(DelIf(p, p), Then(Make(p, Group(map[])),
               Then(Put(p, "canSAS_class", PStr("SASprocess")), rest)))).err == None
    ensures Valid(t1)
    ensures Exec(t, Then(DelIf(p, p), Then(Make(p, Group(map[])),
              Then(Put(p, "canSAS_class", PStr("SASprocess")), rest)))) == Exec(t1, rest)
    ensures p in t1 && t1[p] == Group(ProcessAttrs)
    ensures forall r | r in t1 && IsPrefix(p, r) :: r == p
  {
    var put := Then(Put(p, "canSAS_class", PStr("SASprocess")), rest);
    var t0 := ProcessClears(t, p, Then(Make(p, Group(map[])), put));
    var g := ProcessMakesGroup(t0, p, put);
    t1 := ProcessTagsGroup(g, p, rest);
  }

  lemma ProcessTagsGroup(g: Tree, p: Path, rest: Ops) returns (t1: Tree)
    requires Valid(g) && p in g && g[p] == Group(map[])
    requires forall r | r in g && IsPrefix(p, r) :: r == p
    requires Exec(g, Then(Put(p, "canSAS_class", PStr("SASprocess")), rest)).err == None
    ensures Valid(t1) && Exec(g, Then(Put(p, "canSAS_class", PStr("SASprocess")), rest)) == Exec(t1, rest)
    ensures p in t1 && t1[p] == Group(ProcessAttrs)
    ensures forall r | r in t1 && IsPrefix(p, r) :: r == p
  {
    t1 := g[p := Group(ProcessAttrs)];
    assert PutAttr(g, p, "canSAS_class", PStr("SASprocess")) == Ok(t1);
    PutAttrKeepsValid(g, p, "canSAS_class", PStr("SASprocess"));
    Step(g, Then(Put(p, "canSAS_class", PStr("SASprocess")), rest));
  }

  lemma ProcessClears(t: Tree, p: Path, rest: Ops) returns (t0: Tree)
    requires Valid(t) && Exec(t, Then(DelIf(p, p), rest)).err == None
    ensures Valid(t0) && Exec(t, Then(DelIf(p, p), rest)) == Exec(t0, rest)
    ensures p !in t ==> t0 == t
    ensures forall r | r in t0 :: r in t && t0[r] == t[r]
  {
    Step(t, Then(DelIf(p, p), rest));
    t0 := Apply(t, DelIf(p, p)).tree;
    if Exists(t, p) {
      DeleteKeepsValid(t, p);
    }
  }

  lemma ProcessMakesGroup(t: Tree, p: Path, rest: Ops) returns (g: Tree)
    requires Valid(t) && Exec(t, Then(Make(p, Group(map[])), rest)).err == None
    ensures Valid(g) && Exec(t, Then(Make(p, Group(map[])), rest)) == Exec(g, rest)
    ensures p in g && g[p] == Group(map[])
    ensures forall r | r in g && IsPrefix(p, r) :: r == p
  {
    Step(t, Then(Make(p, Group(map[])), rest));
    g := CreateNode(t, p, Group(map[])).value;
    CreateKeepsValid(t, p, Group(map[]));
    NothingBelowAbsent(t, p);
  }

  /** A dataset created under the group `p`, the only new node there. */
  lemma ProcessChild(t: Tree, p: Path, x: string, n: Node, rest: Ops) returns (u: Tree)
    requires Valid(t) && p in t && t[p].Group? && Exec(t, Then(Make(p + [x], n), rest)).err == None
    ensures Valid(u) && Exec(t, Then(Make(p + [x], n), rest)) == Exec(u, rest)
    ensures p + [x] in u && u[p + [x]] == n
    ensures forall r | r in t :: r in u && u[r] == t[r]
    ensures forall r | r in u && IsPrefix(p, r) :: r in t || r == p + [x]
  {
    Step(t, Then(Make(p + [x], n), rest));
    u := CreateNode(t, p + [x], n).value;
    CreateKeepsValid(t, p + [x], n);
    forall r | r in u && IsPrefix(p, r)
      ensures r in t || r == p + [x]
    {
      if r in Ancestors(p + [x]) {
        AncestorsBelow(p, x, r);
      }
    }
  }
}
