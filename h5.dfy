/** The part of HDF5, as h5py presents it, that the repository relies on: a file is a
    tree of groups and datasets, each carrying attributes, addressed by `/`-separated
    paths. The tree is a map from paths to nodes; deleting a link drops the whole
    subtree below it, and creating a node creates the missing groups above it (h5py's
    default link-creation property). */
module H5 {
  import opened Wrappers
  import opened Text
  import opened PyValues

  /** A path as its components: "/ENTRY/DATA/I" and "ENTRY/DATA/I" are both
      ["ENTRY", "DATA", "I"]; the root group is []. */
  type Path = seq<string>

  type Attrs = map<string, PyValue>

  /** The content of a dataset: its shape (`()` for a scalar) and its cells in
      row-major order. */
  datatype Data = Data(shape: seq<nat>, cells: seq<PyValue>)

  datatype Node =
    | Group(attrs: Attrs)
    | Dataset(attrs: Attrs, data: Data)
    | SoftLink(target: Path)

  type Tree = map<Path, Node>

  function PathText(p: Path): string {
    "/" + Join(p, '/')
  }

  predicate IsPrefix(q: Path, p: Path) {
    |q| <= |p| && p[..|q|] == q
  }

  function Parent(p: Path): Path
    requires p != []
  {
    p[..|p| - 1]
  }

  /** A well-formed file: the root is a group and every other node hangs below a group. */
  predicate Valid(t: Tree) {
    && [] in t && t[[]].Group?
    && forall p | p in t && p != [] :: Parent(p) in t && t[Parent(p)].Group?
  }

  function EmptyFile(): (t: Tree)
    ensures Valid(t)
  {
    map[[] := Group(map[])]
  }

  function AttrsOf(n: Node): Attrs {
    if n.SoftLink? then map[] else n.attrs
  }

  function WithAttrs(n: Node, a: Attrs): Node {
    match n
    case Group(_) => Group(a)
    case Dataset(_, d) => Dataset(a, d)
    case SoftLink(_) => n
  }

  /** `f[p]`: a soft link is followed once, to a node that is not a link. */
  function Get(t: Tree, p: Path): Option<Node> {
    if p !in t then None
    else match t[p]
      case SoftLink(q) => if q in t && !t[q].SoftLink? then Some(t[q]) else None
      case n => Some(n)
  }

  /** The names of the links held by the group at `p`: `f[p].keys()` as a set. */
  function ChildNames(t: Tree, p: Path): set<string> {
    set q | q in t && |q| == |p| + 1 && IsPrefix(p, q) :: q[|p|]
  }

  /** `p in f` */
  predicate Exists(t: Tree, p: Path) {
    Get(t, p).Some?
  }

  /** The tree without `p` and everything below it. */
  function Prune(t: Tree, p: Path): Tree {
    map q | q in t && !IsPrefix(p, q) :: t[q]
  }

  /** `del f[p]` */
  function DeleteLink(t: Tree, p: Path): Result<Tree, PyError> {
    if p == [] || p !in t then Err(KeyError(PathText(p))) else Ok(Prune(t, p))
  }

  function Ancestors(p: Path): set<Path> {
    set i | 0 <= i < |p| :: p[..i]
  }

  predicate AncestorsAreGroups(t: Tree, p: Path) {
    forall i | 0 <= i < |p| :: p[..i] in t ==> t[p[..i]].Group?
  }

  /** `n` stored at `p`, with empty groups made for the missing ancestors. */
  function Graft(t: Tree, p: Path, n: Node): Tree {
    (map q | q in t.Keys + Ancestors(p) :: if q in t then t[q] else Group(map[]))[p := n]
  }

  /** `create_dataset(p, ...)` / `create_group(p)` */
  function CreateNode(t: Tree, p: Path, n: Node): Result<Tree, PyError> {
    if p == [] || p in t then Err(ValueError("name already exists"))
    else if !AncestorsAreGroups(t, p) then Err(ValueError("a path component is not a group"))
    else Ok(Graft(t, p, n))
  }

  /** `f.require_group(p)`: an existing group is kept, another kind of object there is an
      error, and a missing one is created. */
  function RequireGroup(t: Tree, p: Path): Result<Tree, PyError> {
    if Exists(t, p) then
      if Get(t, p).value.Group? then Ok(t) else Err(TypeError("Incompatible object already exists"))
    else CreateNode(t, p, Group(map[]))
  }

  /** `f[p].attrs[k] = v` on a node reached without soft links; a path that is, or
      passes through, a soft link raises here, where h5py would resolve it. */
  function PutAttr(t: Tree, p: Path, k: string, v: PyValue): Result<Tree, PyError> {
    if p !in t || t[p].SoftLink? then Err(KeyError(PathText(p)))
    else Ok(t[p := WithAttrs(t[p], AttrsOf(t[p])[k := v])])
  }

  /** `del f[p].attrs[k]`, with the same treatment of soft links as `PutAttr`. */
  function DropAttr(t: Tree, p: Path, k: string): Result<Tree, PyError> {
    if p !in t || t[p].SoftLink? then Err(KeyError(PathText(p)))
    else if k !in AttrsOf(t[p]) then Err(KeyError(k))
    else Ok(t[p := WithAttrs(t[p], AttrsOf(t[p]) - {k})])
  }

  /** The paths the subtree at `src` takes once copied to `dst`. */
  function CopyKeys(t: Tree, src: Path, dst: Path): set<Path> {
    set q | q in t && IsPrefix(src, q) :: dst + q[|src|..]
  }

  /** The subtree at `src`, moved to `dst`. */
  function CopyOf(t: Tree, src: Path, dst: Path): Tree {
    map q | q in CopyKeys(t, src, dst) :: if src + q[|dst|..] in t then t[src + q[|dst|..]] else Group(map[])
  }

  /** `f.copy(src, f[parent], name)` with `dst == parent + [name]`: a deep copy, attributes
      included. */
  function CopyNode(t: Tree, src: Path, dst: Path): Result<Tree, PyError> {
    if src !in t then Err(KeyError(PathText(src)))
    else if dst == [] || dst in t then Err(ValueError("destination object already exists"))
    else if Parent(dst) !in t || !t[Parent(dst)].Group? then Err(KeyError(PathText(Parent(dst))))
    else Ok(t + CopyOf(t, src, dst))
  }

  /** What a method of `File` did: the new tree on success, the old one and the
      exception otherwise. */
  predicate Stepped(r: Result<Tree, PyError>, before: Tree, after: Tree, err: Option<PyError>) {
    if r.Ok? then after == r.value && err == None else after == before && err == Some(r.error)
  }

  // ------------------------------------------------------------------ lemmas

  lemma PrefixOfParent(q: Path, p: Path)
    requires p != [] && !IsPrefix(q, p) && q != p
    ensures !IsPrefix(q, Parent(p))
  {
  }

  /** Deleting a link keeps the file well-formed and removes exactly the subtree. */
  lemma DeleteKeepsValid(t: Tree, p: Path)
    requires Valid(t) && DeleteLink(t, p).Ok?
    ensures Valid(DeleteLink(t, p).value)
    ensures forall q | q in t :: q in DeleteLink(t, p).value <==> !IsPrefix(p, q)
    ensures !Exists(DeleteLink(t, p).value, p)
  {
    var u := Prune(t, p);
    forall q | q in u && q != []
      ensures Parent(q) in u && u[Parent(q)].Group?
    {
      assert IsPrefix(p, Parent(q)) ==> IsPrefix(p, q);
    }
  }

  lemma AncestorOfAncestor(p: Path, i: nat)
    requires 0 < i < |p|
    ensures Parent(p[..i]) == p[..i - 1]
  {
  }

  /** Creating a node keeps the file well-formed, stores the node, and changes no node
      that was there. */
  lemma CreateKeepsValid(t: Tree, p: Path, n: Node)
    requires Valid(t) && CreateNode(t, p, n).Ok?
    ensures Valid(CreateNode(t, p, n).value)
    ensures CreateNode(t, p, n).value[p] == n
    ensures forall q | q in t :: q in CreateNode(t, p, n).value && CreateNode(t, p, n).value[q] == t[q]
    ensures forall q | q in CreateNode(t, p, n).value :: q in t || q == p || q in Ancestors(p)
  {
    var u := Graft(t, p, n);
    forall q | q in u && q != []
      ensures Parent(q) in u && u[Parent(q)].Group?
    {
      if q in t {
        assert Parent(q) in t;
        if Parent(q) == p {
          assert false;
        }
      } else if q == p {
        assert Parent(q) == p[..|p| - 1];
        assert Parent(q) in Ancestors(p);
      } else {
        assert q in Ancestors(p);
        var i :| 0 <= i < |p| && q == p[..i];
        AncestorOfAncestor(p, i);
        assert Parent(q) in Ancestors(p);
      }
    }
  }

  /** Setting or deleting an attribute changes that one node's attributes and nothing else. */
  lemma PutAttrKeepsValid(t: Tree, p: Path, k: string, v: PyValue)
    requires Valid(t) && PutAttr(t, p, k, v).Ok?
    ensures Valid(PutAttr(t, p, k, v).value)
    ensures PutAttr(t, p, k, v).value.Keys == t.Keys
    ensures AttrsOf(PutAttr(t, p, k, v).value[p]) == AttrsOf(t[p])[k := v]
  {
  }

  lemma DropAttrKeepsValid(t: Tree, p: Path, k: string)
    requires Valid(t) && DropAttr(t, p, k).Ok?
    ensures Valid(DropAttr(t, p, k).value)
    ensures DropAttr(t, p, k).value.Keys == t.Keys
    ensures k !in AttrsOf(DropAttr(t, p, k).value[p])
  {
  }

  /** Where a node of the source subtree lands. */
  lemma CopiedNode(t: Tree, src: Path, dst: Path, r: Path)
    requires r in t && IsPrefix(src, r)
    ensures dst + r[|src|..] in CopyOf(t, src, dst)
    ensures CopyOf(t, src, dst)[dst + r[|src|..]] == t[r]
  {
    var q := dst + r[|src|..];
    assert q[|dst|..] == r[|src|..];
    assert src + q[|dst|..] == r;
  }

  /** Every copied path comes from a node of the source subtree. */
  lemma CopiedFrom(t: Tree, src: Path, dst: Path, q: Path)
    requires q in CopyOf(t, src, dst)
    ensures IsPrefix(dst, q) && src + q[|dst|..] in t && IsPrefix(src, src + q[|dst|..])
  {
    var r :| r in t && IsPrefix(src, r) && q == dst + r[|src|..];
    CopiedNode(t, src, dst, r);
    assert q[|dst|..] == r[|src|..];
    assert src + q[|dst|..] == r;
  }

  /** A copy keeps the file well-formed and reproduces the source subtree under `dst`. */
  lemma CopyKeepsValid(t: Tree, src: Path, dst: Path)
    requires Valid(t) && CopyNode(t, src, dst).Ok?
    ensures Valid(CopyNode(t, src, dst).value)
    ensures forall q | q in t :: q in CopyNode(t, src, dst).value && CopyNode(t, src, dst).value[q] == t[q]
  {
    var c := CopyOf(t, src, dst);
    NothingBelowAbsent(t, dst);
    forall q | q in c
      ensures q !in t
    {
      CopiedFrom(t, src, dst, q);
    }
    var u := t + c;
    forall q | q in c && q != []
      ensures Parent(q) in u && u[Parent(q)].Group?
    {
      CopiedFrom(t, src, dst, q);
      CopiedParent(t, src, dst, q);
    }
    assert forall q | q in u && q != [] && q !in c :: q in t;
  }

  lemma CopiedParent(t: Tree, src: Path, dst: Path, q: Path)
    requires Valid(t) && CopyNode(t, src, dst).Ok?
    requires q in CopyOf(t, src, dst) && q != []
    requires IsPrefix(dst, q) && src + q[|dst|..] in t && IsPrefix(src, src + q[|dst|..])
    ensures Parent(q) in t + CopyOf(t, src, dst) && (t + CopyOf(t, src, dst))[Parent(q)].Group?
  {
    if q != dst {
      var r := src + q[|dst|..];
      ShiftParent(src, dst, q);
      assert Parent(r) in t && t[Parent(r)].Group?;
      CopiedNode(t, src, dst, Parent(r));
    }
  }

  /** The parent of a copied path is the copy of the source node's parent. */
  lemma ShiftParent(src: Path, dst: Path, q: Path)
    requires IsPrefix(dst, q) && q != dst
    ensures src + q[|dst|..] != [] && IsPrefix(src, Parent(src + q[|dst|..]))
    ensures dst + Parent(src + q[|dst|..])[|src|..] == Parent(q)
  {
    var r := src + q[|dst|..];
    assert Parent(r) == src + Parent(q)[|dst|..];
    assert Parent(r)[|src|..] == Parent(q)[|dst|..];
  }

  /** Copying puts the source subtree under `dst`. */
  lemma CopyPlacesSubtree(t: Tree, src: Path, dst: Path, r: Path)
    requires Valid(t) && CopyNode(t, src, dst).Ok? && r in t && IsPrefix(src, r)
    ensures dst + r[|src|..] in CopyNode(t, src, dst).value
    ensures CopyNode(t, src, dst).value[dst + r[|src|..]] == t[r]
  {
    CopiedNode(t, src, dst, r);
  }

  /** After a copy the subtree at `dst` is exactly the subtree at `src`, node for node. */
  lemma CopyReplicates(t: Tree, src: Path, dst: Path)
    requires Valid(t) && CopyNode(t, src, dst).Ok?
    ensures forall r | r in t && IsPrefix(src, r) ::
      dst + r[|src|..] in CopyNode(t, src, dst).value && CopyNode(t, src, dst).value[dst + r[|src|..]] == t[r]
    ensures forall q | q in CopyNode(t, src, dst).value && IsPrefix(dst, q) ::
      src + q[|dst|..] in t && CopyNode(t, src, dst).value[q] == t[src + q[|dst|..]]
  {
    var u := CopyNode(t, src, dst).value;
    forall r | r in t && IsPrefix(src, r)
      ensures dst + r[|src|..] in u && u[dst + r[|src|..]] == t[r]
    {
      CopiedNode(t, src, dst, r);
    }
    NothingBelowAbsent(t, dst);
    forall q | q in u && IsPrefix(dst, q)
      ensures src + q[|dst|..] in t && u[q] == t[src + q[|dst|..]]
    {
      CopiedFrom(t, src, dst, q);
    }
  }

  /** In a well-formed tree nothing hangs below a path that is absent. */
  lemma NothingBelowAbsent(t: Tree, p: Path)
    requires Valid(t) && p !in t
    ensures forall q | q in t :: !IsPrefix(p, q)
  {
    forall q | q in t
      ensures !IsPrefix(p, q)
    {
      AbsentAbove(t, p, q);
    }
  }

  lemma {:induction false} AbsentAbove(t: Tree, p: Path, q: Path)
    requires Valid(t) && p !in t && q in t
    ensures !IsPrefix(p, q)
    decreases |q|
  {
    if q != [] && IsPrefix(p, q) && q != p {
      assert IsPrefix(p, Parent(q));
      AbsentAbove(t, p, Parent(q));
    }
  }

  // ------------------------------------------------------------------ the open file

  /** An open `h5py.File`, whose methods change its tree in place. */
  class File {
    var tree: Tree

    constructor (t: Tree)
      ensures tree == t
    {
      tree := t;
    }

    /** `del f[p]` */
    method Delete(p: Path) returns (err: Option<PyError>)
      modifies this
      ensures Stepped(DeleteLink(old(tree), p), old(tree), tree, err)
    {
      var r := DeleteLink(tree, p);
      if r.Ok? {
        tree := r.value;
        err := None;
      } else {
        err := Some(r.error);
      }
    }

    /** `f.create_dataset(p, data=d)` */
    method CreateDataset(p: Path, d: Data) returns (err: Option<PyError>)
      modifies this
      ensures Stepped(CreateNode(old(tree), p, Dataset(map[], d)), old(tree), tree, err)
    {
      var r := CreateNode(tree, p, Dataset(map[], d));
      if r.Ok? {
        tree := r.value;
        err := None;
      } else {
        err := Some(r.error);
      }
    }

    /** `f.create_group(p)` */
    method CreateGroup(p: Path) returns (err: Option<PyError>)
      modifies this
      ensures Stepped(CreateNode(old(tree), p, Group(map[])), old(tree), tree, err)
    {
      var r := CreateNode(tree, p, Group(map[]));
      if r.Ok? {
        tree := r.value;
        err := None;
      } else {
        err := Some(r.error);
      }
    }

    /** `f.require_group(p)` */
    method Require(p: Path) returns (err: Option<PyError>)
      modifies this
      ensures Stepped(RequireGroup(old(tree), p), old(tree), tree, err)
    {
      var r := RequireGroup(tree, p);
      if r.Ok? {
        tree := r.value;
        err := None;
      } else {
        err := Some(r.error);
      }
    }

    /** `f[p] = h5py.SoftLink(target)` */
    method CreateSoftLink(p: Path, target: Path) returns (err: Option<PyError>)
      modifies this
      ensures Stepped(CreateNode(old(tree), p, SoftLink(target)), old(tree), tree, err)
    {
      var r := CreateNode(tree, p, SoftLink(target));
      if r.Ok? {
        tree := r.value;
        err := None;
      } else {
        err := Some(r.error);
      }
    }

    /** `f[p].attrs[k] = v`, as `PutAttr`. */
    method SetAttr(p: Path, k: string, v: PyValue) returns (err: Option<PyError>)
      modifies this
      ensures Stepped(PutAttr(old(tree), p, k, v), old(tree), tree, err)
    {
      var r := PutAttr(tree, p, k, v);
      if r.Ok? {
        tree := r.value;
        err := None;
      } else {
        err := Some(r.error);
      }
    }

    /** `del f[p].attrs[k]`, as `DropAttr`. */
    method DelAttr(p: Path, k: string) returns (err: Option<PyError>)
      modifies this
      ensures Stepped(DropAttr(old(tree), p, k), old(tree), tree, err)
    {
      var r := DropAttr(tree, p, k);
      if r.Ok? {
        tree := r.value;
        err := None;
      } else {
        err := Some(r.error);
      }
    }

    /** `f.copy(src, f[Parent(dst)], dst[|dst| - 1])` */
    method Copy(src: Path, dst: Path) returns (err: Option<PyError>)
      modifies this
      ensures Stepped(CopyNode(old(tree), src, dst), old(tree), tree, err)
    {
      var r := CopyNode(tree, src, dst);
      if r.Ok? {
        tree := r.value;
        err := None;
      } else {
        err := Some(r.error);
      }
    }
  }
}
