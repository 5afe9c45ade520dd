/** The autofill of package/gui_modify_h5.py, which reopens a NeXus file in the
    parameter window: `_load_datasets` records every dataset it reaches under the
    `/`-joined path of names it took, entering groups and soft links to groups alike;
    then the widget loop shows, beside each label, the recorded data of that path (or
    `"None"`) and the unit the NXsas dictionary declares for it (or nothing). */
module Reload {
  import opened Wrappers
  import opened Text
  import opened PyValues
  import opened H5
  import opened Nxsas
  import opened Forms

  /** No name of `v` holds a `/`. */
  predicate SlashlessNames(v: seq<string>) {
    forall i | 0 <= i < |v| :: '/' !in v[i]
  }

  /** HDF5 object names never hold a `/`, which separates them in a path. */
  predicate Slashless(t: Tree) {
    forall p | p in t :: SlashlessNames(p)
  }

  /** The paths strictly below `p`. */
  function Under(t: Tree, p: Path): set<Path> {
    set q | q in t && |q| > |p| && q[..|p|] == p
  }

  /** `isinstance(group[name], h5py.Dataset)`: a dataset, or a soft link to one. */
  predicate DatasetAt(t: Tree, q: Path) {
    H5.Get(t, q).Some? && H5.Get(t, q).value.Dataset?
  }

  /** `item[:]` or `item[()]`: the data of the dataset at `q`, through a soft link if
      need be. */
  function DataOf(t: Tree, q: Path): Data
    requires DatasetAt(t, q)
  {
    H5.Get(t, q).value.data
  }

  /** The group `item` is when `isinstance(item, h5py.Group)` holds of the child at
      `c`: that group itself, or the group a soft link at `c` names. */
  function GroupOf(t: Tree, c: Path): Option<Path> {
    if c !in t then None
    else match t[c]
      case Group(_) => Some(c)
      case SoftLink(q) => if q in t && t[q].Group? then Some(q) else None
      case Dataset(_, _) => None
  }

  lemma GroupOfGet(t: Tree, c: Path)
    ensures GroupOf(t, c).Some? <==> H5.Get(t, c).Some? && H5.Get(t, c).value.Group?
    ensures GroupOf(t, c).Some? ==> GroupOf(t, c).value in t && t[GroupOf(t, c).value] == H5.Get(t, c).value
  {
  }

  // ------------------------------------------------------------ walking a path of names

  /** The node the names `v` lead to from the group at `g`, `_load_datasets`' way:
      each name but the last must name a group, or a soft link to one. */
  function Walk(t: Tree, g: Path, v: seq<string>): Option<Path>
    requires v != []
    decreases |v|
  {
    var c := g + [v[0]];
    if |v| == 1 then Some(c)
    else match GroupOf(t, c)
      case Some(r) => Walk(t, r, v[1..])
      case None => None
  }

  /** The names `v` lead from `g` to a dataset. */
  predicate Reaches(t: Tree, g: Path, v: seq<string>) {
    v != [] && Walk(t, g, v).Some? && DatasetAt(t, Walk(t, g, v).value)
  }

  /** Walking `u` and then `w` is walking `u + w`, once `u` ends on a group. */
  lemma {:induction false} WalkThrough(t: Tree, g: Path, u: seq<string>, w: seq<string>, x: Path, r: Path)
    requires u != [] && w != [] && Walk(t, g, u) == Some(x) && GroupOf(t, x) == Some(r)
    ensures Walk(t, g, u + w) == Walk(t, r, w)
    decreases |u|
  {
    var c := g + [u[0]];
    assert (u + w)[0] == u[0];
    if |u| == 1 {
      assert (u + w)[1..] == w;
    } else {
      var s := GroupOf(t, c).value;
      assert (u + w)[1..] == u[1..] + w;
      WalkThrough(t, s, u[1..], w, x, r);
    }
  }

  /** In a well-formed file the walk along a path of the file ends on that path: its
      proper prefixes are all groups. */
  lemma {:induction false} WalkAlong(t: Tree, g: Path, v: seq<string>)
    requires Valid(t) && v != [] && g + v in t
    ensures Walk(t, g, v) == Some(g + v)
    decreases |v|
  {
    var c := g + [v[0]];
    if |v| == 1 {
      assert c == g + v;
    } else {
      PrefixNames(g, v);
      AncestorGroup(t, g + v, |g| + 1);
      WalkAlong(t, c, v[1..]);
    }
  }

  lemma PrefixNames(g: Path, v: seq<string>)
    requires v != []
    ensures (g + v)[..|g| + 1] == g + [v[0]] && (g + [v[0]]) + v[1..] == g + v
  {
  }

  /** The names a walk takes are names of the file, so they hold no `/`. */
  lemma {:induction false} WalkSlashless(t: Tree, g: Path, v: seq<string>)
    requires Slashless(t) && v != [] && Walk(t, g, v).Some? && Walk(t, g, v).value in t
    ensures SlashlessNames(v)
    decreases |v|
  {
    var c := g + [v[0]];
    if |v| == 1 {
      assert c == Walk(t, g, v).value && SlashlessNames(c);
      forall i | 0 <= i < |v|
        ensures '/' !in v[i]
      {
        assert i == 0 && c[|g|] == v[0];
      }
    } else {
      assert c in t;
      WalkSlashless(t, GroupOf(t, c).value, v[1..]);
      forall i | 0 <= i < |v|
        ensures '/' !in v[i]
      {
        if i == 0 {
          assert c[|g|] == v[0];
        } else {
          assert v[i] == v[1..][i - 1];
        }
      }
    }
  }

  /** In a well-formed file every proper prefix of a path is a group of the file. */
  lemma {:induction false} AncestorGroup(t: Tree, q: Path, n: nat)
    requires Valid(t) && q in t && n < |q|
    ensures q[..n] in t && t[q[..n]].Group?
    decreases |q| - n
  {
    var up := Parent(q);
    if n < |up| {
      AncestorGroup(t, up, n);
      assert up[..n] == q[..n];
    } else {
      assert up == q[..n];
    }
  }

  // ------------------------------------------------------------ what is reached

  /** The soft links to groups form no cycle: a rank on groups falls from each group
      to every group one of its children leads to. */
  ghost predicate Ranked(t: Tree, rank: map<Path, nat>) {
    forall g, k | g in rank && GroupOf(t, g + [k]).Some? ::
      GroupOf(t, g + [k]).value in rank && rank[GroupOf(t, g + [k]).value] < rank[g]
  }

  /** The names below the group at `g` that `_load_datasets(g)` records: paths of
      names, relative to `g`, each leading to a dataset. */
  function Reach(t: Tree, rank: map<Path, nat>, g: Path): (r: set<seq<string>>)
    requires Ranked(t, rank) && g in rank
    ensures forall v | v in r :: Reaches(t, g, v)
    decreases rank[g], 1
  {
    ReachFrom(t, rank, g, ChildNames(t, g))
  }

  /** The same, for the children of `g` named in `names` only. */
  function ReachFrom(t: Tree, rank: map<Path, nat>, g: Path, names: set<string>): (r: set<seq<string>>)
    requires Ranked(t, rank) && g in rank
    ensures forall v | v in r :: Reaches(t, g, v)
    decreases rank[g], 0
  {
    (set k | k in names && DatasetAt(t, g + [k]) :: [k])
    + (set k, v | k in names && GroupOf(t, g + [k]).Some? && v in Reach(t, rank, GroupOf(t, g + [k]).value) :: [k] + v)
  }

  /** A dataset child is reached by its own name alone. */
  lemma ReachFromDataset(t: Tree, rank: map<Path, nat>, g: Path, k: string)
    requires Ranked(t, rank) && g in rank && DatasetAt(t, g + [k])
    ensures ReachFrom(t, rank, g, {k}) == {[k]}
  {
    var s := ReachFrom(t, rank, g, {k});
    assert GroupOf(t, g + [k]).None?;
    assert [k] in s;
    forall v | v in s
      ensures v == [k]
    {
    }
  }

  /** A child leading to the group `r` reaches what `r` reaches, behind its name. */
  lemma ReachFromGroup(t: Tree, rank: map<Path, nat>, g: Path, k: string, r: Path)
    requires Ranked(t, rank) && g in rank && GroupOf(t, g + [k]) == Some(r)
    ensures r in rank && ReachFrom(t, rank, g, {k}) == set v | v in Reach(t, rank, r) :: [k] + v
  {
    var a, b := ReachFrom(t, rank, g, {k}), set v | v in Reach(t, rank, r) :: [k] + v;
    assert !DatasetAt(t, g + [k]);
    forall x | x in a
      ensures x in b
    {
      var w :| w in Reach(t, rank, r) && x == [k] + w;
    }
    forall x | x in b
      ensures x in a
    {
      var w :| w in Reach(t, rank, r) && x == [k] + w;
    }
  }

  /** Any other child is passed over. */
  lemma ReachFromNothing(t: Tree, rank: map<Path, nat>, g: Path, k: string)
    requires Ranked(t, rank) && g in rank && !DatasetAt(t, g + [k]) && GroupOf(t, g + [k]).None?
    ensures ReachFrom(t, rank, g, {k}) == {}
  {
  }

  lemma ReachFromStep(t: Tree, rank: map<Path, nat>, g: Path, done: set<string>, k: string)
    requires Ranked(t, rank) && g in rank
    ensures ReachFrom(t, rank, g, done + {k}) == ReachFrom(t, rank, g, done) + ReachFrom(t, rank, g, {k})
  {
  }

  /** Whatever leads from `g` to a dataset is reached: `_load_datasets` misses none of
      them, links to groups included. */
  lemma {:induction false} ReachComplete(t: Tree, rank: map<Path, nat>, g: Path, v: seq<string>)
    requires Ranked(t, rank) && g in rank && Reaches(t, g, v)
    ensures v in Reach(t, rank, g)
    decreases |v|
  {
    var k := v[0];
    var c := g + [k];
    assert k in ChildNames(t, g) by {
      assert c in t && |c| == |g| + 1 && IsPrefix(g, c) && c[|g|] == k;
    }
    if |v| == 1 {
      assert v == [k];
    } else {
      var r := GroupOf(t, c).value;
      ReachComplete(t, rank, r, v[1..]);
      assert v == [k] + v[1..];
    }
  }

  // ------------------------------------------------------------ the records

  /** `f"{path}/{key}"`: the text of the path `vp`, `""` at the root. */
  function PathPrefix(vp: seq<string>): string {
    if vp == [] then "" else PathText(vp)
  }

  lemma CurrentPath(vp: seq<string>, k: string)
    ensures PathPrefix(vp) + "/" + k == PathText(vp + [k])
  {
    if vp != [] {
      JoinSnoc(vp, k, '/');
    }
  }

  lemma {:induction false} JoinSnoc(parts: seq<string>, k: string, c: char)
    requires parts != []
    ensures Join(parts + [k], c) == Join(parts, c) + [c] + k
    decreases |parts|
  {
    if |parts| > 1 {
      assert (parts + [k])[1..] == parts[1..] + [k];
      JoinSnoc(parts[1..], k, c);
    }
  }

  /** Distinct paths with names free of `/` have distinct texts. */
  lemma PathTextInjective(p: Path, q: Path)
    requires |p| > 0 && |q| > 0 && SlashlessNames(p) && SlashlessNames(q)
    requires PathText(p) == PathText(q)
    ensures p == q
  {
    assert PathText(p)[1..] == Join(p, '/');
    assert PathText(q)[1..] == Join(q, '/');
    SplitJoin(p, '/');
    SplitJoin(q, '/');
  }

  /** The paths reached from `g`, behind the names `vp`, have distinct texts, so their
      records never clash. */
  lemma TextsDistinct(t: Tree, g: Path, vp: seq<string>, s: set<seq<string>>)
    requires Slashless(t) && SlashlessNames(vp) && forall v | v in s :: Reaches(t, g, v)
    ensures forall v, w | v in s && w in s && PathText(vp + v) == PathText(vp + w) :: v == w
  {
    forall v, w | v in s && w in s && PathText(vp + v) == PathText(vp + w)
      ensures v == w
    {
      WalkSlashless(t, g, v);
      WalkSlashless(t, g, w);
      PathTextInjective(vp + v, vp + w);
      assert (vp + v)[|vp|..] == v && (vp + w)[|vp|..] == w;
    }
  }

  /** The records the paths `s`, reached from `g` behind the names `vp`, leave: each
      one's data under the text of its whole path. */
  function RecordsOf(t: Tree, g: Path, vp: seq<string>, s: set<seq<string>>): map<string, Data>
    requires Slashless(t) && SlashlessNames(vp) && forall v | v in s :: Reaches(t, g, v)
  {
    TextsDistinct(t, g, vp, s);
    map v | v in s :: PathText(vp + v) := DataOf(t, Walk(t, g, v).value)
  }

  lemma RecordsHas(t: Tree, g: Path, vp: seq<string>, s: set<seq<string>>, v: seq<string>)
    requires Slashless(t) && SlashlessNames(vp) && (forall w | w in s :: Reaches(t, g, w)) && v in s
    ensures PathText(vp + v) in RecordsOf(t, g, vp, s)
    ensures RecordsOf(t, g, vp, s)[PathText(vp + v)] == DataOf(t, Walk(t, g, v).value)
  {
    TextsDistinct(t, g, vp, s);
  }

  lemma RecordsUnion(t: Tree, g: Path, vp: seq<string>, a: set<seq<string>>, b: set<seq<string>>)
    requires Slashless(t) && SlashlessNames(vp) && forall v | v in a + b :: Reaches(t, g, v)
    ensures RecordsOf(t, g, vp, a + b) == RecordsOf(t, g, vp, a) + RecordsOf(t, g, vp, b)
  {
    RecordsUnionWithin(t, g, vp, a, b);
    RecordsUnionCovers(t, g, vp, a, b);
  }

  lemma RecordsUnionWithin(t: Tree, g: Path, vp: seq<string>, a: set<seq<string>>, b: set<seq<string>>)
    requires Slashless(t) && SlashlessNames(vp) && forall v | v in a + b :: Reaches(t, g, v)
    ensures forall x | x in RecordsOf(t, g, vp, a + b) ::
      (x in RecordsOf(t, g, vp, a) + RecordsOf(t, g, vp, b)
       && RecordsOf(t, g, vp, a + b)[x] == (RecordsOf(t, g, vp, a) + RecordsOf(t, g, vp, b))[x])
  {
    var m, ma, mb := RecordsOf(t, g, vp, a + b), RecordsOf(t, g, vp, a), RecordsOf(t, g, vp, b);
    TextsDistinct(t, g, vp, a + b);
    forall x | x in m
      ensures x in ma + mb && m[x] == (ma + mb)[x]
    {
      var v :| v in a + b && PathText(vp + v) == x;
      if x in mb {
        var w :| w in b && PathText(vp + w) == x;
        assert w == v;
      } else {
        assert v in a;
      }
    }
  }

  lemma RecordsUnionCovers(t: Tree, g: Path, vp: seq<string>, a: set<seq<string>>, b: set<seq<string>>)
    requires Slashless(t) && SlashlessNames(vp) && forall v | v in a + b :: Reaches(t, g, v)
    ensures forall x | x in RecordsOf(t, g, vp, a) + RecordsOf(t, g, vp, b) :: x in RecordsOf(t, g, vp, a + b)
  {
    var m, ma, mb := RecordsOf(t, g, vp, a + b), RecordsOf(t, g, vp, a), RecordsOf(t, g, vp, b);
    forall x | x in ma + mb
      ensures x in m
    {
      if x in mb {
        var w :| w in b && PathText(vp + w) == x;
        assert w in a + b;
      } else {
        var w :| w in a && PathText(vp + w) == x;
        assert w in a + b;
      }
    }
  }

  /** A dataset child records its data under its own path. */
  lemma RecordsDataset(t: Tree, rank: map<Path, nat>, g: Path, vp: seq<string>, k: string)
    requires Slashless(t) && SlashlessNames(vp) && Ranked(t, rank) && g in rank && DatasetAt(t, g + [k])
    ensures Children(t, rank, g, vp, {k}) == map[PathText(vp + [k]) := DataOf(t, g + [k])]
  {
    ReachFromDataset(t, rank, g, k);
    RecordsHas(t, g, vp, {[k]}, [k]);
  }

  /** A child leading to the group `r` records what loading `r` records behind the
      child's path. */
  lemma RecordsGroup(t: Tree, rank: map<Path, nat>, g: Path, vp: seq<string>, k: string, r: Path)
    requires Slashless(t) && SlashlessNames(vp) && SlashlessNames(vp + [k]) && Ranked(t, rank) && g in rank
    requires GroupOf(t, g + [k]) == Some(r)
    ensures r in rank && Children(t, rank, g, vp, {k}) == Children(t, rank, r, vp + [k], ChildNames(t, r))
  {
    ReachFromGroup(t, rank, g, k, r);
    RecordsShift(t, g, vp, k, r, Reach(t, rank, r), ReachFrom(t, rank, g, {k}));
  }

  lemma WalkCons(t: Tree, g: Path, k: string, w: seq<string>, r: Path)
    requires w != [] && GroupOf(t, g + [k]) == Some(r)
    ensures Walk(t, g, [k] + w) == Walk(t, r, w)
  {
    assert ([k] + w)[0] == k && ([k] + w)[1..] == w;
  }

  /** Paths reached from `r` record, behind the names `vp + [k]`, what the same paths
      behind the name `k` record from `g`, when `k` leads from `g` to `r`. */
  lemma RecordsShift(t: Tree, g: Path, vp: seq<string>, k: string, r: Path, u: set<seq<string>>, s: set<seq<string>>)
    requires Slashless(t) && SlashlessNames(vp) && SlashlessNames(vp + [k]) && GroupOf(t, g + [k]) == Some(r)
    requires (forall w | w in u :: Reaches(t, r, w)) && s == set w | w in u :: [k] + w
    ensures (forall v | v in s :: Reaches(t, g, v)) && RecordsOf(t, g, vp, s) == RecordsOf(t, r, vp + [k], u)
  {
    ShiftReaches(t, g, k, r, u, s);
    ShiftForward(t, g, vp, k, r, u, s);
    ShiftBackward(t, g, vp, k, r, u, s);
    MapExt(RecordsOf(t, g, vp, s), RecordsOf(t, r, vp + [k], u));
  }

  lemma ShiftForward(t: Tree, g: Path, vp: seq<string>, k: string, r: Path, u: set<seq<string>>, s: set<seq<string>>)
    requires Slashless(t) && SlashlessNames(vp) && SlashlessNames(vp + [k]) && GroupOf(t, g + [k]) == Some(r)
    requires (forall v | v in u :: Reaches(t, r, v)) && (forall v | v in s :: Reaches(t, g, v))
    requires s == set w | w in u :: [k] + w
    ensures forall x | x in RecordsOf(t, g, vp, s) ::
      (x in RecordsOf(t, r, vp + [k], u) && RecordsOf(t, g, vp, s)[x] == RecordsOf(t, r, vp + [k], u)[x])
  {
    forall x | x in RecordsOf(t, g, vp, s)
      ensures x in RecordsOf(t, r, vp + [k], u) && RecordsOf(t, g, vp, s)[x] == RecordsOf(t, r, vp + [k], u)[x]
    {
      var v :| v in s && PathText(vp + v) == x;
      var w :| w in u && v == [k] + w;
      ShiftKey(t, g, vp, k, r, u, s, w);
    }
  }

  lemma ShiftBackward(t: Tree, g: Path, vp: seq<string>, k: string, r: Path, u: set<seq<string>>, s: set<seq<string>>)
    requires Slashless(t) && SlashlessNames(vp) && SlashlessNames(vp + [k]) && GroupOf(t, g + [k]) == Some(r)
    requires (forall v | v in u :: Reaches(t, r, v)) && (forall v | v in s :: Reaches(t, g, v))
    requires s == set w | w in u :: [k] + w
    ensures forall x | x in RecordsOf(t, r, vp + [k], u) :: x in RecordsOf(t, g, vp, s)
  {
    forall x | x in RecordsOf(t, r, vp + [k], u)
      ensures x in RecordsOf(t, g, vp, s)
    {
      var w :| w in u && PathText((vp + [k]) + w) == x;
      ShiftKey(t, g, vp, k, r, u, s, w);
    }
  }

  lemma MapExt<K, V>(m: map<K, V>, n: map<K, V>)
    requires forall x | x in m :: x in n && m[x] == n[x]
    requires forall x | x in n :: x in m
    ensures m == n
  {
  }

  lemma ShiftReaches(t: Tree, g: Path, k: string, r: Path, u: set<seq<string>>, s: set<seq<string>>)
    requires GroupOf(t, g + [k]) == Some(r)
    requires (forall w | w in u :: Reaches(t, r, w)) && s == set w | w in u :: [k] + w
    ensures forall v | v in s :: Reaches(t, g, v)
  {
    forall v | v in s
      ensures Reaches(t, g, v)
    {
      var w :| w in u && v == [k] + w;
      WalkCons(t, g, k, w, r);
    }
  }

  /** One path `w` reached from `r` leaves the same record from `g` behind `k`. */
  lemma ShiftKey(t: Tree, g: Path, vp: seq<string>, k: string, r: Path, u: set<seq<string>>, s: set<seq<string>>, w: seq<string>)
    requires Slashless(t) && SlashlessNames(vp) && SlashlessNames(vp + [k]) && GroupOf(t, g + [k]) == Some(r)
    requires (forall v | v in u :: Reaches(t, r, v)) && (forall v | v in s :: Reaches(t, g, v))
    requires w in u && [k] + w in s
    ensures PathText(vp + ([k] + w)) == PathText((vp + [k]) + w)
    ensures PathText(vp + ([k] + w)) in RecordsOf(t, g, vp, s) && PathText((vp + [k]) + w) in RecordsOf(t, r, vp + [k], u)
    ensures RecordsOf(t, g, vp, s)[PathText(vp + ([k] + w))] == RecordsOf(t, r, vp + [k], u)[PathText((vp + [k]) + w)]
  {
    NamesAssoc(vp, k, w);
    WalkCons(t, g, k, w, r);
    RecordsHas(t, g, vp, s, [k] + w);
    RecordsHas(t, r, vp + [k], u, w);
  }

  /** A child h5py hands back as a group is loaded in turn: the group it leads to
      ranks lower, and what it records is what loading that group records. */
  lemma GroupChild(t: Tree, rank: map<Path, nat>, g: Path, vp: seq<string>, k: string, r: Path)
    requires Slashless(t) && SlashlessNames(vp) && Ranked(t, rank) && g in rank
    requires H5.Get(t, g + [k]).Some? && H5.Get(t, g + [k]).value.Group?
    requires r == if t[g + [k]].SoftLink? then t[g + [k]].target else g + [k]
    ensures r in rank && rank[r] < rank[g] && r in t && t[r].Group? && SlashlessNames(vp + [k])
    ensures Children(t, rank, g, vp, {k}) == Children(t, rank, r, vp + [k], ChildNames(t, r))
  {
    ChildGroup(t, g + [k], r);
    ChildSlashless(t, g, vp, k);
    RecordsGroup(t, rank, g, vp, k, r);
  }

  /** A child that is neither a dataset nor a group records nothing. */
  lemma OtherChild(t: Tree, rank: map<Path, nat>, g: Path, vp: seq<string>, k: string)
    requires Slashless(t) && SlashlessNames(vp) && Ranked(t, rank) && g in rank
    requires !(H5.Get(t, g + [k]).Some? && H5.Get(t, g + [k]).value.Dataset?)
    requires !(H5.Get(t, g + [k]).Some? && H5.Get(t, g + [k]).value.Group?)
    ensures Children(t, rank, g, vp, {k}) == map[]
  {
    GroupOfGet(t, g + [k]);
    ReachFromNothing(t, rank, g, k);
  }

  /** The group object of a child h5py hands back as a group. */
  lemma ChildGroup(t: Tree, c: Path, r: Path)
    requires H5.Get(t, c).Some? && H5.Get(t, c).value.Group?
    requires r == if t[c].SoftLink? then t[c].target else c
    ensures GroupOf(t, c) == Some(r) && r in t && t[r].Group?
  {
  }

  lemma ChildSlashless(t: Tree, g: Path, vp: seq<string>, k: string)
    requires Slashless(t) && SlashlessNames(vp) && g + [k] in t
    ensures SlashlessNames(vp + [k])
  {
    assert (g + [k])[|g|] == k;
    assert forall i | 0 <= i < |vp| + 1 :: (vp + [k])[i] == if i < |vp| then vp[i] else k;
  }

  lemma NamesAssoc(vp: seq<string>, k: string, w: seq<string>)
    ensures vp + ([k] + w) == (vp + [k]) + w
  {
  }

  // ------------------------------------------------------------ the recording dictionary

  /** `nexus_file_dict`, filled in place by the recursive `_load_datasets`. */
  class DatasetIndex {
    var loaded: map<string, Data>

    constructor ()
      ensures loaded == map[]
    {
      loaded := map[];
    }

    /** `_load_datasets(group, path)` for the group at `g`, reached along the names
        `vp`, whose text is `path`: the children are visited one by one, and a later
        record of the same text replaces an earlier one. */
    method LoadDatasets(t: Tree, ghost rank: map<Path, nat>, g: Path, path: string, ghost vp: seq<string>)
      requires Slashless(t) && SlashlessNames(vp) && path == PathPrefix(vp)
      requires Ranked(t, rank) && g in rank && g in t && t[g].Group?
      modifies this
      ensures loaded == old(loaded) + Children(t, rank, g, vp, ChildNames(t, g))
      decreases rank[g], 1
    {
      var names := ChildNames(t, g);
      var todo := names;
      ghost var done: set<string> := {};
      ghost var before := loaded;
      ChildrenNone(t, rank, g, vp);
      while todo != {}
        invariant todo <= names && done == names - todo
        invariant loaded == before + Children(t, rank, g, vp, done)
        decreases |todo|
      {
        var k :| k in todo;
        ghost var was := loaded;
        LoadChild(t, rank, g, path, vp, k);
        ChildrenStep(t, rank, g, vp, done, k, before, was, loaded);
        todo := todo - {k};
        done := done + {k};
      }
      assert done == names;
    }

    /** One child `key` of the group at `g`: a dataset (a soft link to one included)
        is recorded under `f"{path}/{key}"`, a group (or a soft link to one) is loaded
        in turn under that path, and anything else is passed over. */
    method LoadChild(t: Tree, ghost rank: map<Path, nat>, g: Path, path: string, ghost vp: seq<string>, key: string)
      requires Slashless(t) && SlashlessNames(vp) && path == PathPrefix(vp)
      requires Ranked(t, rank) && g in rank
      modifies this
      ensures loaded == old(loaded) + Children(t, rank, g, vp, {key})
      decreases rank[g], 0
    {
      var c := g + [key];
      var current := path + "/" + key;
      CurrentPath(vp, key);
      var item := H5.Get(t, c);
      if item.Some? && item.value.Dataset? {
        RecordsDataset(t, rank, g, vp, key);
        loaded := loaded[current := item.value.data];
      } else if item.Some? && item.value.Group? {
        var r := if t[c].SoftLink? then t[c].target else c;
        GroupChild(t, rank, g, vp, key, r);
        LoadDatasets(t, rank, r, current, vp + [key]);
      } else {
        OtherChild(t, rank, g, vp, key);
      }
    }
  }

  /** What loading the children of `g` named in `names` records, `vp` being the names
      the walk took to reach `g`. */
  function Children(t: Tree, rank: map<Path, nat>, g: Path, vp: seq<string>, names: set<string>): map<string, Data>
    requires Slashless(t) && SlashlessNames(vp) && Ranked(t, rank) && g in rank
  {
    RecordsOf(t, g, vp, ReachFrom(t, rank, g, names))
  }

  /** Before any child is visited nothing is recorded. */
  lemma ChildrenNone(t: Tree, rank: map<Path, nat>, g: Path, vp: seq<string>)
    requires Slashless(t) && SlashlessNames(vp) && Ranked(t, rank) && g in rank
    ensures Children(t, rank, g, vp, {}) == map[]
  {
    assert ReachFrom(t, rank, g, {}) == {};
  }

  /** Loading one more child adds what that child records. */
  lemma ChildrenStep(t: Tree, rank: map<Path, nat>, g: Path, vp: seq<string>, done: set<string>, k: string,
                     before: map<string, Data>, was: map<string, Data>, now: map<string, Data>)
    requires Slashless(t) && SlashlessNames(vp) && Ranked(t, rank) && g in rank
    requires was == before + Children(t, rank, g, vp, done) && now == was + Children(t, rank, g, vp, {k})
    ensures now == before + Children(t, rank, g, vp, done + {k})
  {
    ReachFromStep(t, rank, g, done, k);
    RecordsUnion(t, g, vp, ReachFrom(t, rank, g, done), ReachFrom(t, rank, g, {k}));
    AddAssoc(before, Children(t, rank, g, vp, done), Children(t, rank, g, vp, {k}));
  }

  lemma EmptyUnion<K, V>(m: map<K, V>)
    ensures map[] + m == m
  {
  }

  lemma AddAssoc<K, V>(a: map<K, V>, b: map<K, V>, c: map<K, V>)
    ensures (a + b) + c == a + (b + c)
  {
  }

  /** A file without soft links to groups is ranked by the number of paths below each
      group, so loading it always ends. */
  lemma LinkFreeRanked(t: Tree)
    requires Valid(t) && forall p | p in t && t[p].SoftLink? :: GroupOf(t, p).None?
    ensures Ranked(t, UnderRank(t)) && [] in UnderRank(t)
  {
    var rank := UnderRank(t);
    forall g, k | g in rank && GroupOf(t, g + [k]).Some?
      ensures GroupOf(t, g + [k]).value in rank && rank[GroupOf(t, g + [k]).value] < rank[g]
    {
      assert GroupOf(t, g + [k]).value == g + [k];
      UnderShrinks(t, g, k);
    }
  }

  /** Each group ranked by the number of paths below it. */
  function UnderRank(t: Tree): map<Path, nat> {
    map g | g in t && t[g].Group? :: |Under(t, g)|
  }

  /** A child group has fewer paths below it. */
  lemma UnderShrinks(t: Tree, p: Path, k: string)
    requires p + [k] in t
    ensures |Under(t, p + [k])| < |Under(t, p)|
  {
    var c := p + [k];
    assert c[..|p|] == p;
    assert c in Under(t, p) && c !in Under(t, c);
    forall q | q in Under(t, c)
      ensures q in Under(t, p)
    {
      assert q[..|p|] == c[..|p|];
    }
    var a, b := Under(t, c), Under(t, p) - {c};
    assert a <= b;
    assert b == a + (b - a) && a * (b - a) == {};
  }

  // ------------------------------------------------------------ what the window shows

  /** What `_load_datasets(file_h5)` records for the whole file. */
  function Loaded(t: Tree, rank: map<Path, nat>): map<string, Data>
    requires Slashless(t) && Ranked(t, rank) && [] in rank
  {
    Children(t, rank, [], [], ChildNames(t, []))
  }

  /** Every path of names leading from the root to a dataset is recorded under its
      text, with that dataset's data. */
  lemma LoadedRecordsReached(t: Tree, rank: map<Path, nat>, v: seq<string>)
    requires Slashless(t) && Ranked(t, rank) && [] in rank && Reaches(t, [], v)
    ensures PathText(v) in Loaded(t, rank) && Loaded(t, rank)[PathText(v)] == DataOf(t, Walk(t, [], v).value)
  {
    ReachComplete(t, rank, [], v);
    assert [] + v == v;
    RecordsHas(t, [], [], ReachFrom(t, rank, [], ChildNames(t, [])), v);
  }

  /** Nothing else is recorded: every key is the text of a path of names leading from
      the root to a dataset, and holds that dataset's data. */
  lemma LoadedOnlyReached(t: Tree, rank: map<Path, nat>, key: string)
    requires Slashless(t) && Ranked(t, rank) && [] in rank && key in Loaded(t, rank)
    ensures exists v | Reaches(t, [], v) :: PathText(v) == key && Loaded(t, rank)[key] == DataOf(t, Walk(t, [], v).value)
  {
    var v :| v in ReachFrom(t, rank, [], ChildNames(t, [])) && PathText([] + v) == key;
    assert [] + v == v;
    LoadedRecordsReached(t, rank, v);
  }

  /** Every dataset of the file, soft links to datasets included, is recorded under
      the text of its own path. */
  lemma LoadedRecordsDatasets(t: Tree, rank: map<Path, nat>, q: Path)
    requires Valid(t) && Slashless(t) && Ranked(t, rank) && [] in rank
    requires q in t && q != [] && DatasetAt(t, q)
    ensures PathText(q) in Loaded(t, rank) && Loaded(t, rank)[PathText(q)] == H5.Get(t, q).value.data
  {
    assert [] + q == q;
    WalkAlong(t, [], q);
    LoadedRecordsReached(t, rank, q);
  }

  /** A soft link to a group is entered: the datasets of the group it names are
      recorded once more, under the link's path. */
  lemma LoadedRecordsLinkedGroup(t: Tree, rank: map<Path, nat>, a: Path, b: Path, w: seq<string>)
    requires Valid(t) && Slashless(t) && Ranked(t, rank) && [] in rank
    requires a in t && a != [] && t[a] == SoftLink(b) && b in t && t[b].Group?
    requires w != [] && b + w in t && DatasetAt(t, b + w)
    ensures PathText(a + w) in Loaded(t, rank) && Loaded(t, rank)[PathText(a + w)] == DataOf(t, b + w)
  {
    assert [] + a == a;
    WalkAlong(t, [], a);
    assert GroupOf(t, a) == Some(b);
    WalkThrough(t, [], a, w, a, b);
    WalkAlong(t, b, w);
    LoadedRecordsReached(t, rank, a + w);
  }

  /** What the loop does to a widget: leave it, show recorded data, or show a text. */
  datatype Shown = Unchanged | ShowsData(data: Data) | ShowsText(text: string)

  /** `dictParamNXsas[key][3]["units"]`, or `""` on the `KeyError` of a missing key or
      of a parameter without units. */
  function DeclaredUnit(params: ParamDict, key: string): string {
    var k := IndexOfKey(params, key);
    if k.Some? && "units" in params[k.value].param.attrs then params[k.value].param.attrs["units"] else ""
  }

  /** The widget `w`, reached with `key` the text of the last label before it. */
  function Fill(loaded: map<string, Data>, params: ParamDict, key: string, w: Widget): Shown {
    match w
    case ValueField(ValueEntry, _) => if key in loaded then ShowsData(loaded[key]) else ShowsText("None")
    case UnitCombo(_) => ShowsText(DeclaredUnit(params, key))
    case _ => Unchanged
  }

  /** The widget loop of `_autofill`, over the widgets in creation order. */
  method FillWidgets(loaded: map<string, Data>, params: ParamDict, ws: seq<Widget>) returns (shown: seq<Shown>)
    ensures |shown| == |ws|
    ensures forall i | 0 <= i < |ws| :: shown[i] == Fill(loaded, params, LastLabel(ws[..i]), ws[i])
  {
    var key := "";
    shown := [];
    var i := 0;
    while i < |ws|
      invariant 0 <= i <= |ws| && |shown| == i
      invariant key == LastLabel(ws[..i])
      invariant forall j | 0 <= j < i :: shown[j] == Fill(loaded, params, LastLabel(ws[..j]), ws[j])
    {
      var w := ws[i];
      ghost var before := key;
      var s: Shown := Unchanged;
      match w {
        case Label(text) =>
          key := text;
        case ValueField(kind, _) =>
          if kind == ValueEntry {
            s := if key in loaded then ShowsData(loaded[key]) else ShowsText("None");
          }
        case UnitCombo(_) =>
          var k := IndexOfKey(params, key);
          var u := "";
          if k.Some? && "units" in params[k.value].param.attrs {
            u := params[k.value].param.attrs["units"];
          }
          s := ShowsText(u);
        case _ =>
      }
      assert s == Fill(loaded, params, before, w);
      assert ws[..i + 1][..i] == ws[..i] && ws[..i + 1][i] == w;
      assert key == LastLabel(ws[..i + 1]);
      shown := shown + [s];
      i := i + 1;
    }
  }

  /** `_autofill`: load the datasets of the file, then fill the widgets. */
  method Autofill(t: Tree, ghost rank: map<Path, nat>, params: ParamDict, ws: seq<Widget>) returns (shown: seq<Shown>)
    requires Valid(t) && Slashless(t) && Ranked(t, rank) && [] in rank
    ensures |shown| == |ws|
    ensures forall i | 0 <= i < |ws| :: shown[i] == Fill(Loaded(t, rank), params, LastLabel(ws[..i]), ws[i])
  {
    var index := new DatasetIndex();
    index.LoadDatasets(t, rank, [], "", []);
    EmptyUnion(Loaded(t, rank));
    shown := FillWidgets(index.loaded, params, ws);
  }

  /** A value entry under the label of a path leading to a dataset shows that
      dataset's data: through a soft link to a group as well. */
  lemma EntryShowsDataset(t: Tree, rank: map<Path, nat>, params: ParamDict, ws: seq<Widget>, i: nat, v: seq<string>, shown: seq<Shown>)
    requires Valid(t) && Slashless(t) && Ranked(t, rank) && [] in rank && Reaches(t, [], v)
    requires i < |ws| && ws[i].ValueField? && ws[i].kind == ValueEntry && LastLabel(ws[..i]) == PathText(v)
    requires |shown| == |ws| && forall j | 0 <= j < |ws| :: shown[j] == Fill(Loaded(t, rank), params, LastLabel(ws[..j]), ws[j])
    ensures shown[i] == ShowsData(DataOf(t, Walk(t, [], v).value))
  {
    LoadedRecordsReached(t, rank, v);
  }

  /** A value entry under a label that no path leading to a dataset has shows
      `"None"`. */
  lemma EntryShowsNone(t: Tree, rank: map<Path, nat>, params: ParamDict, ws: seq<Widget>, i: nat, shown: seq<Shown>)
    requires Valid(t) && Slashless(t) && Ranked(t, rank) && [] in rank
    requires i < |ws| && ws[i].ValueField? && ws[i].kind == ValueEntry
    requires forall v | Reaches(t, [], v) :: PathText(v) != LastLabel(ws[..i])
    requires |shown| == |ws| && forall j | 0 <= j < |ws| :: shown[j] == Fill(Loaded(t, rank), params, LastLabel(ws[..j]), ws[j])
    ensures shown[i] == ShowsText("None")
  {
    if LastLabel(ws[..i]) in Loaded(t, rank) {
      LoadedOnlyReached(t, rank, LastLabel(ws[..i]));
    }
  }

  /** The keys of the NXsas dictionary are paths whose names hold no `/`. */
  predicate SlashlessKeys(params: ParamDict) {
    forall m | 0 <= m < |params| :: |params[m].path| > 0 && SlashlessNames(params[m].path)
  }

  /** A unit box under a parameter's label shows the unit that parameter declares, or
      nothing when it declares none. */
  lemma UnitBoxShowsDeclared(loaded: map<string, Data>, params: ParamDict, ws: seq<Widget>, i: nat, j: nat, shown: seq<Shown>)
    requires Keyed(params) && SlashlessKeys(params) && j < |params|
    requires i < |ws| && ws[i].UnitCombo? && LastLabel(ws[..i]) == PathText(params[j].path)
    requires |shown| == |ws| && forall m | 0 <= m < |ws| :: shown[m] == Fill(loaded, params, LastLabel(ws[..m]), ws[m])
    ensures shown[i] == ShowsText(if "units" in params[j].param.attrs then params[j].param.attrs["units"] else "")
  {
    var k := IndexOfKey(params, PathText(params[j].path));
    PathTextInjective(params[k.value].path, params[j].path);
  }

  /** A unit box under a label that is no parameter's key shows nothing. */
  lemma UnitBoxWithoutParameter(loaded: map<string, Data>, params: ParamDict, ws: seq<Widget>, i: nat, shown: seq<Shown>)
    requires i < |ws| && ws[i].UnitCombo?
    requires forall m | 0 <= m < |params| :: PathText(params[m].path) != LastLabel(ws[..i])
    requires |shown| == |ws| && forall m | 0 <= m < |ws| :: shown[m] == Fill(loaded, params, LastLabel(ws[..m]), ws[m])
    ensures shown[i] == ShowsText("")
  {
  }
}
