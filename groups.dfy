/** `get_group_names` of saxs_nxformat/data_processing.py: the names of the `DATA`
    groups held by `/ENTRY` across a list of NXsas files, each name once, in the
    order they are first met. Opening the files is left out: a file is given as its
    tree. */
module GroupNames {
  import opened Wrappers
  import opened Text
  import opened PyValues
  import opened H5

  // ---------------------------------------------------------------------------
  // The order in which h5py lists the links of a group
  // ---------------------------------------------------------------------------

  /** `a` sorts strictly before `b`, comparing code point by code point: the order
      of the name index HDF5 keeps for the links of a group, in which `keys()`
      lists them. */
  predicate NameBefore(a: string, b: string)
    decreases |a|
  {
    |b| > 0 && (|a| == 0 || a[0] < b[0] || (a[0] == b[0] && NameBefore(a[1..], b[1..])))
  }

  lemma {:induction false} NameBeforeIrreflexive(a: string)
    ensures !NameBefore(a, a)
    decreases |a|
  {
    if |a| > 0 {
      NameBeforeIrreflexive(a[1..]);
    }
  }

  lemma {:induction false} NameBeforeTransitive(a: string, b: string, c: string)
    requires NameBefore(a, b) && NameBefore(b, c)
    ensures NameBefore(a, c)
    decreases |a|
  {
    if |a| > 0 && a[0] == b[0] && b[0] == c[0] {
      NameBeforeTransitive(a[1..], b[1..], c[1..]);
    }
  }

  lemma {:induction false} NameBeforeTotal(a: string, b: string)
    requires a != b
    ensures NameBefore(a, b) || NameBefore(b, a)
    decreases |a|
  {
    if |a| > 0 && |b| > 0 && a[0] == b[0] {
      assert a == [a[0]] + a[1..] && b == [b[0]] + b[1..];
      NameBeforeTotal(a[1..], b[1..]);
    }
  }

  /** `m` is the first of the names `s`. */
  predicate Least(m: string, s: set<string>) {
    m in s && forall x | x in s && x != m :: NameBefore(m, x)
  }

  lemma {:induction false} LeastExists(s: set<string>)
    requires s != {}
    ensures exists m :: Least(m, s)
    decreases |s|
  {
    var x :| x in s;
    if s == {x} {
      assert Least(x, s);
    } else {
      LeastExists(s - {x});
      var m :| Least(m, s - {x});
      if NameBefore(x, m) {
        forall y | y in s && y != x
          ensures NameBefore(x, y)
        {
          if y != m {
            NameBeforeTransitive(x, m, y);
          }
        }
        assert Least(x, s);
      } else {
        NameBeforeTotal(x, m);
        assert Least(m, s);
      }
    }
  }

  lemma LeastUnique(s: set<string>)
    ensures forall m, n | Least(m, s) && Least(n, s) :: m == n
  {
    forall m, n | Least(m, s) && Least(n, s)
      ensures m == n
    {
      if m != n {
        NameBeforeTransitive(m, n, m);
        NameBeforeIrreflexive(m);
      }
    }
  }

  predicate StrictlyAscending(s: seq<string>) {
    forall i, j | 0 <= i < j < |s| :: NameBefore(s[i], s[j])
  }

  predicate Distinct(s: seq<string>) {
    forall i, j | 0 <= i < j < |s| :: s[i] != s[j]
  }

  lemma AscendingDistinct(s: seq<string>)
    requires StrictlyAscending(s)
    ensures Distinct(s)
  {
    forall i, j | 0 <= i < j < |s|
      ensures s[i] != s[j]
    {
      NameBeforeIrreflexive(s[i]);
    }
  }

  /** `keys()` of a group whose links are named `s`. */
  function Ascending(s: set<string>): (r: seq<string>)
    ensures |r| == |s|
    ensures forall x :: x in r <==> x in s
    ensures StrictlyAscending(r)
    decreases |s|
  {
    if s == {} then []
    else
      LeastExists(s);
      LeastUnique(s);
      var m :| Least(m, s);
      [m] + Ascending(s - {m})
  }

  // ---------------------------------------------------------------------------
  // What one file contributes
  // ---------------------------------------------------------------------------

  /** `file_object["/ENTRY"]` as the group whose `keys()` are listed: a missing entry
      is a `KeyError`, a dataset has no `keys` and a soft link names the group it
      leads to. */
  function EntryOf(t: Tree): Result<Path, PyError> {
    var e := H5.Get(t, ["ENTRY"]);
    if e.None? then Err(KeyError("/ENTRY"))
    else if !e.value.Group? then Err(AttributeError("keys"))
    else if t[["ENTRY"]].SoftLink? then Ok(t[["ENTRY"]].target)
    else Ok(["ENTRY"])
  }

  /** The link `name` of the group at `base` leads to a group and the name holds
      `DATA`. */
  predicate DataChild(t: Tree, base: Path, name: string) {
    var n := H5.Get(t, base + [name]);
    n.Some? && n.value.Group? && Contains(name, "DATA")
  }

  /** The test of the inner loop over `keys` (in that order): a link that leads nowhere
      makes `parent_group[name]` raise. */
  function DataGroupsAmong(t: Tree, base: Path, keys: seq<string>): Result<seq<string>, PyError>
    decreases |keys|
  {
    if keys == [] then Ok([])
    else
      var before :- DataGroupsAmong(t, base, keys[..|keys| - 1]);
      var k := keys[|keys| - 1];
      if H5.Get(t, base + [k]).None? then Err(KeyError(k))
      else if DataChild(t, base, k) then Ok(before + [k])
      else Ok(before)
  }

  function FileDataGroups(t: Tree): Result<seq<string>, PyError> {
    var base :- EntryOf(t);
    DataGroupsAmong(t, base, Ascending(ChildNames(t, base)))
  }

  /** What the name test accepts in a file: a link of `/ENTRY` that leads to a group
      and whose name contains `DATA`. */
  predicate IsDataGroup(t: Tree, name: string) {
    && EntryOf(t).Ok?
    && name in ChildNames(t, EntryOf(t).value)
    && DataChild(t, EntryOf(t).value, name)
  }

  // ---------------------------------------------------------------------------
  // The whole list
  // ---------------------------------------------------------------------------

  /** What each file of the list contributes. */
  function Outcomes(files: seq<Tree>): (rs: seq<Result<seq<string>, PyError>>)
    ensures |rs| == |files|
  {
    seq(|files|, i requires 0 <= i < |files| => FileDataGroups(files[i]))
  }

  /** The names of the outcomes `rs`, one after the other, or the first error among
      them. */
  function Collect(rs: seq<Result<seq<string>, PyError>>): Result<seq<string>, PyError>
    decreases |rs|
  {
    if rs == [] then Ok([])
    else
      var before :- Collect(rs[..|rs| - 1]);
      var these :- rs[|rs| - 1];
      Ok(before + these)
  }

  /** The names every file contributes, one file after the other, or the error of the
      first file that raises. */
  function AllDataGroups(files: seq<Tree>): Result<seq<string>, PyError> {
    Collect(Outcomes(files))
  }

  /** The position of the first `x` in `s`. */
  function FirstIndex(s: seq<string>, x: string): (i: nat)
    requires x in s
    ensures i < |s| && s[i] == x && x !in s[..i]
  {
    if s[0] == x then 0
    else
      assert s == [s[0]] + s[1..];
      var i := 1 + FirstIndex(s[1..], x);
      assert s[..i] == [s[0]] + s[1..][..i - 1];
      i
  }

  lemma FirstIndexUnique(s: seq<string>, x: string, i: nat)
    requires i < |s| && s[i] == x && x !in s[..i]
    ensures FirstIndex(s, x) == i
  {
  }

  /** `s` with each name kept only where it first appears: what the guard
      `name not in groups` leaves of the names met. */
  function FirstAppearances(s: seq<string>): (r: seq<string>)
    ensures forall x :: x in r <==> x in s
    decreases |s|
  {
    if s == [] then []
    else
      var p := s[..|s| - 1];
      var y := s[|s| - 1];
      var r := FirstAppearances(p);
      assert s == p + [y];
      if y in r then r else r + [y]
  }

  /** The names kept are all different and keep the order of their first
      appearances. */
  lemma {:induction false} FirstAppearancesOrder(s: seq<string>, q: seq<string>)
    requires q == FirstAppearances(s)
    ensures Distinct(q)
    ensures forall i, j | 0 <= i < j < |q| :: FirstIndex(s, q[i]) < FirstIndex(s, q[j])
    decreases |s|
  {
    if s != [] {
      var p := s[..|s| - 1];
      var y := s[|s| - 1];
      var r := FirstAppearances(p);
      FirstAppearancesOrder(p, r);
      assert s == p + [y];
      forall x | x in p
        ensures FirstIndex(s, x) == FirstIndex(p, x)
      {
        var i := FirstIndex(p, x);
        assert s[..i] == p[..i];
        FirstIndexUnique(s, x, i);
      }
      if y !in r {
        assert s[..|p|] == p;
        FirstIndexUnique(s, y, |p|);
        assert q == r + [y];
      } else {
        assert q == r;
      }
      forall i, j | 0 <= i < j < |q|
        ensures FirstIndex(s, q[i]) < FirstIndex(s, q[j])
      {
        assert q[i] == r[i] && r[i] in p;
        assert FirstIndex(s, q[i]) == FirstIndex(p, r[i]);
        if j < |r| {
          assert q[j] == r[j] && r[j] in p;
          assert FirstIndex(s, q[j]) == FirstIndex(p, r[j]);
          assert FirstIndex(p, r[i]) < FirstIndex(p, r[j]);
        } else {
          assert q[j] == y && FirstIndex(s, y) == |p|;
          assert FirstIndex(p, r[i]) < |p|;
        }
      }
    }
  }

  /** `get_group_names(file_list)` */
  function GroupNames(files: seq<Tree>): Result<seq<string>, PyError> {
    var all :- AllDataGroups(files);
    Ok(FirstAppearances(all))
  }

  // ---------------------------------------------------------------------------
  // The loops of the source
  // ---------------------------------------------------------------------------

  lemma {:induction false} AmongStops(t: Tree, base: Path, keys: seq<string>, n: nat)
    requires 0 < n <= |keys| && DataGroupsAmong(t, base, keys[..n]).Err?
    ensures DataGroupsAmong(t, base, keys) == DataGroupsAmong(t, base, keys[..n])
    decreases |keys| - n
  {
    if n == |keys| {
      assert keys[..n] == keys;
    } else {
      assert keys[..n + 1][..n] == keys[..n];
      AmongStops(t, base, keys, n + 1);
    }
  }

  lemma {:induction false} CollectStops(rs: seq<Result<seq<string>, PyError>>, n: nat)
    requires 0 < n <= |rs| && Collect(rs[..n]).Err?
    ensures Collect(rs) == Collect(rs[..n])
    decreases |rs| - n
  {
    if n == |rs| {
      assert rs[..n] == rs;
    } else {
      assert rs[..n + 1][..n] == rs[..n];
      CollectStops(rs, n + 1);
    }
  }

  lemma AmongStep(t: Tree, base: Path, keys: seq<string>, j: nat, here: seq<string>)
    requires j < |keys| && DataGroupsAmong(t, base, keys[..j]) == Ok(here)
    requires H5.Get(t, base + [keys[j]]).Some?
    ensures DataGroupsAmong(t, base, keys[..j + 1]) ==
      Ok(if DataChild(t, base, keys[j]) then here + [keys[j]] else here)
  {
    assert keys[..j + 1][..j] == keys[..j];
  }

  lemma CollectStep(rs: seq<Result<seq<string>, PyError>>, i: nat, seen: seq<string>)
    requires i < |rs| && Collect(rs[..i]) == Ok(seen) && rs[i].Ok?
    ensures Collect(rs[..i + 1]) == Ok(seen + rs[i].value)
  {
    assert rs[..i + 1][..i] == rs[..i];
  }

  lemma FirstAppearancesStep(s: seq<string>, here: seq<string>, y: string)
    ensures FirstAppearances(s + (here + [y])) ==
      if y in s + here then FirstAppearances(s + here) else FirstAppearances(s + here) + [y]
  {
    assert s + (here + [y]) == (s + here) + [y];
    assert ((s + here) + [y])[..|s + here|] == s + here;
  }

  /** The inner loop over `parent_group.keys()`: `groups` holds the names kept from
      the names `seen` so far, and grows by the `DATA` groups among `keys` that it does
      not hold yet. */
  method AddDataGroups(t: Tree, base: Path, keys: seq<string>, groups: seq<string>, ghost seen: seq<string>)
    returns (r: Result<seq<string>, PyError>)
    requires groups == FirstAppearances(seen)
    ensures r == (var here :- DataGroupsAmong(t, base, keys); Ok(FirstAppearances(seen + here)))
  {
    var names := groups;
    ghost var here: seq<string> := [];
    assert seen + here == seen && keys[..0] == [];
    for j := 0 to |keys|
      invariant DataGroupsAmong(t, base, keys[..j]) == Ok(here)
      invariant names == FirstAppearances(seen + here)
    {
      var name := keys[j];
      var node := H5.Get(t, base + [name]);
      if node.None? {
        assert DataGroupsAmong(t, base, keys[..j + 1]) == Err(KeyError(name)) by {
          assert keys[..j + 1][..j] == keys[..j];
        }
        AmongStops(t, base, keys, j + 1);
        return Err(KeyError(name));
      }
      AmongStep(t, base, keys, j, here);
      if node.value.Group? && Contains(name, "DATA") {
        FirstAppearancesStep(seen, here, name);
        if name !in names {
          names := names + [name];
        }
        here := here + [name];
      }
    }
    assert keys[..|keys|] == keys;
    r := Ok(names);
  }

  method GetGroupNames(files: seq<Tree>) returns (r: Result<seq<string>, PyError>)
    ensures r == GroupNames(files)
  {
    var groups: seq<string> := [];
    ghost var seen: seq<string> := [];
    ghost var rs := Outcomes(files);
    for i := 0 to |files|
      invariant Collect(rs[..i]) == Ok(seen)
      invariant groups == FirstAppearances(seen)
    {
      var t := files[i];
      assert rs[i] == FileDataGroups(t);
      var entry := H5.Get(t, ["ENTRY"]);
      if entry.None? || !entry.value.Group? {
        var e := if entry.None? then KeyError("/ENTRY") else AttributeError("keys");
        assert rs[i] == Err(e);
        assert Collect(rs[..i + 1]) == Err(e) by {
          assert rs[..i + 1][..i] == rs[..i];
        }
        CollectStops(rs, i + 1);
        return Err(e);
      }
      var base := if t[["ENTRY"]].SoftLink? then t[["ENTRY"]].target else ["ENTRY"];
      var keys := Ascending(ChildNames(t, base));
      assert rs[i] == DataGroupsAmong(t, base, keys);
      var added := AddDataGroups(t, base, keys, groups, seen);
      if added.Err? {
        assert Collect(rs[..i + 1]) == Err(added.error) by {
          assert rs[..i + 1][..i] == rs[..i];
        }
        CollectStops(rs, i + 1);
        return Err(added.error);
      }
      CollectStep(rs, i, seen);
      seen := seen + rs[i].value;
      groups := added.value;
    }
    assert rs[..|files|] == rs;
    r := Ok(groups);
  }

  // ---------------------------------------------------------------------------
  // What the result holds
  // ---------------------------------------------------------------------------

  lemma {:induction false} AmongExactly(t: Tree, base: Path, keys: seq<string>, s: seq<string>)
    requires DataGroupsAmong(t, base, keys) == Ok(s)
    ensures forall x :: x in s <==> x in keys && DataChild(t, base, x)
    ensures forall k | k in keys :: H5.Get(t, base + [k]).Some?
    decreases |keys|
  {
    if keys != [] {
      var p := keys[..|keys| - 1];
      assert keys == p + [keys[|keys| - 1]];
      AmongExactly(t, base, p, DataGroupsAmong(t, base, p).value);
    }
  }

  lemma {:induction false} AmongAscending(t: Tree, base: Path, keys: seq<string>, s: seq<string>)
    requires DataGroupsAmong(t, base, keys) == Ok(s) && StrictlyAscending(keys)
    ensures StrictlyAscending(s)
    decreases |keys|
  {
    if keys != [] {
      var p := keys[..|keys| - 1];
      var k := keys[|keys| - 1];
      var before := DataGroupsAmong(t, base, p).value;
      AmongAscending(t, base, p, before);
      AmongExactly(t, base, p, before);
      if s != before {
        assert s == before + [k];
        forall i | 0 <= i < |before|
          ensures NameBefore(before[i], k)
        {
          assert before[i] in p;
          var j :| 0 <= j < |p| && p[j] == before[i];
          assert keys[j] == p[j];
        }
      }
    }
  }

  /** A link that leads nowhere stops the inner loop with a `KeyError` naming it; the
      first such link in `keys` order is the one reported. */
  lemma {:induction false} AmongFails(t: Tree, base: Path, keys: seq<string>)
    requires DataGroupsAmong(t, base, keys).Err?
    ensures exists j | 0 <= j < |keys| ::
      && H5.Get(t, base + [keys[j]]).None?
      && DataGroupsAmong(t, base, keys) == Err(KeyError(keys[j]))
      && forall i | 0 <= i < j :: H5.Get(t, base + [keys[i]]).Some?
    decreases |keys|
  {
    var p := keys[..|keys| - 1];
    var n := |keys| - 1;
    if DataGroupsAmong(t, base, p).Err? {
      AmongFails(t, base, p);
      var j :| 0 <= j < |p| && H5.Get(t, base + [p[j]]).None?
        && DataGroupsAmong(t, base, p) == Err(KeyError(p[j]))
        && forall i | 0 <= i < j :: H5.Get(t, base + [p[i]]).Some?;
      assert keys[j] == p[j];
      assert forall i | 0 <= i < j :: keys[i] == p[i];
    } else {
      AmongExactly(t, base, p, DataGroupsAmong(t, base, p).value);
      assert forall i | 0 <= i < n :: keys[i] in p;
      assert H5.Get(t, base + [keys[n]]).None?;
    }
  }

  /** One file contributes exactly its `DATA` groups, in ascending name order. */
  lemma FileExactly(t: Tree, s: seq<string>)
    requires FileDataGroups(t) == Ok(s)
    ensures forall x :: x in s <==> IsDataGroup(t, x)
    ensures StrictlyAscending(s)
  {
    var base := EntryOf(t).value;
    var keys := Ascending(ChildNames(t, base));
    AmongExactly(t, base, keys, s);
    AmongAscending(t, base, keys, s);
  }

  /** A file raises exactly when `/ENTRY` is missing or not a group, or one of its links
      leads nowhere. */
  lemma FileFailsIff(t: Tree)
    ensures FileDataGroups(t).Err? <==>
      || EntryOf(t).Err?
      || exists k | k in ChildNames(t, EntryOf(t).value) :: H5.Get(t, EntryOf(t).value + [k]).None?
  {
    if EntryOf(t).Ok? {
      var base := EntryOf(t).value;
      var keys := Ascending(ChildNames(t, base));
      var r := DataGroupsAmong(t, base, keys);
      if r.Ok? {
        AmongExactly(t, base, keys, r.value);
      } else {
        AmongFails(t, base, keys);
        var j :| 0 <= j < |keys| && H5.Get(t, base + [keys[j]]).None?;
        assert keys[j] in ChildNames(t, base);
      }
    }
  }

  lemma {:induction false} CollectExactly(rs: seq<Result<seq<string>, PyError>>, s: seq<string>)
    requires Collect(rs) == Ok(s)
    ensures forall i | 0 <= i < |rs| :: rs[i].Ok?
    ensures forall x :: x in s <==> exists i :: 0 <= i < |rs| && rs[i].Ok? && x in rs[i].value
    decreases |rs|
  {
    if rs != [] {
      var p := rs[..|rs| - 1];
      var n := |rs| - 1;
      var before := Collect(p).value;
      CollectExactly(p, before);
      assert forall i | 0 <= i < n :: rs[i] == p[i];
      assert s == before + rs[n].value;
    }
  }

  lemma {:induction false} CollectFails(rs: seq<Result<seq<string>, PyError>>)
    requires Collect(rs).Err?
    ensures exists i | 0 <= i < |rs| :: Collect(rs) == rs[i] && forall j | 0 <= j < i :: rs[j].Ok?
    decreases |rs|
  {
    var p := rs[..|rs| - 1];
    var n := |rs| - 1;
    assert forall i | 0 <= i < n :: rs[i] == p[i];
    if Collect(p).Err? {
      CollectFails(p);
    } else {
      CollectExactly(p, Collect(p).value);
      assert Collect(rs) == rs[n];
    }
  }

  /** With every file read, the names met are the `DATA` groups of all the files. */
  lemma AllExactly(files: seq<Tree>, s: seq<string>)
    requires AllDataGroups(files) == Ok(s)
    ensures forall f | 0 <= f < |files| :: FileDataGroups(files[f]).Ok?
    ensures forall x :: x in s <==> exists f :: 0 <= f < |files| && IsDataGroup(files[f], x)
  {
    var rs := Outcomes(files);
    CollectExactly(rs, s);
    assert forall f | 0 <= f < |files| :: rs[f] == FileDataGroups(files[f]);
    forall x | x in s
      ensures exists f :: 0 <= f < |files| && IsDataGroup(files[f], x)
    {
      var f :| 0 <= f < |rs| && rs[f].Ok? && x in rs[f].value;
      FileExactly(files[f], rs[f].value);
    }
    forall x, f | 0 <= f < |files| && IsDataGroup(files[f], x)
      ensures x in s
    {
      FileExactly(files[f], rs[f].value);
    }
  }

  /** The list raises exactly when one of its files does, and the error is that of the
      first file that raises. */
  lemma AllFails(files: seq<Tree>)
    requires AllDataGroups(files).Err?
    ensures exists f | 0 <= f < |files| ::
      && AllDataGroups(files) == FileDataGroups(files[f])
      && forall g | 0 <= g < f :: FileDataGroups(files[g]).Ok?
  {
    var rs := Outcomes(files);
    CollectFails(rs);
    var f :| 0 <= f < |rs| && Collect(rs) == rs[f] && forall j | 0 <= j < f :: rs[j].Ok?;
    assert forall g | 0 <= g < f :: rs[g] == FileDataGroups(files[g]);
    assert rs[f] == FileDataGroups(files[f]);
  }

  /** The names returned are the `DATA` groups of `/ENTRY` over all the files, each
      once. */
  lemma GroupNamesExactly(files: seq<Tree>, r: seq<string>)
    requires GroupNames(files) == Ok(r)
    ensures forall x :: x in r <==> exists f :: 0 <= f < |files| && IsDataGroup(files[f], x)
    ensures Distinct(r)
  {
    AllExactly(files, AllDataGroups(files).value);
    FirstAppearancesOrder(AllDataGroups(files).value, r);
  }

  /** The list raises if and only if one of its files raises. */
  lemma GroupNamesFailIff(files: seq<Tree>)
    ensures GroupNames(files).Err? <==> exists f :: 0 <= f < |files| && FileDataGroups(files[f]).Err?
  {
    if AllDataGroups(files).Ok? {
      AllExactly(files, AllDataGroups(files).value);
    } else {
      AllFails(files);
    }
  }

  lemma {:induction false} FirstAppearancesOfDistinct(s: seq<string>)
    requires Distinct(s)
    ensures FirstAppearances(s) == s
    decreases |s|
  {
    if s != [] {
      var p := s[..|s| - 1];
      FirstAppearancesOfDistinct(p);
      assert s == p + [s[|s| - 1]];
    }
  }

  /** For one file the result is its `DATA` groups in the order `keys()` lists them. */
  lemma OneFile(t: Tree)
    ensures GroupNames([t]) == FileDataGroups(t)
    ensures GroupNames([t]).Ok? ==> StrictlyAscending(GroupNames([t]).value)
  {
    var rs := Outcomes([t]);
    assert rs == [FileDataGroups(t)];
    assert rs[..0] == [];
    if FileDataGroups(t).Ok? {
      var s := FileDataGroups(t).value;
      assert [] + s == s;
      assert Collect(rs) == Ok(s);
      FileExactly(t, s);
      AscendingDistinct(s);
      FirstAppearancesOfDistinct(s);
    } else {
      assert Collect(rs) == FileDataGroups(t);
    }
  }
}
