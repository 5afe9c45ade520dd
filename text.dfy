/** Python `str` operations used by the repository, over `seq<char>`.
    Case mapping and digit classes are those of ASCII. */
module Text {

  predicate IsDigit(c: char) { '0' <= c <= '9' }

  predicate IsLowerLetter(c: char) { 'a' <= c <= 'z' }

  predicate AllDigits(s: string) {
    forall i | 0 <= i < |s| :: IsDigit(s[i])
  }

  function LowerChar(c: char): char {
    if 'A' <= c <= 'Z' then (c as int + 32) as char else c
  }

  function UpperChar(c: char): char {
    if 'a' <= c <= 'z' then (c as int - 32) as char else c
  }

  /** `s.lower()` */
  function Lower(s: string): (r: string)
    ensures |r| == |s|
  {
    seq(|s|, i requires 0 <= i < |s| => LowerChar(s[i]))
  }

  /** `s.upper()` */
  function Upper(s: string): (r: string)
    ensures |r| == |s|
  {
    seq(|s|, i requires 0 <= i < |s| => UpperChar(s[i]))
  }

  /** The characters `str.isspace` accepts below 128. */
  predicate IsSpace(c: char) {
    c == ' ' || 9 <= c as int <= 13 || 28 <= c as int <= 31
  }

  function StripLeft(s: string, cs: set<char>): (r: string)
    ensures |r| <= |s|
    ensures |r| > 0 ==> r[0] !in cs
  {
    if |s| > 0 && s[0] in cs then StripLeft(s[1..], cs) else s
  }

  function StripRight(s: string, cs: set<char>): (r: string)
    ensures |r| <= |s|
    ensures |r| > 0 ==> r[|r| - 1] !in cs
  {
    if |s| > 0 && s[|s| - 1] in cs then StripRight(s[..|s| - 1], cs) else s
  }

  /** `s.strip(chars)`: the argument is a set of characters, removed from both ends. */
  function Strip(s: string, cs: set<char>): string {
    StripRight(StripLeft(s, cs), cs)
  }

  function SpaceChars(): set<char> {
    set c: char | '\t' <= c <= ' ' && IsSpace(c)
  }

  /** `s.strip()` */
  function StripSpace(s: string): string {
    Strip(s, SpaceChars())
  }

  predicate StartsWith(s: string, p: string) {
    |p| <= |s| && s[..|p|] == p
  }

  predicate EndsWith(s: string, p: string) {
    |p| <= |s| && s[|s| - |p|..] == p
  }

  /** `s.removeprefix(p)` */
  function RemovePrefix(s: string, p: string): string {
    if StartsWith(s, p) then s[|p|..] else s
  }

  /** `s.removesuffix(p)` */
  function RemoveSuffix(s: string, p: string): string {
    if EndsWith(s, p) then s[..|s| - |p|] else s
  }

  /** `sub in s` */
  predicate Contains(s: string, sub: string) {
    exists i | 0 <= i <= |s| - |sub| :: OccursAt(s, sub, i)
  }

  predicate OccursAt(s: string, sub: string, i: nat) {
    i + |sub| <= |s| && s[i..i + |sub|] == sub
  }

  /** Index of the first `c` in `s`, or `|s|` when there is none. */
  function IndexOf(s: string, c: char): (k: nat)
    ensures k <= |s|
    ensures k < |s| ==> s[k] == c
    ensures c !in s[..k]
  {
    if |s| == 0 then 0
    else if s[0] == c then 0
    else 1 + IndexOf(s[1..], c)
  }

  /** `s.split(c)` for a one-character separator. */
  function Split(s: string, c: char): (parts: seq<string>)
    ensures |parts| > 0
    ensures forall i | 0 <= i < |parts| :: c !in parts[i]
    decreases |s|
  {
    var k := IndexOf(s, c);
    if k == |s| then [s] else [s[..k]] + Split(s[k + 1..], c)
  }

  /** `c.join(parts)` for a one-character separator. */
  function Join(parts: seq<string>, c: char): string
    decreases |parts|
  {
    if |parts| == 0 then ""
    else if |parts| == 1 then parts[0]
    else parts[0] + [c] + Join(parts[1..], c)
  }

  /** `s.rsplit(c, 2)`: at most two splits, counted from the right. */
  function RSplit2(s: string, c: char): seq<string> {
    var parts := Split(s, c);
    var n := |parts|;
    if n <= 3 then parts else [Join(parts[..n - 2], c), parts[n - 2], parts[n - 1]]
  }

  /** Value of a string of decimal digits. */
  function DigitsValue(s: string): nat
    requires AllDigits(s)
  {
    if |s| == 0 then 0
    else 10 * DigitsValue(s[..|s| - 1]) + (s[|s| - 1] as int - '0' as int)
  }

  function Pow10(n: nat): (r: nat)
    ensures r >= 1
  {
    if n == 0 then 1 else 10 * Pow10(n - 1)
  }

  /** `str(n)` for a natural number. */
  function NatToString(n: nat): (s: string)
    ensures |s| > 0 && AllDigits(s)
  {
    var d := [('0' as int + n % 10) as char];
    if n < 10 then d else NatToString(n / 10) + d
  }

  /** `str(i)` for an integer. */
  function IntToString(i: int): (s: string)
    ensures |s| > 0
  {
    if i < 0 then "-" + NatToString(-i) else NatToString(i)
  }

  /** `str(b)` for a boolean. */
  function BoolToString(b: bool): string {
    if b then "True" else "False"
  }

  /** `os.path.join(a, b)` on POSIX. */
  function PathJoin(a: string, b: string): string {
    if StartsWith(b, "/") then b
    else if a == "" || EndsWith(a, "/") then a + b
    else a + "/" + b
  }

  // ---------------------------------------------------------------- lemmas

  /** Printing then reading a natural number gives it back. */
  lemma {:induction false} DigitsOfNatToString(n: nat)
    ensures DigitsValue(NatToString(n)) == n
  {
    var d := [('0' as int + n % 10) as char];
    if n >= 10 {
      var s := NatToString(n / 10) + d;
      assert s[..|s| - 1] == NatToString(n / 10);
      DigitsOfNatToString(n / 10);
    }
  }

  lemma NatToStringHasNoSeparator(n: nat, c: char)
    requires !IsDigit(c)
    ensures c !in NatToString(n)
  {
  }

  /** Splitting undoes joining fields that do not contain the separator. */
  lemma {:induction false} SplitJoin(parts: seq<string>, c: char)
    requires |parts| > 0
    requires forall i | 0 <= i < |parts| :: c !in parts[i]
    ensures Split(Join(parts, c), c) == parts
    decreases |parts|
  {
    if |parts| == 1 {
      IndexOfAbsent(parts[0], c);
    } else {
      var s := Join(parts, c);
      var p0 := parts[0];
      IndexOfAbsent(p0, c);
      IndexOfAt(p0, [c] + Join(parts[1..], c), c);
      assert s == p0 + ([c] + Join(parts[1..], c));
      assert IndexOf(s, c) == |p0|;
      assert s[..|p0|] == p0;
      assert s[|p0| + 1..] == Join(parts[1..], c);
      SplitJoin(parts[1..], c);
    }
  }

  /** Joining undoes splitting. */
  lemma {:induction false} JoinSplit(s: string, c: char)
    ensures Join(Split(s, c), c) == s
    decreases |s|
  {
    var k := IndexOf(s, c);
    if k < |s| {
      JoinSplit(s[k + 1..], c);
      var rest := Split(s[k + 1..], c);
      assert Split(s, c) == [s[..k]] + rest;
      assert ([s[..k]] + rest)[1..] == rest;
      assert s == s[..k] + [c] + s[k + 1..];
    }
  }

  lemma {:induction false} IndexOfAbsent(s: string, c: char)
    requires c !in s
    ensures IndexOf(s, c) == |s|
    decreases |s|
  {
    if |s| > 0 {
      assert s[0] in s;
      assert forall x | x in s[1..] :: x in s;
      IndexOfAbsent(s[1..], c);
    }
  }

  lemma {:induction false} IndexOfAt(a: string, b: string, c: char)
    requires c !in a && |b| > 0 && b[0] == c
    ensures IndexOf(a + b, c) == |a|
    decreases |a|
  {
    if |a| > 0 {
      assert a[0] in a;
      assert (a + b)[1..] == a[1..] + b;
      assert forall x | x in a[1..] :: x in a;
      IndexOfAt(a[1..], b, c);
    } else {
      assert a + b == b;
    }
  }

  /** A first field free of the separator splits off first. */
  lemma SplitAfter(a: string, b: string, c: char)
    requires c !in a
    ensures Split(a + [c] + b, c) == [a] + Split(b, c)
  {
    IndexOfAt(a, [c] + b, c);
    assert a + [c] + b == a + ([c] + b);
    assert (a + [c] + b)[..|a|] == a;
    assert (a + [c] + b)[|a| + 1..] == b;
  }

  /** Splitting at one separator splits the two sides independently. */
  lemma {:induction false} SplitConcat(a: string, b: string, c: char)
    ensures Split(a + [c] + b, c) == Split(a, c) + Split(b, c)
    decreases |a|
  {
    var k := IndexOf(a, c);
    if k == |a| {
      assert a[..k] == a;
      SplitAfter(a, b, c);
    } else {
      var x := a + [c] + b;
      assert x[..k] == a[..k];
      IndexOfAt(a[..k], a[k..] + [c] + b, c);
      assert x == a[..k] + (a[k..] + [c] + b);
      assert IndexOf(x, c) == k;
      assert x[k + 1..] == a[k + 1..] + [c] + b;
      SplitConcat(a[k + 1..], b, c);
      SplitAt(x, c, k);
      SplitAt(a, c, k);
      ConsAppend(a[..k], Split(a[k + 1..], c), Split(b, c));
    }
  }

  lemma SplitAt(s: string, c: char, k: nat)
    requires k == IndexOf(s, c) && k < |s|
    ensures Split(s, c) == [s[..k]] + Split(s[k + 1..], c)
  {
  }

  lemma ConsAppend(h: string, xs: seq<string>, ys: seq<string>)
    ensures [h] + (xs + ys) == [h] + xs + ys
  {
  }

  /** Fields joined with a separator they do not contain split apart again, here written
      as `a / b`. */
  lemma SplitPath(a: string, b: string)
    requires |a| > 0 && !EndsWith(a, "/") && !StartsWith(b, "/")
    ensures PathJoin(a, b) == a + ['/'] + b
    ensures Split(PathJoin(a, b), '/') == Split(a, '/') + Split(b, '/')
  {
    SplitConcat(a, b, '/');
  }

  /** `lstrip` keeps a suffix of its argument. */
  lemma {:induction false} StripLeftSuffix(s: string, cs: set<char>)
    ensures var r := StripLeft(s, cs); r == s[|s| - |r|..]
    decreases |s|
  {
    if |s| > 0 && s[0] in cs {
      StripLeftSuffix(s[1..], cs);
    }
  }

  /** `rstrip` keeps a prefix of its argument. */
  lemma {:induction false} StripRightPrefix(s: string, cs: set<char>)
    ensures var r := StripRight(s, cs); r == s[..|r|]
    decreases |s|
  {
    if |s| > 0 && s[|s| - 1] in cs {
      StripRightPrefix(s[..|s| - 1], cs);
    }
  }

  /** Removing trailing characters of a set stops at the first one outside it. */
  lemma {:induction false} StripRightTail(a: string, b: string, cs: set<char>)
    requires |a| > 0 && a[|a| - 1] !in cs
    requires forall i | 0 <= i < |b| :: b[i] in cs
    ensures StripRight(a + b, cs) == a
    decreases |b|
  {
    if |b| > 0 {
      var x := a + b;
      assert x[..|x| - 1] == a + b[..|b| - 1];
      StripRightTail(a, b[..|b| - 1], cs);
    } else {
      assert a + b == a;
    }
  }

  /** `(a + b).strip(cs)` is `a` when `a` ends outside `cs` on both sides and `b` lies in it. */
  lemma StripTail(a: string, b: string, cs: set<char>)
    requires |a| > 0 && a[0] !in cs && a[|a| - 1] !in cs
    requires forall i | 0 <= i < |b| :: b[i] in cs
    ensures Strip(a + b, cs) == a
  {
    assert (a + b)[0] == a[0];
    StripRightTail(a, b, cs);
  }

  /** The text after the last separator is the last field. */
  lemma {:induction false} SplitLast(s: string, b: string, c: char)
    requires c !in b
    ensures var parts := Split(s + [c] + b, c); parts[|parts| - 1] == b
    decreases |s|
  {
    var x := s + [c] + b;
    var k := IndexOf(x, c);
    assert x[|s|] == c;
    if k == |s| {
      assert x[k + 1..] == b;
      IndexOfAbsent(b, c);
    } else {
      assert x[k + 1..] == s[k + 1..] + [c] + b;
      SplitLast(s[k + 1..], b, c);
    }
  }

  /** Appending and removing a suffix cancel. */
  lemma RemoveAppendedSuffix(s: string, p: string)
    ensures RemoveSuffix(s + p, p) == s
  {
    assert (s + p)[|s + p| - |p|..] == p;
    assert (s + p)[..|s + p| - |p|] == s;
  }

  /** Lower-casing is idempotent. */
  lemma LowerIdempotent(s: string)
    ensures Lower(Lower(s)) == Lower(s)
  {
  }
}
