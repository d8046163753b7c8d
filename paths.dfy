/**
 * Filesystem paths as Rust's `std::path` treats them on Unix: a path is
 * absolute or relative and has a sequence of normal components. Paths are
 * ordered component by component with the root directory before every
 * normal component and normal components compared as strings, which is
 * how `Path`'s `Ord` compares them. `PushStr` is `PathBuf::push` on the
 * displayed text of a path.
 */
module Paths {
  import opened Wrappers
  import opened Orders

  datatype Path = Path(absolute: bool, names: seq<string>)

  datatype Component = RootDir | Normal(name: string)

  function Normals(names: seq<string>): (cs: seq<Component>)
    ensures |cs| == |names| && forall i :: 0 <= i < |names| ==> cs[i] == Normal(names[i])
  {
    seq(|names|, i requires 0 <= i < |names| => Normal(names[i]))
  }

  /** What `Path::components` yields: the root directory of an absolute path, then its names. */
  function Components(p: Path): (cs: seq<Component>)
    ensures p.absolute <==> (cs != [] && cs[0] == RootDir)
  {
    (if p.absolute then [RootDir] else []) + Normals(p.names)
  }

  lemma ComponentsInjective(p: Path, q: Path)
    requires Components(p) == Components(q)
    ensures p == q
  {
    assert p.absolute == q.absolute;
    var k := if p.absolute then 1 else 0;
    assert Components(p)[k..] == Normals(p.names);
    assert Components(q)[k..] == Normals(q.names);
    assert |p.names| == |q.names|;
    forall i | 0 <= i < |p.names| ensures p.names[i] == q.names[i] {
      assert Normals(p.names)[i] == Normals(q.names)[i];
    }
  }

  predicate CharLess(a: char, b: char) {
    a < b
  }

  /** Byte-wise string order; on UTF-8 text it coincides with code point order. */
  predicate StrLess(a: string, b: string) {
    LexLess(a, b, CharLess)
  }

  predicate ComponentLess(c: Component, d: Component) {
    match (c, d)
    case (RootDir, Normal(_)) => true
    case (Normal(x), Normal(y)) => StrLess(x, y)
    case _ => false
  }

  predicate PathLess(p: Path, q: Path) {
    LexLess(Components(p), Components(q), ComponentLess)
  }

  lemma CharLessIsStrictTotalOrder()
    ensures IsStrictTotalOrder(CharLess)
  {
  }

  lemma StrLessIsStrictTotalOrder()
    ensures IsStrictTotalOrder(StrLess)
  {
    CharLessIsStrictTotalOrder();
    forall x: string ensures !StrLess(x, x) {
      LexIrreflexive(x, CharLess);
    }
    forall x: string, y: string, z: string | StrLess(x, y) && StrLess(y, z) ensures StrLess(x, z) {
      LexTransitive(x, y, z, CharLess);
    }
    forall x: string, y: string | x != y ensures StrLess(x, y) || StrLess(y, x) {
      LexTotal(x, y, CharLess);
    }
  }

  lemma ComponentLessIsStrictTotalOrder()
    ensures IsStrictTotalOrder(ComponentLess)
  {
    StrLessIsStrictTotalOrder();
  }

  lemma PathLessIsStrictTotalOrder()
    ensures IsStrictTotalOrder(PathLess)
  {
    ComponentLessIsStrictTotalOrder();
    forall p: Path ensures !PathLess(p, p) {
      LexIrreflexive(Components(p), ComponentLess);
    }
    forall p: Path, q: Path, r: Path | PathLess(p, q) && PathLess(q, r) ensures PathLess(p, r) {
      LexTransitive(Components(p), Components(q), Components(r), ComponentLess);
    }
    forall p: Path, q: Path | p != q ensures PathLess(p, q) || PathLess(q, p) {
      if Components(p) == Components(q) {
        ComponentsInjective(p, q);
      }
      LexTotal(Components(p), Components(q), ComponentLess);
    }
  }

  /** `p.join(rel)` for a relative path `rel` given by its components. */
  function Join(p: Path, rel: seq<string>): (r: Path)
    ensures r.absolute == p.absolute && |r.names| == |p.names| + |rel|
    ensures r.names[..|p.names|] == p.names && r.names[|p.names|..] == rel
  {
    Path(p.absolute, p.names + rel)
  }

  /** `Path::file_name`: the last component, if there is one. */
  function FileName(p: Path): (r: Option<string>)
    ensures r.None? <==> p.names == []
    ensures r.Some? ==> r.value == p.names[|p.names| - 1]
  {
    if p.names == [] then None else Some(p.names[|p.names| - 1])
  }

  /**
   * The ancestor of `p` that keeps its first `k` components; `Path::ancestors`
   * yields these for `k` from `|p.names|` down to 0, `p` itself first.
   */
  function Ancestor(p: Path, k: nat): (r: Path)
    requires k <= |p.names|
    ensures r.absolute == p.absolute && |r.names| == k
    ensures forall i :: 0 <= i < k ==> r.names[i] == p.names[i]
  {
    Path(p.absolute, p.names[..k])
  }

  /** A component as `Path::components` yields it: not empty and free of separators. */
  predicate IsComponentName(n: string) {
    n != [] && '/' !in n
  }

  function JoinNames(ns: seq<string>): string {
    if ns == [] then []
    else if |ns| == 1 then ns[0]
    else JoinNames(ns[..|ns| - 1]) + "/" + ns[|ns| - 1]
  }

  /** `Path::display` on Unix: a leading separator for an absolute path, then the components separated by `/`. */
  function Display(p: Path): string {
    (if p.absolute then "/" else "") + JoinNames(p.names)
  }

  predicate IsAbsoluteStr(s: string) {
    |s| > 0 && s[0] == '/'
  }

  /**
   * The text of `PathBuf::from(base).join(rel)`: an absolute `rel` replaces
   * `base`; otherwise `rel` is appended, with a separator unless `base` is
   * empty or already ends in one.
   */
  function PushStr(base: string, rel: string): (r: string)
    ensures IsAbsoluteStr(rel) ==> r == rel
    ensures !IsAbsoluteStr(rel) ==> |base| + |rel| <= |r| <= |base| + 1 + |rel|
    ensures !IsAbsoluteStr(rel) ==> r[..|base|] == base && r[|r| - |rel|..] == rel
    ensures !IsAbsoluteStr(rel) && |r| == |base| + 1 + |rel| ==> r[|base|] == '/'
    ensures !IsAbsoluteStr(rel) ==> (|r| == |base| + 1 + |rel| <==> base != [] && base[|base| - 1] != '/')
  {
    if IsAbsoluteStr(rel) then rel
    else if base == [] || base[|base| - 1] == '/' then base + rel
    else base + "/" + rel
  }

  lemma {:induction false} JoinNamesLast(ns: seq<string>)
    requires ns != [] && forall i :: 0 <= i < |ns| ==> IsComponentName(ns[i])
    ensures |JoinNames(ns)| > 0 && JoinNames(ns)[|JoinNames(ns)| - 1] != '/'
  {
    var last := ns[|ns| - 1];
    assert last[|last| - 1] in last;
  }

  /** Pushing a component onto a path text that does not end in a separator adds one. */
  lemma PushAfterName(pre: string, j: string, n: string)
    requires |j| > 0 && j[|j| - 1] != '/' && !IsAbsoluteStr(n)
    ensures PushStr(pre + j, n) == pre + (j + "/" + n)
  {
    var d := pre + j;
    assert d[|d| - 1] == j[|j| - 1];
  }

  /**
   * Joining a single component and then displaying gives the same text as
   * pushing that component onto the displayed path.
   */
  lemma DisplayJoin(p: Path, n: string)
    requires forall i :: 0 <= i < |p.names| ==> IsComponentName(p.names[i])
    requires IsComponentName(n)
    ensures Display(Join(p, [n])) == PushStr(Display(p), n)
  {
    assert !IsAbsoluteStr(n) by { assert n[0] in n; }
    var ns := p.names + [n];
    if p.names == [] {
      assert ns == [n];
    } else {
      assert ns[..|ns| - 1] == p.names;
      JoinNamesLast(p.names);
      PushAfterName(if p.absolute then "/" else "", JoinNames(p.names), n);
    }
  }
}
