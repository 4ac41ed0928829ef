/**
 * Resolution of the relative import paths written in definition files
 * (getResolvedPathOfImportedFile). The `dirname` and `join` of
 * `@fern-api/core-utils` are assumed to behave like POSIX `path.dirname`
 * and `path.join`.
 *
 * A path is the list of its segments, the text between separators.
 * The empty segment (two separators in a row) and "." are skipped by
 * normalisation; ".." cancels the segment before it unless that one is a
 * ".." too, and is otherwise kept (relative paths may climb above their
 * start). A path that normalises to nothing is written ".".
 */
module Paths {

  type Segment = string
  type Path = seq<Segment>

  const CurrentDir: Segment := "."
  const ParentDir: Segment := ".."

  datatype Option<T> = None | Some(value: T)

  /** A segment that names a file or directory. */
  predicate IsName(s: Segment) {
    s != "" && s != CurrentDir && s != ParentDir
  }

  /** A segment that normalisation drops. */
  predicate IsSkipped(s: Segment) {
    s == "" || s == CurrentDir
  }

  /** Normal form: no skipped segment, and every ".." comes before every name. */
  predicate IsCanonical(p: Path) {
    && (forall i :: 0 <= i < |p| ==> !IsSkipped(p[i]))
    && (forall i, j :: 0 <= i < j < |p| && p[j] == ParentDir ==> p[i] == ParentDir)
  }

  /** What `path.normalize` and `path.join` return: "." alone, or a non-empty normal form. */
  predicate IsNormalized(p: Path) {
    p == [CurrentDir] || (p != [] && IsCanonical(p))
  }

  /** `n` copies of "..". */
  function Ups(n: nat): (r: Path)
    ensures |r| == n
    ensures forall i :: 0 <= i < n ==> r[i] == ParentDir
  {
    seq(n, _ => ParentDir)
  }

  // ---------------------------------------------------------------------
  // The operations
  // ---------------------------------------------------------------------

  /** `path.dirname` of a relative path: drop the last segment; a top-level file gives ".". */
  function Dirname(p: Path): (d: Path)
    ensures |p| <= 1 ==> d == [CurrentDir]
    ensures |p| >= 2 ==> d + [p[|p| - 1]] == p
  {
    if |p| <= 1 then [CurrentDir] else p[..|p| - 1]
  }

  /** Feed one more segment to the stack of an already normalised path. */
  function Push(acc: Path, s: Segment): Path {
    if IsSkipped(s) then acc
    else if s == ParentDir then
      if |acc| > 0 && acc[|acc| - 1] != ParentDir then acc[..|acc| - 1] else acc + [ParentDir]
    else acc + [s]
  }

  /** Feed the segments of `p`, left to right, to `acc`. */
  function PushAll(acc: Path, p: Path): (r: Path)
    ensures IsCanonical(acc) ==> IsCanonical(r)
    decreases |p|
  {
    if p == [] then acc else Push(PushAll(acc, p[..|p| - 1]), p[|p| - 1])
  }

  /** The segment-level normalisation of `path.normalize` on a relative path. */
  function Collapse(p: Path): (r: Path)
    ensures IsCanonical(r)
  {
    PushAll([], p)
  }

  /** `path.normalize`: the collapsed path, or "." when nothing is left. */
  function Normalize(p: Path): (r: Path)
    ensures IsNormalized(r)
    ensures r == [CurrentDir] <==> Collapse(p) == []
  {
    var c := Collapse(p);
    if c == [] then [CurrentDir] else assert !IsSkipped(c[0]); c
  }

  /** `path.join`: concatenate, then normalise. */
  function Join(a: Path, b: Path): (r: Path)
    ensures IsNormalized(r)
  {
    Normalize(a + b)
  }

  /** getResolvedPathOfImportedFile: `join(dirname(referencedIn), importPath)`. */
  function Resolve(referencedIn: Path, importPath: Path): (r: Path)
    ensures IsNormalized(r)
  {
    Join(Dirname(referencedIn), importPath)
  }

  // ---------------------------------------------------------------------
  // Meaning of a path: walking it from a directory
  // ---------------------------------------------------------------------

  /**
   * One step of a walk through a directory tree, the directory being the
   * list of names from the root: a name descends, ".." climbs (and fails
   * at the root), "" and "." stay.
   */
  function Step(dir: Path, s: Segment): Option<Path> {
    if IsSkipped(s) then Some(dir)
    else if s == ParentDir then (if dir == [] then None else Some(dir[..|dir| - 1]))
    else Some(dir + [s])
  }

  /** Follow `p` segment by segment from `base`; None if it climbs above the root. */
  function Walk(base: Path, p: Path): Option<Path>
    decreases |p|
  {
    if p == [] then Some(base)
    else
      match Walk(base, p[..|p| - 1])
      case None => None
      case Some(d) => Step(d, p[|p| - 1])
  }

  // ---------------------------------------------------------------------
  // Lemmas
  // ---------------------------------------------------------------------

  lemma PushAllSnoc(acc: Path, p: Path, s: Segment)
    ensures PushAll(acc, p + [s]) == Push(PushAll(acc, p), s)
  {
    assert (p + [s])[..|p|] == p;
  }

  lemma WalkSnoc(base: Path, p: Path, s: Segment)
    ensures Walk(base, p + [s]) == if Walk(base, p).None? then None else Step(Walk(base, p).value, s)
  {
    assert (p + [s])[..|p|] == p;
  }

  /** Feeding `a + b` is feeding `a`, then `b`. */
  lemma {:induction false} PushAllAppend(acc: Path, a: Path, b: Path)
    ensures PushAll(acc, a + b) == PushAll(PushAll(acc, a), b)
    decreases |b|
  {
    if b == [] {
      assert a + b == a;
    } else {
      var b' := b[..|b| - 1];
      var s := b[|b| - 1];
      assert a + b == (a + b') + [s];
      assert b == b' + [s];
      PushAllSnoc(acc, a + b', s);
      PushAllAppend(acc, a, b');
      PushAllSnoc(PushAll(acc, a), b', s);
    }
  }

  /** A canonical path is its own normal form. */
  lemma {:induction false} CollapseCanonical(c: Path)
    requires IsCanonical(c)
    ensures Collapse(c) == c
    decreases |c|
  {
    if c != [] {
      var c' := c[..|c| - 1];
      assert IsCanonical(c');
      CollapseCanonical(c');
      assert c == c' + [c[|c| - 1]];
      PushAllSnoc([], c', c[|c| - 1]);
      if c[|c| - 1] == ParentDir && |c'| > 0 {
        assert c'[|c'| - 1] == ParentDir;
      }
    }
  }

  /** Normalising twice is normalising once (`path.normalize` is idempotent). */
  lemma NormalizeIdempotent(p: Path)
    ensures Normalize(Normalize(p)) == Normalize(p)
  {
    var c := Collapse(p);
    if c == [] {
      assert Collapse([CurrentDir]) == Push([], CurrentDir) by { PushAllSnoc([], [], CurrentDir); }
    } else {
      CollapseCanonical(c);
    }
  }

  /** Pushing a segment on a stack moves the walk exactly as following the segment does. */
  lemma WalkPush(base: Path, a: Path, s: Segment)
    requires IsCanonical(a)
    ensures Walk(base, Push(a, s)) == Walk(base, a + [s])
  {
    WalkSnoc(base, a, s);
    if s == ParentDir && |a| > 0 && a[|a| - 1] != ParentDir {
      var a' := a[..|a| - 1];
      var n := a[|a| - 1];
      assert a == a' + [n];
      assert IsName(n);
      WalkSnoc(base, a', n);
      if Walk(base, a').Some? {
        var d := Walk(base, a').value;
        assert (d + [n])[..|d|] == d;
      }
    } else if !IsSkipped(s) {
      WalkSnoc(base, a, s);
    }
  }

  /** Collapsing keeps the meaning of a path: from any base, both walks end in the same place. */
  lemma {:induction false} PushAllPreservesWalk(base: Path, acc: Path, p: Path)
    requires IsCanonical(acc)
    ensures Walk(base, PushAll(acc, p)) == Walk(base, acc + p)
    decreases |p|
  {
    if p == [] {
      assert acc + p == acc;
    } else {
      var p' := p[..|p| - 1];
      var s := p[|p| - 1];
      assert p == p' + [s];
      PushAllSnoc(acc, p', s);
      var a := PushAll(acc, p');
      assert PushAll(acc, p) == Push(a, s);
      PushAllPreservesWalk(base, acc, p');
      WalkPush(base, a, s);
      WalkSnoc(base, a, s);
      assert acc + p == (acc + p') + [s];
      WalkSnoc(base, acc + p', s);
    }
  }

  /** The normal form denotes the same file as the path it came from. */
  lemma NormalizePreservesWalk(base: Path, p: Path)
    ensures Walk(base, Normalize(p)) == Walk(base, p)
  {
    PushAllPreservesWalk(base, [], p);
    assert [] + p == p;
    if Collapse(p) == [] {
      WalkSnoc(base, [], CurrentDir);
      assert [] + [CurrentDir] == [CurrentDir];
    }
  }

  /** A walk that has failed stays failed. */
  lemma {:induction false} WalkNoneStays(base: Path, p: Path, q: Path)
    requires Walk(base, p).None?
    ensures Walk(base, p + q).None?
    decreases |q|
  {
    if q == [] {
      assert p + q == p;
    } else {
      var q' := q[..|q| - 1];
      assert p + q == (p + q') + [q[|q| - 1]];
      WalkNoneStays(base, p, q');
      WalkSnoc(base, p + q', q[|q| - 1]);
    }
  }

  /** Walking a list of names descends through them. */
  lemma {:induction false} WalkNames(base: Path, p: Path)
    requires forall i :: 0 <= i < |p| ==> IsName(p[i])
    ensures Walk(base, p) == Some(base + p)
    decreases |p|
  {
    if p == [] {
      assert base + p == base;
    } else {
      var p' := p[..|p| - 1];
      WalkNames(base, p');
      assert p == p' + [p[|p| - 1]];
      WalkSnoc(base, p', p[|p| - 1]);
      assert base + p == (base + p') + [p[|p| - 1]];
    }
  }

  /**
   * Seen from the root of the tree, a path climbs above it exactly when its
   * normal form starts with "..".
   */
  lemma EscapesIffLeadingParent(p: Path)
    ensures Walk([], p).None? <==> (Collapse(p) != [] && Collapse(p)[0] == ParentDir)
  {
    var c := Collapse(p);
    PushAllPreservesWalk([], [], p);
    assert [] + p == p;
    if c != [] && c[0] == ParentDir {
      assert c == [c[0]] + c[1..];
      WalkSnoc([], [], ParentDir);
      assert [] + [ParentDir] == [ParentDir];
      WalkNoneStays([], [ParentDir], c[1..]);
    } else {
      assert forall i :: 0 <= i < |c| ==> IsName(c[i]);
      WalkNames([], c);
    }
  }

  /** Each ".." fed to a path whose last `k` segments are names removes one of them. */
  lemma {:induction false} PushAllUps(d: Path, k: nat)
    requires k <= |d|
    requires forall i :: |d| - k <= i < |d| ==> IsName(d[i])
    ensures PushAll(d, Ups(k)) == d[..|d| - k]
  {
    if k > 0 {
      PushAllUps(d, k - 1);
      assert Ups(k) == Ups(k - 1) + [ParentDir];
      PushAllSnoc(d, Ups(k - 1), ParentDir);
      var e := d[..|d| - (k - 1)];
      assert e[|e| - 1] == d[|d| - k];
      assert e[..|e| - 1] == d[..|d| - k];
    }
  }

  /** A segment list without ".." is appended after the stack, names only. */
  lemma {:induction false} PushAllNoParent(acc: Path, b: Path)
    requires forall i :: 0 <= i < |b| ==> b[i] != ParentDir
    ensures PushAll(acc, b) == acc + Collapse(b)
    decreases |b|
  {
    if b == [] {
      assert acc + [] == acc;
    } else {
      var b' := b[..|b| - 1];
      PushAllNoParent(acc, b');
      PushAllNoParent([], b');
      assert [] + Collapse(b') == Collapse(b');
      assert b == b' + [b[|b| - 1]];
      PushAllSnoc(acc, b', b[|b| - 1]);
      PushAllSnoc([], b', b[|b| - 1]);
    }
  }

  // ---------------------------------------------------------------------
  // Properties of Resolve
  // ---------------------------------------------------------------------

  /**
   * The resolved path denotes the file reached by going to the directory of
   * `referencedIn` and following `importPath` segment by segment.
   */
  lemma ResolveDenotesJoinedWalk(base: Path, referencedIn: Path, importPath: Path)
    ensures Walk(base, Resolve(referencedIn, importPath)) == Walk(base, Dirname(referencedIn) + importPath)
  {
    NormalizePreservesWalk(base, Dirname(referencedIn) + importPath);
  }

  /** Only the directory of `referencedIn` matters, not its file name. */
  lemma ResolveIgnoresFileName(dir: Path, f1: Segment, f2: Segment, importPath: Path)
    ensures Resolve(dir + [f1], importPath) == Resolve(dir + [f2], importPath)
  {
    if dir != [] {
      assert (dir + [f1])[..|dir|] == dir;
      assert (dir + [f2])[..|dir|] == dir;
    }
  }

  /** A file at the top level resolves an import to the normalised import path itself. */
  lemma ResolveFromTopLevel(referencedIn: Path, importPath: Path)
    requires |referencedIn| <= 1
    ensures Resolve(referencedIn, importPath) == Normalize(importPath)
  {
    PushAllAppend([], [CurrentDir], importPath);
    PushAllSnoc([], [], CurrentDir);
    assert [] + [CurrentDir] == [CurrentDir];
  }

  /**
   * Without "..", the import descends below the (normalised) directory of
   * `referencedIn`: the result is that directory followed by the import's names.
   */
  lemma ResolveWithoutParentExtendsDirectory(referencedIn: Path, importPath: Path)
    requires forall i :: 0 <= i < |importPath| ==> importPath[i] != ParentDir
    ensures Collapse(Dirname(referencedIn) + importPath) == Collapse(Dirname(referencedIn)) + Collapse(importPath)
    ensures Collapse(Dirname(referencedIn)) <= Resolve(referencedIn, importPath)
  {
    var d := Dirname(referencedIn);
    PushAllAppend([], d, importPath);
    PushAllNoParent(Collapse(d), importPath);
  }

  /** When the directory of `referencedIn` is already in normal form, it is a prefix of the result. */
  lemma ResolveWithoutParentKeepsDirectory(referencedIn: Path, importPath: Path)
    requires |referencedIn| >= 2 && IsCanonical(Dirname(referencedIn))
    requires forall i :: 0 <= i < |importPath| ==> importPath[i] != ParentDir
    ensures Dirname(referencedIn) <= Resolve(referencedIn, importPath)
  {
    ResolveWithoutParentExtendsDirectory(referencedIn, importPath);
    CollapseCanonical(Dirname(referencedIn));
  }

  /**
   * Each of `k` leading ".." of the import removes one trailing directory
   * name of `referencedIn`, as long as such names remain.
   */
  lemma ResolveLeadingParents(referencedIn: Path, k: nat, rest: Path)
    requires |referencedIn| >= 2
    requires IsCanonical(Dirname(referencedIn))
    requires k <= |Dirname(referencedIn)|
    requires forall i :: |Dirname(referencedIn)| - k <= i < |Dirname(referencedIn)| ==> IsName(Dirname(referencedIn)[i])
    ensures Resolve(referencedIn, Ups(k) + rest) == Join(Dirname(referencedIn)[..|Dirname(referencedIn)| - k], rest)
  {
    var d := Dirname(referencedIn);
    var e := d[..|d| - k];
    assert d + (Ups(k) + rest) == (d + Ups(k)) + rest;
    PushAllAppend([], d + Ups(k), rest);
    PushAllAppend([], d, Ups(k));
    CollapseCanonical(d);
    PushAllUps(d, k);
    assert IsCanonical(e);
    CollapseCanonical(e);
    PushAllAppend([], e, rest);
  }

  /** An import whose last segment is a name resolves to a path ending in that name. */
  lemma ResolveKeepsFileName(referencedIn: Path, importPath: Path)
    requires |importPath| > 0 && IsName(importPath[|importPath| - 1])
    ensures Resolve(referencedIn, importPath)[|Resolve(referencedIn, importPath)| - 1] == importPath[|importPath| - 1]
  {
    var d := Dirname(referencedIn);
    var p := d + importPath;
    assert p == p[..|p| - 1] + [importPath[|importPath| - 1]];
    PushAllSnoc([], p[..|p| - 1], importPath[|importPath| - 1]);
  }

  /**
   * No import is rejected: one that climbs above the root of the tree comes
   * back as a path that starts with "..".
   */
  lemma ResolveEscapeStartsWithParent(referencedIn: Path, importPath: Path)
    ensures Walk([], Dirname(referencedIn) + importPath).None?
        <==> Resolve(referencedIn, importPath)[0] == ParentDir
  {
    EscapesIffLeadingParent(Dirname(referencedIn) + importPath);
  }
}
