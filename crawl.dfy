/**
 * File discovery in mnamer/__main__.py: `dir_iter`, a recursive generator
 * over a directory tree, and `dir_crawl`, which runs it over every target,
 * applies the extension mask, resolves each file and drops repeated paths.
 *
 * The file system is an abstract graph. Every existing path has a node
 * saying whether it is a regular file, a directory or something else,
 * whether the path itself is a symbolic link (the kind is that of its
 * target, as `Path.is_file` and `Path.is_dir` follow links), the
 * directory's children in `iterdir()` order, and a height. A path without
 * a node does not exist.
 */
module Crawl {
  import opened Values

  type Path = string

  datatype Kind = Regular | Directory | Special

  datatype Node = Node(kind: Kind, symlink: bool, children: seq<Path>, height: nat)

  /**
   * `resolve` is `Path.resolve()` (an absolute path, so the final
   * `Path.absolute()` keeps it) and `suffix` is `Path.suffix`.
   */
  datatype FileSystem = FileSystem(nodes: map<Path, Node>, resolve: Path -> Path, suffix: Path -> string)

  predicate Exists(fs: FileSystem, p: Path) { p in fs.nodes }

  predicate IsFile(fs: FileSystem, p: Path) { p in fs.nodes && fs.nodes[p].kind == Regular }

  predicate IsDir(fs: FileSystem, p: Path) { p in fs.nodes && fs.nodes[p].kind == Directory }

  predicate IsSymlink(fs: FileSystem, p: Path) { p in fs.nodes && fs.nodes[p].symlink }

  function Height(fs: FileSystem, p: Path): nat {
    if p in fs.nodes then fs.nodes[p].height else 0
  }

  function Kids(fs: FileSystem, p: Path): seq<Path>
    requires IsDir(fs, p)
  {
    fs.nodes[p].children
  }

  /**
   * What a real file system guarantees: a directory entry that is not a
   * symbolic link sits strictly below its parent, so only symbolic links
   * can close a cycle.
   */
  predicate Acyclic(fs: FileSystem) {
    forall p, i :: p in fs.nodes && fs.nodes[p].kind == Directory && 0 <= i < |fs.nodes[p].children| ==>
      IsSymlink(fs, fs.nodes[p].children[i]) || Height(fs, fs.nodes[p].children[i]) < fs.nodes[p].height
  }

  /** A child that is not a symbolic link sits below its directory. */
  lemma KidBelow(fs: FileSystem, p: Path, c: Path)
    requires Acyclic(fs) && IsDir(fs, p) && c in Kids(fs, p)
    ensures IsSymlink(fs, c) || Height(fs, c) < Height(fs, p)
  {
    var i :| 0 <= i < |fs.nodes[p].children| && fs.nodes[p].children[i] == c;
  }

  /** The rank of a recursion depth: the top level may still follow one symbolic link. */
  function Rank(depth: nat): nat { if depth == 0 then 1 else 0 }

  /**
   * `dir_iter(path, recurse, depth)`: a file yields itself, a directory
   * yields what its children yield, anything else yields nothing.
   */
  function DirIter(fs: FileSystem, p: Path, recurse: bool, depth: nat): seq<Path>
    requires Acyclic(fs)
    decreases Rank(depth), Height(fs, p), 1, 0
  {
    if IsFile(fs, p) then [p]
    else if IsDir(fs, p) then Children(fs, p, Kids(fs, p), recurse, depth)
    else []
  }

  /**
   * The loop over `iterdir()`: a file child is yielded, and then yielded
   * again by the recursive call that follows without a `continue`; other
   * children are skipped unless recursing, and a symbolic link below the
   * top level is skipped; the rest is descended with depth + 1.
   */
  function Children(fs: FileSystem, p: Path, cs: seq<Path>, recurse: bool, depth: nat): seq<Path>
    requires Acyclic(fs) && IsDir(fs, p)
    requires forall c :: c in cs ==> c in Kids(fs, p)
    decreases Rank(depth), Height(fs, p), 0, |cs|
  {
    if cs == [] then []
    else
      var c := cs[0];
      KidBelow(fs, p, c);
      var here :=
        if IsFile(fs, c) then [c, c]
        else if !recurse then []
        else if IsSymlink(fs, c) && depth != 0 then []
        else DirIter(fs, c, true, depth + 1);
      here + Children(fs, p, cs[1..], recurse, depth)
  }

  // ---------------------------------------------------------------------------
  // what dir_iter yields

  /** Each element of s, twice in a row. */
  function Doubled(s: seq<Path>): (r: seq<Path>)
    ensures |r| == 2 * |s|
  {
    if s == [] then [] else [s[0], s[0]] + Doubled(s[1..])
  }

  /** The entries of cs that are files, in order. */
  function FilesAmong(fs: FileSystem, cs: seq<Path>): seq<Path> {
    if cs == [] then [] else (if IsFile(fs, cs[0]) then [cs[0]] else []) + FilesAmong(fs, cs[1..])
  }

  /** Without recursion a directory yields exactly its file children, each of them twice, in `iterdir()` order. */
  lemma {:induction false} NonRecursive(fs: FileSystem, p: Path, depth: nat)
    requires Acyclic(fs) && IsDir(fs, p)
    ensures DirIter(fs, p, false, depth) == Doubled(FilesAmong(fs, Kids(fs, p)))
  {
    NonRecursiveChildren(fs, p, Kids(fs, p), depth);
  }

  lemma {:induction false} NonRecursiveChildren(fs: FileSystem, p: Path, cs: seq<Path>, depth: nat)
    requires Acyclic(fs) && IsDir(fs, p)
    requires forall c :: c in cs ==> c in Kids(fs, p)
    ensures Children(fs, p, cs, false, depth) == Doubled(FilesAmong(fs, cs))
  {
    if cs != [] {
      NonRecursiveChildren(fs, p, cs[1..], depth);
      if IsFile(fs, cs[0]) {
        assert Doubled([cs[0]] + FilesAmong(fs, cs[1..])) == [cs[0], cs[0]] + Doubled(FilesAmong(fs, cs[1..])) by {
          assert ([cs[0]] + FilesAmong(fs, cs[1..]))[1..] == FilesAmong(fs, cs[1..]);
        }
      } else {
        assert FilesAmong(fs, cs) == FilesAmong(fs, cs[1..]);
      }
    }
  }

  /**
   * How `dir_iter(ps[0], True, depth)` reaches the file at the end of ps:
   * each entry is a child of the directory before it, and an entry in the
   * middle that is a symbolic link was met at depth 0, that is, it is a
   * child of a top-level target.
   */
  predicate Walk(fs: FileSystem, ps: seq<Path>, depth: nat) {
    && |ps| >= 2
    && (forall k :: 0 <= k < |ps| - 1 ==> IsDir(fs, ps[k]) && ps[k + 1] in Kids(fs, ps[k]))
    && (forall k :: 1 <= k < |ps| - 1 ==> !IsSymlink(fs, ps[k]) || depth + k == 1)
    && IsFile(fs, ps[|ps| - 1])
  }

  /**
   * The recursive crawl yields exactly the path itself when it is a file
   * and the ends of the walks from it, so it only descends a symbolic link
   * to a directory when that link is a child of a top-level target.
   */
  lemma {:induction false} Reaches(fs: FileSystem, p: Path, depth: nat, q: Path)
    requires Acyclic(fs)
    ensures q in DirIter(fs, p, true, depth) <==>
      (q == p && IsFile(fs, p)) || exists ps :: Walk(fs, ps, depth) && ps[0] == p && ps[|ps| - 1] == q
  {
    if q in DirIter(fs, p, true, depth) {
      var _ := WalkOf(fs, p, depth, q);
    }
    if exists ps :: Walk(fs, ps, depth) && ps[0] == p && ps[|ps| - 1] == q {
      var ps :| Walk(fs, ps, depth) && ps[0] == p && ps[|ps| - 1] == q;
      WalkYields(fs, ps, depth);
    }
  }

  /** Soundness: a yielded path other than a file target ends a walk. */
  lemma {:induction false} WalkOf(fs: FileSystem, p: Path, depth: nat, q: Path) returns (ps: seq<Path>)
    requires Acyclic(fs) && q in DirIter(fs, p, true, depth)
    ensures (q == p && IsFile(fs, p)) || (Walk(fs, ps, depth) && ps[0] == p && ps[|ps| - 1] == q)
    decreases Rank(depth), Height(fs, p), 1, 0
  {
    ps := [];
    if !IsFile(fs, p) {
      ps := WalkOfChildren(fs, p, Kids(fs, p), depth, q);
    }
  }

  lemma {:induction false} WalkOfChildren(fs: FileSystem, p: Path, cs: seq<Path>, depth: nat, q: Path) returns (ps: seq<Path>)
    requires Acyclic(fs) && IsDir(fs, p)
    requires forall c :: c in cs ==> c in Kids(fs, p)
    requires q in Children(fs, p, cs, true, depth)
    ensures Walk(fs, ps, depth) && ps[0] == p && ps[|ps| - 1] == q
    decreases Rank(depth), Height(fs, p), 0, |cs|
  {
    var c := cs[0];
    KidBelow(fs, p, c);
    var here :=
      if IsFile(fs, c) then [c, c]
      else if IsSymlink(fs, c) && depth != 0 then []
      else DirIter(fs, c, true, depth + 1);
    assert Children(fs, p, cs, true, depth) == here + Children(fs, p, cs[1..], true, depth);
    if q in here {
      if IsFile(fs, c) {
        ps := [p, q];
      } else {
        var rest := WalkOf(fs, c, depth + 1, q);
        ps := [p] + rest;
        StepWalk(fs, p, rest, depth);
      }
    } else {
      ps := WalkOfChildren(fs, p, cs[1..], depth, q);
    }
  }

  /** A walk from a child, one level deeper, extends to a walk from its parent. */
  lemma StepWalk(fs: FileSystem, p: Path, rest: seq<Path>, depth: nat)
    requires Walk(fs, rest, depth + 1) && IsDir(fs, p) && rest[0] in Kids(fs, p)
    requires !IsSymlink(fs, rest[0]) || depth == 0
    ensures Walk(fs, [p] + rest, depth)
  {
    var ps := [p] + rest;
    forall k | 1 <= k < |ps| - 1
      ensures IsDir(fs, ps[k]) && ps[k + 1] in Kids(fs, ps[k])
      ensures !IsSymlink(fs, ps[k]) || depth + k == 1
    {
      assert ps[k] == rest[k - 1] && ps[k + 1] == rest[k];
    }
  }

  /** Completeness: the end of every walk is yielded. */
  lemma {:induction false} WalkYields(fs: FileSystem, ps: seq<Path>, depth: nat)
    requires Acyclic(fs) && Walk(fs, ps, depth)
    ensures ps[|ps| - 1] in DirIter(fs, ps[0], true, depth)
    decreases |ps|
  {
    var p, c, q := ps[0], ps[1], ps[|ps| - 1];
    var i :| 0 <= i < |Kids(fs, p)| && Kids(fs, p)[i] == c;
    if |ps| == 2 {
      InChild(fs, p, Kids(fs, p), i, depth, q);
    } else {
      var rest := ps[1..];
      assert Walk(fs, rest, depth + 1) by {
        forall k | 1 <= k < |rest| - 1 ensures !IsSymlink(fs, rest[k]) || depth + 1 + k == 1 {
          assert rest[k] == ps[k + 1];
        }
      }
      WalkYields(fs, rest, depth + 1);
      InChild(fs, p, Kids(fs, p), i, depth, q);
    }
  }

  /** What the child at position i yields is part of what the loop over cs yields. */
  lemma {:induction false} InChild(fs: FileSystem, p: Path, cs: seq<Path>, i: nat, depth: nat, q: Path)
    requires Acyclic(fs) && IsDir(fs, p)
    requires forall c :: c in cs ==> c in Kids(fs, p)
    requires i < |cs|
    requires IsFile(fs, cs[i]) ==> q == cs[i]
    requires !IsFile(fs, cs[i]) ==> !(IsSymlink(fs, cs[i]) && depth != 0) && q in DirIter(fs, cs[i], true, depth + 1)
    ensures q in Children(fs, p, cs, true, depth)
    decreases i
  {
    if i > 0 {
      InChild(fs, p, cs[1..], i - 1, depth, q);
    }
  }

  /** Everything dir_iter yields is a file. */
  lemma {:induction false} OnlyFiles(fs: FileSystem, p: Path, recurse: bool, depth: nat, q: Path)
    requires Acyclic(fs) && q in DirIter(fs, p, recurse, depth)
    ensures IsFile(fs, q)
    decreases Rank(depth), Height(fs, p), 1, 0
  {
    if !IsFile(fs, p) {
      OnlyFilesChildren(fs, p, Kids(fs, p), recurse, depth, q);
    }
  }

  lemma {:induction false} OnlyFilesChildren(fs: FileSystem, p: Path, cs: seq<Path>, recurse: bool, depth: nat, q: Path)
    requires Acyclic(fs) && IsDir(fs, p)
    requires forall c :: c in cs ==> c in Kids(fs, p)
    requires q in Children(fs, p, cs, recurse, depth)
    ensures IsFile(fs, q)
    decreases Rank(depth), Height(fs, p), 0, |cs|
  {
    var c := cs[0];
    KidBelow(fs, p, c);
    if q !in Children(fs, p, cs[1..], recurse, depth) && !IsFile(fs, c) && recurse && !(IsSymlink(fs, c) && depth != 0) {
      OnlyFiles(fs, c, true, depth + 1, q);
    } else if q !in Children(fs, p, cs[1..], recurse, depth) {
    } else {
      OnlyFilesChildren(fs, p, cs[1..], recurse, depth, q);
    }
  }

  // ---------------------------------------------------------------------------
  // dir_crawl

  /** `str.strip('.')`: leading and trailing dots removed. */
  function StripDots(s: string): (r: string)
    ensures r != [] ==> r[0] != '.' && r[|r| - 1] != '.'
  {
    if s != [] && s[0] == '.' then StripDots(s[1..])
    else if s != [] && s[|s| - 1] == '.' then StripDots(s[..|s| - 1])
    else s
  }

  /** `strip('.')` keeps a slice of its argument and removes only dots, on either side of it. */
  lemma {:induction false} StripDotsSlice(s: string) returns (i: nat, j: nat)
    ensures i <= j <= |s| && StripDots(s) == s[i..j]
    ensures forall k :: 0 <= k < i ==> s[k] == '.'
    ensures forall k :: j <= k < |s| ==> s[k] == '.'
    decreases |s|
  {
    if s != [] && s[0] == '.' {
      var i', j' := StripDotsSlice(s[1..]);
      i, j := i' + 1, j' + 1;
      assert s[1..][i'..j'] == s[i..j];
      forall k | 0 <= k < i ensures s[k] == '.' {
        if k > 0 { assert s[k] == s[1..][k - 1]; }
      }
      forall k | j <= k < |s| ensures s[k] == '.' {
        assert s[k] == s[1..][k - 1];
      }
    } else if s != [] && s[|s| - 1] == '.' {
      var i', j' := StripDotsSlice(s[..|s| - 1]);
      i, j := i', j';
      assert s[..|s| - 1][i'..j'] == s[i..j];
      assert i == 0 by { assert s[..|s| - 1][0] == s[0]; }
      forall k | j <= k < |s| ensures s[k] == '.' {
        if k < |s| - 1 { assert s[k] == s[..|s| - 1][k]; }
      }
    } else {
      i, j := 0, |s|;
    }
  }

  /**
   * The extension mask turns a found file away: the mask is given and not
   * empty, and the file's suffix without its dots is not one of its
   * entries (compared exactly, case included).
   */
  predicate Masked(fs: FileSystem, mask: Option<seq<string>>, f: Path) {
    mask.Some? && mask.value != [] && StripDots(fs.suffix(f)) !in mask.value
  }

  /** What the inner loop appends for the found files s: each one the mask lets through, resolved. */
  function Kept(fs: FileSystem, mask: Option<seq<string>>, s: seq<Path>): seq<Path> {
    if s == [] then []
    else Kept(fs, mask, s[..|s| - 1]) + (if Masked(fs, mask, s[|s| - 1]) then [] else [fs.resolve(s[|s| - 1])])
  }

  /** The list `files` after the loop over targets: a target that does not exist adds nothing. */
  function Found(fs: FileSystem, targets: seq<Path>, recurse: bool, mask: Option<seq<string>>): seq<Path>
    requires Acyclic(fs)
  {
    if targets == [] then []
    else
      var t := targets[|targets| - 1];
      Found(fs, targets[..|targets| - 1], recurse, mask)
      + (if Exists(fs, t) then Kept(fs, mask, DirIter(fs, t, recurse, 0)) else [])
  }

  /** The first occurrence of each element, in order. */
  function Dedup(s: seq<Path>): seq<Path> {
    if s == [] then []
    else
      var r := Dedup(s[..|s| - 1]);
      if s[|s| - 1] in r then r else r + [s[|s| - 1]]
  }

  /**
   * `dir_crawl(targets, recurse, ext_mask)`: the files found under the
   * existing targets that pass the mask, resolved, each kept at its first
   * appearance.
   */
  method DirCrawl(fs: FileSystem, targets: seq<Path>, recurse: bool, mask: Option<seq<string>>) returns (r: seq<Path>)
    requires Acyclic(fs)
    ensures r == Dedup(Found(fs, targets, recurse, mask))
  {
    var files := CollectFiles(fs, targets, recurse, mask);
    r := Unique(files);
  }

  /** The loop over the targets that fills `files`. */
  method CollectFiles(fs: FileSystem, targets: seq<Path>, recurse: bool, mask: Option<seq<string>>) returns (files: seq<Path>)
    requires Acyclic(fs)
    ensures files == Found(fs, targets, recurse, mask)
  {
    files := [];
    for i := 0 to |targets|
      invariant files == Found(fs, targets[..i], recurse, mask)
    {
      assert targets[..i + 1][..i] == targets[..i];
      var target := targets[i];
      if !Exists(fs, target) {
        continue;
      }
      var found := DirIter(fs, target, recurse, 0);
      ghost var before := files;
      for j := 0 to |found|
        invariant files == before + Kept(fs, mask, found[..j])
      {
        assert found[..j + 1][..j] == found[..j];
        var f := found[j];
        if Masked(fs, mask, f) {
          continue;
        }
        files := files + [fs.resolve(f)];
      }
      assert found[..|found|] == found;
    }
    assert targets[..|targets|] == targets;
  }

  /** The comprehension that keeps a path only when it is not yet in `seen`. */
  method Unique(files: seq<Path>) returns (r: seq<Path>)
    ensures r == Dedup(files)
  {
    var seen: set<Path> := {};
    r := [];
    for k := 0 to |files|
      invariant r == Dedup(files[..k])
      invariant forall x :: x in seen <==> x in r
    {
      assert files[..k + 1][..k] == files[..k];
      var f := files[k];
      if f !in seen {
        seen := seen + {f};
        r := r + [f];
      }
    }
    assert files[..|files|] == files;
  }

  /** The index of the first occurrence of x in s. */
  function First(s: seq<Path>, x: Path): (n: nat)
    requires x in s
    ensures n < |s| && s[n] == x
  {
    if x in s[..|s| - 1] then First(s[..|s| - 1], x) else |s| - 1
  }

  /**
   * Deduplication keeps every path of its input exactly once, in the order
   * of their first appearances.
   */
  lemma {:induction false} DedupSpec(s: seq<Path>)
    ensures forall x :: x in Dedup(s) <==> x in s
    ensures forall i, j :: 0 <= i < j < |Dedup(s)| ==> Dedup(s)[i] != Dedup(s)[j]
    ensures forall i, j :: 0 <= i < j < |Dedup(s)| ==> First(s, Dedup(s)[i]) < First(s, Dedup(s)[j])
  {
    if s != [] {
      var s', x := s[..|s| - 1], s[|s| - 1];
      assert s == s' + [x];
      DedupSpec(s');
      var r' := Dedup(s');
      forall y | y in s' ensures First(s, y) == First(s', y) {
      }
      if x !in r' {
        var r := r' + [x];
        forall i, j | 0 <= i < j < |r| ensures r[i] != r[j] && First(s, r[i]) < First(s, r[j]) {
          if j == |r| - 1 {
            assert r[i] in s';
          } else {
            assert r[i] == r'[i] && r[j] == r'[j];
          }
        }
      }
    }
  }

  /** What the inner loop keeps: exactly the resolved files the mask lets through. */
  lemma {:induction false} KeptSpec(fs: FileSystem, mask: Option<seq<string>>, s: seq<Path>, f: Path)
    ensures f in Kept(fs, mask, s) <==> exists x :: x in s && !Masked(fs, mask, x) && f == fs.resolve(x)
  {
    if s != [] {
      var s', x := s[..|s| - 1], s[|s| - 1];
      assert s == s' + [x];
      KeptSpec(fs, mask, s', f);
      if f in Kept(fs, mask, s') {
        var y :| y in s' && !Masked(fs, mask, y) && f == fs.resolve(y);
        assert y in s;
      }
    }
  }

  /** f is the resolved form of a file under the existing target t that passes the mask. */
  predicate FoundUnder(fs: FileSystem, t: Path, recurse: bool, mask: Option<seq<string>>, f: Path)
    requires Acyclic(fs)
  {
    Exists(fs, t) && exists x :: x in DirIter(fs, t, recurse, 0) && !Masked(fs, mask, x) && f == fs.resolve(x)
  }

  /**
   * A path is in the crawl's result exactly when it is the resolved form of
   * a file found under an existing target that passes the mask; when the
   * mask is set and not empty, that file's suffix without dots is one of
   * its entries.
   */
  lemma {:induction false} FoundSpec(fs: FileSystem, targets: seq<Path>, recurse: bool, mask: Option<seq<string>>, f: Path)
    requires Acyclic(fs)
    ensures f in Found(fs, targets, recurse, mask) <==> exists t :: t in targets && FoundUnder(fs, t, recurse, mask, f)
  {
    if targets != [] {
      var ts, t := targets[..|targets| - 1], targets[|targets| - 1];
      assert targets == ts + [t];
      FoundSpec(fs, ts, recurse, mask, f);
      if Exists(fs, t) {
        KeptSpec(fs, mask, DirIter(fs, t, recurse, 0), f);
      }
      assert f in Found(fs, targets, recurse, mask) <==> f in Found(fs, ts, recurse, mask) || FoundUnder(fs, t, recurse, mask, f);
      if f in Found(fs, ts, recurse, mask) {
        var t' :| t' in ts && FoundUnder(fs, t', recurse, mask, f);
        assert t' in targets;
      }
      forall t' | t' in targets && FoundUnder(fs, t', recurse, mask, f) ensures f in Found(fs, targets, recurse, mask) {
        if t' != t {
          assert t' in ts;
        }
      }
    }
  }

  /** The mask, read positively: a file it lets through has one of the listed extensions, or there is no mask. */
  lemma MaskedSpec(fs: FileSystem, mask: Option<seq<string>>, x: Path)
    ensures !Masked(fs, mask, x) <==> mask.None? || mask.value == [] || StripDots(fs.suffix(x)) in mask.value
  {
  }
}
