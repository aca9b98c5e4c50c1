/**
 * The parts of Node's `path` module (POSIX flavour) that the extension uses:
 * `basename`, `extname`, `basename(p, ext)` and `join`.
 */
module NodePath {
  import opened Wrappers

  /** `path.sep` on POSIX systems. */
  const Sep: char := '/'

  /** Where `p[..n]` ends once its trailing separators are dropped. */
  function TrimmedEnd(p: string, n: nat): (e: nat)
    requires n <= |p|
    ensures e <= n
    ensures e == 0 || p[e - 1] != Sep
  {
    if n > 0 && p[n - 1] == Sep then TrimmedEnd(p, n - 1) else n
  }

  /** Where the segment ending at `n` starts: just after the last separator before `n`, or at 0. */
  function SegmentStart(p: string, n: nat): (k: nat)
    requires n <= |p|
    ensures k <= n
    ensures k == 0 || p[k - 1] == Sep
  {
    if n > 0 && p[n - 1] != Sep then SegmentStart(p, n - 1) else n
  }

  /** `path.basename(p)`: the last path segment, trailing separators ignored. */
  function Basename(p: string): string {
    var e := TrimmedEnd(p, |p|);
    p[SegmentStart(p, e)..e]
  }

  /** No separator lies inside the segment that ends at `n`. */
  lemma {:induction false} SegmentHasNoSep(p: string, n: nat)
    requires n <= |p|
    ensures forall i :: SegmentStart(p, n) <= i < n ==> p[i] != Sep
    decreases n
  {
    if n > 0 && p[n - 1] != Sep {
      SegmentHasNoSep(p, n - 1);
    }
  }

  /** A segment that starts after a separator at `m - 1` and holds none up to `n` starts at `m`. */
  lemma {:induction false} SegmentStartAt(p: string, m: nat, n: nat)
    requires 0 < m <= n <= |p| && p[m - 1] == Sep
    requires forall i :: m <= i < n ==> p[i] != Sep
    ensures SegmentStart(p, n) == m
    decreases n
  {
    if n > m {
      SegmentStartAt(p, m, n - 1);
    }
  }

  /** The basename holds no separator. */
  lemma BasenameHasNoSep(p: string)
    ensures Sep !in Basename(p)
  {
    var e := TrimmedEnd(p, |p|);
    var k := SegmentStart(p, e);
    var b := Basename(p);
    SegmentHasNoSep(p, e);
    forall i | 0 <= i < |b| ensures b[i] != Sep {
      assert b[i] == p[k + i];
    }
  }

  /** The basename is a piece of the path: it holds no character the path lacks. */
  lemma BasenameInPath(p: string)
    ensures forall c :: c in Basename(p) ==> c in p
  {
    var k := SegmentStart(p, TrimmedEnd(p, |p|));
    var b := Basename(p);
    forall c | c in b
      ensures c in p
    {
      var i :| 0 <= i < |b| && b[i] == c;
      assert p[k + i] == c;
    }
  }

  /** The index of the last occurrence of `c` in `s[..n]`. */
  function LastIndexBefore(s: string, c: char, n: nat): (r: Option<nat>)
    requires n <= |s|
    ensures r.Some? ==> r.value < n && s[r.value] == c
  {
    if n == 0 then None
    else if s[n - 1] == c then Some(n - 1)
    else LastIndexBefore(s, c, n - 1)
  }

  /** `s.lastIndexOf(c)`, `None` for -1. */
  function LastIndexOf(s: string, c: char): (r: Option<nat>)
    ensures r.Some? ==> r.value < |s| && s[r.value] == c
  {
    LastIndexBefore(s, c, |s|)
  }

  lemma {:induction false} LastIndexBeforeIsLast(s: string, c: char, n: nat)
    requires n <= |s|
    ensures var r := LastIndexBefore(s, c, n);
      && (r.Some? ==> forall i :: r.value < i < n ==> s[i] != c)
      && (r.None? ==> forall i :: 0 <= i < n ==> s[i] != c)
    decreases n
  {
    if n > 0 && s[n - 1] != c {
      LastIndexBeforeIsLast(s, c, n - 1);
    }
  }

  /** `lastIndexOf` finds the last occurrence, and finds one whenever there is one. */
  lemma LastIndexOfIsLast(s: string, c: char)
    ensures LastIndexOf(s, c).Some? ==> c !in s[LastIndexOf(s, c).value + 1..]
    ensures LastIndexOf(s, c).None? ==> c !in s
  {
    LastIndexBeforeIsLast(s, c, |s|);
    var r := LastIndexOf(s, c);
    if r.Some? {
      var t := s[r.value + 1..];
      forall i | 0 <= i < |t| ensures t[i] != c {
        assert t[i] == s[r.value + 1 + i];
      }
    }
  }

  /**
   * `path.extname(p)`: from the last `.` of the basename to its end, or empty
   * when the basename has no `.`, starts with its only `.`, or is `..`.
   */
  function ExtName(p: string): (e: string)
    ensures e == [] || e[0] == '.'
  {
    var b := Basename(p);
    match LastIndexOf(b, '.')
    case None => ""
    case Some(k) => if k == 0 || b == ".." then "" else b[k..]
  }

  /**
   * `path.basename(p, ext)`: the basename with `ext` removed when it is a
   * proper suffix, and empty when `ext` is the whole path.
   */
  function BasenameWithout(p: string, ext: string): (r: string)
    ensures ext != [] && p == ext ==> r == []
    ensures r == Basename(p) || (ext != [] && r + ext == Basename(p)) || (ext != [] && p == ext)
    ensures Basename(p) != [] && (ext == [] || p != ext) ==> r != []
  {
    var b := Basename(p);
    if ext != [] && p == ext then []
    else if ext != [] && |ext| < |b| && b[|b| - |ext|..] == ext then b[..|b| - |ext|] else b
  }

  /** The extension is a proper suffix of the basename, or empty. */
  lemma ExtNameSuffix(p: string)
    ensures var b, e := Basename(p), ExtName(p);
      e == [] || (|e| < |b| && b[|b| - |e|..] == e)
  {
    var b := Basename(p);
    match LastIndexOf(b, '.')
    case None =>
    case Some(k) =>
      if k != 0 && b != ".." {
        assert b[|b| - |b[k..]|..] == b[k..];
      }
  }

  /** `path.basename(p, path.extname(p))` followed by the extension gives back the basename. */
  lemma StemThenExtension(p: string)
    ensures BasenameWithout(p, ExtName(p)) + ExtName(p) == Basename(p)
  {
    var b, e := Basename(p), ExtName(p);
    ExtNameSuffix(p);
    if e != [] {
      assert b[..|b| - |e|] + b[|b| - |e|..] == b;
    }
  }

  /**
   * `path.join(a, b, ...)` for segments that are already normalised: the
   * segments with one separator between consecutive ones.
   */
  function Join(segments: seq<string>): string
    requires |segments| >= 1
  {
    if |segments| == 1 then segments[0] else segments[0] + [Sep] + Join(segments[1..])
  }

  /** Joining puts a separator between everything before the last segment and the last segment. */
  lemma {:induction false} JoinLast(segments: seq<string>)
    requires |segments| >= 2
    ensures Join(segments) == Join(segments[..|segments| - 1]) + [Sep] + segments[|segments| - 1]
  {
    if |segments| > 2 {
      JoinLast(segments[1..]);
      assert segments[1..][..|segments| - 2] == segments[..|segments| - 1][1..];
    }
  }

  /** The joined path starts with the first segment and a separator. */
  lemma JoinFirst(segments: seq<string>)
    requires |segments| >= 2
    ensures |Join(segments)| > |segments[0]|
    ensures Join(segments)[..|segments[0]| + 1] == segments[0] + [Sep]
  {
  }

  /** A plain name after a separator is the basename. */
  lemma BasenameAfterSep(dir: string, name: string)
    requires name != [] && Sep !in name
    ensures Basename(dir + [Sep] + name) == name
  {
    var s := dir + [Sep] + name;
    assert s[|s| - 1] == name[|name| - 1];
    assert TrimmedEnd(s, |s|) == |s|;
    forall i | |dir| + 1 <= i < |s| ensures s[i] != Sep {
      assert s[i] == name[i - |dir| - 1];
    }
    SegmentStartAt(s, |dir| + 1, |s|);
    assert s[|dir| + 1..] == name;
  }

  /** The basename of a joined path is its last segment, when that is a plain name. */
  lemma BasenameOfJoin(segments: seq<string>)
    requires |segments| >= 2
    requires segments[|segments| - 1] != [] && Sep !in segments[|segments| - 1]
    ensures Basename(Join(segments)) == segments[|segments| - 1]
  {
    JoinLast(segments);
    BasenameAfterSep(Join(segments[..|segments| - 1]), segments[|segments| - 1]);
  }
}
