/** Absolute filesystem paths as sequences of segments ("/var/log" is
    ["var", "log"], "/" is []), and the coverage relation the directory
    resolver uses. */
module Paths {
  import opened Strings

  type Path = seq<string>

  /** A segment of a clean path: non-empty, not "." or "..", no separator. */
  predicate IsCleanSegment(s: string) {
    s != "" && s != "." && s != ".." && '/' !in s
  }

  /** What filepath.Clean leaves of an absolute path. */
  predicate IsClean(p: Path) {
    forall i :: 0 <= i < |p| ==> IsCleanSegment(p[i])
  }

  predicate StartsWithDotDot(s: string) {
    |s| >= 2 && s[0] == '.' && s[1] == '.'
  }

  /** Under(anc, p): p lies strictly below anc in the sense of the resolver's
      test, namely that filepath.Rel(anc, p) is neither "." nor begins with
      "..". For clean absolute paths Rel yields the remaining segments of p
      when anc is a segment prefix of p, and something beginning with ".."
      otherwise; so p is under anc when anc is a proper segment prefix of p
      AND the first remaining segment does not itself begin with "..". */
  predicate Under(anc: Path, p: Path) {
    |anc| < |p| && p[..|anc|] == anc && !StartsWithDotDot(p[|anc|])
  }

  /** The resolver's "!strings.HasPrefix(rel, "..")": equal or under. */
  predicate Covers(anc: Path, p: Path) {
    anc == p || Under(anc, p)
  }

  lemma UnderTransitive(a: Path, b: Path, c: Path)
    requires Under(a, b) && Under(b, c)
    ensures Under(a, c)
  {
    assert c[..|a|] == c[..|b|][..|a|];
  }

  /** Without segments beginning with "..", Under is exactly "proper segment
      prefix", i.e. proper descendant. */
  lemma UnderIsProperDescendant(anc: Path, p: Path)
    requires forall i :: 0 <= i < |p| ==> !StartsWithDotDot(p[i])
    ensures Under(anc, p) <==> |anc| < |p| && p[..|anc|] == anc
  {
  }

  /** The quirk of the Rel/HasPrefix test: a descendant of anc whose first
      segment below anc begins with ".." (such as "/a/..b" below "/a") is
      not covered by anc. */
  lemma DotDotNamedChildNotCovered(anc: Path, s: string, rest: Path)
    requires StartsWithDotDot(s)
    ensures !Covers(anc, anc + [s] + rest)
  {
    var p := anc + [s] + rest;
    assert |p| > |anc|;
    assert p[|anc|] == s;
  }

  function RenderSegments(p: Path): string
    decreases |p|
  {
    if p == [] then "" else "/" + p[0] + RenderSegments(p[1..])
  }

  /** The path as the string the Go code holds: "/" for the root. */
  function Render(p: Path): (s: string)
    ensures |s| >= 1 && s[0] == '/'
  {
    if p == [] then "/" else RenderSegments(p)
  }

  function RenderAll(ps: seq<Path>): (ss: seq<string>)
    ensures |ss| == |ps|
    ensures forall i :: 0 <= i < |ps| ==> ss[i] == Render(ps[i])
    decreases |ps|
  {
    if ps == [] then [] else [Render(ps[0])] + RenderAll(ps[1..])
  }

  /** filepath.Dir of a clean absolute path. */
  function Parent(p: Path): (q: Path)
    ensures p == [] ==> q == []
    ensures p != [] ==> |q| + 1 == |p| && p[..|q|] == q
  {
    if p == [] then [] else p[..|p| - 1]
  }

  lemma RenderSegmentsShape(p: Path)
    ensures p == [] <==> RenderSegments(p) == ""
    ensures p != [] ==> RenderSegments(p)[0] == '/'
  {
  }

  lemma {:induction false} RenderSegmentsInjective(p: Path, q: Path)
    requires IsClean(p) && IsClean(q)
    requires RenderSegments(p) == RenderSegments(q)
    ensures p == q
    decreases |p|
  {
    RenderSegmentsShape(p);
    RenderSegmentsShape(q);
    if p != [] && q != [] {
      var x := RenderSegments(p);
      var s, t := p[0], q[0];
      var rp, rq := RenderSegments(p[1..]), RenderSegments(q[1..]);
      RenderSegmentsShape(p[1..]);
      RenderSegmentsShape(q[1..]);
      assert x == "/" + s + rp;
      assert x == "/" + t + rq;
      SegmentBoundary(s, rp, t, rq);
      assert s == x[1..1 + |s|] == t;
      assert rp == x[1 + |s|..] == rq;
      RenderSegmentsInjective(p[1..], q[1..]);
    }
  }

  /** Two segments followed by rendered rests that give the same text are
      the same segment: the next separator ends both. */
  lemma SegmentBoundary(s: string, rs: string, t: string, rt: string)
    requires IsCleanSegment(s) && IsCleanSegment(t)
    requires rs == "" || rs[0] == '/'
    requires rt == "" || rt[0] == '/'
    requires "/" + s + rs == "/" + t + rt
    ensures |s| == |t|
  {
    var y := s + rs;
    assert y == ("/" + s + rs)[1..] == ("/" + t + rt)[1..] == t + rt;
    RunLenAt(y, '/', |s|);
    RunLenAt(t + rt, '/', |t|);
  }

  lemma RenderSegmentsLength(p: Path)
    requires IsClean(p) && p != []
    ensures |RenderSegments(p)| >= 2
  {
    assert RenderSegments(p) == "/" + p[0] + RenderSegments(p[1..]);
  }

  /** Distinct clean paths have distinct string forms. */
  lemma RenderInjective(p: Path, q: Path)
    requires IsClean(p) && IsClean(q)
    requires Render(p) == Render(q)
    ensures p == q
  {
    if p != [] { RenderSegmentsLength(p); }
    if q != [] { RenderSegmentsLength(q); }
    if p != [] && q != [] {
      RenderSegmentsInjective(p, q);
    }
  }

  /** A path whose segments have no blank renders as a single shell word. */
  lemma {:induction false} RenderIsWord(p: Path)
    requires forall i :: 0 <= i < |p| ==> ' ' !in p[i]
    ensures IsWord(Render(p))
  {
    if p != [] {
      RenderSegmentsHasNoBlank(p);
    }
  }

  lemma {:induction false} RenderSegmentsHasNoBlank(p: Path)
    requires forall i :: 0 <= i < |p| ==> ' ' !in p[i]
    ensures ' ' !in RenderSegments(p)
    decreases |p|
  {
    if p != [] {
      RenderSegmentsHasNoBlank(p[1..]);
      assert RenderSegments(p) == "/" + p[0] + RenderSegments(p[1..]);
    }
  }
}
