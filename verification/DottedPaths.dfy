/** The dotted text a path is stored and compared as, and why comparing texts is comparing
    segments. */
module DottedPaths {
  import opened Json

  /** A segment as keys are checked to have: not empty, with no dot of its own. */
  predicate Plain(segment: string) {
    segment != "" && '.' !in segment
  }

  ghost predicate PlainPath(p: Path) {
    p != [] && forall i :: 0 <= i < |p| ==> Plain(p[i])
  }

  /** The text of a path. */
  function Dotted(p: Path): string
    requires p != []
  {
    if |p| == 1 then p[0] else p[0] + "." + Dotted(p[1..])
  }

  /** The test on texts: `ancestor` is a prefix and a dot follows it. */
  predicate BeneathText(path: string, ancestor: string) {
    ancestor <= path && |ancestor| < |path| && path[|ancestor|] == '.'
  }

  predicate RelatedText(a: string, b: string) {
    a == b || BeneathText(a, b) || BeneathText(b, a)
  }

  /** The segment a text starts with ends at its first dot. */
  lemma FirstSegment(p: Path)
    requires PlainPath(p)
    ensures p[0] <= Dotted(p)
    ensures |p| == 1 ==> Dotted(p) == p[0]
    ensures |p| > 1 ==> |p[0]| < |Dotted(p)| && Dotted(p)[|p[0]|] == '.' && Dotted(p)[|p[0]| + 1..] == Dotted(p[1..])
  {
  }

  lemma SameFirstSegment(a: Path, b: Path, n: nat)
    requires PlainPath(a) && PlainPath(b)
    requires |b[0]| <= n <= |Dotted(a)| && n <= |Dotted(b)| && Dotted(a)[..n] == Dotted(b)[..n]
    requires n == |b[0]| ==> n == |Dotted(a)| || Dotted(a)[n] == '.'
    ensures a[0] == b[0]
  {
    FirstSegment(a);
    FirstSegment(b);
    var s, t := Dotted(a), Dotted(b);
    assert forall i :: 0 <= i < n ==> s[i] == s[..n][i] && t[i] == t[..n][i];
    assert |a[0]| == |b[0]|;
    assert a[0] == s[..|a[0]|] && b[0] == t[..|a[0]|];
    assert s[..|a[0]|] == s[..n][..|a[0]|] && t[..|a[0]|] == t[..n][..|a[0]|];
  }

  lemma {:induction false} SameText(a: Path, b: Path)
    requires PlainPath(a) && PlainPath(b) && Dotted(a) == Dotted(b)
    ensures a == b
    decreases |a|
  {
    FirstSegment(a);
    FirstSegment(b);
    SameFirstSegment(a, b, |Dotted(a)|);
    if |a| > 1 && |b| > 1 {
      SameText(a[1..], b[1..]);
      assert a == [a[0]] + a[1..] && b == [b[0]] + b[1..];
    }
  }

  lemma {:induction false} DottedBeneath(path: Path, ancestor: Path)
    requires PlainPath(path) && PlainPath(ancestor) && ancestor < path
    ensures BeneathText(Dotted(path), Dotted(ancestor))
    decreases |ancestor|
  {
    FirstSegment(path);
    FirstSegment(ancestor);
    assert path[0] == ancestor[0];
    if |ancestor| > 1 {
      DottedBeneath(path[1..], ancestor[1..]);
    }
  }

  lemma {:induction false} BeneathDotted(path: Path, ancestor: Path)
    requires PlainPath(path) && PlainPath(ancestor) && BeneathText(Dotted(path), Dotted(ancestor))
    ensures ancestor < path
    decreases |ancestor|
  {
    FirstSegment(path);
    FirstSegment(ancestor);
    SameFirstSegment(path, ancestor, |Dotted(ancestor)|);
    assert path == [path[0]] + path[1..] && ancestor == [ancestor[0]] + ancestor[1..];
    if |ancestor| > 1 {
      assert |path| > 1;
      var n := |path[0]| + 1;
      assert Dotted(path)[n..] == Dotted(path[1..]) && Dotted(ancestor)[n..] == Dotted(ancestor[1..]);
      BeneathDotted(path[1..], ancestor[1..]);
    }
  }

  /** On plain paths the text comparisons the queries make are the segment comparisons. */
  lemma TextOrderIsPathOrder(a: Path, b: Path)
    requires PlainPath(a) && PlainPath(b)
    ensures BeneathText(Dotted(a), Dotted(b)) <==> b < a
    ensures RelatedText(Dotted(a), Dotted(b)) <==> Related(a, b)
  {
    if BeneathText(Dotted(a), Dotted(b)) {
      BeneathDotted(a, b);
    }
    if BeneathText(Dotted(b), Dotted(a)) {
      BeneathDotted(b, a);
    }
    if b < a {
      DottedBeneath(a, b);
    } else if a < b {
      DottedBeneath(b, a);
    } else if Related(a, b) {
      assert a == b;
    }
    if Dotted(a) == Dotted(b) {
      SameText(a, b);
    }
  }
}
