/** JSON values as the settings layer sees them, dotted paths as sequences of segments, and
    the splitting of a value into the leaves a table keeps. */
module Json {

  datatype Option<+T> = None | Some(value: T)

  datatype Value =
    | Null
    | Bool(on: bool)
    | Number(n: real)
    | Text(s: string)
    | Array(items: seq<Value>)
    | Object(fields: map<string, Value>)

  /** A dotted path, one element a segment. The empty path is the root of a tree. */
  type Path = seq<string>

  /** Comparable paths: equal, or one a prefix of the other. */
  predicate Related(a: Path, b: Path) {
    a <= b || b <= a
  }

  lemma PrefixesComparable(a: Path, b: Path, p: Path)
    requires a <= p && b <= p
    ensures Related(a, b)
  {
    assert a == p[..|a|] && b == p[..|b|];
  }

  /** Paths at which an object is data, not a section: its keys are hosts, with dots in them. */
  const ATOMIC_KEYS: set<Path> := {
    ["http", "rate_limits", "hosts"],
    ["http", "proxies", "platforms"],
    ["http", "proxies", "hosts"]
  }

  predicate BeneathAtomic(p: Path) {
    exists k :: k in ATOMIC_KEYS && k < p
  }

  /** Whether `v` at `at` is a section, split into the paths beneath it, rather than a leaf. */
  predicate Splits(v: Value, at: Path) {
    v.Object? && at !in ATOMIC_KEYS
  }

  /** The leaf of `v`, placed at `at`, that `rel` leads to. */
  function LeafAt(v: Value, at: Path, rel: Path): Option<Value>
    decreases |rel|
  {
    if !Splits(v, at) then
      if rel == [] then Some(v) else None
    else if rel != [] && rel[0] in v.fields then
      LeafAt(v.fields[rel[0]], at + [rel[0]], rel[1..])
    else
      None
  }

  /** The paths `v` has leaves at when it is placed at `at`. */
  function LeafPaths(v: Value, at: Path): set<Path> {
    if Splits(v, at) then
      set k, p | k in v.fields.Keys && p in LeafPaths(v.fields[k], at + [k]) :: p
    else
      {at}
  }

  lemma {:induction false} LeafPathsAreLeaves(v: Value, at: Path, p: Path)
    ensures p in LeafPaths(v, at) <==> at <= p && LeafAt(v, at, p[|at|..]).Some?
    decreases v
  {
    if Splits(v, at) {
      if at < p && p[|at|] in v.fields {
        var k := p[|at|];
        assert p[|at|..][1..] == p[|at + [k]|..];
        assert at + [k] <= p;
      }
      forall k | k in v.fields.Keys
        ensures p in LeafPaths(v.fields[k], at + [k]) <==>
                at + [k] <= p && LeafAt(v.fields[k], at + [k], p[|at| + 1..]).Some?
      {
        LeafPathsAreLeaves(v.fields[k], at + [k], p);
      }
    } else if at <= p {
      assert p[|at|..] == [] <==> p == at;
    }
  }

  /** A value placed at `at` as rows: sections are opened until only leaves remain, and an array or
      an atomic map is one leaf. */
  function Leaves(v: Value, at: Path): (out: map<Path, Value>)
  {
    map p | p in LeafPaths(v, at) && at <= p && LeafAt(v, at, p[|at|..]).Some? :: LeafAt(v, at, p[|at|..]).value
  }

  /** A path leads to a leaf exactly when it is one of the rows, and then to the row's value. */
  lemma LeavesAreLeaves(v: Value, at: Path)
    ensures forall p :: p in Leaves(v, at) <==> at <= p && LeafAt(v, at, p[|at|..]).Some?
    ensures forall p :: p in Leaves(v, at) ==> LeafAt(v, at, p[|at|..]) == Some(Leaves(v, at)[p])
  {
    forall p ensures p in Leaves(v, at) <==> at <= p && LeafAt(v, at, p[|at|..]).Some? {
      LeafPathsAreLeaves(v, at, p);
    }
  }

  /** No leaf of a value lies beneath another. */
  lemma {:induction false} LeavesApart(v: Value, at: Path, rel: Path, rel': Path)
    requires LeafAt(v, at, rel).Some? && LeafAt(v, at, rel').Some?
    requires rel <= rel'
    ensures rel == rel'
    decreases |rel|
  {
    if Splits(v, at) {
      LeavesApart(v.fields[rel[0]], at + [rel[0]], rel[1..], rel'[1..]);
    }
  }
}
