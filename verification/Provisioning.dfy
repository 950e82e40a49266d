/** Provisioning: the layers a settings tree is built from before the store sees it, a file
    over what is stored and the environment over both, and where each provisioned path ends up. */
module Provisioning {
  import opened Json
  import opened Assembly
  import opened Secrets
  import opened SettingsTable

  const DATA_DIR: string := "data_dir"

  // ---- laying one tree over another ----

  /** Two trees as one, `over` on top: only where both have a table are their keys combined. */
  function Merged(tree: Value, over: Value): Value
    decreases over
  {
    if tree.Object? && over.Object? then
      Object(map k | k in tree.fields.Keys + over.fields.Keys ::
        if k !in over.fields then tree.fields[k]
        else if k in tree.fields && tree.fields[k].Object? && over.fields[k].Object? then
          Merged(tree.fields[k], over.fields[k])
        else over.fields[k])
    else over
  }

  /** Key by key, in no particular order. */
  method DeepMerge(tree: Value, over: Value) returns (merged: Value)
    ensures merged == Merged(tree, over)
    decreases over
  {
    if !tree.Object? || !over.Object? {
      return over;
    }
    var fields := tree.fields;
    var pending := over.fields.Keys;
    while pending != {}
      invariant pending <= over.fields.Keys
      invariant fields.Keys == tree.fields.Keys + (over.fields.Keys - pending)
      invariant forall k :: k in fields ==>
                  fields[k] == if k in pending || k !in over.fields then tree.fields[k] else Merged(tree, over).fields[k]
    {
      var key :| key in pending;
      var value := over.fields[key];
      if key in fields && fields[key].Object? && value.Object? {
        value := DeepMerge(fields[key], value);
      }
      fields := fields[key := value];
      pending := pending - {key};
    }
    assert fields == Merged(tree, over).fields;
    return Object(fields);
  }

  /** Laying the same tree over twice is laying it over once. */
  lemma {:induction false} MergedTwice(tree: Value, over: Value)
    ensures Merged(Merged(tree, over), over) == Merged(tree, over)
    decreases over
  {
    if tree.Object? && over.Object? {
      var once := Merged(tree, over);
      forall k | k in over.fields.Keys
        ensures Merged(once, over).fields[k] == once.fields[k]
      {
        if over.fields[k].Object? {
          if k in tree.fields && tree.fields[k].Object? {
            MergedTwice(tree.fields[k], over.fields[k]);
          } else {
            MergedSelf(over.fields[k]);
          }
        }
      }
      assert Merged(once, over).fields == once.fields;
    } else if over.Object? {
      MergedSelf(over);
    }
  }

  lemma {:induction false} MergedSelf(v: Value)
    ensures Merged(v, v) == v
    decreases v
  {
    if v.Object? {
      forall k | k in v.fields.Keys
        ensures Merged(v, v).fields[k] == v.fields[k]
      {
        MergedSelf(v.fields[k]);
      }
      assert Merged(v, v).fields == v.fields;
    }
  }

  /** The value `v` holds at `path` when that is not a table. */
  function Held(v: Value, path: Path): Option<Value> {
    match AtPath(v, path)
    case Some(x) => if x.Object? then None else Some(x)
    case None => None
  }

  /** Whether `over` reaches `path`, or holds a value in place of a table on the way there. */
  predicate Overrides(over: Value, path: Path) {
    AtPath(over, path).Some? || exists n :: 0 <= n < |path| && Held(over, path[..n]).Some?
  }

  lemma OverridesBeneath(over: Value, k: string, rest: Path)
    requires over.Object? && k in over.fields
    ensures Overrides(over, [k] + rest) <==> Overrides(over.fields[k], rest)
  {
    var path := [k] + rest;
    assert path[1..] == rest;
    if exists n :: 0 <= n < |path| && Held(over, path[..n]).Some? {
      var n :| 0 <= n < |path| && Held(over, path[..n]).Some?;
      assert n > 0 && path[..n][1..] == rest[..n - 1];
      assert Held(over.fields[k], rest[..n - 1]).Some?;
    }
    if exists n :: 0 <= n < |rest| && Held(over.fields[k], rest[..n]).Some? {
      var n :| 0 <= n < |rest| && Held(over.fields[k], rest[..n]).Some?;
      assert path[..n + 1][1..] == rest[..n];
      assert Held(over, path[..n + 1]).Some?;
    }
  }

  lemma NothingOverrides(over: Value, k: string, rest: Path)
    requires over.Object? && k !in over.fields
    ensures !Overrides(over, [k] + rest)
  {
    var path := [k] + rest;
    forall n | 0 <= n < |path| ensures Held(over, path[..n]).None? {
      assert n > 0 ==> path[..n][0] == k;
    }
  }

  lemma ValueOverrides(v: Value, path: Path)
    requires !v.Object?
    ensures Overrides(v, path)
  {
    assert path != [] ==> path[..0] == [] && Held(v, path[..0]) == Some(v);
  }

  lemma ReachedOverrides(v: Value, path: Path)
    requires v.Object? && !Overrides(v, path)
    ensures path != [] && AtPath(v, path).None?
  {
  }

  /** Where the upper tree says anything about a path it decides it, elsewhere the lower one does. An
      empty table says that there is no value. */
  lemma {:induction false} UpperLayerDecides(tree: Value, over: Value, path: Path)
    requires tree.Object? && over.Object?
    ensures Held(Merged(tree, over), path) == if Overrides(over, path) then Held(over, path) else Held(tree, path)
    decreases |path|
  {
    if path != [] {
      var k, rest := path[0], path[1..];
      assert path == [k] + rest;
      if k !in over.fields {
        NothingOverrides(over, k, rest);
      } else {
        OverridesBeneath(over, k, rest);
        if k in tree.fields && tree.fields[k].Object? && over.fields[k].Object? {
          UpperLayerDecides(tree.fields[k], over.fields[k], rest);
        } else if !over.fields[k].Object? {
          ValueOverrides(over.fields[k], rest);
        } else if !Overrides(over.fields[k], rest) {
          ReachedOverrides(over.fields[k], rest);
          assert k in tree.fields ==> AtPath(tree.fields[k], rest) == None;
        }
      }
    }
  }

  // ---- single paths ----

  /** `tree` with `value` at `path`, tables made along the way and in the place of anything else. */
  function SetAt(tree: Value, path: Path, value: Value): Value
    requires path != []
    decreases |path|
  {
    var fields := if tree.Object? then tree.fields else map[];
    if |path| == 1 then Object(fields[path[0] := value])
    else
      var child := if path[0] in fields then fields[path[0]] else Object(map[]);
      Object(fields[path[0] := SetAt(child, path[1..], value)])
  }

  /** What is put at a path is there, and every path unrelated to it reads as before. */
  lemma {:induction false} SetThenRead(tree: Value, path: Path, value: Value, q: Path)
    requires path != []
    ensures AtPath(SetAt(tree, path, value), path) == Some(value)
    ensures !Related(path, q) ==> AtPath(SetAt(tree, path, value), q) == AtPath(tree, q)
    decreases |path|
  {
    if |path| > 1 {
      var fields := if tree.Object? then tree.fields else map[];
      var child := if path[0] in fields then fields[path[0]] else Object(map[]);
      SetThenRead(child, path[1..], value, if q == [] then [] else q[1..]);
      if q != [] && q[0] == path[0] && !Related(path, q) {
        assert path == [path[0]] + path[1..] && q == [q[0]] + q[1..];
        assert !Related(path[1..], q[1..]);
      }
    } else {
      assert path[1..] == [];
      if q != [] && q[0] == path[0] {
        assert path == [q[0]] && path <= q;
      }
    }
  }

  /** `tree` without the value at `path`. */
  function RemoveAt(tree: Value, path: Path): Value
    requires path != []
    decreases |path|
  {
    if !tree.Object? then tree
    else if |path| == 1 then Object(tree.fields - {path[0]})
    else if path[0] in tree.fields then
      Object(tree.fields[path[0] := RemoveAt(tree.fields[path[0]], path[1..])])
    else tree
  }

  /** What a removed path held is gone with everything beneath it, and nothing else is. */
  lemma {:induction false} RemoveThenRead(tree: Value, path: Path, q: Path)
    requires path != []
    ensures Held(RemoveAt(tree, path), q) == if path <= q && tree.Object? then None else Held(tree, q)
    ensures path <= q ==> Held(RemoveAt(tree, path), q).None?
    decreases |path|
  {
    if tree.Object? && q != [] && q[0] == path[0] {
      assert path == [path[0]] + path[1..] && q == [q[0]] + q[1..];
      if |path| > 1 && path[0] in tree.fields {
        RemoveThenRead(tree.fields[path[0]], path[1..], q[1..]);
        assert path <= q <==> path[1..] <= q[1..];
        if !tree.fields[path[0]].Object? && path <= q {
          assert q[1..] != [];
        }
      }
    }
  }

  /** And what is left of the tree is reached as before. */
  lemma {:induction false} RemoveThenReach(tree: Value, path: Path, q: Path)
    requires path != [] && !(path <= q)
    ensures AtPath(RemoveAt(tree, path), q).Some? <==> AtPath(tree, q).Some?
    decreases |path|
  {
    if tree.Object? && q != [] && q[0] == path[0] {
      assert path == [path[0]] + path[1..] && q == [q[0]] + q[1..];
      if |path| > 1 && path[0] in tree.fields {
        RemoveThenReach(tree.fields[path[0]], path[1..], q[1..]);
      }
    }
  }

  // ---- the provisioned tree ----

  /** A file's tree and the environment's variables, in the order they are applied. */
  datatype Provisioning = Provisioning(tree: Value, env: seq<(Path, string)>)

  /** What the setting types decide: how an environment variable's text is read against a
      template, a tree with every optional section present, and the settings a tree decodes
      to, written out again in full. */
  datatype Typing = Typing(coerce: (string, Option<Value>) -> Value,
                           exemplar: Value,
                           canonical: Value -> Option<map<string, Value>>)

  ghost predicate Sound(p: Provisioning) {
    p.tree.Object? && forall i :: 0 <= i < |p.env| ==> p.env[i].0 != []
  }

  /** What is provisioned: a path for each leaf of the file and for each variable. */
  function Paths(p: Provisioning): set<Path> {
    Leaves(p.tree, []).Keys + (set i | 0 <= i < |p.env| :: p.env[i].0) - {[DATA_DIR]}
  }

  /** Those of the paths that no longer name a setting. */
  function RemovedPaths(p: Provisioning): set<Path> {
    set q | q in Paths(p) && IsRemovedKey(q)
  }

  function Template(merged: Value, exemplar: Value, path: Path): Option<Value> {
    match AtPath(merged, path)
    case Some(v) => if v.Null? then AtPath(exemplar, path) else Some(v)
    case None => AtPath(exemplar, path)
  }

  /** A variable's text is read against what is there already, and only where that is nothing or null
      against what a tree with everything in it has. */
  lemma ReadAgainst(merged: Value, exemplar: Value, path: Path)
    ensures forall v :: v != Null && AtPath(merged, path) == Some(v) ==> Template(merged, exemplar, path) == Some(v)
    ensures (forall v :: AtPath(merged, path) == Some(v) ==> v == Null) ==>
              Template(merged, exemplar, path) == AtPath(exemplar, path)
  {
  }

  predicate Skipped(path: Path) {
    path == [DATA_DIR] || IsRemovedKey(path)
  }

  /** One variable put over `tree`. */
  function WithVariable(tree: Value, path: Path, raw: string, typing: Typing): Value
    requires path != []
  {
    if Skipped(path) then tree
    else SetAt(tree, path, typing.coerce(raw, Template(tree, typing.exemplar, path)))
  }

  lemma WithVariableReads(tree: Value, path: Path, raw: string, typing: Typing, q: Path)
    requires path != []
    ensures !Skipped(path) ==>
              AtPath(WithVariable(tree, path, raw, typing), path) ==
              Some(typing.coerce(raw, Template(tree, typing.exemplar, path)))
    ensures Skipped(path) || !Related(path, q) ==> AtPath(WithVariable(tree, path, raw, typing), q) == AtPath(tree, q)
  {
    if !Skipped(path) {
      SetThenRead(tree, path, typing.coerce(raw, Template(tree, typing.exemplar, path)), q);
    }
  }

  /** The environment's variables put over `tree`, one after the other. */
  function WithEnv(tree: Value, env: seq<(Path, string)>, typing: Typing): Value
    requires forall i :: 0 <= i < |env| ==> env[i].0 != []
    decreases |env|
  {
    if env == [] then tree
    else WithVariable(WithEnv(tree, env[..|env| - 1], typing), env[|env| - 1].0, env[|env| - 1].1, typing)
  }

  /** A variable no later variable touches is in force as its setting reads it. */
  lemma {:induction false} EnvironmentWins(tree: Value, env: seq<(Path, string)>, typing: Typing, i: nat)
    requires forall j :: 0 <= j < |env| ==> env[j].0 != []
    requires i < |env| && !Skipped(env[i].0)
    requires forall j :: i < j < |env| ==> !Related(env[j].0, env[i].0)
    ensures AtPath(WithEnv(tree, env, typing), env[i].0) ==
            Some(typing.coerce(env[i].1, Template(WithEnv(tree, env[..i], typing), typing.exemplar, env[i].0)))
    decreases |env|
  {
    var n := |env| - 1;
    if i < n {
      assert env[..n][..i] == env[..i];
      EnvironmentWins(tree, env[..n], typing, i);
    }
    WithVariableReads(WithEnv(tree, env[..n], typing), env[n].0, env[n].1, typing, env[i].0);
  }

  lemma {:induction false} EnvironmentElsewhere(tree: Value, env: seq<(Path, string)>, typing: Typing, q: Path)
    requires forall j :: 0 <= j < |env| ==> env[j].0 != []
    requires forall j :: 0 <= j < |env| ==> Skipped(env[j].0) || !Related(env[j].0, q)
    ensures AtPath(WithEnv(tree, env, typing), q) == AtPath(tree, q)
    decreases |env|
  {
    if env != [] {
      var n := |env| - 1;
      EnvironmentElsewhere(tree, env[..n], typing, q);
      WithVariableReads(WithEnv(tree, env[..n], typing), env[n].0, env[n].1, typing, q);
    }
  }

  // ---- where a provisioned path is stored ----

  /** The longest prefix of `path` that is a canonical leaf. */
  function HolderOf(canonical: map<Path, Value>, path: Path): Option<Path>
    decreases |path|
  {
    if path == [] then None
    else if path in canonical then Some(path)
    else HolderOf(canonical, path[..|path| - 1])
  }

  method Holder(canonical: map<Path, Value>, path: Path) returns (r: Option<Path>)
    requires path != []
    ensures r == HolderOf(canonical, path)
  {
    var candidate := path;
    while candidate !in canonical && |candidate| > 1
      invariant candidate != []
      invariant HolderOf(canonical, path) == HolderOf(canonical, candidate)
      decreases |candidate|
    {
      candidate := candidate[..|candidate| - 1];
    }
    return if candidate in canonical then Some(candidate) else None;
  }

  /** The search ends at the one leaf that covers the path, when there is one. */
  lemma {:induction false} HolderIsTheCover(canonical: map<Path, Value>, path: Path, k: Path)
    requires Storable(canonical)
    ensures HolderOf(canonical, path) == Some(k) <==> k in canonical && k <= path
    decreases |path|
  {
    if path != [] {
      var shorter := path[..|path| - 1];
      HolderIsTheCover(canonical, shorter, k);
      if path !in canonical && k in canonical && k <= path {
        assert k != path && shorter[..|k|] == path[..|k|] == k;
      }
    }
  }

  // ---- resolving ----

  datatype Resolved =
    | Resolved(values: map<Path, Value>)
    | IllTyped
    | Unplaced(path: Path)

  /** The removed keys, in the order of their texts. */
  const ROOTS: seq<Path> := [
    ["discord", "guilds"],
    ["discord", "limits"],
    ["discord", "target"],
    ["engine", "limits"],
    ["engine", "live"],
    ["engine", "playlists"],
    ["local", "max_bytes"],
    ["local", "target"]
  ]

  /** Those of `roots` that provisioning still names. */
  function StillNamed(p: Provisioning, roots: seq<Path>): seq<Path> {
    if roots == [] then []
    else (if exists q :: q in RemovedPaths(p) && roots[0] <= q then [roots[0]] else []) + StillNamed(p, roots[1..])
  }

  lemma {:induction false} StillNamedIs(p: Provisioning, roots: seq<Path>, k: Path)
    ensures k in StillNamed(p, roots) <==> k in roots && exists q :: q in RemovedPaths(p) && k <= q
  {
    if roots != [] {
      StillNamedIs(p, roots[1..], k);
    }
  }

  /** `tree` without what lies at `roots`. */
  function WithoutRoots(tree: Value, roots: seq<Path>): Value
    requires [] !in roots
    decreases |roots|
  {
    if roots == [] then tree else RemoveAt(WithoutRoots(tree, roots[..|roots| - 1]), roots[|roots| - 1])
  }

  method RemoveRoots(tree: Value, roots: seq<Path>) returns (own: Value)
    requires [] !in roots
    ensures own == WithoutRoots(tree, roots)
  {
    own := tree;
    for i := 0 to |roots|
      invariant own == WithoutRoots(tree, roots[..i])
    {
      assert roots[..i + 1][..i] == roots[..i];
      own := RemoveAt(own, roots[i]);
    }
    assert roots[..|roots|] == roots;
  }

  /** Taking the roots out takes what lies beneath them, and nothing else. */
  lemma {:induction false} RootsGone(tree: Value, roots: seq<Path>, q: Path)
    requires tree.Object? && [] !in roots
    ensures WithoutRoots(tree, roots).Object?
    ensures Held(WithoutRoots(tree, roots), q) == if exists i :: 0 <= i < |roots| && roots[i] <= q then None else Held(tree, q)
    decreases |roots|
  {
    if roots != [] {
      var n := |roots| - 1;
      RootsGone(tree, roots[..n], q);
      RemoveThenRead(WithoutRoots(tree, roots[..n]), roots[n], q);
      if exists i :: 0 <= i < |roots| && roots[i] <= q && i < n {
        var i :| 0 <= i < |roots| && roots[i] <= q && i < n;
        assert roots[..n][i] <= q;
      }
    }
  }

  function CanonicalLeaves(fields: map<string, Value>): map<Path, Value> {
    Leaves(Object(fields), [])
  }

  /** The canonical leaves that hold the provisioned paths. */
  ghost function Placed(canonical: map<Path, Value>, paths: set<Path>): map<Path, Value> {
    map k | k in canonical && (exists q :: q in paths && HolderOf(canonical, q) == Some(k)) :: canonical[k]
  }

  /** The file's tree without the removed keys. */
  function OwnTree(p: Provisioning): Value {
    NoRootIsRoot(p);
    WithoutRoots(p.tree, StillNamed(p, ROOTS))
  }

  lemma NoRootIsRoot(p: Provisioning)
    ensures [] !in StillNamed(p, ROOTS)
  {
    StillNamedIs(p, ROOTS, []);
  }

  lemma RootsAreRemovedKeys(k: Path)
    ensures k in ROOTS <==> k in REMOVED_KEYS
  {
  }

  /** What a tree holds is one of its leaves, outside the atomic maps. */
  lemma {:induction false} HeldIsLeaf(v: Value, at: Path, q: Path)
    requires Held(v, q).Some? && !BeneathAtomic(at + q)
    ensures LeafAt(v, at, q).Some?
    decreases |q|
  {
    if q != [] {
      assert at + q == at + [q[0]] + q[1..];
      assert at < at + q;
      HeldIsLeaf(v.fields[q[0]], at + [q[0]], q[1..]);
    }
  }

  /** The file keeps exactly what does not belong to a removed key. */
  lemma OwnTreeHolds(p: Provisioning, q: Path)
    requires Sound(p)
    ensures Held(OwnTree(p), q) == if IsRemovedKey(q) then None else Held(p.tree, q)
  {
    var named := StillNamed(p, ROOTS);
    NoRootIsRoot(p);
    RootsGone(p.tree, named, q);
    if exists i :: 0 <= i < |named| && named[i] <= q {
      var i :| 0 <= i < |named| && named[i] <= q;
      StillNamedIs(p, ROOTS, named[i]);
      RootsAreRemovedKeys(named[i]);
    }
    if IsRemovedKey(q) && Held(p.tree, q).Some? {
      StillHeld(p, q);
    }
  }

  lemma StillHeld(p: Provisioning, q: Path)
    requires IsRemovedKey(q) && Held(p.tree, q).Some?
    ensures var named := StillNamed(p, ROOTS);
            exists i :: 0 <= i < |named| && named[i] <= q
  {
    var named := StillNamed(p, ROOTS);
    var k :| k in REMOVED_KEYS && k <= q;
    assert !BeneathAtomic(q) && [] + q == q;
    HeldIsLeaf(p.tree, [], q);
    LeavesAreLeaves(p.tree, []);
    assert q in RemovedPaths(p);
    RootsAreRemovedKeys(k);
    StillNamedIs(p, ROOTS, k);
    var i :| 0 <= i < |named| && named[i] == k;
  }

  /** The tree the settings are decoded from: the file without the removed keys over what is
      stored, the environment over both, and no data directory. */
  function Layered(p: Provisioning, base: Value, typing: Typing): Value
    requires forall i :: 0 <= i < |p.env| ==> p.env[i].0 != []
  {
    var top := WithEnv(Merged(base, OwnTree(p)), p.env, typing);
    if top.Object? then Object(top.fields - {DATA_DIR}) else top
  }

  lemma {:induction false} RootsReach(tree: Value, roots: seq<Path>, q: Path)
    requires [] !in roots && forall i :: 0 <= i < |roots| ==> !(roots[i] <= q)
    ensures AtPath(WithoutRoots(tree, roots), q).Some? <==> AtPath(tree, q).Some?
    decreases |roots|
  {
    if roots != [] {
      var n := |roots| - 1;
      RootsReach(tree, roots[..n], q);
      RemoveThenReach(WithoutRoots(tree, roots[..n]), roots[n], q);
    }
  }

  /** What the file says about a setting does not depend on the removed keys beside it. */
  lemma OwnTreeOverrides(p: Provisioning, q: Path)
    requires Sound(p) && !IsRemovedKey(q)
    ensures Overrides(OwnTree(p), q) <==> Overrides(p.tree, q)
  {
    var named := StillNamed(p, ROOTS);
    NoRootIsRoot(p);
    forall i | 0 <= i < |named| ensures !(named[i] <= q) {
      assert named[i] in named;
      StillNamedIs(p, ROOTS, named[i]);
      RootsAreRemovedKeys(named[i]);
    }
    RootsReach(p.tree, named, q);
    forall n | 0 <= n < |q| ensures Held(OwnTree(p), q[..n]) == Held(p.tree, q[..n]) {
      OwnTreeHolds(p, q[..n]);
      forall k | k in REMOVED_KEYS ensures !(k <= q[..n]) {
        assert !(k <= q);
      }
    }
  }

  /** The three layers at a setting's path, the data directory aside: the environment decides where it
      names it, the file where the environment is silent, what is stored where both are. */
  lemma LayerOrder(p: Provisioning, base: Value, typing: Typing, q: Path)
    requires Sound(p) && base.Object? && q != [] && q[0] != DATA_DIR && !IsRemovedKey(q)
    ensures forall i :: && 0 <= i < |p.env| && p.env[i].0 == q
                        && (forall j :: i < j < |p.env| ==> !Related(p.env[j].0, q)) ==>
              AtPath(Layered(p, base, typing), q) == Some(typing.coerce(p.env[i].1,
                Template(WithEnv(Merged(base, OwnTree(p)), p.env[..i], typing), typing.exemplar, q)))
    ensures (forall j :: 0 <= j < |p.env| ==> Skipped(p.env[j].0) || !Related(p.env[j].0, q)) ==>
              Held(Layered(p, base, typing), q) == if Overrides(p.tree, q) then Held(p.tree, q) else Held(base, q)
  {
    var merged := Merged(base, OwnTree(p));
    var top := WithEnv(merged, p.env, typing);
    assert AtPath(Layered(p, base, typing), q) == AtPath(top, q);
    forall i | && 0 <= i < |p.env| && p.env[i].0 == q
               && (forall j :: i < j < |p.env| ==> !Related(p.env[j].0, q))
      ensures AtPath(top, q) ==
              Some(typing.coerce(p.env[i].1, Template(WithEnv(merged, p.env[..i], typing), typing.exemplar, q)))
    {
      EnvironmentWins(merged, p.env, typing, i);
    }
    if forall j :: 0 <= j < |p.env| ==> Skipped(p.env[j].0) || !Related(p.env[j].0, q) {
      EnvironmentElsewhere(merged, p.env, typing, q);
      OwnTreeIsTable(p);
      UpperLayerDecides(base, OwnTree(p), q);
      OwnTreeOverrides(p, q);
      OwnTreeHolds(p, q);
    }
  }

  lemma OwnTreeIsTable(p: Provisioning)
    requires Sound(p)
    ensures OwnTree(p).Object?
  {
    NoRootIsRoot(p);
    RootsGone(p.tree, StillNamed(p, ROOTS), []);
  }

  method Layer(p: Provisioning, base: Value, typing: Typing) returns (merged: Value)
    requires Sound(p) && base.Object?
    ensures merged == Layered(p, base, typing)
  {
    NoRootIsRoot(p);
    var own := RemoveRoots(p.tree, StillNamed(p, ROOTS));
    merged := DeepMerge(base, own);
    for i := 0 to |p.env|
      invariant merged == WithEnv(Merged(base, own), p.env[..i], typing)
    {
      assert p.env[..i + 1][..i] == p.env[..i];
      merged := WithVariable(merged, p.env[i].0, p.env[i].1, typing);
    }
    assert p.env[..|p.env|] == p.env;
    if merged.Object? {
      merged := Object(merged.fields - {DATA_DIR});
    }
  }

  ghost predicate AllHeld(canonical: map<Path, Value>, paths: set<Path>) {
    forall q :: q in paths ==> HolderOf(canonical, q).Some?
  }

  method PlaceAll(canonical: map<Path, Value>, paths: set<Path>) returns (r: Resolved)
    requires [] !in paths
    ensures !r.IllTyped?
    ensures r.Unplaced? ==> r.path in paths && HolderOf(canonical, r.path).None?
    ensures r.Resolved? ==> r.values == Placed(canonical, paths) && AllHeld(canonical, paths)
  {
    var values: map<Path, Value> := map[];
    var pending := paths;
    ghost var done := {};
    while pending != {}
      invariant pending !! done && pending + done == paths
      invariant values == Placed(canonical, done)
      invariant AllHeld(canonical, done)
    {
      var path :| path in pending;
      var key := Holder(canonical, path);
      if key.None? {
        return Unplaced(path);
      }
      PlacedOne(canonical, done, path);
      values := values[key.value := canonical[key.value]];
      pending := pending - {path};
      done := done + {path};
    }
    return Resolved(values);
  }

  /** The provisioned paths that are settings still. */
  function SettingPaths(p: Provisioning): set<Path> {
    Paths(p) - RemovedPaths(p)
  }

  /** What `p` comes to over `base`: the canonical leaves, as the setting types write the layered
      tree out, that hold its paths. None when the tree is refused or a path has no leaf. */
  ghost function ResolvedOver(p: Provisioning, base: Value, typing: Typing): Option<map<Path, Value>>
    requires Sound(p)
  {
    var fields := typing.canonical(Layered(p, base, typing));
    if fields.None? || !AllHeld(CanonicalLeaves(fields.value), SettingPaths(p)) then None
    else Some(Placed(CanonicalLeaves(fields.value), SettingPaths(p)))
  }

  /** Turns provisioning into rows: layer the trees, decode, write out again, and look up where each
      path ended up. */
  method Resolve(p: Provisioning, base: Value, typing: Typing) returns (r: Resolved)
    requires Sound(p) && base.Object?
    ensures (if r.Resolved? then Some(r.values) else None) == ResolvedOver(p, base, typing)
    ensures r.IllTyped? <==> typing.canonical(Layered(p, base, typing)).None?
    ensures r.Unplaced? ==>
              && r.path in SettingPaths(p)
              && HolderOf(CanonicalLeaves(typing.canonical(Layered(p, base, typing)).value), r.path).None?
  {
    var layered := Layer(p, base, typing);
    var decoded := typing.canonical(layered);
    if decoded.None? {
      return IllTyped;
    }
    assert [] !in SettingPaths(p) by {
      if [] in Paths(p) {
        ProvisionedPath(p, []);
      }
    }
    r := PlaceAll(CanonicalLeaves(decoded.value), SettingPaths(p));
  }

  /** Whether provisioning names a path: a leaf of the file, or a variable, the data directory aside. */
  ghost predicate Names(p: Provisioning, q: Path) {
    && q != [DATA_DIR]
    && (LeafAt(p.tree, [], q).Some? || exists i :: 0 <= i < |p.env| && p.env[i].0 == q)
  }

  lemma NamedPaths(p: Provisioning, q: Path)
    ensures q in Paths(p) <==> Names(p, q)
    ensures q in SettingPaths(p) <==> Names(p, q) && !IsRemovedKey(q)
    ensures q in RemovedPaths(p) <==> Names(p, q) && IsRemovedKey(q)
  {
    LeavesAreLeaves(p.tree, []);
    assert [] <= q && q[0..] == q;
  }

  /** Exactly one row lies at or above a path, and holds the leaf the settings have there. */
  ghost predicate CoveredOnce(values: map<Path, Value>, fields: map<string, Value>, q: Path) {
    exists k :: CoversAlone(values, fields, q, k)
  }

  ghost predicate CoversAlone(values: map<Path, Value>, fields: map<string, Value>, q: Path, k: Path) {
    && k in values && k <= q && (forall j :: j in values && j <= q ==> j == k)
    && LeafAt(Object(fields), [], k) == Some(values[k])
  }

  /** Whether provisioning names a setting at or beneath a path. */
  ghost predicate NamesBeneath(p: Provisioning, k: Path) {
    exists q :: Names(p, q) && !IsRemovedKey(q) && k <= q
  }

  /** The rows provisioning comes to, from the file and the variables: for each one that names a setting
      exactly one row lies at or above its path, with the value the settings have there written out
      in full; and every row is there for one of them. */
  lemma ResolvedExactly(p: Provisioning, base: Value, typing: Typing, values: map<Path, Value>)
    requires Sound(p) && ResolvedOver(p, base, typing) == Some(values)
    ensures var fields := typing.canonical(Layered(p, base, typing));
            && fields.Some?
            && (forall q :: Names(p, q) && !IsRemovedKey(q) ==> CoveredOnce(values, fields.value, q))
            && (forall k :: k in values ==> NamesBeneath(p, k))
  {
    var fields := typing.canonical(Layered(p, base, typing)).value;
    PlacedExactly(p, fields, values);
  }

  lemma PlacedExactly(p: Provisioning, fields: map<string, Value>, values: map<Path, Value>)
    requires AllHeld(CanonicalLeaves(fields), SettingPaths(p)) && values == Placed(CanonicalLeaves(fields), SettingPaths(p))
    ensures forall q :: Names(p, q) && !IsRemovedKey(q) ==> CoveredOnce(values, fields, q)
    ensures forall k :: k in values ==> NamesBeneath(p, k)
  {
    forall q | Names(p, q) && !IsRemovedKey(q) ensures CoveredOnce(values, fields, q) {
      NamedPaths(p, q);
      CoveredByCanonical(SettingPaths(p), values, fields, q);
    }
    forall k | k in values ensures NamesBeneath(p, k) {
      PlacedFor(p, fields, k);
    }
  }

  lemma CanonicalLeaf(fields: map<string, Value>, k: Path)
    ensures k in CanonicalLeaves(fields) <==> LeafAt(Object(fields), [], k).Some?
    ensures k in CanonicalLeaves(fields) ==> LeafAt(Object(fields), [], k) == Some(CanonicalLeaves(fields)[k])
  {
    LeavesAreLeaves(Object(fields), []);
    var none: Path := [];
    assert none <= k && k[|none|..] == k;
  }

  lemma PlacedFor(p: Provisioning, fields: map<string, Value>, k: Path)
    requires k in Placed(CanonicalLeaves(fields), SettingPaths(p))
    ensures NamesBeneath(p, k)
  {
    var q :| q in SettingPaths(p) && HolderOf(CanonicalLeaves(fields), q) == Some(k);
    NamedPaths(p, q);
    CanonicalStorable(fields);
    HolderIsTheCover(CanonicalLeaves(fields), q, k);
  }

  lemma CoveredByCanonical(paths: set<Path>, values: map<Path, Value>, fields: map<string, Value>, q: Path)
    requires AllHeld(CanonicalLeaves(fields), paths) && values == Placed(CanonicalLeaves(fields), paths) && q in paths
    ensures CoveredOnce(values, fields, q)
  {
    var canonical := CanonicalLeaves(fields);
    var k := HolderOf(canonical, q).value;
    CanonicalStorable(fields);
    HolderIsTheCover(canonical, q, k);
    CanonicalLeaf(fields, k);
    assert k in values;
    forall j | j in values && j <= q ensures j == k {
      HolderIsTheCover(canonical, q, j);
    }
    assert CoversAlone(values, fields, q, k);
  }

  ghost predicate HasCover(fields: map<string, Value>, q: Path) {
    exists k :: k <= q && LeafAt(Object(fields), [], k).Some?
  }

  /** It comes to nothing at all only where the settings refuse the layered tree or have no leaf at or above
      some path named. */
  lemma ResolvesUnless(p: Provisioning, base: Value, typing: Typing)
    requires Sound(p)
    ensures ResolvedOver(p, base, typing).Some? <==>
            var fields := typing.canonical(Layered(p, base, typing));
            fields.Some? && forall q :: Names(p, q) && !IsRemovedKey(q) ==> HasCover(fields.value, q)
  {
    var fields := typing.canonical(Layered(p, base, typing));
    if fields.Some? {
      HeldWhereCovered(p, fields.value);
    }
  }

  lemma HeldWhereCovered(p: Provisioning, fields: map<string, Value>)
    ensures AllHeld(CanonicalLeaves(fields), SettingPaths(p)) <==>
            forall q :: Names(p, q) && !IsRemovedKey(q) ==> HasCover(fields, q)
  {
    forall q ensures q in SettingPaths(p) <==> Names(p, q) && !IsRemovedKey(q) {
      NamedPaths(p, q);
    }
    forall q ensures HolderOf(CanonicalLeaves(fields), q).Some? <==> HasCover(fields, q) {
      HeldSomewhere(fields, q);
    }
  }

  lemma HeldSomewhere(fields: map<string, Value>, q: Path)
    ensures HolderOf(CanonicalLeaves(fields), q).Some? <==> HasCover(fields, q)
  {
    var canonical := CanonicalLeaves(fields);
    CanonicalStorable(fields);
    if HolderOf(canonical, q).Some? {
      var k := HolderOf(canonical, q).value;
      HolderIsTheCover(canonical, q, k);
      CanonicalLeaf(fields, k);
    }
    if HasCover(fields, q) {
      var k :| k <= q && LeafAt(Object(fields), [], k).Some?;
      CanonicalLeaf(fields, k);
      HolderIsTheCover(canonical, q, k);
    }
  }

  /** What provisioning comes to can be stored side by side, and has exactly one row covering
      each provisioned path. */
  lemma ResolvedCovers(p: Provisioning, base: Value, typing: Typing, values: map<Path, Value>)
    requires Sound(p) && ResolvedOver(p, base, typing) == Some(values)
    ensures Storable(values)
    ensures forall q :: q in SettingPaths(p) ==>
              exists k :: k in values && k <= q && forall j :: j in values && j <= q ==> j == k
  {
    ResolvedRows(typing.canonical(Layered(p, base, typing)).value, SettingPaths(p), values);
    OneCoverEach(values, SettingPaths(p));
  }

  lemma OneCoverEach(values: map<Path, Value>, paths: set<Path>)
    requires Storable(values)
    requires forall q :: q in paths ==> exists k :: k in values && k <= q
    ensures forall q :: q in paths ==>
              exists k :: k in values && k <= q && forall j :: j in values && j <= q ==> j == k
  {
    forall q | q in paths
      ensures exists k :: k in values && k <= q && forall j :: j in values && j <= q ==> j == k
    {
      var k :| k in values && k <= q;
      forall j | j in values && j <= q ensures j == k {
        PrefixesComparable(j, k, q);
      }
    }
  }

  lemma ProvisionedPath(p: Provisioning, path: Path)
    requires Sound(p) && path in Paths(p)
    ensures path != []
  {
    LeavesAreLeaves(p.tree, []);
    assert [] !in ATOMIC_KEYS;
  }

  lemma {:induction false} HolderIsThere(canonical: map<Path, Value>, path: Path)
    ensures HolderOf(canonical, path).Some? ==> HolderOf(canonical, path).value in canonical
    decreases |path|
  {
    if path != [] {
      HolderIsThere(canonical, path[..|path| - 1]);
    }
  }

  lemma PlacedOne(canonical: map<Path, Value>, paths: set<Path>, path: Path)
    requires HolderOf(canonical, path).Some?
    ensures HolderOf(canonical, path).value in canonical
    ensures Placed(canonical, paths + {path}) ==
            Placed(canonical, paths)[HolderOf(canonical, path).value := canonical[HolderOf(canonical, path).value]]
  {
    HolderIsThere(canonical, path);
  }

  /** What resolving yields are rows the store can keep side by side, one covering each
      provisioned path. */
  lemma ResolvedRows(fields: map<string, Value>, paths: set<Path>, values: map<Path, Value>)
    requires values == Placed(CanonicalLeaves(fields), paths) && AllHeld(CanonicalLeaves(fields), paths)
    ensures Storable(values)
    ensures forall q :: q in paths ==> exists k :: k in values && k <= q
  {
    var canonical := CanonicalLeaves(fields);
    CanonicalStorable(fields);
    PlacedStorable(canonical, paths);
    forall q | q in paths
      ensures exists k :: k in values && k <= q
    {
      var k := HolderOf(canonical, q).value;
      HolderIsTheCover(canonical, q, k);
      assert k in values;
    }
  }

  lemma CanonicalStorable(fields: map<string, Value>)
    ensures Storable(CanonicalLeaves(fields))
  {
    assert [] !in ATOMIC_KEYS && !BeneathAtomic([]);
    LeavesStorable(Object(fields), []);
  }

  lemma PlacedStorable(canonical: map<Path, Value>, paths: set<Path>)
    requires Storable(canonical)
    ensures Storable(Placed(canonical, paths))
  {
  }
}
