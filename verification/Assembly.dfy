/** Nesting dotted rows into one tree, and why nothing is lost either way. */
module Assembly {
  import opened Json

  datatype Assembled = Tree(tree: Value) | Conflict(key: Path)

  type Row = (Path, Value)

  /** What a reachable table's rows look like: no row beneath another, none beneath an atomic
      key, and objects held at atomic keys only. */
  ghost predicate Storable(rows: map<Path, Value>) {
    && [] !in rows
    && (forall p, q :: p in rows && q in rows && p <= q ==> p == q)
    && (forall p :: p in rows ==> !BeneathAtomic(p))
    && (forall p :: p in rows ==> !Splits(rows[p], p))
  }

  /** No section of `v` below its root is empty. */
  ghost predicate Tidy(v: Value, at: Path) {
    Splits(v, at) ==>
      forall k :: k in v.fields.Keys ==>
        && Tidy(v.fields[k], at + [k])
        && (Splits(v.fields[k], at + [k]) ==> v.fields[k].fields != map[])
  }

  /** Puts `v` at `path` of the table `node`, making tables along the way. `None` when a
      value is in the way or the place is taken. */
  function Insert(node: map<string, Value>, path: Path, v: Value): Option<map<string, Value>>
    requires path != []
    decreases |path|
  {
    if |path| == 1 then
      if path[0] in node then None else Some(node[path[0] := v])
    else
      var child := if path[0] in node then node[path[0]] else Object(map[]);
      if !child.Object? then None
      else match Insert(child.fields, path[1..], v)
        case None => None
        case Some(grown) => Some(node[path[0] := Object(grown)])
  }

  function AssembledFrom(root: map<string, Value>, rows: seq<Row>): Assembled
    requires forall i :: 0 <= i < |rows| ==> rows[i].0 != []
    decreases |rows|
  {
    if rows == [] then Tree(Object(root))
    else match Insert(root, rows[0].0, rows[0].1)
      case None => Conflict(rows[0].0)
      case Some(grown) => AssembledFrom(grown, rows[1..])
  }

  /** Nests the rows one after the other, stopping at the first that does not fit. */
  method Assemble(rows: seq<Row>) returns (r: Assembled)
    requires forall i :: 0 <= i < |rows| ==> rows[i].0 != []
    ensures r == AssembledFrom(map[], rows)
  {
    var root: map<string, Value> := map[];
    for i := 0 to |rows|
      invariant AssembledFrom(map[], rows) == AssembledFrom(root, rows[i..])
    {
      assert rows[i..][0] == rows[i] && rows[i..][1..] == rows[i + 1..];
      var grown := Insert(root, rows[i].0, rows[i].1);
      if grown.None? {
        return Conflict(rows[i].0);
      }
      root := grown.value;
    }
    return Tree(Object(root));
  }

  /** A tidy section that is not empty has a leaf somewhere. */
  lemma {:induction false} TidyHasLeaf(v: Value, at: Path) returns (rel: Path)
    requires Tidy(v, at) && (Splits(v, at) ==> v.fields != map[])
    ensures LeafAt(v, at, rel).Some?
  {
    if Splits(v, at) {
      var k :| k in v.fields.Keys;
      var rest := TidyHasLeaf(v.fields[k], at + [k]);
      rel := [k] + rest;
      assert rel[1..] == rest;
    } else {
      rel := [];
    }
  }

  /** Two tidy sections with the same leaves are the same section. */
  lemma {:induction false} SameLeavesSameTree(u: Value, v: Value, at: Path)
    requires Tidy(u, at) && Tidy(v, at) && Splits(u, at) && Splits(v, at)
    requires forall rel :: LeafAt(u, at, rel) == LeafAt(v, at, rel)
    ensures u == v
    decreases u
  {
    SameKeys(u, v, at);
    SameKeys(v, u, at);
    forall k | k in u.fields.Keys
      ensures u.fields[k] == v.fields[k]
    {
      var here := at + [k];
      forall rel
        ensures LeafAt(u.fields[k], here, rel) == LeafAt(v.fields[k], here, rel)
      {
        assert ([k] + rel)[1..] == rel;
        assert LeafAt(u, at, [k] + rel) == LeafAt(v, at, [k] + rel);
      }
      assert LeafAt(u.fields[k], here, []) == LeafAt(v.fields[k], here, []);
      if Splits(u.fields[k], here) {
        SameLeavesSameTree(u.fields[k], v.fields[k], here);
      }
    }
    assert u.fields == v.fields;
  }

  lemma SameKeys(u: Value, v: Value, at: Path)
    requires Tidy(u, at) && Splits(u, at) && Splits(v, at)
    requires forall rel :: LeafAt(u, at, rel) == LeafAt(v, at, rel)
    ensures u.fields.Keys <= v.fields.Keys
  {
    forall k | k in u.fields.Keys
      ensures k in v.fields.Keys
    {
      var rest := TidyHasLeaf(u.fields[k], at + [k]);
      assert ([k] + rest)[1..] == rest;
      assert LeafAt(u, at, [k] + rest) == LeafAt(v, at, [k] + rest);
    }
  }

  /** Putting `child` at `k` changes no leaf but those beneath `k`. */
  lemma GraftedLeaves(node: map<string, Value>, at: Path, k: string, child: Value, rel: Path)
    requires at !in ATOMIC_KEYS
    ensures LeafAt(Object(node[k := child]), at, rel) ==
            if rel != [] && rel[0] == k then LeafAt(child, at + [k], rel[1..]) else LeafAt(Object(node), at, rel)
  {
  }

  lemma GraftedTidy(node: map<string, Value>, at: Path, k: string, child: Value)
    requires Tidy(Object(node), at) && Tidy(child, at + [k])
    requires Splits(child, at + [k]) ==> child.fields != map[]
    ensures Tidy(Object(node[k := child]), at)
  {
  }

  /** A tidy table with no leaf related to `path` has room for it at its first segment. */
  lemma RoomFor(node: map<string, Value>, at: Path, path: Path)
    requires path != [] && at !in ATOMIC_KEYS && !BeneathAtomic(at + path) && Tidy(Object(node), at)
    requires forall rel :: LeafAt(Object(node), at, rel).Some? ==> !Related(rel, path)
    ensures |path| == 1 ==> path[0] !in node
    ensures |path| > 1 && path[0] in node ==>
              && Splits(node[path[0]], at + [path[0]])
              && forall rel :: LeafAt(node[path[0]], at + [path[0]], rel).Some? ==> !Related(rel, path[1..])
  {
    var k := path[0];
    if k in node {
      var here := at + [k];
      if |path| == 1 {
        var rest := TidyHasLeaf(node[k], here);
        assert ([k] + rest)[1..] == rest && path <= [k] + rest;
        assert LeafAt(Object(node), at, [k] + rest).Some?;
        assert false;
      } else {
        assert here < at + path;
        if !Splits(node[k], here) {
          assert [k][1..] == [] && [k] <= path;
          assert LeafAt(Object(node), at, [k]).Some?;
          assert false;
        }
        forall rel | LeafAt(node[k], here, rel).Some?
          ensures !Related(rel, path[1..])
        {
          assert ([k] + rel)[1..] == rel;
          assert LeafAt(Object(node), at, [k] + rel).Some?;
          assert path == [k] + path[1..];
        }
      }
    }
  }

  /** Inserting a row related to no leaf succeeds, adds that leaf and changes no other. */
  lemma {:induction false} InsertAddsLeaf(node: map<string, Value>, at: Path, path: Path, v: Value)
    requires path != [] && at !in ATOMIC_KEYS && !BeneathAtomic(at + path) && !Splits(v, at + path)
    requires Tidy(Object(node), at)
    requires forall rel :: LeafAt(Object(node), at, rel).Some? ==> !Related(rel, path)
    ensures Insert(node, path, v).Some?
    ensures Tidy(Object(Insert(node, path, v).value), at) && Insert(node, path, v).value != map[]
    ensures forall rel :: LeafAt(Object(Insert(node, path, v).value), at, rel) ==
                          if rel == path then Some(v) else LeafAt(Object(node), at, rel)
    decreases |path|
  {
    var k := path[0];
    var here := at + [k];
    assert here + path[1..] == at + path;
    RoomFor(node, at, path);
    var grown := v;
    if |path| == 1 {
      assert at + path == here;
    } else {
      assert here < at + path;
      var child := if k in node then node[k] else Object(map[]);
      InsertAddsLeaf(child.fields, here, path[1..], v);
      grown := Object(Insert(child.fields, path[1..], v).value);
    }
    GraftedTidy(node, at, k, grown);
    assert k in node[k := grown];
    forall rel
      ensures LeafAt(Object(node[k := grown]), at, rel) == if rel == path then Some(v) else LeafAt(Object(node), at, rel)
    {
      GraftedLeaves(node, at, k, grown, rel);
      if rel != [] && rel[0] == k {
        assert rel == [k] + rel[1..] && path == [k] + path[1..];
      }
    }
  }

  /** `rows` lists the entries of `table` at `keys`, each once, in some order. */
  ghost predicate Lists(rows: seq<Row>, table: map<Path, Value>, keys: set<Path>) {
    && (forall i, j :: 0 <= i < j < |rows| ==> rows[i].0 != rows[j].0)
    && (forall i :: 0 <= i < |rows| ==> rows[i].0 in keys)
    && (forall i :: 0 <= i < |rows| ==> rows[i].0 in table && table[rows[i].0] == rows[i].1)
    && (forall p :: p in keys ==> exists i :: 0 <= i < |rows| && rows[i].0 == p)
  }

  /** A tree holds exactly `rows`: they are its leaves and it has no empty section. */
  ghost predicate Represents(tree: Value, rows: map<Path, Value>) {
    && tree.Object?
    && Tidy(tree, [])
    && forall p :: LeafAt(tree, [], p) == if p in rows then Some(rows[p]) else None
  }

  lemma InsertRow(root: map<string, Value>, table: map<Path, Value>, pending: set<Path>, key: Path)
    requires Storable(table) && key in pending && key in table
    requires Represents(Object(root), table - pending)
    ensures Insert(root, key, table[key]).Some?
    ensures Represents(Object(Insert(root, key, table[key]).value), table - (pending - {key}))
  {
    forall rel | LeafAt(Object(root), [], rel).Some?
      ensures !Related(rel, key)
    {
      assert rel in table - pending;
    }
    assert [] + key == key;
    InsertAddsLeaf(root, [], key, table[key]);
  }

  lemma ListsRest(rows: seq<Row>, table: map<Path, Value>, keys: set<Path>)
    requires Lists(rows, table, keys) && rows != []
    ensures Lists(rows[1..], table, keys - {rows[0].0})
  {
    forall p | p in keys - {rows[0].0}
      ensures exists i :: 0 <= i < |rows[1..]| && rows[1..][i].0 == p
    {
      var i :| 0 <= i < |rows| && rows[i].0 == p;
      assert rows[1..][i - 1] == rows[i];
    }
  }

  lemma {:induction false} AssemblesOnto(root: map<string, Value>, rows: seq<Row>, table: map<Path, Value>,
                                         pending: set<Path>)
    requires Storable(table) && Lists(rows, table, pending)
    requires Represents(Object(root), table - pending)
    ensures forall i :: 0 <= i < |rows| ==> rows[i].0 != []
    ensures AssembledFrom(root, rows).Tree?
    ensures Represents(AssembledFrom(root, rows).tree, table)
    decreases |rows|
  {
    if rows == [] {
      assert table - pending == table;
    } else {
      InsertRow(root, table, pending, rows[0].0);
      ListsRest(rows, table, pending);
      AssemblesOnto(Insert(root, rows[0].0, rows[0].1).value, rows[1..], table, pending - {rows[0].0});
    }
  }

  lemma NothingRepresented(table: map<Path, Value>)
    ensures Represents(Object(map[]), table - table.Keys)
  {
  }

  /** Assembling never reports a conflict on storable rows, and gives the one tidy tree whose
      leaves are the rows, whatever order they come in. */
  lemma AssembleRoundTrip(rows: seq<Row>, table: map<Path, Value>)
    requires Lists(rows, table, table.Keys) && Storable(table)
    ensures forall i :: 0 <= i < |rows| ==> rows[i].0 != []
    ensures AssembledFrom(map[], rows).Tree?
    ensures Represents(AssembledFrom(map[], rows).tree, table)
    ensures Leaves(AssembledFrom(map[], rows).tree, []) == table
  {
    NothingRepresented(table);
    AssemblesOnto(map[], rows, table, table.Keys);
    RepresentsLeaves(AssembledFrom(map[], rows).tree, table);
  }

  lemma RepresentsLeaves(tree: Value, rows: map<Path, Value>)
    requires tree.Object?
    ensures Represents(tree, rows) <==> Tidy(tree, []) && Leaves(tree, []) == rows
  {
    LeavesAreLeaves(tree, []);
    forall p: Path
      ensures p in Leaves(tree, []) <==> LeafAt(tree, [], p).Some?
      ensures p in Leaves(tree, []) ==> LeafAt(tree, [], p) == Some(Leaves(tree, [])[p])
    {
      assert p[0..] == p;
    }
    if Represents(tree, rows) {
      assert forall p :: p in Leaves(tree, []) <==> p in rows;
    }
  }

  lemma RepresentedOnce(u: Value, v: Value, rows: map<Path, Value>)
    requires Represents(u, rows) && Represents(v, rows)
    ensures u == v
  {
    SameLeavesSameTree(u, v, []);
  }

  lemma AssembleIgnoresOrder(rows: seq<Row>, rows': seq<Row>, table: map<Path, Value>)
    requires Lists(rows, table, table.Keys) && Lists(rows', table, table.Keys) && Storable(table)
    ensures forall i :: 0 <= i < |rows| ==> rows[i].0 != []
    ensures forall i :: 0 <= i < |rows'| ==> rows'[i].0 != []
    ensures AssembledFrom(map[], rows) == AssembledFrom(map[], rows')
  {
    AssembleRoundTrip(rows, table);
    AssembleRoundTrip(rows', table);
    RepresentedOnce(AssembledFrom(map[], rows).tree, AssembledFrom(map[], rows').tree, table);
  }

  /** The other way round: splitting a tidy tree and nesting its leaves again gives the tree. */
  lemma SplitThenAssemble(tree: Value, rows: seq<Row>)
    requires tree.Object? && Tidy(tree, [])
    requires Lists(rows, Leaves(tree, []), Leaves(tree, []).Keys) && Storable(Leaves(tree, []))
    ensures forall i :: 0 <= i < |rows| ==> rows[i].0 != []
    ensures AssembledFrom(map[], rows) == Tree(tree)
  {
    AssembleRoundTrip(rows, Leaves(tree, []));
    RepresentsLeaves(tree, Leaves(tree, []));
    RepresentedOnce(AssembledFrom(map[], rows).tree, tree, Leaves(tree, []));
  }
}
