/** The settings table: what a change does to its rows, what the dry run computes, and what
    the audit log says about it. */
module SettingsTable {
  import opened Json
  import opened Assembly
  import opened Secrets

  datatype Source = Provisioning | App

  datatype Entry = Entry(value: Value, source: Source, updatedAt: int)

  type Table = map<Path, Entry>

  function Values(t: Table): map<Path, Value> {
    map p | p in t :: t[p].value
  }

  /** Tables the store reaches: rows that assemble and split again without loss. */
  ghost predicate Reachable(t: Table) {
    Storable(Values(t))
  }

  // ---- changes and their keys ----

  datatype Change = Change(sets: seq<(Path, Value)>, resets: seq<Path>)

  /** Paths that moved out of the settings when profiles were introduced. */
  const REMOVED_KEYS: set<Path> := {
    ["engine", "limits"],
    ["engine", "live"],
    ["engine", "playlists"],
    ["local", "max_bytes"],
    ["local", "target"],
    ["discord", "limits"],
    ["discord", "target"],
    ["discord", "guilds"]
  }

  predicate IsRemovedKey(p: Path) {
    exists k :: k in REMOVED_KEYS && k <= p
  }

  datatype KeyError = NotAPath(key: Path) | PartOfAtomic(key: Path) | MovedIntoProfiles(key: Path)

  function CheckKey(key: Path): Option<KeyError> {
    if key == [] || "" in key then Some(NotAPath(key))
    else if BeneathAtomic(key) then Some(PartOfAtomic(key))
    else if IsRemovedKey(key) then Some(MovedIntoProfiles(key))
    else None
  }

  function CheckAll(keys: seq<Path>): Option<KeyError> {
    if keys == [] then None
    else if CheckKey(keys[0]).Some? then CheckKey(keys[0])
    else CheckAll(keys[1..])
  }

  /** The keys a change touches, sets first. */
  function Keys(c: Change): seq<Path> {
    seq(|c.sets|, i requires 0 <= i < |c.sets| => c.sets[i].0) + c.resets
  }

  /** A key is accepted exactly when it is a path of non-empty segments, lies beneath no key that is set
      as a whole, and neither at nor beneath one that moved out. */
  lemma AcceptedExactly(key: Path)
    ensures CheckKey(key).None? <==>
            && key != [] && (forall i :: 0 <= i < |key| ==> key[i] != "")
            && (forall n :: 0 <= n < |key| ==> key[..n] !in ATOMIC_KEYS)
            && (forall n :: 0 <= n <= |key| ==> key[..n] !in REMOVED_KEYS)
  {
    PrefixIn(key, ATOMIC_KEYS);
    PrefixAmong(key, REMOVED_KEYS);
  }

  lemma PrefixIn(key: Path, keys: set<Path>)
    ensures (exists k :: k in keys && k < key) <==> exists n :: 0 <= n < |key| && key[..n] in keys
  {
    if k :| k in keys && k < key {
      assert key[..|k|] == k;
    }
    if n :| 0 <= n < |key| && key[..n] in keys {
      assert key[..n] < key;
    }
  }

  lemma PrefixAmong(key: Path, keys: set<Path>)
    ensures (exists k :: k in keys && k <= key) <==> exists n :: 0 <= n <= |key| && key[..n] in keys
  {
    if k :| k in keys && k <= key {
      assert key[..|k|] == k;
    }
    if n :| 0 <= n <= |key| && key[..n] in keys {
      assert key[..n] <= key;
    }
  }

  predicate FirstRefused(keys: seq<Path>, i: int) {
    0 <= i < |keys| && CheckKey(keys[i]).Some? && forall j :: 0 <= j < i ==> CheckKey(keys[j]).None?
  }

  lemma {:induction false} CheckedKeys(keys: seq<Path>)
    ensures CheckAll(keys).None? <==> forall i :: 0 <= i < |keys| ==> CheckKey(keys[i]).None?
    ensures CheckAll(keys).Some? ==> exists i :: FirstRefused(keys, i) && CheckKey(keys[i]) == CheckAll(keys)
  {
    if keys != [] && CheckKey(keys[0]).Some? {
      assert FirstRefused(keys, 0);
    } else if keys != [] && CheckAll(keys).Some? {
      CheckedKeys(keys[1..]);
      var i :| FirstRefused(keys[1..], i) && CheckKey(keys[1..][i]) == CheckAll(keys[1..]);
      assert forall j :: 0 <= j < i ==> keys[1..][j] == keys[j + 1];
      assert FirstRefused(keys, i + 1);
    }
    if keys != [] {
      CheckedKeys(keys[1..]);
      assert forall i :: 0 < i < |keys| ==> keys[i] == keys[1..][i - 1];
      assert forall i :: 0 <= i < |keys[1..]| ==> keys[1..][i] == keys[i + 1];
    }
  }

  /** A change whose keys can be written: not the root, and not inside an atomic key. */
  predicate WritableKey(key: Path) {
    key != [] && !BeneathAtomic(key)
  }

  predicate Writable(sets: seq<(Path, Value)>) {
    forall i :: 0 <= i < |sets| ==> WritableKey(sets[i].0)
  }

  lemma CheckedChange(c: Change)
    requires CheckAll(Keys(c)).None?
    ensures Writable(c.sets)
  {
    CheckedKeys(Keys(c));
    forall i | 0 <= i < |c.sets| ensures WritableKey(c.sets[i].0) {
      assert Keys(c)[i] == c.sets[i].0;
      assert CheckKey(Keys(c)[i]).None?;
    }
  }

  /** `c` as it is carried out, null secrets taken from the table. */
  function WithStoredSecrets(c: Change, stored: map<Path, Value>): Change {
    c.(sets := seq(|c.sets|, i requires 0 <= i < |c.sets| => (c.sets[i].0, Kept(c.sets[i].0, c.sets[i].1, stored))))
  }

  // ---- the table, changed in place ----

  /** The table without the subtree at `key`. */
  function Removed(t: Table, key: Path): Table {
    map p | p in t && !(key <= p) :: t[p]
  }

  /** One leaf stored: a row that holds the value from this source already is not touched. */
  function Stored(t: Table, p: Path, v: Value, source: Source, now: int): Entry {
    if p in t && t[p].value == v && t[p].source == source then t[p] else Entry(v, source, now)
  }

  /** The rows a write to `key` leaves alone. */
  function Around(t: Table, key: Path): Table {
    map p | p in t && !(key < p) && !(p < key) :: t[p]
  }

  /** The table once `v` is written to `key`: its leaves, and of the rest what is unrelated to the key. */
  function Written(t: Table, key: Path, v: Value, source: Source, now: int): Table {
    var leaves := Leaves(v, key);
    map p | p in t.Keys + leaves.Keys && (p in leaves || !Related(p, key)) ::
      if p in leaves then Stored(Around(t, key), p, leaves[p], source, now) else t[p]
  }

  function RemovedAll(t: Table, keys: seq<Path>): Table {
    if keys == [] then t else Removed(RemovedAll(t, keys[..|keys| - 1]), keys[|keys| - 1])
  }

  function WrittenAll(t: Table, sets: seq<(Path, Value)>, source: Source, now: int): Table {
    if sets == [] then t
    else
      var last := sets[|sets| - 1];
      Written(WrittenAll(t, sets[..|sets| - 1], source, now), last.0, last.1, source, now)
  }

  function Rewritten(t: Table, c: Change, now: int): Table {
    WrittenAll(RemovedAll(t, c.resets), c.sets, App, now)
  }

  // ---- the dry run, over keys and values alone ----

  function Without(rows: map<Path, Value>, key: Path): map<Path, Value> {
    map p | p in rows && !(key <= p) :: rows[p]
  }

  function With(rows: map<Path, Value>, key: Path, v: Value): map<Path, Value> {
    (map p | p in rows && !Related(p, key) :: rows[p]) + Leaves(v, key)
  }

  function WithoutAll(rows: map<Path, Value>, keys: seq<Path>): map<Path, Value> {
    if keys == [] then rows else Without(WithoutAll(rows, keys[..|keys| - 1]), keys[|keys| - 1])
  }

  function WithAll(rows: map<Path, Value>, sets: seq<(Path, Value)>): map<Path, Value> {
    if sets == [] then rows
    else With(WithAll(rows, sets[..|sets| - 1]), sets[|sets| - 1].0, sets[|sets| - 1].1)
  }

  function Previewed(rows: map<Path, Value>, c: Change): map<Path, Value> {
    WithAll(WithoutAll(rows, c.resets), c.sets)
  }

  // ---- the dry run is the real run ----

  lemma {:induction false} RemovedAllValues(t: Table, keys: seq<Path>)
    ensures Values(RemovedAll(t, keys)) == WithoutAll(Values(t), keys)
    decreases |keys|
  {
    if keys != [] {
      RemovedAllValues(t, keys[..|keys| - 1]);
    }
  }

  lemma WrittenValues(t: Table, key: Path, v: Value, source: Source, now: int)
    ensures Values(Written(t, key, v, source, now)) == With(Values(t), key, v)
  {
  }

  lemma {:induction false} WrittenAllValues(t: Table, sets: seq<(Path, Value)>, source: Source, now: int)
    ensures Values(WrittenAll(t, sets, source, now)) == WithAll(Values(t), sets)
    decreases |sets|
  {
    if sets != [] {
      var before := WrittenAll(t, sets[..|sets| - 1], source, now);
      WrittenAllValues(t, sets[..|sets| - 1], source, now);
      WrittenValues(before, sets[|sets| - 1].0, sets[|sets| - 1].1, source, now);
    }
  }

  /** Whatever the table and the change, overlapping keys included, the rows the dry run
      computes are the keys and values the real run leaves behind. */
  lemma DryRunIsRealRun(t: Table, c: Change, now: int)
    ensures Values(Rewritten(t, c, now)) == Previewed(Values(t), c)
  {
    RemovedAllValues(t, c.resets);
    WrittenAllValues(RemovedAll(t, c.resets), c.sets, App, now);
  }

  // ---- reachable tables stay reachable ----

  lemma {:induction false} LeafShape(v: Value, at: Path, rel: Path)
    requires LeafAt(v, at, rel).Some? && !BeneathAtomic(at)
    ensures !Splits(LeafAt(v, at, rel).value, at + rel) && !BeneathAtomic(at + rel)
    decreases |rel|
  {
    if Splits(v, at) {
      forall k | k < at + [rel[0]] ensures k !in ATOMIC_KEYS {
        assert k == at || k < at;
      }
      assert at + [rel[0]] + rel[1..] == at + rel;
      LeafShape(v.fields[rel[0]], at + [rel[0]], rel[1..]);
    } else {
      assert at + rel == at;
    }
  }

  /** The rows one value is split into can be stored together. */
  lemma LeavesStorable(v: Value, key: Path)
    requires !BeneathAtomic(key) && (key != [] || v.Object?)
    ensures Storable(Leaves(v, key))
  {
    LeavesAreLeaves(v, key);
    forall p | p in Leaves(v, key)
      ensures p != [] && !BeneathAtomic(p) && !Splits(Leaves(v, key)[p], p)
    {
      LeafShape(v, key, p[|key|..]);
      assert key + p[|key|..] == p;
      assert [] !in ATOMIC_KEYS;
    }
    forall p, q | p in Leaves(v, key) && q in Leaves(v, key) && p <= q
      ensures p == q
    {
      LeavesApart(v, key, p[|key|..], q[|key|..]);
      assert p == key + p[|key|..] && q == key + q[|key|..];
    }
  }

  lemma WithStorable(rows: map<Path, Value>, key: Path, v: Value)
    requires Storable(rows) && WritableKey(key)
    ensures Storable(With(rows, key, v))
  {
    LeavesStorable(v, key);
    LeavesAreLeaves(v, key);
    var leaves := Leaves(v, key);
    forall p, q | p in With(rows, key, v) && q in With(rows, key, v) && p <= q
      ensures p == q
    {
      if p !in leaves && q in leaves {
        PrefixesComparable(p, key, q);
      }
    }
  }

  lemma {:induction false} WithoutAllStorable(rows: map<Path, Value>, keys: seq<Path>)
    requires Storable(rows)
    ensures Storable(WithoutAll(rows, keys))
    decreases |keys|
  {
    if keys != [] {
      WithoutAllStorable(rows, keys[..|keys| - 1]);
    }
  }

  lemma {:induction false} WithAllStorable(rows: map<Path, Value>, sets: seq<(Path, Value)>)
    requires Storable(rows) && Writable(sets)
    ensures Storable(WithAll(rows, sets))
    decreases |sets|
  {
    if sets != [] {
      WithAllStorable(rows, sets[..|sets| - 1]);
      WithStorable(WithAll(rows, sets[..|sets| - 1]), sets[|sets| - 1].0, sets[|sets| - 1].1);
    }
  }

  /** A change with acceptable keys takes a reachable table to a reachable table. */
  lemma ReachableStays(t: Table, c: Change, now: int)
    requires Reachable(t) && Writable(c.sets)
    ensures Reachable(Rewritten(t, c, now))
  {
    DryRunIsRealRun(t, c, now);
    WithoutAllStorable(Values(t), c.resets);
    WithAllStorable(WithoutAll(Values(t), c.resets), c.sets);
  }

  // ---- the tree of a reachable table ----

  lemma {:induction false} Listing(table: map<Path, Value>, keys: set<Path>) returns (rows: seq<Row>)
    requires keys <= table.Keys
    ensures Lists(rows, table, keys)
    decreases |keys|
  {
    if keys == {} {
      rows := [];
    } else {
      var p :| p in keys;
      var rest := Listing(table, keys - {p});
      rows := [(p, table[p])] + rest;
      forall q | q in keys
        ensures exists i :: 0 <= i < |rows| && rows[i].0 == q
      {
        if q == p {
          assert rows[0].0 == q;
        } else {
          assert q in keys - {p};
          var i :| 0 <= i < |rest| && rest[i].0 == q;
          assert rows[i + 1].0 == q;
        }
      }
    }
  }

  lemma TreeExists(rows: map<Path, Value>) returns (tree: Value)
    requires Storable(rows)
    ensures Represents(tree, rows)
  {
    var listed := Listing(rows, rows.Keys);
    AssembleRoundTrip(listed, rows);
    tree := AssembledFrom(map[], listed).tree;
  }

  /** The one tree that holds `rows`. */
  ghost function TreeOf(rows: map<Path, Value>): (tree: Value)
    requires Storable(rows)
    ensures Represents(tree, rows)
  {
    assert exists v :: Represents(v, rows) by {
      var v := TreeExists(rows);
    }
    var v :| Represents(v, rows);
    v
  }
}
