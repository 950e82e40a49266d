/** Startup provisioning of the settings table, and the store itself: a table and an audit log
    changed together, in transactions that leave both alone when the result is not accepted. */
module SettingsStore {
  import opened Json
  import opened Assembly
  import opened Secrets
  import opened SettingsTable
  import opened SettingsAudit
  import opened ChangedRows
  import P = Provisioning

  // ---- provisioning a table ----

  /** Whether the app wrote a row at, above or beneath `key`. */
  predicate ChangedInApp(t: Table, key: Path) {
    exists p :: p in t && t[p].source == App && Related(p, key)
  }

  predicate Apart(p: Path, keys: set<Path>) {
    forall k :: k in keys ==> !Related(p, k)
  }

  /** `before` with the provisioned `keys` stored and whatever was around them gone. */
  function Provisioned(before: Table, values: map<Path, Value>, keys: set<Path>, now: int): Table
    requires keys <= values.Keys
  {
    map p | p in before.Keys + keys && (p in keys || Apart(p, keys)) ::
      if p in keys then Stored(before, p, values[p], Source.Provisioning, now) else before[p]
  }

  /** The keys provisioning may write: those the app has changed nothing around. */
  function Open(before: Table, values: map<Path, Value>): set<Path> {
    set k | k in values && !ChangedInApp(before, k)
  }

  lemma LeafIsItself(v: Value, key: Path)
    requires !Splits(v, key)
    ensures Leaves(v, key) == map[key := v]
  {
    LeavesAreLeaves(v, key);
    forall p | p in Leaves(v, key) ensures p == key {
      assert key + p[|key|..] == p;
    }
    assert key[|key|..] == [] && key in Leaves(v, key);
  }

  lemma ProvisionNext(before: Table, values: map<Path, Value>, keys: set<Path>, key: Path, now: int)
    requires Storable(values) && keys <= values.Keys && key in values && key !in keys
    ensures Written(Provisioned(before, values, keys, now), key, values[key], Source.Provisioning, now)
         == Provisioned(before, values, keys + {key}, now)
  {
    LeafIsItself(values[key], key);
    var sofar := Provisioned(before, values, keys, now);
    var next := Provisioned(before, values, keys + {key}, now);
    var written := Written(sofar, key, values[key], Source.Provisioning, now);
    forall p
      ensures p in written <==> p in next
      ensures p in next ==> written[p] == next[p]
    {
      ProvisionedOne(before, values, keys, key, p, now);
    }
  }

  lemma ProvisionedOne(before: Table, values: map<Path, Value>, keys: set<Path>, key: Path, p: Path, now: int)
    requires Storable(values) && keys <= values.Keys && key in values && key !in keys
    requires Leaves(values[key], key) == map[key := values[key]]
    ensures var next := Provisioned(before, values, keys + {key}, now);
            var written := Written(Provisioned(before, values, keys, now), key, values[key], Source.Provisioning, now);
            (p in written <==> p in next) && (p in next ==> written[p] == next[p])
  {
    ApartNext(p, keys, key);
    if p in keys {
      assert !Related(p, key);
    } else if p == key {
      assert Apart(key, keys);
    }
  }

  lemma ApartNext(p: Path, keys: set<Path>, key: Path)
    ensures Apart(p, keys + {key}) <==> Apart(p, keys) && !Related(p, key)
  {
    if Apart(p, keys + {key}) {
      assert key in keys + {key};
      forall k | k in keys ensures !Related(p, k) {
        assert k in keys + {key};
      }
    }
  }

  /** Provisioning never disturbs the app: every row the app wrote is still there as it was. */
  lemma AppRowsStay(before: Table, values: map<Path, Value>, now: int, p: Path)
    requires p in before && before[p].source == App
    ensures p in Provisioned(before, values, Open(before, values), now)
    ensures Provisioned(before, values, Open(before, values), now)[p] == before[p]
  {
    forall k | k in Open(before, values) ensures !Related(p, k) {
      assert !ChangedInApp(before, k);
    }
  }

  /** Every provisioned key the app changed nothing around holds its provisioned value, and a
      key is passed over only for a row of the app's. */
  lemma OpenKeysHold(before: Table, values: map<Path, Value>, now: int, k: Path)
    requires k in values
    ensures k in Open(before, values) ==>
              && k in Provisioned(before, values, Open(before, values), now)
              && Provisioned(before, values, Open(before, values), now)[k].value == values[k]
              && Provisioned(before, values, Open(before, values), now)[k].source == Source.Provisioning
    ensures k !in Open(before, values) <==> exists p :: p in before && before[p].source == App && Related(p, k)
  {
  }

  /** Rows at no path related to a key provisioning may write stay as they are, whoever wrote them; there
      are no others but those keys, stamped anew unless they held their value from provisioning. */
  lemma OthersStay(before: Table, values: map<Path, Value>, now: int, p: Path)
    ensures var after := Provisioned(before, values, Open(before, values), now);
            && ((forall k :: k in values && !ChangedInApp(before, k) ==> !Related(p, k)) ==>
                  (p in after <==> p in before) && (p in after ==> after[p] == before[p]))
            && (p in after ==> (p in before && after[p] == before[p]) || (p in values && after[p].updatedAt == now))
            && ((p in values && !ChangedInApp(before, p) && p in before && before[p].value == values[p]
                 && before[p].source == Source.Provisioning) ==>
                  p in after && after[p] == before[p])
  {
  }

  lemma ProvisionedReachable(before: Table, values: map<Path, Value>, keys: set<Path>, now: int)
    requires Reachable(before) && Storable(values) && keys <= values.Keys
    ensures Reachable(Provisioned(before, values, keys, now))
  {
    var held, after := Values(before), Values(Provisioned(before, values, keys, now));
    forall p | p in after
      ensures p != [] && !BeneathAtomic(p) && !Splits(after[p], p)
    {
      if p in keys {
        assert after[p] == values[p];
      } else {
        assert p in held && after[p] == held[p];
      }
    }
    forall p, q | p in after && q in after && p <= q
      ensures p == q
    {
      if p in keys {
        assert q in keys || Apart(q, keys);
      } else {
        assert p in held && Apart(p, keys);
        assert q !in keys ==> q in held;
      }
    }
  }

  // ---- what provisioning logs ----

  /** The entry for one leaf written: none when it holds what it held, from the same source,
      and nothing around it went. */
  function LeafEntry(key: Path, before: Table, after: Table): seq<Logged> {
    var gone := Gone(key, before, after, false);
    var value := if key in after then Some(after[key].value) else None;
    var previous := if key in before then Some(before[key].value) else None;
    if !Differs(before, after, key) && gone == map[] then []
    else [Logged(Action.Provision, key, previous, value, gone)]
  }

  function LeafEntries(keys: seq<Path>, before: Table, after: Table): seq<Logged> {
    if keys == [] then []
    else LeafEntries(keys[..|keys| - 1], before, after) + LeafEntry(keys[|keys| - 1], before, after)
  }

  /** No key is logged for nothing, and its entry tells the truth: value and rows gone. */
  lemma {:induction false} LeavesTrue(keys: seq<Path>, before: Table, after: Table, e: Logged)
    requires e in LeafEntries(keys, before, after)
    ensures e.key in keys && e.action == Action.Provision
    ensures e.previous == if e.key in before then Some(before[e.key].value) else None
    ensures e.value == if e.key in after then Some(after[e.key].value) else None
    ensures Differs(before, after, e.key) || e.gone != map[]
    ensures forall p :: p in e.gone <==> p in before && p !in after && p != e.key && Related(p, e.key)
    ensures forall p :: p in e.gone ==> e.gone[p] == before[p].value
    decreases |keys|
  {
    var n := |keys| - 1;
    if e in LeafEntries(keys[..n], before, after) {
      LeavesTrue(keys[..n], before, after, e);
    } else {
      assert e in LeafEntry(keys[n], before, after);
    }
  }

  lemma {:induction false} LeafLogged(keys: seq<Path>, key: Path, before: Table, after: Table)
    requires key in keys
    ensures forall e :: e in LeafEntry(key, before, after) ==> e in LeafEntries(keys, before, after)
    decreases |keys|
  {
    if keys[|keys| - 1] != key {
      LeafLogged(keys[..|keys| - 1], key, before, after);
    }
  }

  /** The log of a startup is complete too: every row provisioning changed is accounted for. */
  lemma ProvisioningAudited(before: Table, after: Table, values: map<Path, Value>, written: seq<Path>, now: int, p: Path)
    requires Storable(values) && (forall k :: k in written ==> k in values)
    requires after == Provisioned(before, values, (set k | k in written), now)
    requires Differs(before, after, p)
    ensures exists e :: e in LeafEntries(written, before, after) && Accounts(e, before, after, p)
  {
    var keys := set k | k in written;
    assert p in before ==> p in keys || !Apart(p, keys);
    var k :| k in keys && Related(p, k);
    LeafLogged(written, k, before, after);
    LeafAccounts(before, after, k, p);
  }

  lemma LeafAccounts(before: Table, after: Table, k: Path, p: Path)
    requires Related(p, k) && Differs(before, after, p)
    requires p in after ==> p == k
    requires k in after && !Splits(after[k].value, k)
    ensures |LeafEntry(k, before, after)| == 1 && Accounts(LeafEntry(k, before, after)[0], before, after, p)
  {
    LeafIsItself(after[k].value, k);
    if p !in after {
      assert p in Gone(k, before, after, false);
    }
  }

  // ---- outcomes ----

  datatype Outcome = Settings(tree: Value) | BadKey(error: KeyError) | Invalid

  /** What rows decode to, given the typed check of the whole tree. */
  ghost function Judged(rows: map<Path, Value>, accepts: Value -> bool): Outcome
    requires Storable(rows)
  {
    if accepts(TreeOf(rows)) then Settings(TreeOf(rows)) else Invalid
  }

  /** What a change leads to, over what is stored: its keys checked, its withheld secrets put
      back, its rows computed and judged. */
  ghost function DryRun(rows: map<Path, Value>, c: Change, accepts: Value -> bool): Outcome
    requires Storable(rows)
  {
    match CheckAll(Keys(c))
    case Some(error) => BadKey(error)
    case None =>
      PreviewStorable(rows, c);
      Judged(Previewed(rows, WithStoredSecrets(c, rows)), accepts)
  }

  lemma PreviewStorable(rows: map<Path, Value>, c: Change)
    requires Storable(rows) && CheckAll(Keys(c)).None?
    ensures Writable(WithStoredSecrets(c, rows).sets)
    ensures Storable(Previewed(rows, WithStoredSecrets(c, rows)))
  {
    var kept := WithStoredSecrets(c, rows);
    CheckedChange(c);
    forall i | 0 <= i < |kept.sets| ensures WritableKey(kept.sets[i].0) {
      assert kept.sets[i].0 == c.sets[i].0;
    }
    WithoutAllStorable(rows, c.resets);
    WithAllStorable(WithoutAll(rows, c.resets), kept.sets);
  }

  /** Rows in whatever order the table is read. */
  method ReadRows(rows: map<Path, Value>) returns (listed: seq<Row>)
    ensures Lists(listed, rows, rows.Keys)
  {
    listed := [];
    var pending := rows.Keys;
    ghost var done := {};
    while pending != {}
      invariant pending !! done && pending + done == rows.Keys
      invariant Lists(listed, rows, done)
    {
      var p :| p in pending;
      ghost var before := listed;
      listed := listed + [(p, rows[p])];
      pending := pending - {p};
      forall q | q in done + {p}
        ensures exists i :: 0 <= i < |listed| && listed[i].0 == q
      {
        if q == p {
          assert listed[|before|].0 == q;
        } else {
          var i :| 0 <= i < |before| && before[i].0 == q;
          assert listed[i].0 == q;
        }
      }
      done := done + {p};
    }
  }

  method TreeFrom(rows: map<Path, Value>) returns (tree: Value)
    requires Storable(rows)
    ensures tree == TreeOf(rows)
  {
    var listed := ReadRows(rows);
    AssembleRoundTrip(listed, rows);
    var assembled := Assemble(listed);
    RepresentedOnce(assembled.tree, TreeOf(rows), rows);
    tree := assembled.tree;
  }

  method Decode(rows: map<Path, Value>, accepts: Value -> bool) returns (r: Outcome)
    requires Storable(rows)
    ensures r == Judged(rows, accepts)
  {
    var tree := TreeFrom(rows);
    return if accepts(tree) then Settings(tree) else Invalid;
  }

  method CheckKeys(c: Change) returns (r: Option<KeyError>)
    ensures r == CheckAll(Keys(c))
  {
    var keys := Keys(c);
    for i := 0 to |keys|
      invariant CheckAll(keys) == CheckAll(keys[i..])
    {
      assert keys[i..][0] == keys[i] && keys[i..][1..] == keys[i + 1..];
      if CheckKey(keys[i]).Some? {
        return CheckKey(keys[i]);
      }
    }
    return None;
  }

  /** The change with the stored secrets in the place of the nulls the app sends. */
  method RestoreSecrets(c: Change, stored: map<Path, Value>) returns (kept: Change)
    ensures kept == WithStoredSecrets(c, stored)
  {
    var sets: seq<(Path, Value)> := [];
    for i := 0 to |c.sets|
      invariant |sets| == i
      invariant forall j :: 0 <= j < i ==> sets[j] == WithStoredSecrets(c, stored).sets[j]
    {
      var value := KeepStoredSecrets(c.sets[i].0, c.sets[i].1, stored);
      sets := sets + [(c.sets[i].0, value)];
    }
    assert sets == WithStoredSecrets(c, stored).sets;
    return c.(sets := sets);
  }

  // ---- the statements of a transaction ----

  /** The delete of a reset, over the rows. */
  method RemoveRows(t: Table, key: Path) returns (rows: Table)
    ensures rows == Removed(t, key)
  {
    rows := map p | p in t && !(key <= p) :: t[p];
  }

  /** `around` with the leaves named by `done` put in place. */
  function Laid(around: Table, leaves: map<Path, Value>, done: set<Path>, source: Source, now: int): Table
    requires done <= leaves.Keys
  {
    map p | p in around.Keys + done :: if p in done then Stored(around, p, leaves[p], source, now) else around[p]
  }

  lemma LaidNext(around: Table, leaves: map<Path, Value>, done: set<Path>, p: Path, source: Source, now: int)
    requires done <= leaves.Keys && p in leaves && p !in done
    ensures Laid(around, leaves, done + {p}, source, now) ==
            var sofar := Laid(around, leaves, done, source, now);
            sofar[p := Stored(sofar, p, leaves[p], source, now)]
  {
  }

  lemma LaidAll(t: Table, key: Path, v: Value, source: Source, now: int)
    ensures var leaves := Leaves(v, key);
            var around := if key in leaves then Around(t, key) else Around(t, key) - {key};
            Laid(around, leaves, leaves.Keys, source, now) == Written(t, key, v, source, now)
  {
    LeavesAreLeaves(v, key);
    forall p: Path
      ensures Related(p, key) <==> p < key || key < p || p == key
    {
      if |p| == |key| && Related(p, key) {
        assert p == key;
      }
    }
  }

  /** The statements of a write, one after the other: delete what is above and below the key, delete
      the key's own row unless the value is one leaf, upsert the leaves. */
  method WriteRows(t: Table, key: Path, value: Value, source: Source, now: int) returns (rows: Table)
    ensures rows == Written(t, key, value, source, now)
  {
    var leaves := Leaves(value, key);
    LaidAll(t, key, value, source, now);
    rows := Around(t, key);
    if key !in leaves {
      rows := rows - {key};
    }
    ghost var around := rows;
    var pending := leaves.Keys;
    ghost var done := {};
    assert Laid(around, leaves, {}, source, now) == around;
    while pending != {}
      invariant pending !! done && pending + done == leaves.Keys
      invariant rows == Laid(around, leaves, done, source, now)
    {
      var leaf :| leaf in pending;
      LaidNext(around, leaves, done, leaf, source, now);
      rows := rows[leaf := Stored(rows, leaf, leaves[leaf], source, now)];
      pending := pending - {leaf};
      done := done + {leaf};
    }
    assert done == leaves.Keys;
  }

  method RewriteRows(t: Table, c: Change, now: int) returns (rows: Table)
    ensures rows == Rewritten(t, c, now)
  {
    rows := t;
    for i := 0 to |c.resets|
      invariant rows == RemovedAll(t, c.resets[..i])
    {
      assert c.resets[..i + 1][..i] == c.resets[..i];
      rows := RemoveRows(rows, c.resets[i]);
    }
    assert c.resets[..|c.resets|] == c.resets;
    ghost var cleared := rows;
    for i := 0 to |c.sets|
      invariant rows == WrittenAll(cleared, c.sets[..i], App, now)
    {
      assert c.sets[..i + 1][..i] == c.sets[..i];
      rows := WriteRows(rows, c.sets[i].0, c.sets[i].1, App, now);
    }
    assert c.sets[..|c.sets|] == c.sets;
  }

  method PreviewRows(stored: map<Path, Value>, c: Change) returns (rows: map<Path, Value>)
    ensures rows == Previewed(stored, c)
  {
    rows := stored;
    for i := 0 to |c.resets|
      invariant rows == WithoutAll(stored, c.resets[..i])
    {
      assert c.resets[..i + 1][..i] == c.resets[..i];
      rows := map p | p in rows && !(c.resets[i] <= p) :: rows[p];
    }
    assert c.resets[..|c.resets|] == c.resets;
    ghost var cleared := rows;
    for i := 0 to |c.sets|
      invariant rows == WithAll(cleared, c.sets[..i])
    {
      assert c.sets[..i + 1][..i] == c.sets[..i];
      var (key, value) := c.sets[i];
      rows := map p | p in rows && !Related(p, key) :: rows[p];
      rows := rows + Leaves(value, key);
    }
    assert c.sets[..|c.sets|] == c.sets;
  }

  method LogResets(keys: seq<Path>, before: Table, after: Table, tree: Value) returns (log: seq<Logged>)
    ensures log == ResetEntries(keys, before, after, tree)
  {
    log := [];
    for i := 0 to |keys|
      invariant log == ResetEntries(keys[..i], before, after, tree)
    {
      assert keys[..i + 1][..i] == keys[..i];
      var gone := Gone(keys[i], before, after, true);
      if gone != map[] {
        log := log + [Logged(Action.Reset, keys[i], AtPath(tree, keys[i]), None, gone)];
      }
    }
    assert keys[..|keys|] == keys;
  }

  method LogSets(sets: seq<(Path, Value)>, action: Action, before: Table, after: Table, tree: Value)
    returns (log: seq<Logged>)
    ensures log == SetEntries(sets, action, before, after, tree)
  {
    log := [];
    for i := 0 to |sets|
      invariant log == SetEntries(sets[..i], action, before, after, tree)
    {
      assert sets[..i + 1][..i] == sets[..i];
      var (key, value) := sets[i];
      var gone := Gone(key, before, after, true) - Leaves(value, key).Keys;
      if !Unchanged(key, value, before, gone, tree) {
        log := log + [Logged(action, key, AtPath(tree, key), Some(value), gone)];
      }
    }
    assert sets[..|sets|] == sets;
  }

  method LogLeaves(keys: seq<Path>, before: Table, after: Table) returns (log: seq<Logged>)
    ensures log == LeafEntries(keys, before, after)
  {
    log := [];
    for i := 0 to |keys|
      invariant log == LeafEntries(keys[..i], before, after)
    {
      assert keys[..i + 1][..i] == keys[..i];
      log := log + LeafEntry(keys[i], before, after);
    }
    assert keys[..|keys|] == keys;
  }

  lemma ProvisionedNothing(before: Table, values: map<Path, Value>, now: int)
    ensures Provisioned(before, values, {}, now) == before
  {
  }

  /** Writes every provisioned key the app changed nothing around. The keys written. */
  method ProvisionRows(before: Table, values: map<Path, Value>, now: int) returns (rows: Table, written: seq<Path>, kept: set<Path>)
    requires Storable(values)
    ensures Elements(written) == Open(before, values) && kept == values.Keys - Open(before, values)
    ensures rows == Provisioned(before, values, Open(before, values), now)
  {
    rows, written, kept := before, [], {};
    var pending := values.Keys;
    ghost var open := {};
    ghost var allOpen := Open(before, values);
    ProvisionedNothing(before, values, now);
    while pending != {}
      invariant pending <= values.Keys && open == allOpen - pending && kept == values.Keys - pending - allOpen
      invariant rows == Provisioned(before, values, open, now)
      invariant Elements(written) == open
    {
      var key :| key in pending;
      HandledNext(values.Keys, allOpen, pending, key);
      if ChangedInApp(before, key) {
        kept := kept + {key};
      } else {
        ProvisionNext(before, values, open, key, now);
        rows := WriteRows(rows, key, values[key], Source.Provisioning, now);
        ElementsNext(written, key);
        written := written + [key];
        open := open + {key};
      }
      pending := pending - {key};
    }
  }

  ghost function Elements(keys: seq<Path>): set<Path> {
    set k | k in keys
  }

  lemma ElementsNext(keys: seq<Path>, key: Path)
    ensures Elements(keys + [key]) == Elements(keys) + {key}
  {
  }

  lemma HandledNext(all: set<Path>, open: set<Path>, pending: set<Path>, key: Path)
    requires key in pending && pending <= all && open <= all
    ensures key in open ==>
              && open - (pending - {key}) == open - pending + {key}
              && all - (pending - {key}) - open == all - pending - open
    ensures key !in open ==>
              && open - (pending - {key}) == open - pending
              && all - (pending - {key}) - open == all - pending - open + {key}
  {
  }

  /** The values provisioning comes to over what is stored, none when it does not resolve. */
  method ResolveOver(before: Table, p: P.Provisioning, typing: P.Typing) returns (r: Option<map<Path, Value>>)
    requires Reachable(before) && P.Sound(p)
    ensures r == P.ResolvedOver(p, TreeOf(Values(before)), typing)
  {
    var tree := TreeFrom(Values(before));
    var resolved := P.Resolve(p, tree, typing);
    return if resolved.Resolved? then Some(resolved.values) else None;
  }

  /** What the table becomes at startup when the result is accepted, and what that is. */
  ghost function AtStartup(before: Table, p: P.Provisioning, typing: P.Typing, accepts: Value -> bool, now: int): Outcome
    requires Reachable(before) && P.Sound(p)
  {
    match P.ResolvedOver(p, TreeOf(Values(before)), typing)
    case None => Invalid
    case Some(values) =>
      P.ResolvedCovers(p, TreeOf(Values(before)), typing, values);
      ProvisionedReachable(before, values, Open(before, values), now);
      Judged(Values(Provisioned(before, values, Open(before, values), now)), accepts)
  }

  /** How a setting provisioning names comes out at startup: the row that covers it holds what the settings
      have there, from provisioning, unless the app wrote a row related to it; then it is kept. */
  ghost predicate StartsAs(before: Table, after: Table, kept: set<Path>, fields: map<string, Value>, q: Path) {
    exists k :: k <= q && LeafAt(Object(fields), [], k).Some? && RowStartsAs(before, after, kept, fields, k)
  }

  ghost predicate RowStartsAs(before: Table, after: Table, kept: set<Path>, fields: map<string, Value>, k: Path)
    requires LeafAt(Object(fields), [], k).Some?
  {
    if exists p :: p in before && before[p].source == App && Related(p, k) then k in kept
    else k in after && after[k].value == LeafAt(Object(fields), [], k).value && after[k].source == Source.Provisioning
  }

  lemma StartsAsNamed(before: Table, p: P.Provisioning, typing: P.Typing, values: map<Path, Value>, kept: set<Path>,
                      now: int, q: Path)
    requires Reachable(before) && P.Sound(p) && P.ResolvedOver(p, TreeOf(Values(before)), typing) == Some(values)
    requires kept == P.RemovedPaths(p) + (values.Keys - Open(before, values)) && P.Names(p, q)
    ensures var layered := P.Layered(p, TreeOf(Values(before)), typing);
            if IsRemovedKey(q) then q in kept
            else typing.canonical(layered).Some?
                 && StartsAs(before, Provisioned(before, values, Open(before, values), now), kept, typing.canonical(layered).value, q)
  {
    var fields := typing.canonical(P.Layered(p, TreeOf(Values(before)), typing));
    P.NamedPaths(p, q);
    if !IsRemovedKey(q) {
      P.ResolvedExactly(p, TreeOf(Values(before)), typing, values);
      assert P.CoveredOnce(values, fields.value, q);
      var k :| P.CoversAlone(values, fields.value, q, k);
      OpenKeysHold(before, values, now, k);
      assert RowStartsAs(before, Provisioned(before, values, Open(before, values), now), kept, fields.value, k);
    }
  }

  class Store {
    var rows: Table
    var log: seq<Logged>
    const accepts: Value -> bool

    ghost predicate Valid()
      reads this
    {
      Reachable(rows)
    }

    constructor (accepts: Value -> bool)
      ensures Valid() && rows == map[] && log == [] && this.accepts == accepts
    {
      this.accepts := accepts;
      rows, log := map[], [];
    }

    /** The dry run: the table is only read. */
    method Preview(c: Change) returns (r: Outcome)
      requires Valid()
      ensures r == DryRun(Values(rows), c, accepts)
      ensures r.Settings? ==> forall p :: LeafAt(r.tree, [], p) == Told(c, Values(rows), p)
    {
      var bad := CheckKeys(c);
      if bad.Some? {
        return BadKey(bad.value);
      }
      var kept := RestoreSecrets(c, Values(rows));
      PreviewStorable(Values(rows), c);
      var after := PreviewRows(Values(rows), kept);
      r := Decode(after, accepts);
      CheckedChange(c);
      forall p ensures LeafAt(TreeOf(after), [], p) == Told(c, Values(rows), p) {
        ToldLeaf(rows, c, TreeOf(after), p);
      }
    }

    /** The real run, as one transaction. Either the outcome is accepted and rows and log change
        together, or both stay; which of the two, and to what, the dry run tells beforehand. */
    method Apply(action: Action, c: Change, now: int) returns (r: Outcome)
      requires Valid()
      modifies this
      ensures Valid()
      ensures r == DryRun(old(Values(rows)), c, accepts)
      ensures r.Settings? ==>
                var kept := WithStoredSecrets(c, old(Values(rows)));
                && rows == Rewritten(old(rows), kept, now)
                && log == old(log) + Entries(kept, action, old(rows), rows, TreeOf(old(Values(rows))))
      ensures r.Settings? ==> forall p ::
                && (p in rows <==> Told(c, old(Values(rows)), p).Some?)
                && (p in rows ==> rows[p].value == Told(c, old(Values(rows)), p).value)
      ensures !r.Settings? ==> rows == old(rows) && log == old(log)
    {
      var bad := CheckKeys(c);
      if bad.Some? {
        return BadKey(bad.value);
      }
      var before := rows;
      var tree := TreeFrom(Values(before));
      var kept := RestoreSecrets(c, Values(before));
      var after := RewriteRows(before, kept, now);
      DryRunIsRealRun(before, kept, now);
      PreviewStorable(Values(before), c);
      r := Decode(Values(after), accepts);
      if r.Settings? {
        var resets := LogResets(kept.resets, before, after, tree);
        var sets := LogSets(kept.sets, action, before, after, tree);
        CheckedChange(c);
        forall p
          ensures p in after <==> Told(c, Values(before), p).Some?
          ensures p in after ==> after[p].value == Told(c, Values(before), p).value
        {
          ToldRow(before, c, now, p);
        }
        rows, log := after, log + (resets + sets);
      }
    }

    /** Applies provisioning: each key the app changed nothing around is written, every other
        one is reported kept, and nothing is changed when the result is not accepted. */
    method Bootstrap(p: P.Provisioning, typing: P.Typing, now: int)
      returns (r: Outcome, kept: set<Path>, ghost written: seq<Path>)
      requires Valid() && P.Sound(p)
      modifies this
      ensures Valid()
      ensures r == AtStartup(old(rows), p, typing, accepts, now)
      ensures !r.Settings? ==> rows == old(rows) && log == old(log)
      ensures r.Settings? ==>
                var values := P.ResolvedOver(p, TreeOf(old(Values(rows))), typing).value;
                && rows == Provisioned(old(rows), values, Open(old(rows), values), now)
                && kept == P.RemovedPaths(p) + (values.Keys - Open(old(rows), values))
                && Elements(written) == Open(old(rows), values)
                && log == old(log) + LeafEntries(written, old(rows), rows)
      ensures r.Settings? ==> forall q :: P.Names(p, q) ==>
                var layered := P.Layered(p, TreeOf(old(Values(rows))), typing);
                if IsRemovedKey(q) then q in kept
                else typing.canonical(layered).Some? && StartsAs(old(rows), rows, kept, typing.canonical(layered).value, q)
    {
      kept, written := P.RemovedPaths(p), [];
      var resolved := ResolveOver(rows, p, typing);
      if resolved.None? {
        return Invalid, kept, written;
      }
      var values := resolved.value;
      P.ResolvedCovers(p, TreeOf(Values(rows)), typing, values);
      var after, stored, passed := ProvisionRows(rows, values, now);
      kept, written := kept + passed, stored;
      ProvisionedReachable(rows, values, Open(rows, values), now);
      r := Decode(Values(after), accepts);
      if r.Settings? {
        var entries := LogLeaves(stored, rows, after);
        forall q | P.Names(p, q)
          ensures var layered := P.Layered(p, TreeOf(Values(rows)), typing);
                  if IsRemovedKey(q) then q in kept
                  else typing.canonical(layered).Some? && StartsAs(rows, after, kept, typing.canonical(layered).value, q)
        {
          StartsAsNamed(rows, p, typing, values, kept, now, q);
        }
        rows, log := after, log + entries;
      }
    }
  }

  // ---- sending a withheld section back ----

  /** Writing back, unchanged, a section the app was shown with its secrets withheld leaves the
      table's values as they were, exactly when the key is not a secret section with
      something in it. */
  lemma WriteBackWithheld(rows: map<Path, Value>, key: Path)
    requires Storable(rows) && WritableKey(key) && AtPath(TreeOf(rows), key).Some?
    ensures AtPath(Withheld(TreeOf(rows)), key).Some?
    ensures var sent := Change([(key, AtPath(Withheld(TreeOf(rows)), key).value)], []);
            Previewed(rows, WithStoredSecrets(sent, rows)) == rows
            <==> !ErasesSecrets(key, AtPath(TreeOf(rows), key).value)
  {
    var tree := TreeOf(rows);
    WithholdThenKeep(tree, rows, key);
    OneSet(rows, key, AtPath(Withheld(tree), key).value);
    SectionRows(tree, rows, key);
    if ErasesSecrets(key, AtPath(tree, key).value) {
      ErasedRow(tree, rows, key);
    }
  }

  /** No section of a tree goes by a secret name: secrets are leaves. */
  ghost predicate SecretsAtLeaves(tree: Value) {
    forall key :: AtPath(tree, key).Some? && Splits(AtPath(tree, key).value, key) ==> !SecretPath(key)
  }

  /** So for settings whose secrets are leaves, writing back any part of what the app was shown changes
      nothing. */
  lemma WriteBackKeeps(rows: map<Path, Value>, key: Path)
    requires Storable(rows) && WritableKey(key) && AtPath(TreeOf(rows), key).Some? && SecretsAtLeaves(TreeOf(rows))
    ensures AtPath(Withheld(TreeOf(rows)), key).Some?
    ensures var sent := Change([(key, AtPath(Withheld(TreeOf(rows)), key).value)], []);
            Previewed(rows, WithStoredSecrets(sent, rows)) == rows
  {
    WriteBackWithheld(rows, key);
  }

  lemma OneSet(rows: map<Path, Value>, key: Path, v: Value)
    ensures Previewed(rows, WithStoredSecrets(Change([(key, v)], []), rows)) == With(rows, key, Kept(key, v, rows))
  {
    var restored := WithStoredSecrets(Change([(key, v)], []), rows);
    assert restored.sets == [(key, Kept(key, v, rows))] && restored.resets == [];
    assert WithoutAll(rows, restored.resets) == rows;
    assert WithAll(rows, restored.sets[..0]) == rows;
  }

  lemma SectionRow(tree: Value, rows: map<Path, Value>, key: Path, p: Path)
    requires Represents(tree, rows) && Storable(rows) && WritableKey(key) && AtPath(tree, key).Some? && key <= p
    ensures var section := Leaves(AtPath(tree, key).value, key);
            (p in section <==> p in rows) && (p in rows ==> section[p] == rows[p])
  {
    LeavesAreLeaves(AtPath(tree, key).value, key);
    assert [] + key == key && key + p[|key|..] == p;
    LeafBeneath(tree, [], key, p[|key|..]);
  }

  /** Writing the section the table holds at a key back changes nothing. */
  lemma SectionRows(tree: Value, rows: map<Path, Value>, key: Path)
    requires Represents(tree, rows) && Storable(rows) && WritableKey(key) && AtPath(tree, key).Some?
    ensures With(rows, key, AtPath(tree, key).value) == rows
  {
    forall p ensures AgreeAt(With(rows, key, AtPath(tree, key).value), rows, p) {
      SameRow(tree, rows, key, p);
    }
    SameRows(With(rows, key, AtPath(tree, key).value), rows);
  }

  predicate AgreeAt(a: map<Path, Value>, b: map<Path, Value>, p: Path) {
    (p in a <==> p in b) && (p in b ==> a[p] == b[p])
  }

  lemma SameRows(a: map<Path, Value>, b: map<Path, Value>)
    requires forall p :: AgreeAt(a, b, p)
    ensures a == b
  {
    forall p ensures p in a <==> p in b {
      assert AgreeAt(a, b, p);
    }
    forall p | p in b ensures a[p] == b[p] {
      assert AgreeAt(a, b, p);
    }
  }

  lemma SameRow(tree: Value, rows: map<Path, Value>, key: Path, p: Path)
    requires Represents(tree, rows) && Storable(rows) && WritableKey(key) && AtPath(tree, key).Some?
    ensures AgreeAt(With(rows, key, AtPath(tree, key).value), rows, p)
  {
    LeavesAreLeaves(AtPath(tree, key).value, key);
    RowAboveSection(tree, rows, key, p);
    if key <= p {
      SectionRow(tree, rows, key, p);
    }
  }

  /** A row is never above a section that can be read. */
  lemma RowAboveSection(tree: Value, rows: map<Path, Value>, key: Path, p: Path)
    requires Represents(tree, rows) && Storable(rows) && WritableKey(key) && AtPath(tree, key).Some?
    ensures !(p in rows && p < key)
  {
    if p in rows && p < key {
      assert p + key[|p|..] == key;
      AtPathPrefix(tree, p, key[|p|..]);
      assert LeafAt(tree, [], p).Some? && AtPath(AtPath(tree, p).value, key[|p|..]).Some?;
      LeafIsNoSection(tree, [], p, key[|p|..]);
    }
  }

  /** Nothing is read beneath a leaf, except inside an atomic key. */
  lemma {:induction false} LeafIsNoSection(v: Value, at: Path, p: Path, rest: Path)
    requires LeafAt(v, at, p).Some? && AtPath(v, p).Some? && rest != []
    requires AtPath(AtPath(v, p).value, rest).Some?
    ensures BeneathAtomic(at + p + rest)
    decreases |p|
  {
    if p == [] {
      assert at + p == at && at < at + rest;
    } else {
      assert Splits(v, at);
      assert at + [p[0]] + p[1..] + rest == at + p + rest;
      LeafIsNoSection(v.fields[p[0]], at + [p[0]], p[1..], rest);
    }
  }

  lemma {:induction false} AtPathPrefix(v: Value, p: Path, rest: Path)
    requires AtPath(v, p + rest).Some?
    ensures AtPath(v, p).Some? && AtPath(AtPath(v, p).value, rest) == AtPath(v, p + rest)
    decreases |p|
  {
    if p == [] {
      assert p + rest == rest;
    } else {
      assert (p + rest)[1..] == p[1..] + rest;
      AtPathPrefix(v.fields[p[0]], p[1..], rest);
    }
  }

  lemma ErasedRow(tree: Value, rows: map<Path, Value>, key: Path)
    requires Represents(tree, rows) && Storable(rows) && WritableKey(key) && AtPath(tree, key).Some?
    requires ErasesSecrets(key, AtPath(tree, key).value) && AtPath(Withheld(tree), key).Some?
    ensures With(rows, key, Kept(key, AtPath(Withheld(tree), key).value, rows)) != rows
  {
    var section := AtPath(tree, key).value;
    var rel :| LeafAt(section, key, rel).Some? && !LeafAt(section, key, rel).value.Null?;
    WithheldSection(tree, rows, key);
    SectionHolds(tree, rows, key);
    SecretBeneath(key, rel);
    NulledRow(section, key, rel, SecretSlots(rows));
  }

  lemma NulledRow(section: Value, key: Path, rel: Path, nulls: map<Path, Value>)
    requires LeafAt(section, key, rel).Some? && key + rel in nulls && forall p :: p in nulls ==> nulls[p].Null?
    ensures var sent := Leaves(Overwrite(section, key, nulls), key);
            key + rel in sent && sent[key + rel].Null?
  {
    OverwrittenLeaf(section, key, rel, nulls);
    LeavesAreLeaves(Overwrite(section, key, nulls), key);
    assert (key + rel)[|key|..] == rel;
  }
}
