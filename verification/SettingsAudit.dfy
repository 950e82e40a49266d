/** What a change to the settings writes to the audit log, and that no changed row escapes it. */
module SettingsAudit {
  import opened Json
  import opened Assembly
  import opened Secrets
  import opened SettingsTable

  datatype Action = Set | Reset | Import | Provision

  /** What the log keeps of one key's change: what was there, what is there, and which rows went. */
  datatype Logged = Logged(action: Action, key: Path, previous: Option<Value>, value: Option<Value>,
                           gone: map<Path, Value>)

  /** Rows related to `key` that only `before` has; with `including` the row at the key counts as
      well. */
  function Gone(key: Path, before: Table, after: Table, including: bool): map<Path, Value> {
    map p | p in before && (including || p != key) && Related(p, key) && p !in after :: before[p].value
  }

  /** The entry for one key reset, when anything went. */
  function ResetEntry(key: Path, before: Table, after: Table, tree: Value): seq<Logged> {
    var gone := Gone(key, before, after, true);
    if gone == map[] then [] else [Logged(Reset, key, AtPath(tree, key), None, gone)]
  }

  /** Whether a set left everything as it was: same value, nothing gone, every leaf the app's. */
  predicate Unchanged(key: Path, v: Value, before: Table, gone: map<Path, Value>, tree: Value) {
    && AtPath(tree, key) == Some(v)
    && gone == map[]
    && forall p :: p in Leaves(v, key) ==> p in before && before[p].source == App
  }

  function SetGone(key: Path, v: Value, before: Table, after: Table): map<Path, Value> {
    Gone(key, before, after, true) - Leaves(v, key).Keys
  }

  /** The entry for one key set, unless it left everything as it was. */
  function SetEntry(key: Path, v: Value, action: Action, before: Table, after: Table, tree: Value): seq<Logged> {
    var gone := SetGone(key, v, before, after);
    if Unchanged(key, v, before, gone, tree) then []
    else [Logged(action, key, AtPath(tree, key), Some(v), gone)]
  }

  function ResetEntries(keys: seq<Path>, before: Table, after: Table, tree: Value): seq<Logged> {
    if keys == [] then []
    else ResetEntries(keys[..|keys| - 1], before, after, tree) + ResetEntry(keys[|keys| - 1], before, after, tree)
  }

  function SetEntries(sets: seq<(Path, Value)>, action: Action, before: Table, after: Table, tree: Value): seq<Logged> {
    if sets == [] then []
    else
      var last := sets[|sets| - 1];
      SetEntries(sets[..|sets| - 1], action, before, after, tree)
      + SetEntry(last.0, last.1, action, before, after, tree)
  }

  /** Everything a change logs: its resets, then its sets. */
  function Entries(c: Change, action: Action, before: Table, after: Table, tree: Value): seq<Logged> {
    ResetEntries(c.resets, before, after, tree) + SetEntries(c.sets, action, before, after, tree)
  }

  // ---- which operation a changed row is owed to ----

  lemma {:induction false} RemovedBy(t: Table, keys: seq<Path>, p: Path)
    requires p in t
    ensures p in RemovedAll(t, keys) ==> RemovedAll(t, keys)[p] == t[p]
    ensures p !in RemovedAll(t, keys) ==> exists i :: 0 <= i < |keys| && keys[i] <= p
    decreases |keys|
  {
    if keys != [] {
      var n := |keys| - 1;
      RemovedBy(t, keys[..n], p);
      if p !in RemovedAll(t, keys[..n]) {
        var i :| 0 <= i < n && keys[..n][i] <= p;
        assert keys[i] <= p;
      } else if p !in RemovedAll(t, keys) {
        assert keys[n] <= p;
      }
    }
  }

  lemma {:induction false} NothingAdded(t: Table, keys: seq<Path>)
    ensures RemovedAll(t, keys).Keys <= t.Keys
    decreases |keys|
  {
    if keys != [] {
      NothingAdded(t, keys[..|keys| - 1]);
    }
  }

  /** `p` holds what set `i` wrote there. */
  ghost predicate WrittenBySet(sets: seq<(Path, Value)>, i: nat, p: Path, e: Entry) {
    i < |sets| && p in Leaves(sets[i].1, sets[i].0) && e.value == Leaves(sets[i].1, sets[i].0)[p] && e.source == App
  }

  /** `p` is in the way of set `i`, which does not write it. */
  ghost predicate ClearedBySet(sets: seq<(Path, Value)>, i: nat, p: Path) {
    i < |sets| && Related(p, sets[i].0) && p !in Leaves(sets[i].1, sets[i].0)
  }

  lemma {:induction false} LastWriter(t: Table, sets: seq<(Path, Value)>, now: int, p: Path, after: Table)
    requires after == WrittenAll(t, sets, App, now)
    ensures p in after ==> (p in t && after[p] == t[p]) || exists i :: WrittenBySet(sets, i, p, after[p])
    ensures p in t && p !in after ==> exists i :: ClearedBySet(sets, i, p)
    decreases |sets|
  {
    if sets != [] {
      var n := |sets| - 1;
      var before := WrittenAll(t, sets[..n], App, now);
      LastWriter(t, sets[..n], now, p, before);
      if p in after {
        if p in Leaves(sets[n].1, sets[n].0) {
          assert WrittenBySet(sets, n, p, after[p]);
        } else if exists i :: WrittenBySet(sets[..n], i, p, before[p]) {
          var i :| WrittenBySet(sets[..n], i, p, before[p]);
          assert WrittenBySet(sets, i, p, after[p]);
        }
      } else if p in before {
        assert ClearedBySet(sets, n, p);
      } else if p in t {
        var i :| ClearedBySet(sets[..n], i, p);
        assert ClearedBySet(sets, i, p);
      }
    }
  }

  // ---- where an entry is ----

  lemma {:induction false} ResetLogged(keys: seq<Path>, i: nat, before: Table, after: Table, tree: Value)
    requires i < |keys|
    ensures forall e :: e in ResetEntry(keys[i], before, after, tree) ==> e in ResetEntries(keys, before, after, tree)
    decreases |keys|
  {
    if i < |keys| - 1 {
      ResetLogged(keys[..|keys| - 1], i, before, after, tree);
    }
  }

  lemma {:induction false} SetLogged(sets: seq<(Path, Value)>, i: nat, action: Action, before: Table, after: Table,
                                     tree: Value)
    requires i < |sets|
    ensures forall e :: e in SetEntry(sets[i].0, sets[i].1, action, before, after, tree)
                        ==> e in SetEntries(sets, action, before, after, tree)
    decreases |sets|
  {
    if i < |sets| - 1 {
      SetLogged(sets[..|sets| - 1], i, action, before, after, tree);
    }
  }

  // ---- completeness ----

  /** Whether a row differs in presence, value or source. */
  predicate Differs(before: Table, after: Table, p: Path) {
    if p in before && p in after then
      before[p].value != after[p].value || before[p].source != after[p].source
    else
      p in before || p in after
  }

  /** An entry accounts for a changed row: it holds the value that is gone, or the value the
      row holds now is the leaf its own value has there. */
  predicate Accounts(e: Logged, before: Table, after: Table, p: Path) {
    && Related(p, e.key)
    && if p in after then
         e.value.Some? && p in Leaves(e.value.value, e.key) && Leaves(e.value.value, e.key)[p] == after[p].value
       else
         p in e.gone && p in before && e.gone[p] == before[p].value
  }

  /** A set that is taken for unchanged wrote what was already there. */
  lemma UnchangedSet(before: Table, tree: Value, key: Path, v: Value, p: Path)
    requires Represents(tree, Values(before)) && WritableKey(key)
    requires AtPath(tree, key) == Some(v) && p in Leaves(v, key)
    ensures p in before && before[p].value == Leaves(v, key)[p]
  {
    LeavesAreLeaves(v, key);
    var rel := p[|key|..];
    assert [] + key == key && key + rel == p;
    LeafBeneath(tree, [], key, rel);
  }

  lemma ResetAccounts(before: Table, after: Table, c: Change, action: Action, tree: Value, i: nat, p: Path)
    requires i < |c.resets| && c.resets[i] <= p && p in before && p !in after
    ensures exists e :: e in Entries(c, action, before, after, tree) && Accounts(e, before, after, p)
  {
    ResetLogged(c.resets, i, before, after, tree);
    assert p in Gone(c.resets[i], before, after, true);
    var e := ResetEntry(c.resets[i], before, after, tree)[0];
    assert e in Entries(c, action, before, after, tree) && Accounts(e, before, after, p);
  }

  lemma ClearingAccounts(before: Table, after: Table, c: Change, action: Action, tree: Value, i: nat, p: Path)
    requires ClearedBySet(c.sets, i, p) && p in before && p !in after
    ensures exists e :: e in Entries(c, action, before, after, tree) && Accounts(e, before, after, p)
  {
    SetLogged(c.sets, i, action, before, after, tree);
    assert p in SetGone(c.sets[i].0, c.sets[i].1, before, after);
    var e := SetEntry(c.sets[i].0, c.sets[i].1, action, before, after, tree)[0];
    assert e in Entries(c, action, before, after, tree) && Accounts(e, before, after, p);
  }

  lemma WritingAccounts(before: Table, after: Table, c: Change, action: Action, tree: Value, i: nat, p: Path)
    requires Represents(tree, Values(before)) && Writable(c.sets)
    requires p in after && Differs(before, after, p) && WrittenBySet(c.sets, i, p, after[p])
    ensures exists e :: e in Entries(c, action, before, after, tree) && Accounts(e, before, after, p)
  {
    var (key, v) := c.sets[i];
    SetLogged(c.sets, i, action, before, after, tree);
    if Unchanged(key, v, before, SetGone(key, v, before, after), tree) {
      UnchangedSet(before, tree, key, v, p);
      assert false;
    }
    LeavesAreLeaves(v, key);
    var e := SetEntry(key, v, action, before, after, tree)[0];
    assert e in Entries(c, action, before, after, tree) && Accounts(e, before, after, p);
  }

  /** Every row that differs between before and after is accounted for by an entry logged in
      the same transaction, whatever the overlaps among the keys set and reset. */
  lemma AuditComplete(before: Table, c: Change, action: Action, now: int, p: Path)
    requires Reachable(before) && Writable(c.sets)
    requires Differs(before, Rewritten(before, c, now), p)
    ensures exists e :: e in Entries(c, action, before, Rewritten(before, c, now), TreeOf(Values(before)))
                        && Accounts(e, before, Rewritten(before, c, now), p)
  {
    var after := Rewritten(before, c, now);
    var tree := TreeOf(Values(before));
    LastWriter(RemovedAll(before, c.resets), c.sets, now, p, after);
    NothingAdded(before, c.resets);
    if p in before {
      RemovedBy(before, c.resets, p);
    }
    if p in after {
      var i :| WrittenBySet(c.sets, i, p, after[p]);
      WritingAccounts(before, after, c, action, tree, i, p);
    } else if p in RemovedAll(before, c.resets) {
      var i :| ClearedBySet(c.sets, i, p);
      ClearingAccounts(before, after, c, action, tree, i, p);
    } else {
      var i :| 0 <= i < |c.resets| && c.resets[i] <= p;
      ResetAccounts(before, after, c, action, tree, i, p);
    }
  }

  // ---- truth ----

  /** What an entry says was there and went was there and went. */
  predicate TrueOfRows(e: Logged, before: Table, after: Table, tree: Value) {
    && e.previous == AtPath(tree, e.key)
    && forall p :: p in e.gone ==> p in before && before[p].value == e.gone[p] && p !in after && Related(p, e.key)
  }

  /** The entry of a reset that took something away. */
  predicate TrueReset(e: Logged, keys: seq<Path>) {
    e.action == Reset && e.key in keys && e.value == None && e.gone != map[]
  }

  /** The entry of a set that left something different: another value, rows gone, or a leaf the app now
      holds that was missing or someone else's. */
  ghost predicate TrueSet(e: Logged, sets: seq<(Path, Value)>, action: Action, before: Table) {
    && e.action == action && e.value.Some? && (e.key, e.value.value) in sets
    && (e.previous != e.value || e.gone != map[] || LeafTaken(e, before))
  }

  ghost predicate LeafTaken(e: Logged, before: Table) {
    e.value.Some? && exists p :: p in Leaves(e.value.value, e.key) && (p !in before || before[p].source != App)
  }

  lemma {:induction false} ResetsTrue(keys: seq<Path>, before: Table, after: Table, tree: Value, e: Logged)
    requires e in ResetEntries(keys, before, after, tree)
    ensures TrueReset(e, keys) && TrueOfRows(e, before, after, tree)
    decreases |keys|
  {
    var n := |keys| - 1;
    if e in ResetEntries(keys[..n], before, after, tree) {
      ResetsTrue(keys[..n], before, after, tree, e);
    } else {
      assert e in ResetEntry(keys[n], before, after, tree);
    }
  }

  lemma {:induction false} SetsTrue(sets: seq<(Path, Value)>, action: Action, before: Table, after: Table, tree: Value,
                                    e: Logged)
    requires e in SetEntries(sets, action, before, after, tree)
    ensures TrueSet(e, sets, action, before) && TrueOfRows(e, before, after, tree)
    decreases |sets|
  {
    var n := |sets| - 1;
    if e in SetEntries(sets[..n], action, before, after, tree) {
      SetsTrue(sets[..n], action, before, after, tree, e);
    } else {
      assert e in SetEntry(sets[n].0, sets[n].1, action, before, after, tree);
      assert sets[n] == (e.key, e.value.value);
    }
  }

  /** No entry is logged for nothing, and each tells the truth: the key and the value sent, what the
      settings had there before, and rows that were there and are gone. */
  lemma AuditTrue(before: Table, c: Change, action: Action, after: Table, tree: Value, e: Logged)
    requires e in Entries(c, action, before, after, tree)
    ensures TrueReset(e, c.resets) || TrueSet(e, c.sets, action, before)
    ensures TrueOfRows(e, before, after, tree)
    ensures |Entries(c, action, before, after, tree)| <= |c.resets| + |c.sets|
  {
    AtMostOneEach(c, action, before, after, tree);
    if e in ResetEntries(c.resets, before, after, tree) {
      ResetsTrue(c.resets, before, after, tree, e);
    } else {
      SetsTrue(c.sets, action, before, after, tree, e);
    }
  }

  lemma AtMostOneEach(c: Change, action: Action, before: Table, after: Table, tree: Value)
    ensures |Entries(c, action, before, after, tree)| <= |c.resets| + |c.sets|
  {
    ResetsAtMost(c.resets, before, after, tree);
    SetsAtMost(c.sets, action, before, after, tree);
  }

  lemma {:induction false} ResetsAtMost(keys: seq<Path>, before: Table, after: Table, tree: Value)
    ensures |ResetEntries(keys, before, after, tree)| <= |keys|
    decreases |keys|
  {
    if keys != [] {
      ResetsAtMost(keys[..|keys| - 1], before, after, tree);
    }
  }

  lemma {:induction false} SetsAtMost(sets: seq<(Path, Value)>, action: Action, before: Table, after: Table, tree: Value)
    ensures |SetEntries(sets, action, before, after, tree)| <= |sets|
    decreases |sets|
  {
    if sets != [] {
      SetsAtMost(sets[..|sets| - 1], action, before, after, tree);
    }
  }
}
