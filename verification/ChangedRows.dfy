/** What a change leaves in the settings table, row by row, told from the change and the rows before it
    alone: which of its sets has the last word on a row, or its resets, or neither. */
module ChangedRows {
  import opened Json
  import opened Assembly
  import opened Secrets
  import opened SettingsTable

  /** What a set puts at a path: the leaf its value has there, and in the place of a null secret what is
      stored. Beneath a key that is a secret itself nulls are taken as they are. */
  function SentAt(key: Path, value: Value, stored: map<Path, Value>, p: Path): Option<Value> {
    if !(key <= p) then None
    else
      var leaf := LeafAt(value, key, p[|key|..]);
      if leaf == Some(Null) && SecretPath(p) && p in stored && (p == key || !SecretPath(key)) then Some(stored[p])
      else leaf
  }

  lemma KeptLeaves(key: Path, value: Value, stored: map<Path, Value>, p: Path)
    requires Storable(stored) && WritableKey(key)
    ensures var leaves := Leaves(Kept(key, value, stored), key);
            && (p in leaves <==> SentAt(key, value, stored, p).Some?)
            && (p in leaves ==> leaves[p] == SentAt(key, value, stored, p).value)
  {
    LeavesAreLeaves(Kept(key, value, stored), key);
    LeavesAreLeaves(value, key);
    if key <= p {
      var rel := p[|key|..];
      assert key + rel == p;
      if !SecretPath(key) {
        KeptLeaf(key, value, stored, rel);
      } else if value.Null? && key in stored {
        assert !Splits(stored[key], key) && (rel == [] <==> p == key);
      }
    }
  }

  lemma KeptLeaf(key: Path, value: Value, stored: map<Path, Value>, rel: Path)
    requires Storable(stored) && !SecretPath(key)
    ensures LeafAt(Kept(key, value, stored), key, rel) ==
            if LeafAt(value, key, rel) == Some(Null) && SecretPath(key + rel) && key + rel in stored
            then Some(stored[key + rel]) else LeafAt(value, key, rel)
  {
    var slots := StoredSlots(Leaves(value, key), stored);
    LeavesAreLeaves(value, key);
    assert (key + rel)[|key|..] == rel;
    OverwrittenLeaf(value, key, rel, slots);
  }

  // ---- which set has the last word ----

  /** Set `i` is the last one related to a path. */
  ghost predicate LastRelated(sets: seq<(Path, Value)>, i: nat, p: Path) {
    i < |sets| && Related(p, sets[i].0) && forall j :: i < j < |sets| ==> !Related(p, sets[j].0)
  }

  ghost predicate NoneRelated(sets: seq<(Path, Value)>, p: Path) {
    forall i :: 0 <= i < |sets| ==> !Related(p, sets[i].0)
  }

  lemma {:induction false} SomeLast(sets: seq<(Path, Value)>, p: Path) returns (i: nat)
    requires !NoneRelated(sets, p)
    ensures LastRelated(sets, i, p)
    decreases |sets|
  {
    var n := |sets| - 1;
    if Related(p, sets[n].0) {
      i := n;
    } else {
      i := SomeLast(sets[..n], p);
      assert sets[..n][i] == sets[i];
      forall j | i < j < |sets| ensures !Related(p, sets[j].0) {
        assert j < n ==> sets[..n][j] == sets[j];
      }
    }
  }

  /** A set leaves alone what it is not related to. */
  lemma NotWritten(t: Table, key: Path, v: Value, now: int, p: Path)
    requires !Related(p, key)
    ensures var after := Written(t, key, v, App, now);
            (p in after <==> p in t) && (p in after ==> after[p] == t[p])
  {
    LeavesAreLeaves(v, key);
  }

  /** The row a leaf is stored as: stamped anew unless the key itself is the leaf and held it already. */
  function RowFor(t: Table, key: Path, p: Path, v: Value, now: int): Entry {
    if p == key && p in t && t[p].value == v && t[p].source == App then t[p] else Entry(v, App, now)
  }

  lemma WrittenRow(t: Table, key: Path, v: Value, now: int, p: Path)
    requires Related(p, key)
    ensures var after, leaves := Written(t, key, v, App, now), Leaves(v, key);
            (p in after <==> p in leaves) && (p in after ==> after[p] == RowFor(t, key, p, leaves[p], now))
  {
    LeavesAreLeaves(v, key);
  }

  lemma {:induction false} UnrelatedRow(t: Table, sets: seq<(Path, Value)>, now: int, p: Path)
    requires NoneRelated(sets, p)
    ensures var after := WrittenAll(t, sets, App, now);
            (p in after <==> p in t) && (p in after ==> after[p] == t[p])
    decreases |sets|
  {
    if sets != [] {
      var n := |sets| - 1;
      assert forall i :: 0 <= i < n ==> sets[..n][i] == sets[i];
      UnrelatedRow(t, sets[..n], now, p);
      NotWritten(WrittenAll(t, sets[..n], App, now), sets[n].0, sets[n].1, now, p);
    }
  }

  lemma {:induction false} LastRow(t: Table, sets: seq<(Path, Value)>, now: int, p: Path, i: nat)
    requires LastRelated(sets, i, p)
    ensures var after, leaves := WrittenAll(t, sets, App, now), Leaves(sets[i].1, sets[i].0);
            && (p in after <==> p in leaves)
            && (p in after ==> after[p] == RowFor(WrittenAll(t, sets[..i], App, now), sets[i].0, p, leaves[p], now))
    decreases |sets|
  {
    var n := |sets| - 1;
    if i == n {
      WrittenRow(WrittenAll(t, sets[..n], App, now), sets[n].0, sets[n].1, now, p);
    } else {
      assert sets[..n][i] == sets[i] && sets[..n][..i] == sets[..i];
      forall j | i < j < n ensures !Related(p, sets[..n][j].0) {
        assert sets[..n][j] == sets[j];
      }
      LastRow(t, sets[..n], now, p, i);
      NotWritten(WrittenAll(t, sets[..n], App, now), sets[n].0, sets[n].1, now, p);
    }
  }

  ghost predicate Reset(keys: seq<Path>, p: Path) {
    exists i :: 0 <= i < |keys| && keys[i] <= p
  }

  lemma {:induction false} ResetRow(t: Table, keys: seq<Path>, p: Path)
    ensures var after := RemovedAll(t, keys);
            (p in after <==> p in t && !Reset(keys, p)) && (p in after ==> after[p] == t[p])
    decreases |keys|
  {
    if keys != [] {
      var n := |keys| - 1;
      ResetRow(t, keys[..n], p);
      if Reset(keys[..n], p) {
        var i :| 0 <= i < n && keys[..n][i] <= p;
        assert keys[i] <= p;
      }
      if Reset(keys, p) && !(keys[n] <= p) {
        var i :| 0 <= i < |keys| && keys[i] <= p;
        assert keys[..n][i] <= p;
      }
    }
  }

  // ---- the change as a whole ----

  lemma RestoredSets(c: Change, stored: map<Path, Value>, i: nat, p: Path)
    requires i < |c.sets|
    ensures var r := WithStoredSecrets(c, stored);
            && |r.sets| == |c.sets| && r.resets == c.resets && r.sets[i].0 == c.sets[i].0
            && r.sets[i].1 == Kept(c.sets[i].0, c.sets[i].1, stored)
            && (LastRelated(c.sets, i, p) <==> LastRelated(r.sets, i, p))
            && (NoneRelated(c.sets, p) <==> NoneRelated(r.sets, p))
  {
    var r := WithStoredSecrets(c, stored);
    forall j | 0 <= j < |c.sets| ensures r.sets[j].0 == c.sets[j].0 {
    }
  }

  /** The rows a change leaves, from the change and the rows before it. A path some set is related to holds
      what the last such set puts there and nothing else, whatever was reset. Any other path holds what
      it held, row and stamp, unless it is at or beneath a reset key, and then nothing. */
  lemma RowsExactly(t: Table, c: Change, now: int, p: Path)
    requires Reachable(t) && Writable(c.sets)
    ensures var after := Rewritten(t, WithStoredSecrets(c, Values(t)), now);
            && (forall i: nat :: LastRelated(c.sets, i, p) ==>
                  var sent := SentAt(c.sets[i].0, c.sets[i].1, Values(t), p);
                  && (p in after <==> sent.Some?)
                  && (p in after ==> after[p].value == sent.value && after[p].source == App))
            && (NoneRelated(c.sets, p) ==>
                  && (p in after <==> p in t && !Reset(c.resets, p))
                  && (p in after ==> after[p] == t[p]))
  {
    var stored := Values(t);
    var r := WithStoredSecrets(c, stored);
    var cleared := RemovedAll(t, c.resets);
    assert |r.sets| == |c.sets| && r.resets == c.resets;
    forall i: nat | LastRelated(c.sets, i, p)
      ensures var sent, after := SentAt(c.sets[i].0, c.sets[i].1, stored, p), Rewritten(t, r, now);
              && (p in after <==> sent.Some?)
              && (p in after ==> after[p].value == sent.value && after[p].source == App)
    {
      RestoredSets(c, stored, i, p);
      LastRow(cleared, r.sets, now, p, i);
      KeptLeaves(c.sets[i].0, c.sets[i].1, stored, p);
    }
    if NoneRelated(c.sets, p) {
      assert NoneRelated(r.sets, p);
      UnrelatedRow(cleared, r.sets, now, p);
      ResetRow(t, c.resets, p);
    }
  }

  /** A row left at or beneath a reset key was put there by a set of the same change. */
  lemma ResetsRemove(t: Table, c: Change, now: int, p: Path)
    requires Reachable(t) && Writable(c.sets) && Reset(c.resets, p)
    requires p in Rewritten(t, WithStoredSecrets(c, Values(t)), now)
    ensures exists i: nat :: i < |c.sets| && SentAt(c.sets[i].0, c.sets[i].1, Values(t), p).Some?
  {
    RowsExactly(t, c, now, p);
    if !NoneRelated(c.sets, p) {
      var i := SomeLast(c.sets, p);
      assert SentAt(c.sets[i].0, c.sets[i].1, Values(t), p).Some?;
    }
  }

  /** When a row is stamped: anew, save that a set of exactly this key to the value the app stored there
      before, the only one related to it and not reset, leaves the row as it is. */
  lemma StampedWhenChanged(t: Table, c: Change, now: int, p: Path, i: nat)
    requires Reachable(t) && Writable(c.sets) && LastRelated(c.sets, i, p)
    requires p in Rewritten(t, WithStoredSecrets(c, Values(t)), now)
    ensures var after := Rewritten(t, WithStoredSecrets(c, Values(t)), now);
            && (p != c.sets[i].0 ==> after[p].updatedAt == now)
            && (p == c.sets[i].0 && NoneRelated(c.sets[..i], p) && !Reset(c.resets, p) ==>
                  if p in t && t[p].value == after[p].value && t[p].source == App then after[p] == t[p]
                  else after[p].updatedAt == now)
  {
    var stored := Values(t);
    var r := WithStoredSecrets(c, stored);
    var cleared := RemovedAll(t, c.resets);
    RestoredSets(c, stored, i, p);
    LastRow(cleared, r.sets, now, p, i);
    if NoneRelated(c.sets[..i], p) {
      forall j | 0 <= j < i ensures !Related(p, r.sets[..i][j].0) {
        assert c.sets[..i][j] == c.sets[j];
      }
      UnrelatedRow(cleared, r.sets[..i], now, p);
      ResetRow(t, c.resets, p);
    }
  }

  lemma LastExists(sets: seq<(Path, Value)>, p: Path)
    requires !NoneRelated(sets, p)
    ensures exists i: nat :: LastRelated(sets, i, p)
  {
    var i := SomeLast(sets, p);
  }

  /** What a path holds after a change. */
  ghost function Told(c: Change, stored: map<Path, Value>, p: Path): Option<Value> {
    if NoneRelated(c.sets, p) then if p in stored && !Reset(c.resets, p) then Some(stored[p]) else None
    else
      LastExists(c.sets, p);
      var i: nat :| LastRelated(c.sets, i, p);
      SentAt(c.sets[i].0, c.sets[i].1, stored, p)
  }

  lemma ToldRow(t: Table, c: Change, now: int, p: Path)
    requires Reachable(t) && Writable(c.sets)
    ensures var after := Rewritten(t, WithStoredSecrets(c, Values(t)), now);
            (p in after <==> Told(c, Values(t), p).Some?) && (p in after ==> after[p].value == Told(c, Values(t), p).value)
  {
    RowsExactly(t, c, now, p);
    if !NoneRelated(c.sets, p) {
      LastExists(c.sets, p);
    }
  }

  /** The same for the dry run's rows, and for the leaves of any tree that holds them. */
  lemma ToldLeaf(t: Table, c: Change, tree: Value, p: Path)
    requires Reachable(t) && Writable(c.sets)
    requires Represents(tree, Previewed(Values(t), WithStoredSecrets(c, Values(t))))
    ensures LeafAt(tree, [], p) == Told(c, Values(t), p)
  {
    DryRunIsRealRun(t, WithStoredSecrets(c, Values(t)), 0);
    ToldRow(t, c, 0, p);
  }
}
