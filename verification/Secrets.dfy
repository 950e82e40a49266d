/** Withholding the secrets of a settings tree from the app, and putting the stored ones back
    into what the app sends. */
module Secrets {
  import opened Json
  import opened Assembly
  import opened Text

  /** Secrets are told by their names. */
  predicate IsSecretName(name: string) {
    Contains(Lower(name), "secret") || Contains(Lower(name), "password") || Contains(Lower(name), "token")
  }

  predicate SecretPath(p: Path) {
    exists i :: 0 <= i < |p| && IsSecretName(p[i])
  }

  /** The value at `path` of `v`, when there is one. */
  function AtPath(v: Value, path: Path): Option<Value>
    decreases |path|
  {
    if path == [] then Some(v)
    else if v.Object? && path[0] in v.fields then AtPath(v.fields[path[0]], path[1..])
    else None
  }

  /** `v` with the slot at `rel` holding `x`, when there is such a slot. */
  function SetSlot(v: Value, rel: Path, x: Value): Value
    decreases |rel|
  {
    if rel == [] then x
    else if v.Object? && rel[0] in v.fields then
      Object(v.fields[rel[0] := SetSlot(v.fields[rel[0]], rel[1..], x)])
    else v
  }

  /** `v`, placed at `at`, with the leaves named by `slots` replaced. */
  function Overwrite(v: Value, at: Path, slots: map<Path, Value>): Value {
    if Splits(v, at) then
      Object(map k | k in v.fields.Keys :: Overwrite(v.fields[k], at + [k], slots))
    else if at in slots then slots[at]
    else v
  }

  lemma {:induction false} OverwriteOne(v: Value, at: Path, rel: Path, slots: map<Path, Value>, x: Value)
    requires LeafAt(v, at, rel).Some?
    ensures SetSlot(Overwrite(v, at, slots), rel, x) == Overwrite(v, at, slots[at + rel := x])
    decreases |rel|
  {
    if Splits(v, at) {
      var k := rel[0];
      assert at + [k] + rel[1..] == at + rel;
      OverwriteOne(v.fields[k], at + [k], rel[1..], slots, x);
      forall j | j in v.fields.Keys && j != k
        ensures Overwrite(v.fields[j], at + [j], slots) == Overwrite(v.fields[j], at + [j], slots[at + rel := x])
      {
        assert (at + rel)[|at|] == k;
        OverwriteElsewhere(v.fields[j], at + [j], slots, at + rel, x);
      }
      assert SetSlot(Overwrite(v, at, slots), rel, x).fields
          == Overwrite(v, at, slots[at + rel := x]).fields;
    } else {
      assert at + rel == at;
    }
  }

  lemma {:induction false} OverwriteElsewhere(v: Value, at: Path, slots: map<Path, Value>, p: Path, x: Value)
    requires !(at <= p)
    ensures Overwrite(v, at, slots) == Overwrite(v, at, slots[p := x])
    decreases v
  {
    if Splits(v, at) {
      forall k | k in v.fields.Keys
        ensures Overwrite(v.fields[k], at + [k], slots) == Overwrite(v.fields[k], at + [k], slots[p := x])
      {
        assert at <= at + [k];
        OverwriteElsewhere(v.fields[k], at + [k], slots, p, x);
      }
    }
  }

  lemma {:induction false} OverwriteNothing(v: Value, at: Path)
    ensures Overwrite(v, at, map[]) == v
    decreases v
  {
    if Splits(v, at) {
      forall k | k in v.fields.Keys
        ensures Overwrite(v.fields[k], at + [k], map[]) == v.fields[k]
      {
        OverwriteNothing(v.fields[k], at + [k]);
      }
    }
  }

  /** Overwriting twice gives `v` back when what each leaf ends up with is what it had. */
  lemma {:induction false} OverwrittenBack(v: Value, at: Path, first: map<Path, Value>, second: map<Path, Value>)
    requires forall rel :: LeafAt(v, at, rel).Some? ==>
               var p := at + rel;
               && (p in first ==> !Splits(first[p], p))
               && (if p in second then second[p] else if p in first then first[p] else LeafAt(v, at, rel).value)
                  == LeafAt(v, at, rel).value
    ensures Overwrite(Overwrite(v, at, first), at, second) == v
    decreases v
  {
    assert Splits(v, at) || LeafAt(v, at, []).Some?;
    assert at + [] == at;
    if Splits(v, at) {
      var once := Overwrite(v, at, first);
      forall k | k in v.fields.Keys
        ensures Overwrite(once.fields[k], at + [k], second) == v.fields[k]
      {
        forall rel | LeafAt(v.fields[k], at + [k], rel).Some?
          ensures LeafAt(v, at, [k] + rel) == LeafAt(v.fields[k], at + [k], rel)
          ensures at + [k] + rel == at + ([k] + rel)
        {
          assert ([k] + rel)[1..] == rel;
        }
        OverwrittenBack(v.fields[k], at + [k], first, second);
      }
    }
  }

  /** What every leaf of an overwritten value holds. */
  lemma {:induction false} OverwrittenLeaf(v: Value, at: Path, rel: Path, slots: map<Path, Value>)
    requires forall p :: p in slots ==> !Splits(slots[p], p)
    ensures LeafAt(Overwrite(v, at, slots), at, rel) ==
            if LeafAt(v, at, rel).None? then None
            else if at + rel in slots then Some(slots[at + rel])
            else LeafAt(v, at, rel)
    decreases |rel|
  {
    if Splits(v, at) {
      if rel != [] && rel[0] in v.fields {
        assert at + [rel[0]] + rel[1..] == at + rel;
        OverwrittenLeaf(v.fields[rel[0]], at + [rel[0]], rel[1..], slots);
      }
    } else {
      assert rel == [] ==> at + rel == at;
    }
  }

  /** Taking a section out of an overwritten tree is overwriting the section. */
  lemma {:induction false} OverwriteThenAtPath(v: Value, at: Path, path: Path, slots: map<Path, Value>)
    requires !BeneathAtomic(at + path) && AtPath(v, path).Some?
    ensures AtPath(Overwrite(v, at, slots), path) == Some(Overwrite(AtPath(v, path).value, at + path, slots))
    decreases |path|
  {
    if path == [] {
      assert at + path == at;
    } else {
      assert at < at + path;
      assert at + [path[0]] + path[1..] == at + path;
      OverwriteThenAtPath(v.fields[path[0]], at + [path[0]], path[1..], slots);
    }
  }

  /** The leaves of a section are the leaves of the tree beneath it. */
  lemma {:induction false} LeafBeneath(v: Value, at: Path, path: Path, rel: Path)
    requires !BeneathAtomic(at + path) && AtPath(v, path).Some?
    ensures LeafAt(v, at, path + rel) == LeafAt(AtPath(v, path).value, at + path, rel)
    decreases |path|
  {
    if path == [] {
      assert at + path == at && path + rel == rel;
    } else {
      assert at < at + path;
      assert at + [path[0]] + path[1..] == at + path;
      assert (path + rel)[1..] == path[1..] + rel;
      LeafBeneath(v.fields[path[0]], at + [path[0]], path[1..], rel);
    }
  }

  /** The slots among `keys`. */
  function Among(slots: map<Path, Value>, keys: set<Path>): map<Path, Value> {
    map p | p in slots && p in keys :: slots[p]
  }

  lemma OverwriteNext(v: Value, at: Path, slots: map<Path, Value>, done: set<Path>, p: Path)
    requires at <= p && LeafAt(v, at, p[|at|..]).Some?
    ensures Overwrite(v, at, Among(slots, done + {p})) ==
            if p in slots then SetSlot(Overwrite(v, at, Among(slots, done)), p[|at|..], slots[p])
            else Overwrite(v, at, Among(slots, done))
  {
    if p in slots {
      assert at + p[|at|..] == p;
      OverwriteOne(v, at, p[|at|..], Among(slots, done), slots[p]);
      assert Among(slots, done)[p := slots[p]] == Among(slots, done + {p});
    } else {
      assert Among(slots, done) == Among(slots, done + {p});
    }
  }

  lemma OverwriteAmongNone(v: Value, at: Path, slots: map<Path, Value>)
    ensures Overwrite(v, at, Among(slots, {})) == v
  {
    assert Among(slots, {}) == map[];
    OverwriteNothing(v, at);
  }

  // ---- withholding ----

  function SecretSlots(leaves: map<Path, Value>): map<Path, Value> {
    map p | p in leaves && SecretPath(p) :: Null
  }

  /** The tree with every secret leaf withheld. */
  function Withheld(tree: Value): Value {
    Overwrite(tree, [], SecretSlots(Leaves(tree, [])))
  }

  predicate HoldsSecret(v: Value) {
    !v.Null? && v != Text("")
  }

  /** Overwrites the slot of every secret with null, collecting the secrets that are set. */
  method WithholdSecrets(tree: Value) returns (withheld: Value, secrets: set<Path>)
    ensures withheld == Withheld(tree)
    ensures secrets == SecretsSet(Leaves(tree, []), Leaves(tree, []).Keys)
    ensures forall p :: p in secrets <==>
              SecretPath(p) && LeafAt(tree, [], p).Some? && LeafAt(tree, [], p).value != Null && LeafAt(tree, [], p).value != Text("")
  {
    var leaves := Leaves(tree, []);
    LeavesAreLeaves(tree, []);
    withheld, secrets := tree, {};
    var pending := leaves.Keys;
    ghost var done := {};
    OverwriteAmongNone(tree, [], SecretSlots(leaves));
    while pending != {}
      invariant pending !! done && pending + done == leaves.Keys
      invariant withheld == Overwrite(tree, [], Among(SecretSlots(leaves), done))
      invariant secrets == SecretsSet(leaves, done)
    {
      var key :| key in pending;
      OverwriteNext(tree, [], SecretSlots(leaves), done, key);
      assert key[0..] == key;
      SecretsNext(leaves, done, key);
      if SecretPath(key) {
        if HoldsSecret(leaves[key]) {
          secrets := secrets + {key};
        }
        withheld := SetSlot(withheld, key, Null);
      }
      pending := pending - {key};
      done := done + {key};
    }
    assert Among(SecretSlots(leaves), done) == SecretSlots(leaves);
    SecretsAt(tree);
  }

  lemma SecretsAt(tree: Value)
    ensures forall p :: p in SecretsSet(Leaves(tree, []), Leaves(tree, []).Keys) <==>
              SecretPath(p) && LeafAt(tree, [], p).Some? && LeafAt(tree, [], p).value != Null && LeafAt(tree, [], p).value != Text("")
  {
    LeavesAreLeaves(tree, []);
    var none: Path := [];
    forall p: Path ensures none <= p && p[|none|..] == p {
    }
  }

  /** The secrets among `done` that are set. */
  function SecretsSet(leaves: map<Path, Value>, done: set<Path>): set<Path>
    requires done <= leaves.Keys
  {
    set p | p in done && SecretPath(p) && HoldsSecret(leaves[p])
  }

  lemma SecretsNext(leaves: map<Path, Value>, done: set<Path>, key: Path)
    requires done <= leaves.Keys && key in leaves
    ensures SecretsSet(leaves, done + {key}) ==
            if SecretPath(key) && HoldsSecret(leaves[key]) then SecretsSet(leaves, done) + {key}
            else SecretsSet(leaves, done)
  {
  }

  /** In what is shown every secret is null, and everything else is as stored. */
  lemma WithheldExactly(tree: Value, p: Path)
    ensures LeafAt(Withheld(tree), [], p) ==
            if LeafAt(tree, [], p).Some? && SecretPath(p) then Some(Null) else LeafAt(tree, [], p)
  {
    LeavesAreLeaves(tree, []);
    OverwrittenLeaf(tree, [], p, SecretSlots(Leaves(tree, [])));
    var none: Path := [];
    assert none + p == p && none <= p && p[|none|..] == p;
  }

  /** A name is a secret's when it has one of three words in it, however written. */
  lemma SecretNames(before: string, word: string, after: string)
    requires Lower(word) == "secret" || Lower(word) == "password" || Lower(word) == "token"
    ensures IsSecretName(before + word + after)
  {
    var name := before + word + after;
    var lower := Lower(name);
    forall i | 0 <= i < |word| ensures lower[|before|..|before| + |word|][i] == Lower(word)[i] {
      assert name[|before| + i] == word[i];
    }
    assert lower[|before|..|before| + |word|] == Lower(word);
    assert OccursAt(lower, Lower(word), |before|);
    assert Contains(lower, Lower(word));
  }

  // ---- putting the stored secrets back ----

  /** The secrets `sent` leaves null beneath `key` that the table holds. */
  function StoredSlots(sent: map<Path, Value>, stored: map<Path, Value>): map<Path, Value> {
    map p | p in sent && sent[p].Null? && SecretPath(p) && p in stored :: stored[p]
  }

  /** `value` with its null secrets filled in from the table. */
  function Kept(key: Path, value: Value, stored: map<Path, Value>): Value {
    if SecretPath(key) then
      if value.Null? && key in stored then stored[key] else value
    else
      Overwrite(value, key, StoredSlots(Leaves(value, key), stored))
  }

  method KeepStoredSecrets(key: Path, value: Value, stored: map<Path, Value>) returns (kept: Value)
    ensures kept == Kept(key, value, stored)
  {
    kept := value;
    if SecretPath(key) {
      if value.Null? && key in stored {
        kept := stored[key];
      }
      return;
    }
    var leaves := Leaves(value, key);
    LeavesAreLeaves(value, key);
    ghost var slots := StoredSlots(leaves, stored);
    var pending := leaves.Keys;
    ghost var done := {};
    OverwriteAmongNone(value, key, slots);
    while pending != {}
      invariant pending !! done && pending + done == leaves.Keys
      invariant kept == Overwrite(value, key, Among(slots, done))
    {
      var leaf :| leaf in pending;
      OverwriteNext(value, key, slots, done, leaf);
      if leaves[leaf].Null? && SecretPath(leaf) && leaf in stored {
        kept := SetSlot(kept, leaf[|key|..], stored[leaf]);
      }
      pending := pending - {leaf};
      done := done + {leaf};
    }
    assert Among(slots, done) == slots;
  }

  // ---- the round trip ----

  /** Whether sending the section at `key` back erases secrets: the key itself names one, and
      the section holds a value beneath it. */
  ghost predicate ErasesSecrets(key: Path, section: Value) {
    SecretPath(key) && Splits(section, key) && exists rel :: LeafAt(section, key, rel).Some? && !LeafAt(section, key, rel).value.Null?
  }

  lemma SecretBeneath(key: Path, rel: Path)
    requires SecretPath(key)
    ensures SecretPath(key + rel)
  {
    var i :| 0 <= i < |key| && IsSecretName(key[i]);
    assert (key + rel)[i] == key[i];
  }

  /** Sending a withheld section back unchanged restores it exactly, except where the key
      names a secret that is a whole section with something in it. */
  lemma WithholdThenKeep(tree: Value, rows: map<Path, Value>, key: Path)
    requires Represents(tree, rows) && !BeneathAtomic(key) && AtPath(tree, key).Some?
    ensures AtPath(Withheld(tree), key).Some?
    ensures Kept(key, AtPath(Withheld(tree), key).value, rows) == AtPath(tree, key).value
            <==> !ErasesSecrets(key, AtPath(tree, key).value)
  {
    WithheldSection(tree, rows, key);
    SectionHolds(tree, rows, key);
    SectionKept(AtPath(tree, key).value, key, SecretSlots(rows), rows);
  }

  lemma WithheldSection(tree: Value, rows: map<Path, Value>, key: Path)
    requires Represents(tree, rows) && !BeneathAtomic(key) && AtPath(tree, key).Some?
    ensures AtPath(Withheld(tree), key) == Some(Overwrite(AtPath(tree, key).value, key, SecretSlots(rows)))
  {
    RepresentsLeaves(tree, rows);
    assert [] + key == key;
    OverwriteThenAtPath(tree, [], key, SecretSlots(rows));
  }

  lemma SectionKept(section: Value, key: Path, nulls: map<Path, Value>, rows: map<Path, Value>)
    requires nulls == SecretSlots(rows)
    requires forall rel :: LeafAt(section, key, rel) == if key + rel in rows then Some(rows[key + rel]) else None
    ensures Kept(key, Overwrite(section, key, nulls), rows) == section <==> !ErasesSecrets(key, section)
  {
    if !SecretPath(key) {
      NulledComesBack(section, key, nulls, rows);
    } else if Splits(section, key) {
      WithheldSecretSection(section, key, nulls);
    } else {
      assert LeafAt(section, key, []).Some? && key + [] == key;
    }
  }

  lemma SectionHolds(tree: Value, rows: map<Path, Value>, key: Path)
    requires Represents(tree, rows) && !BeneathAtomic(key) && AtPath(tree, key).Some?
    ensures forall rel :: LeafAt(AtPath(tree, key).value, key, rel) ==
                          if key + rel in rows then Some(rows[key + rel]) else None
  {
    assert [] + key == key;
    RepresentsLeaves(tree, rows);
    forall rel
      ensures LeafAt(AtPath(tree, key).value, key, rel) == if key + rel in rows then Some(rows[key + rel]) else None
    {
      LeafBeneath(tree, [], key, rel);
    }
  }

  /** A section under no secret name comes back whole. */
  lemma NulledComesBack(section: Value, key: Path, nulls: map<Path, Value>, rows: map<Path, Value>)
    requires forall p :: p in nulls ==> nulls[p].Null? && SecretPath(p)
    requires forall rel :: LeafAt(section, key, rel) == if key + rel in rows then Some(rows[key + rel]) else None
    ensures var sent := Overwrite(section, key, nulls);
            Overwrite(sent, key, StoredSlots(Leaves(sent, key), rows)) == section
  {
    var sent := Overwrite(section, key, nulls);
    var stored := StoredSlots(Leaves(sent, key), rows);
    LeavesAreLeaves(sent, key);
    forall rel | LeafAt(section, key, rel).Some?
      ensures key + rel in stored ==> stored[key + rel] == LeafAt(section, key, rel).value
      ensures key + rel in nulls ==> key + rel in stored
    {
      OverwrittenLeaf(section, key, rel, nulls);
      assert (key + rel)[|key|..] == rel;
    }
    OverwrittenBack(section, key, nulls, stored);
  }

  /** A withheld section whose key is a secret holds nothing but nulls. */
  lemma WithheldSecretSection(section: Value, key: Path, nulls: map<Path, Value>)
    requires SecretPath(key) && Splits(section, key)
    requires forall p :: p in nulls ==> nulls[p].Null?
    requires forall rel :: LeafAt(section, key, rel).Some? ==> (key + rel in nulls <==> SecretPath(key + rel))
    ensures Overwrite(section, key, nulls).Object?
    ensures Overwrite(section, key, nulls) == section <==> !ErasesSecrets(key, section)
  {
    if ErasesSecrets(key, section) {
      var rel :| LeafAt(section, key, rel).Some? && !LeafAt(section, key, rel).value.Null?;
      NulledLeaf(section, key, rel, nulls);
      assert LeafAt(Overwrite(section, key, nulls), key, rel) != LeafAt(section, key, rel);
    } else {
      forall rel | LeafAt(section, key, rel).Some?
        ensures key + rel in nulls && nulls[key + rel] == LeafAt(section, key, rel).value
      {
        NulledLeaf(section, key, rel, nulls);
      }
      OverwrittenBack(section, key, nulls, map[]);
      OverwriteNothing(Overwrite(section, key, nulls), key);
    }
  }

  lemma NulledLeaf(section: Value, key: Path, rel: Path, nulls: map<Path, Value>)
    requires SecretPath(key) && LeafAt(section, key, rel).Some?
    requires forall p :: p in nulls ==> nulls[p].Null?
    requires key + rel in nulls <==> SecretPath(key + rel)
    ensures key + rel in nulls && LeafAt(Overwrite(section, key, nulls), key, rel) == Some(Null)
  {
    SecretBeneath(key, rel);
    OverwrittenLeaf(section, key, rel, nulls);
  }
}
