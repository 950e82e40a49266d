/** What the audit log shows of a settings value: everything but the secrets. */
module Redaction {
  import opened Json
  import opened Secrets

  const REDACTED := Text("[redacted]")

  function RedactValue(v: Value): Value {
    if v.Null? then Null else REDACTED
  }

  /** Every field named like a secret replaced, at any depth. */
  function RedactFields(v: Value): Value {
    match v
    case Object(fields) =>
      Object(map k | k in fields :: if IsSecretName(k) then RedactValue(fields[k]) else RedactFields(fields[k]))
    case Array(items) => Array(seq(|items|, i requires 0 <= i < |items| => RedactFields(items[i])))
    case _ => v
  }

  /** `v` as stored at `key`: replaced whole where the key names a secret. */
  function Redact(key: Path, v: Value): Value {
    if SecretPath(key) then RedactValue(v) else RedactFields(v)
  }

  // ---- what may be seen ----

  /** One step into a value. */
  datatype Hop = Field(name: string) | Item(i: nat)

  datatype Sight =
    | Nothing
    | Hidden(present: bool)
    | Scalar(v: Value)
    | Fields(names: set<string>)
    | Items(n: nat)

  /** What someone without the secrets may see of `v` at an address: which fields and items there
      are, scalars as they are, and of a secret only whether there is one. */
  function SeenAt(v: Value, at: seq<Hop>): Sight
    decreases |at|
  {
    if at == [] then
      match v
      case Object(fields) => Fields(fields.Keys)
      case Array(items) => Items(|items|)
      case _ => Scalar(v)
    else
      match at[0]
      case Field(name) =>
        if !v.Object? || name !in v.fields then Nothing
        else if !IsSecretName(name) then SeenAt(v.fields[name], at[1..])
        else if |at| == 1 then Hidden(!v.fields[name].Null?)
        else Nothing
      case Item(i) => if v.Array? && i < |v.items| then SeenAt(v.items[i], at[1..]) else Nothing
  }

  ghost predicate LookAlike(u: Value, v: Value) {
    forall at :: SeenAt(u, at) == SeenAt(v, at)
  }

  /** Redacting hides nothing else. */
  lemma {:induction false} RedactedLooks(v: Value, at: seq<Hop>)
    ensures SeenAt(RedactFields(v), at) == SeenAt(v, at)
    decreases |at|
  {
    if at != [] {
      match at[0]
      case Field(name) =>
        if v.Object? && name in v.fields && !IsSecretName(name) {
          RedactedLooks(v.fields[name], at[1..]);
        }
      case Item(i) =>
        if v.Array? && i < |v.items| {
          RedactedLooks(v.items[i], at[1..]);
        }
    } else if v.Object? {
      assert RedactFields(v).fields.Keys == v.fields.Keys;
    }
  }

  lemma LookAlikeInside(u: Value, v: Value, hop: Hop)
    requires LookAlike(u, v)
    ensures hop.Field? && u.Object? && hop.name in u.fields ==>
              && v.Object? && hop.name in v.fields
              && (IsSecretName(hop.name) ==> (u.fields[hop.name].Null? <==> v.fields[hop.name].Null?))
              && (!IsSecretName(hop.name) ==> LookAlike(u.fields[hop.name], v.fields[hop.name]))
    ensures hop.Item? && u.Array? && hop.i < |u.items| ==>
              v.Array? && hop.i < |v.items| && LookAlike(u.items[hop.i], v.items[hop.i])
  {
    assert SeenAt(u, []) == SeenAt(v, []);
    assert SeenAt(u, [hop]) == SeenAt(v, [hop]);
    forall at: seq<Hop> ensures SeenAt(u, [hop] + at) == SeenAt(v, [hop] + at) && ([hop] + at)[1..] == at {
    }
    if hop.Field? && u.Object? && hop.name in u.fields && !IsSecretName(hop.name) {
      forall at ensures SeenAt(u.fields[hop.name], at) == SeenAt(v.fields[hop.name], at) {
        assert ([hop] + at)[1..] == at && SeenAt(u, [hop] + at) == SeenAt(v, [hop] + at);
      }
    }
    if hop.Item? && u.Array? && hop.i < |u.items| {
      forall at ensures SeenAt(u.items[hop.i], at) == SeenAt(v.items[hop.i], at) {
        assert ([hop] + at)[1..] == at && SeenAt(u, [hop] + at) == SeenAt(v, [hop] + at);
      }
    }
  }

  lemma {:induction false} LookAlikeRedacted(u: Value, v: Value)
    requires LookAlike(u, v)
    ensures RedactFields(u) == RedactFields(v)
    decreases u
  {
    assert SeenAt(u, []) == SeenAt(v, []);
    if u.Object? {
      var x, y := RedactFields(u).fields, RedactFields(v).fields;
      assert x.Keys == u.fields.Keys && y.Keys == v.fields.Keys;
      forall k | k in x ensures x[k] == y[k] {
        LookAlikeInside(u, v, Field(k));
        if !IsSecretName(k) {
          LookAlikeRedacted(u.fields[k], v.fields[k]);
        }
      }
      assert x == y;
    } else if u.Array? {
      var x, y := RedactFields(u).items, RedactFields(v).items;
      forall i: nat | i < |x| ensures x[i] == y[i] {
        LookAlikeInside(u, v, Item(i));
        LookAlikeRedacted(u.items[i], v.items[i]);
      }
      assert x == y;
    }
  }

  /** The log tells two values apart exactly when they look different without their secrets: no
      secret shows, and nothing else is lost. */
  lemma RedactsSecretsOnly(key: Path, u: Value, v: Value)
    ensures Redact(key, u) == Redact(key, v) <==>
            if SecretPath(key) then u.Null? <==> v.Null? else LookAlike(u, v)
  {
    if !SecretPath(key) {
      if LookAlike(u, v) {
        LookAlikeRedacted(u, v);
      }
      if RedactFields(u) == RedactFields(v) {
        forall at ensures SeenAt(u, at) == SeenAt(v, at) {
          RedactedLooks(u, at);
          RedactedLooks(v, at);
        }
      }
    }
  }

  /** Redacting what is redacted changes nothing. */
  lemma RedactedTwice(key: Path, v: Value)
    ensures Redact(key, Redact(key, v)) == Redact(key, v)
  {
    if !SecretPath(key) {
      forall at ensures SeenAt(RedactFields(v), at) == SeenAt(v, at) {
        RedactedLooks(v, at);
      }
      LookAlikeRedacted(RedactFields(v), v);
    }
  }
}
