/** Profiles, where they are assigned, what they add up to along a chain of scopes, and changing
    what is in force at one scope alone. */
module Profiles {
  import opened Json
  import opened Policy

  datatype Scope =
    | Global
    | Guild(guild: string)
    | Channel(guild: string, channel: string)
    | User(guild: string, user: string)

  /** Where profiles are looked up for a link, from the whole server inwards. */
  function Chain(guild: Option<string>, channel: Option<string>, user: Option<string>): seq<Scope> {
    if guild.None? then [Global]
    else
      [Global, Guild(guild.value)]
      + (if channel.Some? then [Channel(guild.value, channel.value)] else [])
      + (if user.Some? then [User(guild.value, user.value)] else [])
  }

  type ProfileId = nat

  /** The id of the built-in profile, always laid first. */
  const DEFAULT: ProfileId := 1

  datatype Profile = Profile(layer: Layer, builtin: bool)

  datatype Tables = Tables(profiles: map<ProfileId, Profile>, assignments: map<Scope, ProfileId>)

  ghost predicate Consistent(t: Tables) {
    && DEFAULT in t.profiles
    && (forall id :: id in t.profiles ==> (t.profiles[id].builtin <==> id == DEFAULT))
    && Global in t.assignments
    && (forall s :: s in t.assignments ==> t.assignments[s] in t.profiles)
  }

  // ---- what is in force ----

  /** The profile assigned at `s`, as a layer, when there is one. */
  function LayerAt(t: Tables, s: Scope): Option<Layer> {
    if s in t.assignments && t.assignments[s] in t.profiles then Some(t.profiles[t.assignments[s]].layer) else None
  }

  /** The toggles of the profile at `s`, and its language; none without one. */
  function TogglesAt(t: Tables, s: Scope): PlatformToggles {
    if LayerAt(t, s).Some? then LayerAt(t, s).value.toggles else NO_TOGGLES
  }

  function LanguageAt(t: Tables, s: Scope): Option<string> {
    if LayerAt(t, s).Some? then LayerAt(t, s).value.language else None
  }

  function LayersFor(t: Tables, scopes: seq<Scope>): seq<Layer>
    decreases |scopes|
  {
    if scopes == [] then
      if DEFAULT in t.profiles then [t.profiles[DEFAULT].layer] else []
    else
      var last := LayerAt(t, scopes[|scopes| - 1]);
      LayersFor(t, scopes[..|scopes| - 1]) + if last.Some? then [last.value] else []
  }

  /** The built-in profile and then the one of each scope in turn, laid over `base`. */
  function EffectiveFor(t: Tables, base: Effective, known: Platforms, scopes: seq<Scope>): Effective {
    LayAll(base, LayersFor(t, scopes), known)
  }

  /** The assignments that apply along `scopes`, widest first. */
  function AppliedAt(t: Tables, scopes: seq<Scope>): seq<(Scope, ProfileId)>
    decreases |scopes|
  {
    if scopes == [] then []
    else
      var last := scopes[|scopes| - 1];
      AppliedAt(t, scopes[..|scopes| - 1]) + if LayerAt(t, last).Some? then [(last, t.assignments[last])] else []
  }

  lemma LayOneMore(base: Effective, layers: seq<Layer>, layer: Layer, known: Platforms)
    ensures LayAll(base, layers + [layer], known) == Lay(LayAll(base, layers, known), layer, known)
  {
    assert (layers + [layer])[..|layers|] == layers;
  }

  method ComputeEffective(t: Tables, base: Effective, known: Platforms, scopes: seq<Scope>)
    returns (eff: Effective, applied: seq<(Scope, ProfileId)>)
    ensures eff == EffectiveFor(t, base, known, scopes)
    ensures applied == AppliedAt(t, scopes)
  {
    eff, applied := base, [];
    BuiltinLaid(t, base, known);
    if DEFAULT in t.profiles {
      eff := Lay(eff, t.profiles[DEFAULT].layer, known);
    }
    for i := 0 to |scopes|
      invariant eff == EffectiveFor(t, base, known, scopes[..i])
      invariant applied == AppliedAt(t, scopes[..i])
    {
      ScopeLaid(t, base, known, scopes[..i], scopes[i]);
      assert scopes[..i + 1] == scopes[..i] + [scopes[i]];
      var layer := LayerAt(t, scopes[i]);
      if layer.Some? {
        eff := Lay(eff, layer.value, known);
        applied := applied + [(scopes[i], t.assignments[scopes[i]])];
      }
    }
    assert scopes[..|scopes|] == scopes;
  }

  lemma BuiltinLaid(t: Tables, base: Effective, known: Platforms)
    ensures EffectiveFor(t, base, known, []) ==
            if DEFAULT in t.profiles then Lay(base, t.profiles[DEFAULT].layer, known) else base
  {
    if DEFAULT in t.profiles {
      LayOneMore(base, [], t.profiles[DEFAULT].layer, known);
      assert [] + [t.profiles[DEFAULT].layer] == [t.profiles[DEFAULT].layer];
    }
  }

  /** One scope more lays its profile on top, when it has one. */
  lemma ScopeLaid(t: Tables, base: Effective, known: Platforms, scopes: seq<Scope>, s: Scope)
    ensures EffectiveFor(t, base, known, scopes + [s]) ==
            if LayerAt(t, s).Some? then Lay(EffectiveFor(t, base, known, scopes), LayerAt(t, s).value, known)
            else EffectiveFor(t, base, known, scopes)
    ensures AppliedAt(t, scopes + [s]) ==
            AppliedAt(t, scopes) + if LayerAt(t, s).Some? then [(s, t.assignments[s])] else []
  {
    assert (scopes + [s])[..|scopes|] == scopes;
    if LayerAt(t, s).Some? {
      LayOneMore(base, LayersFor(t, scopes), LayerAt(t, s).value, known);
    } else {
      assert LayersFor(t, scopes) + [] == LayersFor(t, scopes);
    }
  }

  /** What the profile assigned at `s` says about a leaf. */
  function SaidAt(t: Tables, s: Scope, l: Leaf): Option<Setting> {
    Said(t, s, LensOf(l))
  }

  /** What is in force for a leaf along `scopes`. */
  function LeafAlong(t: Tables, base: Effective, known: Platforms, scopes: seq<Scope>, l: Leaf): Setting {
    Along(t, base, known, scopes, LensOf(l))
  }

  /** One leaf, by how a profile names it and how it is read from what is in force. */
  datatype Lens = Lens(named: Sections -> Option<Setting>, inForce: Options -> Setting, settled: Setting -> Setting)

  function LensOf(l: Leaf): Lens {
    Lens(s => LeafOf(s, l), u => LeafInForce(u, l), x => Settled(l, x))
  }

  /** Laying a profile settles the leaf when it names it, and leaves it alone when it does not. */
  ghost predicate Sharp(lens: Lens) {
    forall s, u :: lens.inForce(ApplyTo(s, u)) ==
                   if lens.named(s).Some? then lens.settled(lens.named(s).value) else lens.inForce(u)
  }

  lemma LensIsSharp(l: Leaf)
    ensures Sharp(LensOf(l))
  {
    forall s, u
      ensures LeafInForce(ApplyTo(s, u), l) ==
              if LeafOf(s, l).Some? then Settled(l, LeafOf(s, l).value) else LeafInForce(u, l)
    {
      ApplyToLeaf(s, u, l);
    }
  }

  function Said(t: Tables, s: Scope, lens: Lens): Option<Setting> {
    if LayerAt(t, s).Some? then lens.named(LayerAt(t, s).value.sections) else None
  }

  function Along(t: Tables, base: Effective, known: Platforms, scopes: seq<Scope>, lens: Lens): Setting {
    lens.inForce(EffectiveFor(t, base, known, scopes).options)
  }

  lemma OneScopeMore(t: Tables, base: Effective, known: Platforms, scopes: seq<Scope>, s: Scope, lens: Lens)
    requires Sharp(lens)
    ensures Along(t, base, known, scopes + [s], lens) ==
            if Said(t, s, lens).Some? then lens.settled(Said(t, s, lens).value) else Along(t, base, known, scopes, lens)
  {
    ScopeLaid(t, base, known, scopes, s);
  }

  lemma BuiltinUnderneath(t: Tables, base: Effective, known: Platforms, lens: Lens)
    requires DEFAULT in t.profiles && Sharp(lens)
    ensures var said := lens.named(t.profiles[DEFAULT].layer.sections);
            Along(t, base, known, [], lens) ==
            if said.Some? then lens.settled(said.value) else lens.inForce(base.options)
  {
    BuiltinLaid(t, base, known);
  }

  /** How narrow a scope is. */
  function Narrowness(s: Scope): nat {
    match s
    case Global => 0
    case Guild(_) => 1
    case Channel(_, _) => 2
    case User(_, _) => 3
  }

  /** The effective policy is decided leaf by leaf: by the profile at the narrowest scope of the link
      that names the leaf. */
  lemma NarrowestDecides(t: Tables, base: Effective, known: Platforms, guild: Option<string>, channel: Option<string>,
                         user: Option<string>, l: Leaf, s: Scope)
    requires s in Chain(guild, channel, user) && SaidAt(t, s, l).Some?
    requires forall r :: r in Chain(guild, channel, user) && Narrowness(r) > Narrowness(s) ==> SaidAt(t, r, l).None?
    ensures LeafAlong(t, base, known, Chain(guild, channel, user), l) == Settled(l, SaidAt(t, s, l).value)
  {
    var chain, lens := Chain(guild, channel, user), LensOf(l);
    LensIsSharp(l);
    forall r ensures Said(t, r, lens) == SaidAt(t, r, l) {
    }
    var i: nat :| i < |chain| && chain[i] == s;
    ChainNarrows(guild, channel, user);
    NarrowestAlong(t, base, known, chain, i, lens);
  }

  lemma NarrowestAlong(t: Tables, base: Effective, known: Platforms, chain: seq<Scope>, i: nat, lens: Lens)
    requires Sharp(lens) && i < |chain| && Said(t, chain[i], lens).Some?
    requires forall j :: i < j < |chain| ==> Said(t, chain[j], lens).None?
    ensures Along(t, base, known, chain, lens) == lens.settled(Said(t, chain[i], lens).value)
  {
    SettledUpTo(t, base, known, chain, i + 1, |chain|, lens);
    OneScopeMore(t, base, known, chain[..i], chain[i], lens);
    assert chain[..i] + [chain[i]] == chain[..i + 1];
    assert chain[..|chain|] == chain;
  }

  /** One scope more on a chain decides the language when its profile has one. */
  lemma LanguageNarrower(t: Tables, base: Effective, known: Platforms, scopes: seq<Scope>, s: Scope)
    ensures EffectiveFor(t, base, known, scopes + [s]).language ==
            if LanguageAt(t, s).Some? then LanguageAt(t, s) else EffectiveFor(t, base, known, scopes).language
  {
    ScopeLaid(t, base, known, scopes, s);
  }

  /** The language likewise is that of the narrowest profile with one. */
  lemma {:induction false} LanguageDecided(t: Tables, base: Effective, known: Platforms, scopes: seq<Scope>, i: nat)
    requires i < |scopes| && LanguageAt(t, scopes[i]).Some?
    requires forall j :: i < j < |scopes| ==> LanguageAt(t, scopes[j]).None?
    ensures EffectiveFor(t, base, known, scopes).language == LanguageAt(t, scopes[i])
    decreases |scopes|
  {
    var n := |scopes| - 1;
    assert scopes == scopes[..n] + [scopes[n]];
    LanguageNarrower(t, base, known, scopes[..n], scopes[n]);
    if i < n {
      LanguageDecided(t, base, known, scopes[..n], i);
    }
  }

  /** Where no profile along the chain has one it is the built-in profile's, or else the server's. */
  lemma {:induction false} LanguageShowsThrough(t: Tables, base: Effective, known: Platforms, scopes: seq<Scope>)
    requires DEFAULT in t.profiles && forall r :: r in scopes ==> LanguageAt(t, r).None?
    ensures var builtin := t.profiles[DEFAULT].layer.language;
            EffectiveFor(t, base, known, scopes).language == if builtin.Some? then builtin else base.language
    decreases |scopes|
  {
    if scopes == [] {
      LaidOnce(base, t.profiles[DEFAULT].layer, known);
    } else {
      var n := |scopes| - 1;
      assert scopes == scopes[..n] + [scopes[n]];
      LanguageNarrower(t, base, known, scopes[..n], scopes[n]);
      LanguageShowsThrough(t, base, known, scopes[..n]);
    }
  }

  lemma LaidOnce(base: Effective, layer: Layer, known: Platforms)
    ensures LayAll(base, [layer], known) == Lay(base, layer, known)
  {
    assert [layer][..0] == [] && LayAll(base, [], known) == base;
  }

  /** A leaf no profile along the chain names is as the built-in profile says, or the server's own
      default. */
  lemma UnnamedShowsThrough(t: Tables, base: Effective, known: Platforms, guild: Option<string>,
                            channel: Option<string>, user: Option<string>, l: Leaf)
    requires DEFAULT in t.profiles
    requires forall r :: r in Chain(guild, channel, user) ==> SaidAt(t, r, l).None?
    ensures var said := LeafOf(t.profiles[DEFAULT].layer.sections, l);
            LeafAlong(t, base, known, Chain(guild, channel, user), l) ==
            if said.Some? then Settled(l, said.value) else LeafInForce(base.options, l)
  {
    var chain, lens := Chain(guild, channel, user), LensOf(l);
    LensIsSharp(l);
    forall r ensures Said(t, r, lens) == SaidAt(t, r, l) {
    }
    SettledUpTo(t, base, known, chain, 0, |chain|, lens);
    assert chain[..|chain|] == chain && chain[..0] == [];
    BuiltinUnderneath(t, base, known, lens);
  }

  lemma ChainNarrows(guild: Option<string>, channel: Option<string>, user: Option<string>)
    ensures var chain := Chain(guild, channel, user);
            forall i, j :: 0 <= i < j < |chain| ==> Narrowness(chain[i]) < Narrowness(chain[j])
  {
  }

  /** Scopes that say nothing about a leaf leave it as it is. */
  lemma {:induction false} SettledUpTo(t: Tables, base: Effective, known: Platforms, chain: seq<Scope>, i: nat, n: nat,
                                       lens: Lens)
    requires i <= n <= |chain| && Sharp(lens)
    requires forall j :: i <= j < n ==> Said(t, chain[j], lens).None?
    ensures Along(t, base, known, chain[..n], lens) == Along(t, base, known, chain[..i], lens)
    decreases n
  {
    if i < n {
      OneScopeMore(t, base, known, chain[..n - 1], chain[n - 1], lens);
      assert chain[..n - 1] + [chain[n - 1]] == chain[..n];
      SettledUpTo(t, base, known, chain, i, n - 1, lens);
    }
  }

  // ---- one scope's own profile ----

  /** Whether `id` is assigned anywhere but at `scope`. */
  predicate Shared(t: Tables, id: ProfileId, scope: Scope) {
    exists s :: s in t.assignments && s != scope && t.assignments[s] == id
  }

  /** Whether `scope` has a profile to itself that may be edited. */
  predicate Own(t: Tables, scope: Scope) {
    && scope in t.assignments && t.assignments[scope] in t.profiles
    && !t.profiles[t.assignments[scope]].builtin && !Shared(t, t.assignments[scope], scope)
  }

  /** What a new profile for `scope` starts from: the profile assigned there, unless that is the
      built-in one. */
  function SourceLayer(t: Tables, scope: Scope): Layer {
    if scope in t.assignments && t.assignments[scope] != DEFAULT && t.assignments[scope] in t.profiles then
      t.profiles[t.assignments[scope]].layer
    else Layer(NO_TOGGLES, None, UNNAMED)
  }

  /** Edits the sections of `scope` without any other scope noticing: a profile used nowhere else is
      edited as it is, otherwise the scope is given a copy and that is edited. */
  function EnsureOverlay(t: Tables, scope: Scope, change: Sections -> Sections, newId: ProfileId): Tables {
    if Own(t, scope) then
      var id := t.assignments[scope];
      var layer := t.profiles[id].layer;
      t.(profiles := t.profiles[id := t.profiles[id].(layer := layer.(sections := change(layer.sections)))])
    else
      var source := SourceLayer(t, scope);
      Tables(t.profiles[newId := Profile(source.(sections := change(source.sections)), false)],
             t.assignments[scope := newId])
  }

  /** The layers of a chain depend only on the scopes in it. */
  lemma {:induction false} SameLayers(t: Tables, t': Tables, scopes: seq<Scope>)
    requires DEFAULT in t.profiles && DEFAULT in t'.profiles && t.profiles[DEFAULT] == t'.profiles[DEFAULT]
    requires forall s :: s in scopes ==> LayerAt(t, s) == LayerAt(t', s)
    ensures LayersFor(t, scopes) == LayersFor(t', scopes)
    decreases |scopes|
  {
    if scopes != [] {
      assert scopes[|scopes| - 1] in scopes;
      forall s | s in scopes[..|scopes| - 1] ensures s in scopes {
      }
      SameLayers(t, t', scopes[..|scopes| - 1]);
    }
  }

  /** Everything changing one scope alone promises: no other scope sees a difference, the scope
      has a profile of its own afterwards, and that profile is the one it started from with the
      change made to its sections. */
  lemma OverlayAlone(t: Tables, scope: Scope, change: Sections -> Sections, newId: ProfileId)
    requires Consistent(t) && newId !in t.profiles
    ensures var t' := EnsureOverlay(t, scope, change, newId);
            && Consistent(t')
            && Own(t', scope)
            && t'.profiles[DEFAULT] == t.profiles[DEFAULT]
            && (forall s :: s != scope ==> LayerAt(t', s) == LayerAt(t, s))
            && (forall s :: s != scope ==> (s in t'.assignments <==> s in t.assignments))
            && var source := SourceLayer(t, scope);
               LayerAt(t', scope) == Some(source.(sections := change(source.sections)))
  {
    var t' := EnsureOverlay(t, scope, change, newId);
    if Own(t, scope) {
      var id := t.assignments[scope];
      forall s | s in t.assignments && s != scope ensures t.assignments[s] != id {
        assert !Shared(t, id, scope);
      }
    } else {
      forall s | s in t'.assignments && s != scope ensures t'.assignments[s] != newId {
        assert t.assignments[s] in t.profiles;
      }
    }
  }

  /** Patching a scope leaves what is in force along every chain without that scope as it was. */
  lemma OverlayIsolated(t: Tables, scope: Scope, change: Sections -> Sections, newId: ProfileId,
                        base: Effective, known: Platforms, scopes: seq<Scope>)
    requires Consistent(t) && newId !in t.profiles && scope !in scopes
    ensures EffectiveFor(EnsureOverlay(t, scope, change, newId), base, known, scopes)
         == EffectiveFor(t, base, known, scopes)
  {
    OverlayAlone(t, scope, change, newId);
    SameLayers(t, EnsureOverlay(t, scope, change, newId), scopes);
  }

  /** What a patch leaves the scope's profile saying: the sections it replaces as it names them, and
      everything else as the profile said it, unless that was the built-in one, whose values
      the new profile does not repeat. */
  lemma PatchAtScope(t: Tables, scope: Scope, patch: SectionsPatch, newId: ProfileId, l: Leaf)
    requires Consistent(t) && newId !in t.profiles
    ensures var t' := EnsureOverlay(t, scope, s => Patched(s, patch), newId);
            && LayerAt(t', scope).Some?
            && SaidAt(t', scope, l) ==
               (if Replaces(patch, SectionOf(l)) then PatchLeaf(patch, l)
                else if OwnValues(t, scope) then SaidAt(t, scope, l) else None)
            && (OwnValues(t, scope) ==>
                  && LayerAt(t', scope).value.toggles == LayerAt(t, scope).value.toggles
                  && LayerAt(t', scope).value.language == LayerAt(t, scope).value.language)
  {
    OverlayAlone(t, scope, s => Patched(s, patch), newId);
    PatchedSections(SourceLayer(t, scope).sections, patch, l);
    NothingUnnamed(l);
  }

  /** Whether a profile other than the built-in one is assigned at a scope. */
  predicate OwnValues(t: Tables, scope: Scope) {
    scope in t.assignments && t.assignments[scope] != DEFAULT
  }

  /** Whether some scope further in names a leaf. */
  ghost predicate NamedWithin(t: Tables, inner: seq<Scope>, lens: Lens) {
    exists r :: r in inner && Said(t, r, lens).Some?
  }

  lemma NamedWithinNext(t: Tables, inner: seq<Scope>, last: Scope, lens: Lens)
    ensures NamedWithin(t, inner + [last], lens) <==> NamedWithin(t, inner, lens) || Said(t, last, lens).Some?
  {
    if NamedWithin(t, inner, lens) {
      var r :| r in inner && Said(t, r, lens).Some?;
      assert r in inner + [last];
    }
    assert last in inner + [last];
  }

  /** Where some scope further in names a leaf, what is around it does not matter; where none does, what
      is around shows through. */
  lemma {:induction false} InnerDecides(t: Tables, t': Tables, base: Effective, known: Platforms, around: seq<Scope>,
                                        inner: seq<Scope>, lens: Lens)
    requires Sharp(lens) && forall r :: r in inner ==> LayerAt(t', r) == LayerAt(t, r)
    ensures Along(t', base, known, around + inner, lens) ==
            if NamedWithin(t, inner, lens) then Along(t, base, known, around + inner, lens)
            else Along(t', base, known, around, lens)
    decreases |inner|
  {
    if inner == [] {
      assert around + inner == around;
    } else {
      var n := |inner| - 1;
      var last := inner[n];
      assert inner == inner[..n] + [last] && around + inner == around + inner[..n] + [last];
      InnerDecides(t, t', base, known, around, inner[..n], lens);
      NamedWithinNext(t, inner[..n], last, lens);
      OneScopeMore(t, base, known, around + inner[..n], last, lens);
      OneScopeMore(t', base, known, around + inner[..n], last, lens);
    }
  }

  /** What is in force at the patched scope: a section the patch replaces is as it names it and, where it
      names nothing, as it is around the scope. Any other section is as it was, except that the
      built-in profile, had it been assigned there, stops covering what is around. */
  function PatchedAt(t: Tables, around: seq<Scope>, scope: Scope, patch: SectionsPatch, l: Leaf, base: Effective,
                     known: Platforms): Setting {
    if Replaces(patch, SectionOf(l)) then
      if Told(patch, l).Some? then Settled(l, Told(patch, l).value)
      else LeafAlong(t, base, known, around, l)
    else if scope in t.assignments && t.assignments[scope] == DEFAULT then LeafAlong(t, base, known, around, l)
    else LeafAlong(t, base, known, around + [scope], l)
  }

  /** The same for any leaf and any change of one scope's profile, `told` what the change says there. */
  lemma ChangedAlong(t: Tables, t': Tables, around: seq<Scope>, scope: Scope, inner: seq<Scope>, lens: Lens,
                     replaced: bool, told: Option<Setting>, base: Effective, known: Platforms)
    requires Sharp(lens) && EffectiveFor(t', base, known, around) == EffectiveFor(t, base, known, around)
    requires forall r :: r in inner ==> LayerAt(t', r) == LayerAt(t, r)
    requires Said(t', scope, lens) == if replaced then told else if OwnValues(t, scope) then Said(t, scope, lens) else None
    requires scope !in t.assignments ==> LayerAt(t, scope).None?
    ensures Along(t', base, known, around + [scope] + inner, lens) ==
            if NamedWithin(t, inner, lens) then Along(t, base, known, around + [scope] + inner, lens)
            else if replaced then
              if told.Some? then lens.settled(told.value) else Along(t, base, known, around, lens)
            else if scope in t.assignments && t.assignments[scope] == DEFAULT then Along(t, base, known, around, lens)
            else Along(t, base, known, around + [scope], lens)
  {
    InnerDecides(t, t', base, known, around + [scope], inner, lens);
    OneScopeMore(t', base, known, around, scope, lens);
    OneScopeMore(t, base, known, around, scope, lens);
  }

  /** The tables once a scope is patched. */
  function PatchedTables(t: Tables, scope: Scope, patch: SectionsPatch, newId: ProfileId): Tables {
    EnsureOverlay(t, scope, s => Patched(s, patch), newId)
  }

  lemma PatchedElsewhere(t: Tables, around: seq<Scope>, scope: Scope, patch: SectionsPatch, newId: ProfileId,
                         base: Effective, known: Platforms)
    requires Consistent(t) && newId !in t.profiles && scope !in around
    ensures var t' := PatchedTables(t, scope, patch, newId);
            && EffectiveFor(t', base, known, around) == EffectiveFor(t, base, known, around)
            && forall r :: r != scope ==> LayerAt(t', r) == LayerAt(t, r)
  {
    OverlayAlone(t, scope, s => Patched(s, patch), newId);
    OverlayIsolated(t, scope, s => Patched(s, patch), newId, base, known, around);
  }

  /** What the patch says about a leaf, when it says so for the scope. */
  function Told(patch: SectionsPatch, l: Leaf): Option<Setting> {
    if Replaces(patch, SectionOf(l)) then PatchLeaf(patch, l) else None
  }

  lemma PatchedSays(t: Tables, scope: Scope, patch: SectionsPatch, newId: ProfileId, l: Leaf)
    requires Consistent(t) && newId !in t.profiles
    ensures Said(PatchedTables(t, scope, patch, newId), scope, LensOf(l)) ==
            if Replaces(patch, SectionOf(l)) then Told(patch, l)
            else if OwnValues(t, scope) then Said(t, scope, LensOf(l)) else None
  {
    PatchAtScope(t, scope, patch, newId, l);
  }

  /** What a patch puts in force, along every chain through its scope: a leaf some narrower scope names
      stays as it was, any other is as at the scope. */
  lemma PatchInForce(t: Tables, around: seq<Scope>, scope: Scope, inner: seq<Scope>, patch: SectionsPatch,
                     newId: ProfileId, l: Leaf, base: Effective, known: Platforms)
    requires Consistent(t) && newId !in t.profiles && scope !in around && scope !in inner
    ensures LeafAlong(PatchedTables(t, scope, patch, newId), base, known, around + [scope] + inner, l) ==
            if NamedWithin(t, inner, LensOf(l)) then LeafAlong(t, base, known, around + [scope] + inner, l)
            else PatchedAt(t, around, scope, patch, l, base, known)
  {
    LensIsSharp(l);
    PatchedElsewhere(t, around, scope, patch, newId, base, known);
    PatchedSays(t, scope, patch, newId, l);
    ChangedAlong(t, PatchedTables(t, scope, patch, newId), around, scope, inner, LensOf(l),
                 Replaces(patch, SectionOf(l)), Told(patch, l), base, known);
  }

  // ---- the store ----

  datatype ProfileError = UnknownProfile | BuiltinStays | InUse | GlobalRequired | Refused

  datatype Result = Changed(tables: Tables) | Failed(error: ProfileError)

  function Assign(t: Tables, s: Scope, id: ProfileId): Result {
    if id !in t.profiles then Failed(UnknownProfile) else Changed(t.(assignments := t.assignments[s := id]))
  }

  function Unassign(t: Tables, s: Scope): Result {
    if s == Global then Failed(GlobalRequired) else Changed(t.(assignments := t.assignments - {s}))
  }

  function Delete(t: Tables, id: ProfileId): Result {
    if id !in t.profiles then Failed(UnknownProfile)
    else if t.profiles[id].builtin then Failed(BuiltinStays)
    else if Global in t.assignments && t.assignments[Global] == id then Failed(InUse)
    else Changed(Tables(t.profiles - {id}, map s | s in t.assignments && t.assignments[s] != id :: t.assignments[s]))
  }

  function Create(t: Tables, layer: Layer, newId: ProfileId): Result {
    Changed(t.(profiles := t.profiles[newId := Profile(layer, false)]))
  }

  function Update(t: Tables, id: ProfileId, layer: Layer): Result {
    if id !in t.profiles then Failed(UnknownProfile)
    else Changed(t.(profiles := t.profiles[id := t.profiles[id].(layer := layer)]))
  }

  /** A patch at one scope, refused for the whole server, for an empty patch and for sections
      that do not stand. */
  function PatchOverlay(t: Tables, s: Scope, patch: SectionsPatch, stands: Sections -> bool, newId: ProfileId): Result {
    if s == Global || patch == NO_PATCH || !stands(Patched(SourceLayer(t, s).sections, patch)) then Failed(Refused)
    else Changed(PatchedTables(t, s, patch, newId))
  }

  datatype Operation =
    | Assigning(scope: Scope, id: ProfileId)
    | Unassigning(scope: Scope)
    | Deleting(id: ProfileId)
    | Creating(layer: Layer, newId: ProfileId)
    | Updating(id: ProfileId, layer: Layer)
    | Patching(scope: Scope, patch: SectionsPatch, stands: Sections -> bool, newId: ProfileId)

  function Outcome(t: Tables, op: Operation): Result {
    match op
    case Assigning(s, id) => Assign(t, s, id)
    case Unassigning(s) => Unassign(t, s)
    case Deleting(id) => Delete(t, id)
    case Creating(layer, newId) => Create(t, layer, newId)
    case Updating(id, layer) => Update(t, id, layer)
    case Patching(s, patch, stands, newId) => PatchOverlay(t, s, patch, stands, newId)
  }

  predicate FreshId(t: Tables, op: Operation) {
    (op.Creating? || op.Patching?) ==> op.newId !in t.profiles
  }

  /** Nothing differs but at the scopes of `where`. */
  ghost predicate OnlyAt(t: Tables, t': Tables, where: iset<Scope>) {
    forall r :: r !in where ==> LayerAt(t', r) == LayerAt(t, r)
  }

  /** Chains that avoid the scopes that differ are as they were. */
  lemma Elsewhere(t: Tables, t': Tables, where: iset<Scope>, base: Effective, known: Platforms, scopes: seq<Scope>)
    requires DEFAULT in t.profiles && DEFAULT in t'.profiles && t.profiles[DEFAULT] == t'.profiles[DEFAULT]
    requires OnlyAt(t, t', where) && forall r :: r in scopes ==> r !in where
    ensures EffectiveFor(t', base, known, scopes) == EffectiveFor(t, base, known, scopes)
  {
    SameLayers(t, t', scopes);
  }

  /** Assigning a profile, when there is one, makes it the layer at the scope and changes nothing else. */
  lemma AssigningDoes(t: Tables, s: Scope, id: ProfileId, base: Effective, known: Platforms, scopes: seq<Scope>)
    requires Consistent(t)
    ensures var r := Outcome(t, Assigning(s, id));
            && (r.Changed? <==> id in t.profiles)
            && (r.Changed? ==>
                  && r.tables.profiles == t.profiles
                  && LayerAt(r.tables, s) == Some(t.profiles[id].layer)
                  && OnlyAt(t, r.tables, iset{s})
                  && (s !in scopes ==> EffectiveFor(r.tables, base, known, scopes) == EffectiveFor(t, base, known, scopes)))
  {
    var r := Outcome(t, Assigning(s, id));
    if r.Changed? && s !in scopes {
      Elsewhere(t, r.tables, iset{s}, base, known, scopes);
    }
  }

  /** Taking the profile off a scope, the whole server excepted, leaves it without one and changes
      nothing else: what is around it shows through. */
  lemma UnassigningDoes(t: Tables, s: Scope, base: Effective, known: Platforms, around: seq<Scope>)
    requires Consistent(t) && s !in around
    ensures var r := Outcome(t, Unassigning(s));
            && (r.Changed? <==> s != Global)
            && (r.Changed? ==>
                  && r.tables.profiles == t.profiles
                  && LayerAt(r.tables, s) == None
                  && OnlyAt(t, r.tables, iset{s})
                  && EffectiveFor(r.tables, base, known, around) == EffectiveFor(t, base, known, around)
                  && EffectiveFor(r.tables, base, known, around + [s]) == EffectiveFor(t, base, known, around))
  {
    var r := Outcome(t, Unassigning(s));
    if r.Changed? {
      Elsewhere(t, r.tables, iset{s}, base, known, around);
      ScopeLaid(r.tables, base, known, around, s);
    }
  }

  /** The scopes a profile is assigned at. */
  ghost function ScopesWith(t: Tables, id: ProfileId): iset<Scope> {
    iset s | s in t.assignments && t.assignments[s] == id
  }

  /** Deleting takes away the profile and exactly its assignments, and is refused for the built-in one and
      the whole server's. */
  lemma DeletingDoes(t: Tables, id: ProfileId, base: Effective, known: Platforms, scopes: seq<Scope>)
    requires Consistent(t)
    ensures var r := Outcome(t, Deleting(id));
            && (r.Changed? <==> id in t.profiles && id != DEFAULT && Global !in ScopesWith(t, id))
            && (r.Changed? ==>
                  && r.tables.profiles == t.profiles - {id}
                  && (forall s :: s in ScopesWith(t, id) ==> s !in r.tables.assignments)
                  && (forall s :: s in t.assignments && s !in ScopesWith(t, id) ==>
                        s in r.tables.assignments && r.tables.assignments[s] == t.assignments[s])
                  && OnlyAt(t, r.tables, ScopesWith(t, id))
                  && ((forall s :: s in scopes ==> s !in ScopesWith(t, id)) ==>
                        EffectiveFor(r.tables, base, known, scopes) == EffectiveFor(t, base, known, scopes)))
  {
    var r := Outcome(t, Deleting(id));
    if r.Changed? && forall s :: s in scopes ==> s !in ScopesWith(t, id) {
      Elsewhere(t, r.tables, ScopesWith(t, id), base, known, scopes);
    }
  }

  /** Updating a profile gives its scopes the new layer, and changes what is in force only along chains
      through one of them, unless it is the built-in one. */
  lemma UpdatingDoes(t: Tables, id: ProfileId, layer: Layer, base: Effective, known: Platforms, scopes: seq<Scope>)
    requires Consistent(t)
    ensures var r := Outcome(t, Updating(id, layer));
            && (r.Changed? <==> id in t.profiles)
            && (r.Changed? ==>
                  && r.tables.assignments == t.assignments && r.tables.profiles.Keys == t.profiles.Keys
                  && (forall k :: k in t.profiles && k != id ==> r.tables.profiles[k] == t.profiles[k])
                  && r.tables.profiles[id] == Profile(layer, t.profiles[id].builtin)
                  && (forall s :: s in ScopesWith(t, id) ==> LayerAt(r.tables, s) == Some(layer))
                  && OnlyAt(t, r.tables, ScopesWith(t, id))
                  && (id != DEFAULT && (forall s :: s in scopes ==> s !in ScopesWith(t, id)) ==>
                        EffectiveFor(r.tables, base, known, scopes) == EffectiveFor(t, base, known, scopes)))
  {
    var r := Outcome(t, Updating(id, layer));
    if r.Changed? && id != DEFAULT && forall s :: s in scopes ==> s !in ScopesWith(t, id) {
      Elsewhere(t, r.tables, ScopesWith(t, id), base, known, scopes);
    }
  }

  /** Creating a profile changes nothing in force anywhere. */
  lemma CreatingDoes(t: Tables, layer: Layer, newId: ProfileId, base: Effective, known: Platforms, scopes: seq<Scope>)
    requires Consistent(t) && newId !in t.profiles
    ensures var r := Outcome(t, Creating(layer, newId));
            && r.Changed? && newId in r.tables.profiles && r.tables.profiles[newId] == Profile(layer, false)
            && r.tables.assignments == t.assignments && r.tables.profiles - {newId} == t.profiles
            && OnlyAt(t, r.tables, iset{})
            && EffectiveFor(r.tables, base, known, scopes) == EffectiveFor(t, base, known, scopes)
  {
    var r := Outcome(t, Creating(layer, newId));
    assert OnlyAt(t, r.tables, iset{});
    Elsewhere(t, r.tables, iset{}, base, known, scopes);
  }

  /** A patch is carried out exactly for a scope below the whole server, when it replaces a section and
      what the scope's profile would then say stands; a section it does not replace counts as that
      profile has it. */
  lemma PatchingDoes(t: Tables, s: Scope, patch: SectionsPatch, stands: Sections -> bool, newId: ProfileId)
    requires Consistent(t) && newId !in t.profiles
    ensures var r := Outcome(t, Patching(s, patch, stands, newId));
            && (r.Changed? <==>
                  && s != Global && (exists part :: Replaces(patch, part))
                  && LayerAt(PatchedTables(t, s, patch, newId), s).Some?
                  && stands(LayerAt(PatchedTables(t, s, patch, newId), s).value.sections))
            && (r.Changed? ==> r.tables == PatchedTables(t, s, patch, newId) && OnlyAt(t, r.tables, iset{s}))
  {
    OverlayAlone(t, s, sections => Patched(sections, patch), newId);
    EmptyPatch(patch);
  }

  lemma EmptyPatch(patch: SectionsPatch)
    ensures patch == NO_PATCH <==> forall part :: !Replaces(patch, part)
  {
    assert Replaces(patch, Intake) || Replaces(patch, Message) || Replaces(patch, Output) || Replaces(patch, Upload)
           || patch == NO_PATCH;
  }

  /** Every operation keeps the built-in profile and a profile for the whole server, and leaves
      no scope assigned to a profile that is gone. */
  lemma OperationsConsistent(t: Tables, op: Operation)
    requires Consistent(t) && FreshId(t, op) && Outcome(t, op).Changed?
    ensures Consistent(Outcome(t, op).tables)
  {
    if op.Patching? {
      OverlayAlone(t, op.scope, sections => Patched(sections, op.patch), op.newId);
    }
  }

  class ProfileStore {
    var tables: Tables
    var cache: Tables

    ghost predicate Valid()
      reads this
    {
      Consistent(tables) && cache == tables
    }

    constructor (tables: Tables)
      requires Consistent(tables)
      ensures Valid() && this.tables == tables
    {
      this.tables := tables;
      cache := tables;
    }

    /** Copies the tables, leaving out assignments to profiles that are gone. */
    method Refresh(from: Tables)
      modifies this`cache
      ensures cache.profiles == from.profiles
      ensures cache.assignments == map s | s in from.assignments && from.assignments[s] in from.profiles :: from.assignments[s]
    {
      var kept: map<Scope, ProfileId> := map[];
      var pending := from.assignments.Keys;
      while pending != {}
        invariant pending <= from.assignments.Keys
        invariant kept == map s | s in from.assignments && s !in pending :: from.assignments[s]
      {
        var s :| s in pending;
        kept := kept[s := from.assignments[s]];
        pending := pending - {s};
      }
      cache := Tables(from.profiles, map s | s in kept && kept[s] in from.profiles :: kept[s]);
    }

    /** One operation, with the cache reloaded before it is kept. */
    method Run(op: Operation) returns (r: Result)
      requires Valid() && FreshId(tables, op)
      modifies this
      ensures Valid()
      ensures r == Outcome(old(tables), op)
      ensures tables == if r.Changed? then r.tables else old(tables)
    {
      r := Outcome(tables, op);
      if r.Changed? {
        OperationsConsistent(tables, op);
        tables := r.tables;
        Refresh(r.tables);
        assert cache.assignments == tables.assignments;
      }
    }

    method Effective(base: Effective, known: Platforms, guild: Option<string>, channel: Option<string>, user: Option<string>)
      returns (eff: Policy.Effective)
      requires Valid()
      ensures eff == EffectiveFor(tables, base, known, Chain(guild, channel, user))
    {
      var applied;
      eff, applied := ComputeEffective(cache, base, known, Chain(guild, channel, user));
    }
  }
}
