/** What routing older views through the profiles leaves alone: everything a profile says but the view,
    except where a scope had the built-in profile and is given one of its own. */
module RoutingKept {
  import opened Json
  import opened Policy
  import opened Profiles
  import opened Routing
  import opened ViewRouting

  function Bare(s: Sections): Sections {
    s.(delivery := s.delivery.(view := None))
  }

  const BLANK := Layer(NO_TOGGLES, None, UNNAMED)

  /** What is said at a scope, the view aside; nothing where no profile is assigned. */
  function BareAt(t: Tables, s: Scope): Layer {
    match LayerAt(t, s)
    case Some(layer) => layer.(sections := Bare(layer.sections))
    case None => BLANK
  }

  /** Whether a scope no longer has the built-in profile it had. */
  predicate Parted(t0: Tables, t: Tables, s: Scope) {
    BuiltinAt(t0, s) && !BuiltinAt(t, s)
  }

  predicate KeptAt(t0: Tables, t: Tables, s: Scope) {
    && (BuiltinAt(t, s) ==> BuiltinAt(t0, s))
    && BareAt(t, s) == if Parted(t0, t, s) then BLANK else BareAt(t0, s)
  }

  predicate ProfileKept(t0: Tables, t: Tables, id: ProfileId) {
    id in t0.profiles ==>
      && id in t.profiles && t.profiles[id].builtin == t0.profiles[id].builtin
      && t.profiles[id].layer.(sections := Bare(t.profiles[id].layer.sections))
         == t0.profiles[id].layer.(sections := Bare(t0.profiles[id].layer.sections))
  }

  ghost predicate Kept(t0: Tables, t: Tables) {
    && DEFAULT in t0.profiles
    && (forall s :: KeptAt(t0, t, s))
    && (forall id :: ProfileKept(t0, t, id))
  }

  lemma KeptFirst(t: Tables)
    requires DEFAULT in t.profiles
    ensures Kept(t, t)
  {
  }

  lemma OverlayKeepsScope(t0: Tables, t: Tables, scope: Scope, view: string, newId: ProfileId, s: Scope)
    requires Consistent(t) && newId !in t.profiles && KeptAt(t0, t, s)
    ensures KeptAt(t0, EnsureOverlay(t, scope, NamesView(view), newId), s)
  {
    OverlayAlone(t, scope, NamesView(view), newId);
    OverlayBuiltin(t, scope, NamesView(view), newId, s);
  }

  lemma OverlayKeepsProfile(t0: Tables, t: Tables, scope: Scope, view: string, newId: ProfileId, id: ProfileId)
    requires Consistent(t) && newId !in t.profiles && ProfileKept(t0, t, id)
    ensures ProfileKept(t0, EnsureOverlay(t, scope, NamesView(view), newId), id)
  {
  }

  lemma RouteScopeKeeps(t0: Tables, s: Store, base: Effective, known: Platforms, view: string, scope: Scope)
    requires Sound(s) && Kept(t0, s.tables)
    ensures var s' := RouteScope(s, base, known, view, scope);
            Sound(s') && Kept(t0, s'.tables)
  {
    OverlayAlone(s.tables, scope, NamesView(view), s.next);
    forall r ensures KeptAt(t0, EnsureOverlay(s.tables, scope, NamesView(view), s.next), r) {
      assert KeptAt(t0, s.tables, r);
      OverlayKeepsScope(t0, s.tables, scope, view, s.next, r);
    }
    forall id ensures ProfileKept(t0, EnsureOverlay(s.tables, scope, NamesView(view), s.next), id) {
      assert ProfileKept(t0, s.tables, id);
      OverlayKeepsProfile(t0, s.tables, scope, view, s.next, id);
    }
  }

  lemma {:induction false} RouteScopesKeep(t0: Tables, s: Store, base: Effective, known: Platforms, view: string,
                                           scopes: seq<Scope>)
    requires Sound(s) && Kept(t0, s.tables)
    ensures var s' := RouteScopes(s, base, known, view, scopes);
            Sound(s') && Kept(t0, s'.tables)
    decreases |scopes|
  {
    if scopes != [] {
      var n := |scopes| - 1;
      RouteScopesKeep(t0, s, base, known, view, scopes[..n]);
      RouteScopeKeeps(t0, RouteScopes(s, base, known, view, scopes[..n]), base, known, view, scopes[n]);
    }
  }

  lemma {:induction false} RouteViewsKeep(s: Store, base: Effective, known: Platforms, views: seq<OldView>,
                                          guildOf: map<string, string>)
    requires Sound(s)
    ensures var s' := RouteViews(s, base, known, views, guildOf);
            Sound(s') && Kept(s.tables, s'.tables)
    decreases |views|
  {
    if views == [] {
      KeptFirst(s.tables);
    } else {
      var n := |views| - 1;
      RouteViewsKeep(s, base, known, views[..n], guildOf);
      if views[n].enabled {
        RouteScopesKeep(s.tables, RouteViews(s, base, known, views[..n], guildOf), base, known, views[n].id,
                        ScopesOf(views[n], guildOf));
      }
    }
  }

  lemma BuiltinKeeps(t0: Tables, t: Tables, view: string)
    requires Kept(t0, t)
    ensures Kept(t0, RouteBuiltin(t, view))
  {
    forall s ensures KeptAt(t0, RouteBuiltin(t, view), s) {
      assert KeptAt(t0, t, s);
    }
    forall id ensures ProfileKept(t0, RouteBuiltin(t, view), id) {
      assert ProfileKept(t0, t, id);
    }
  }

  lemma AllKept(s: Store, base: Effective, known: Platforms, views: seq<OldView>, guildOf: map<string, string>)
    requires Sound(s)
    ensures Kept(s.tables, RouteAll(s, base, known, views, guildOf))
  {
    RouteViewsKeep(s, base, known, views, guildOf);
    if Widest(views).Some? {
      BuiltinKeeps(s.tables, RouteViews(s, base, known, views, guildOf).tables, Widest(views).value);
    }
  }

  // ---- leaf by leaf ----

  lemma BareLeaf(s: Sections, l: Leaf)
    requires l != DeliveryView
    ensures LeafOf(Bare(s), l) == LeafOf(s, l)
  {
  }

  lemma SameBare(s: Sections, u: Sections, l: Leaf)
    requires l != DeliveryView && Bare(s) == Bare(u)
    ensures LeafOf(s, l) == LeafOf(u, l)
  {
    BareLeaf(s, l);
    BareLeaf(u, l);
  }

  /** Whether `after` says at a scope what `before` said, the view aside; where the built-in profile has
      been parted with, nothing. */
  predicate SaysTheSame(before: Tables, after: Tables, s: Scope, l: Leaf) {
    if Parted(before, after, s) then SaidAt(after, s, l) == None && TogglesAt(after, s) == NO_TOGGLES && LanguageAt(after, s) == None
    else
      && SaidAt(after, s, l) == SaidAt(before, s, l)
      && TogglesAt(after, s) == TogglesAt(before, s) && LanguageAt(after, s) == LanguageAt(before, s)
  }

  lemma BareSays(t0: Tables, t: Tables, s: Scope, l: Leaf)
    requires l != DeliveryView && KeptAt(t0, t, s)
    ensures SaysTheSame(t0, t, s, l)
  {
    SaidBare(t0, s, l);
    SaidBare(t, s, l);
    NothingUnnamed(l);
  }

  lemma SaidBare(t: Tables, s: Scope, l: Leaf)
    requires l != DeliveryView
    ensures SaidAt(t, s, l) == LeafOf(BareAt(t, s).sections, l)
    ensures TogglesAt(t, s) == BareAt(t, s).toggles && LanguageAt(t, s) == BareAt(t, s).language
  {
    if LayerAt(t, s).Some? {
      BareLeaf(LayerAt(t, s).value.sections, l);
    } else {
      NothingUnnamed(l);
    }
  }

  /** The migration touches nothing but the view: at every scope every other leaf, the toggles and the
      language are as they were, save that a routed scope which had the built-in profile has one
      that says nothing else; and every profile there was keeps its own, the built-in one too. */
  lemma RoutingKeeps(s: Store, base: Effective, known: Platforms, views: seq<OldView>, guildOf: map<string, string>,
                     scope: Scope, id: ProfileId, l: Leaf)
    requires Sound(s) && l != DeliveryView
    ensures var t, after := s.tables, RouteAll(s, base, known, views, guildOf);
            && SaysTheSame(t, after, scope, l)
            && (BuiltinAt(after, scope) ==> BuiltinAt(t, scope))
            && (id in t.profiles ==>
                  && id in after.profiles
                  && LeafOf(after.profiles[id].layer.sections, l) == LeafOf(t.profiles[id].layer.sections, l)
                  && after.profiles[id].layer.toggles == t.profiles[id].layer.toggles
                  && after.profiles[id].layer.language == t.profiles[id].layer.language)
  {
    var t, after := s.tables, RouteAll(s, base, known, views, guildOf);
    AllKept(s, base, known, views, guildOf);
    assert KeptAt(t, after, scope) && ProfileKept(t, after, id);
    BareSays(t, after, scope, l);
    if id in t.profiles {
      SameBare(after.profiles[id].layer.sections, t.profiles[id].layer.sections, l);
    }
  }

  // ---- what is in force ----

  function BareOptions(u: Options): Options {
    u.(delivery := u.delivery.(view := NoView))
  }

  function BareForce(eff: Effective): Effective {
    eff.(options := BareOptions(eff.options))
  }

  /** The scopes of a chain that have not parted with the built-in profile. */
  function Remaining(t0: Tables, t: Tables, scopes: seq<Scope>): seq<Scope>
    decreases |scopes|
  {
    if scopes == [] then []
    else
      var n := |scopes| - 1;
      Remaining(t0, t, scopes[..n]) + if Parted(t0, t, scopes[n]) then [] else [scopes[n]]
  }

  lemma BareLaid(s: Sections, r: Sections, u: Options, v: Options)
    requires Bare(s) == Bare(r) && BareOptions(u) == BareOptions(v)
    ensures BareOptions(ApplyTo(s, u)) == BareOptions(ApplyTo(r, v))
  {
  }

  lemma BlankLaid(s: Sections, u: Options)
    requires Bare(s) == UNNAMED
    ensures BareOptions(ApplyTo(s, u)) == BareOptions(u)
  {
  }

  function BareLayer(x: Layer): Layer {
    x.(sections := Bare(x.sections))
  }

  lemma SameLaid(x: Layer, y: Layer, e: Effective, f: Effective, known: Platforms)
    requires BareLayer(x) == BareLayer(y) && BareForce(e) == BareForce(f)
    ensures BareForce(Lay(e, x, known)) == BareForce(Lay(f, y, known))
  {
    BareLaid(x.sections, y.sections, e.options, f.options);
  }

  lemma NothingLaid(x: Layer, e: Effective, known: Platforms)
    requires BareLayer(x) == BLANK
    ensures BareForce(Lay(e, x, known)) == BareForce(e)
  {
    BlankLaid(x.sections, e.options);
    assert Applied(NO_TOGGLES, known, e.platforms) == e.platforms;
  }

  lemma BareBuiltin(t0: Tables, t: Tables, base: Effective, known: Platforms)
    requires DEFAULT in t0.profiles && ProfileKept(t0, t, DEFAULT)
    ensures BareForce(EffectiveFor(t, base, known, [])) == BareForce(EffectiveFor(t0, base, known, []))
  {
    BuiltinLaid(t, base, known);
    BuiltinLaid(t0, base, known);
    SameLaid(t.profiles[DEFAULT].layer, t0.profiles[DEFAULT].layer, base, base, known);
  }

  /** One scope more: its layer on either side, or none. */
  lemma BareNext(x: Option<Layer>, y: Option<Layer>, e: Effective, f: Effective, known: Platforms)
    requires BareForce(e) == BareForce(f)
    requires (if x.Some? then BareLayer(x.value) else BLANK) == (if y.Some? then BareLayer(y.value) else BLANK)
    ensures BareForce(if x.Some? then Lay(e, x.value, known) else e) == BareForce(if y.Some? then Lay(f, y.value, known) else f)
  {
    if x.Some? && y.Some? {
      SameLaid(x.value, y.value, e, f, known);
    } else if x.Some? {
      NothingLaid(x.value, e, known);
    } else if y.Some? {
      NothingLaid(y.value, f, known);
    }
  }

  lemma {:induction false} BareAlong(t0: Tables, t: Tables, base: Effective, known: Platforms, scopes: seq<Scope>)
    requires Kept(t0, t)
    ensures BareForce(EffectiveFor(t, base, known, scopes)) == BareForce(EffectiveFor(t0, base, known, Remaining(t0, t, scopes)))
    decreases |scopes|
  {
    if scopes == [] {
      assert ProfileKept(t0, t, DEFAULT);
      BareBuiltin(t0, t, base, known);
    } else {
      var n := |scopes| - 1;
      var s, rest := scopes[n], Remaining(t0, t, scopes[..n]);
      BareAlong(t0, t, base, known, scopes[..n]);
      assert scopes == scopes[..n] + [s] && KeptAt(t0, t, s);
      ScopeLaid(t, base, known, scopes[..n], s);
      if Parted(t0, t, s) {
        assert Remaining(t0, t, scopes) == rest;
        BareNext(LayerAt(t, s), None, EffectiveFor(t, base, known, scopes[..n]), EffectiveFor(t0, base, known, rest), known);
      } else {
        ScopeLaid(t0, base, known, rest, s);
        BareNext(LayerAt(t, s), LayerAt(t0, s), EffectiveFor(t, base, known, scopes[..n]),
                 EffectiveFor(t0, base, known, rest), known);
      }
    }
  }

  lemma BareInForce(u: Options, v: Options, l: Leaf)
    requires BareOptions(u) == BareOptions(v) && l != DeliveryView
    ensures LeafInForce(u, l) == LeafInForce(v, l)
  {
  }

  /** What is in force after the migration, the view aside, is what was in force along the chain without
      the scopes that have parted with the built-in profile: every other leaf, every platform, the
      language. Where the chain has no such scope it is what was in force. */
  lemma RoutingKeepsInForce(s: Store, base: Effective, known: Platforms, views: seq<OldView>, guildOf: map<string, string>,
                            scopes: seq<Scope>, l: Leaf)
    requires Sound(s) && l != DeliveryView
    ensures var t, after := s.tables, RouteAll(s, base, known, views, guildOf);
            var rest := Remaining(t, after, scopes);
            var now, was := EffectiveFor(after, base, known, scopes), EffectiveFor(t, base, known, rest);
            && LeafAlong(after, base, known, scopes, l) == LeafAlong(t, base, known, rest, l)
            && now.platforms == was.platforms && now.language == was.language
            && ((forall r :: r in scopes ==> !Parted(t, after, r)) ==> rest == scopes)
  {
    var t, after := s.tables, RouteAll(s, base, known, views, guildOf);
    var rest := Remaining(t, after, scopes);
    AllKept(s, base, known, views, guildOf);
    BareAlong(t, after, base, known, scopes);
    BareInForce(EffectiveFor(after, base, known, scopes).options, EffectiveFor(t, base, known, rest).options, l);
    if forall r :: r in scopes ==> !Parted(t, after, r) {
      NoneParted(t, after, scopes);
    }
  }

  lemma {:induction false} NoneParted(t0: Tables, t: Tables, scopes: seq<Scope>)
    requires forall i :: 0 <= i < |scopes| ==> !Parted(t0, t, scopes[i])
    ensures Remaining(t0, t, scopes) == scopes
    decreases |scopes|
  {
    if scopes != [] {
      var n := |scopes| - 1;
      NoneParted(t0, t, scopes[..n]);
      assert scopes == scopes[..n] + [scopes[n]];
    }
  }

  /** A scope parts with the built-in profile only when some enabled view is routed to it. */
  lemma PartedIsRouted(s: Store, base: Effective, known: Platforms, views: seq<OldView>, guildOf: map<string, string>,
                       scope: Scope)
    requires Sound(s) && NoneNamed(s.tables, base)
    ensures var after := RouteAll(s, base, known, views, guildOf);
            Parted(s.tables, after, scope) <==>
            BuiltinAt(s.tables, scope) && scope in RoutedViews(views, guildOf, MutesOf(s.tables))
  {
    RouteViewsCarry(s, base, known, views, guildOf);
  }
}
