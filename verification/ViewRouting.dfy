/** The routing carried out on the profiles: each older view named in the delivery of the scopes it
    showed, the widest in the built-in profile, and what is then in force where. */
module ViewRouting {
  import opened Json
  import opened Policy
  import opened Profiles
  import opened Routing

  datatype Store = Store(tables: Tables, next: ProfileId)

  ghost predicate Sound(s: Store) {
    Consistent(s.tables) && forall id :: id in s.tables.profiles ==> id < s.next
  }

  /** What a profile's delivery says about the view, if anything. */
  function NamedBy(layer: Option<Layer>): Option<View> {
    if layer.Some? then layer.value.sections.delivery.view else None
  }

  function AsView(view: Option<string>): View {
    if view.Some? then ViewId(view.value) else NoView
  }

  /** The view in force along a chain. */
  function ViewAt(t: Tables, base: Effective, known: Platforms, scopes: seq<Scope>): View {
    EffectiveFor(t, base, known, scopes).options.delivery.view
  }

  function ChainOf(s: Scope): seq<Scope> {
    match s
    case Channel(g, c) => Chain(Some(g), Some(c), None)
    case Guild(g) => Chain(Some(g), None, None)
    case User(g, _) => Chain(Some(g), None, None)
    case Global => Chain(None, None, None)
  }

  function NamesView(view: string): Sections -> Sections {
    (sections: Sections) => sections.(delivery := sections.delivery.(view := Some(ViewId(view))))
  }

  /** Names the view at one scope, unless it is in force there already or another one is named. */
  function RouteScope(s: Store, base: Effective, known: Platforms, view: string, scope: Scope): Store {
    var named := NamedBy(LayerAt(s.tables, scope));
    if ViewAt(s.tables, base, known, ChainOf(scope)) == ViewId(view) || (named.Some? && named.value.ViewId?) then s
    else Store(EnsureOverlay(s.tables, scope, NamesView(view), s.next), s.next + 1)
  }

  function RouteScopes(s: Store, base: Effective, known: Platforms, view: string, scopes: seq<Scope>): Store
    decreases |scopes|
  {
    if scopes == [] then s
    else RouteScope(RouteScopes(s, base, known, view, scopes[..|scopes| - 1]), base, known, view, scopes[|scopes| - 1])
  }

  function RouteViews(s: Store, base: Effective, known: Platforms, views: seq<OldView>, guildOf: map<string, string>): Store
    decreases |views|
  {
    if views == [] then s
    else
      var n := |views| - 1;
      var before := RouteViews(s, base, known, views[..n], guildOf);
      if views[n].enabled then RouteScopes(before, base, known, views[n].id, ScopesOf(views[n], guildOf)) else before
  }

  /** The built-in profile's delivery given to a view, unless it names one. */
  function RouteBuiltin(t: Tables, view: string): Tables {
    if DEFAULT !in t.profiles then t
    else
      var builtin := t.profiles[DEFAULT];
      var named := NamedBy(Some(builtin.layer));
      if named.Some? && named.value.ViewId? then t
      else
        var sections := NamesView(view)(builtin.layer.sections);
        t.(profiles := t.profiles[DEFAULT := builtin.(layer := builtin.layer.(sections := sections))])
  }

  function RouteAll(s: Store, base: Effective, known: Platforms, views: seq<OldView>, guildOf: map<string, string>): Tables {
    var routed := RouteViews(s, base, known, views, guildOf).tables;
    if Widest(views).Some? then RouteBuiltin(routed, Widest(views).value) else routed
  }

  /** One view named at scope after scope. */
  method RouteView(s: Store, base: Effective, known: Platforms, view: string, scopes: seq<Scope>) returns (now: Store)
    ensures now == RouteScopes(s, base, known, view, scopes)
  {
    now := s;
    for i := 0 to |scopes|
      invariant now == RouteScopes(s, base, known, view, scopes[..i])
    {
      assert scopes[..i + 1][..i] == scopes[..i];
      now := RouteScope(now, base, known, view, scopes[i]);
    }
    assert scopes[..|scopes|] == scopes;
  }

  /** Every enabled view in the order of the slugs, each at its guilds and then its channels, the
      widest last. */
  method ConvertRouting(s: Store, base: Effective, known: Platforms, views: seq<OldView>, guildOf: map<string, string>)
    returns (tables: Tables)
    ensures tables == RouteAll(s, base, known, views, guildOf)
  {
    var now := s;
    var widest: Option<string> := None;
    for i := 0 to |views|
      invariant now == RouteViews(s, base, known, views[..i], guildOf)
      invariant widest == Widest(views[..i])
    {
      assert views[..i + 1][..i] == views[..i];
      if views[i].enabled {
        now := RouteView(now, base, known, views[i].id, ScopesOf(views[i], guildOf));
        if widest.None? && IsEverything(views[i]) {
          widest := Some(views[i].id);
        }
      }
    }
    assert views[..|views|] == views;
    tables := if widest.Some? then RouteBuiltin(now.tables, widest.value) else now.tables;
  }

  // ---- what is in force ----

  /** One scope more on a chain decides the view when its profile names one. */
  lemma ViewNarrower(t: Tables, base: Effective, known: Platforms, scopes: seq<Scope>, s: Scope)
    ensures ViewAt(t, base, known, scopes + [s]) ==
            if NamedBy(LayerAt(t, s)).Some? then NamedBy(LayerAt(t, s)).value else ViewAt(t, base, known, scopes)
  {
    ScopeLaid(t, base, known, scopes, s);
  }

  /** The view in force along a guild's chain, spelled out. */
  lemma ViewAlongGuild(t: Tables, base: Effective, known: Platforms, guild: string, channel: string)
    ensures ViewAt(t, base, known, Chain(Some(guild), None, None)) ==
            if NamedBy(LayerAt(t, Guild(guild))).Some? then NamedBy(LayerAt(t, Guild(guild))).value
            else ViewAt(t, base, known, [Global])
    ensures ViewAt(t, base, known, Chain(Some(guild), Some(channel), None)) ==
            if NamedBy(LayerAt(t, Channel(guild, channel))).Some? then NamedBy(LayerAt(t, Channel(guild, channel))).value
            else ViewAt(t, base, known, Chain(Some(guild), None, None))
  {
    ViewNarrower(t, base, known, [Global], Guild(guild));
    assert Chain(Some(guild), None, None) == [Global] + [Guild(guild)];
    ViewNarrower(t, base, known, Chain(Some(guild), None, None), Channel(guild, channel));
    assert Chain(Some(guild), Some(channel), None) == Chain(Some(guild), None, None) + [Channel(guild, channel)];
  }

  lemma ViewEverywhere(t: Tables, base: Effective, known: Platforms)
    requires DEFAULT in t.profiles
    ensures ViewAt(t, base, known, [Global]) ==
            if NamedBy(LayerAt(t, Global)).Some? then NamedBy(LayerAt(t, Global)).value
            else if NamedBy(Some(t.profiles[DEFAULT].layer)).Some? then NamedBy(Some(t.profiles[DEFAULT].layer)).value
            else base.options.delivery.view
  {
    ViewNarrower(t, base, known, [], Global);
    assert [] + [Global] == [Global];
    BuiltinLaid(t, base, known);
  }

  // ---- the profiles carry the routes ----

  /** Whether the built-in profile is assigned at a scope. */
  predicate BuiltinAt(t: Tables, s: Scope) {
    s in t.assignments && t.assignments[s] == DEFAULT
  }

  /** Whether the profile at a scope says outright that there is no view. */
  predicate Mute(t: Tables, s: Scope) {
    NamedBy(LayerAt(t, s)) == Some(NoView)
  }

  ghost function MutesOf(t: Tables): Mutes {
    iset s | Mute(t, s)
  }

  /** No profile names a view beforehand, and by default there is none. */
  ghost predicate NoneNamed(t: Tables, base: Effective) {
    && base.options.delivery.view == NoView
    && forall id :: id in t.profiles ==> t.profiles[id].layer.sections.delivery.view in {None, Some(NoView)}
  }

  /** Every scope below the whole server names the view it is routed to, or says what it said
      before; nothing else is changed. */
  ghost predicate Carries(t: Tables, t0: Tables, a: Routes) {
    && Global !in a
    && DEFAULT in t.profiles && DEFAULT in t0.profiles && t.profiles[DEFAULT] == t0.profiles[DEFAULT]
    && LayerAt(t, Global) == LayerAt(t0, Global)
    && (forall s: Scope :: s != Global ==> SaysAt(t, t0, a, s))
    && (forall s: Scope :: BuiltinAt(t, s) <==> BuiltinAt(t0, s) && s !in a)
  }

  ghost predicate SaysAt(t: Tables, t0: Tables, a: Routes, s: Scope) {
    NamedBy(LayerAt(t, s)) == if s in a then Some(ViewId(a[s])) else NamedBy(LayerAt(t0, s))
  }

  lemma NothingNamedAt(t: Tables, base: Effective, s: Scope)
    requires NoneNamed(t, base)
    ensures NamedBy(LayerAt(t, s)) == if Mute(t, s) then Some(NoView) else None
  {
  }

  lemma GuildCarried(t: Tables, t0: Tables, base: Effective, known: Platforms, guild: string, a: Routes)
    requires NoneNamed(t0, base) && Carries(t, t0, a)
    ensures ViewAt(t, base, known, Chain(Some(guild), None, None)) == AsView(InForce(a, MutesOf(t0), Guild(guild)))
  {
    ViewEverywhere(t, base, known);
    ViewAlongGuild(t, base, known, guild, "");
    NothingNamedAt(t0, base, Global);
    NothingNamedAt(t0, base, Guild(guild));
    assert SaysAt(t, t0, a, Guild(guild));
  }

  /** What is in force at a scope before anything is named for the whole server. */
  lemma ViewCarried(t: Tables, t0: Tables, base: Effective, known: Platforms, scope: Scope, a: Routes)
    requires NoneNamed(t0, base) && Carries(t, t0, a)
    requires scope.Guild? || scope.Channel?
    ensures ViewAt(t, base, known, ChainOf(scope)) == AsView(InForce(a, MutesOf(t0), scope))
  {
    GuildCarried(t, t0, base, known, scope.guild, a);
    if scope.Channel? {
      ViewAlongGuild(t, base, known, scope.guild, scope.channel);
      NothingNamedAt(t0, base, scope);
      NothingNamedAt(t0, base, Guild(scope.guild));
      assert SaysAt(t, t0, a, scope);
    }
  }

  lemma NamedCarries(t: Tables, t0: Tables, scope: Scope, view: string, newId: ProfileId, a: Routes)
    requires Consistent(t) && newId !in t.profiles && Carries(t, t0, a) && scope != Global
    ensures var t' := EnsureOverlay(t, scope, NamesView(view), newId);
            Consistent(t') && Carries(t', t0, a[scope := view])
  {
    var t' := EnsureOverlay(t, scope, NamesView(view), newId);
    OverlayAlone(t, scope, NamesView(view), newId);
    var next := a[scope := view];
    forall s: Scope | s != Global ensures SaysAt(t', t0, next, s) {
      assert SaysAt(t, t0, a, s);
    }
    forall s: Scope ensures BuiltinAt(t', s) <==> BuiltinAt(t0, s) && s !in next {
      OverlayBuiltin(t, scope, NamesView(view), newId, s);
      assert BuiltinAt(t, s) <==> BuiltinAt(t0, s) && s !in a;
    }
  }

  lemma OverlayBuiltin(t: Tables, scope: Scope, change: Sections -> Sections, newId: ProfileId, s: Scope)
    requires Consistent(t) && newId !in t.profiles
    ensures BuiltinAt(EnsureOverlay(t, scope, change, newId), s) <==> BuiltinAt(t, s) && s != scope
  {
  }

  lemma RouteScopeCarries(s: Store, t0: Tables, base: Effective, known: Platforms, view: string, scope: Scope, a: Routes)
    requires Sound(s) && NoneNamed(t0, base) && Carries(s.tables, t0, a)
    requires scope.Guild? || scope.Channel?
    ensures var s' := RouteScope(s, base, known, view, scope);
            Sound(s') && Carries(s'.tables, t0, RoutedScope(a, MutesOf(t0), view, scope))
  {
    ViewCarried(s.tables, t0, base, known, scope, a);
    RouteScopeSkips(s, t0, base, known, view, scope, a);
    if scope !in a && InForce(a, MutesOf(t0), scope) != Some(view) {
      NamedCarries(s.tables, t0, scope, view, s.next, a);
    }
  }

  /** A scope is skipped on the profiles exactly when it is skipped on the routes. */
  lemma RouteScopeSkips(s: Store, t0: Tables, base: Effective, known: Platforms, view: string, scope: Scope, a: Routes)
    requires NoneNamed(t0, base) && Carries(s.tables, t0, a) && scope != Global
    requires ViewAt(s.tables, base, known, ChainOf(scope)) == AsView(InForce(a, MutesOf(t0), scope))
    ensures RouteScope(s, base, known, view, scope) ==
            if scope in a || InForce(a, MutesOf(t0), scope) == Some(view) then s
            else Store(EnsureOverlay(s.tables, scope, NamesView(view), s.next), s.next + 1)
  {
    NothingNamedAt(t0, base, scope);
    assert SaysAt(s.tables, t0, a, scope);
  }

  lemma {:induction false} RouteScopesCarry(s: Store, t0: Tables, base: Effective, known: Platforms, view: string,
                                            scopes: seq<Scope>, a: Routes)
    requires Sound(s) && NoneNamed(t0, base) && Carries(s.tables, t0, a)
    requires forall i :: 0 <= i < |scopes| ==> scopes[i].Guild? || scopes[i].Channel?
    ensures var s' := RouteScopes(s, base, known, view, scopes);
            Sound(s') && Carries(s'.tables, t0, RoutedScopes(a, MutesOf(t0), view, scopes))
    decreases |scopes|
  {
    if scopes != [] {
      var n := |scopes| - 1;
      RouteScopesCarry(s, t0, base, known, view, scopes[..n], a);
      RouteScopeCarries(RouteScopes(s, base, known, view, scopes[..n]), t0, base, known, view, scopes[n],
                        RoutedScopes(a, MutesOf(t0), view, scopes[..n]));
    }
  }

  lemma {:induction false} ChannelScopesAre(channels: seq<string>, guildOf: map<string, string>)
    ensures forall i :: 0 <= i < |ChannelScopes(channels, guildOf)| ==> ChannelScopes(channels, guildOf)[i].Channel?
    decreases |channels|
  {
    if channels != [] {
      ChannelScopesAre(channels[..|channels| - 1], guildOf);
    }
  }

  lemma {:induction false} RouteViewsCarry(s: Store, base: Effective, known: Platforms, views: seq<OldView>,
                                           guildOf: map<string, string>)
    requires Sound(s) && NoneNamed(s.tables, base)
    ensures var s' := RouteViews(s, base, known, views, guildOf);
            Sound(s') && Carries(s'.tables, s.tables, RoutedViews(views, guildOf, MutesOf(s.tables)))
    decreases |views|
  {
    if views != [] {
      var n := |views| - 1;
      RouteViewsCarry(s, base, known, views[..n], guildOf);
      if views[n].enabled {
        ChannelScopesAre(views[n].channels, guildOf);
        RouteScopesCarry(RouteViews(s, base, known, views[..n], guildOf), s.tables, base, known, views[n].id,
                         ScopesOf(views[n], guildOf), RoutedViews(views[..n], guildOf, MutesOf(s.tables)));
      }
    }
  }

  // ---- the whole conversion ----

  /** What a scope says about the view in the end: the view it is routed to, else the widest one when
      the built-in profile is assigned there, else what it said. */
  function SaidAfter(t0: Tables, views: seq<OldView>, s: Scope, given: Option<string>): Option<View> {
    if given.Some? then Some(ViewId(given.value))
    else if BuiltinAt(t0, s) && Widest(views).Some? then Some(ViewId(Widest(views).value))
    else NamedBy(LayerAt(t0, s))
  }

  lemma BuiltinNamed(t: Tables, t0: Tables, a: Routes, base: Effective, view: string, s: Scope)
    requires NoneNamed(t0, base) && Carries(t, t0, a)
    ensures NamedBy(LayerAt(RouteBuiltin(t, view), s)) ==
            if BuiltinAt(t, s) then Some(ViewId(view)) else NamedBy(LayerAt(t, s))
    ensures NamedBy(Some(RouteBuiltin(t, view).profiles[DEFAULT].layer)) == Some(ViewId(view))
  {
  }

  lemma SaidAfterIs(s: Store, base: Effective, known: Platforms, views: seq<OldView>, guildOf: map<string, string>,
                    scope: Scope)
    requires Sound(s) && NoneNamed(s.tables, base)
    ensures var a := RoutedViews(views, guildOf, MutesOf(s.tables));
            NamedBy(LayerAt(RouteAll(s, base, known, views, guildOf), scope)) ==
            SaidAfter(s.tables, views, scope, if scope in a then Some(a[scope]) else None)
  {
    var a := RoutedViews(views, guildOf, MutesOf(s.tables));
    var routed := RouteViews(s, base, known, views, guildOf).tables;
    RouteViewsCarry(s, base, known, views, guildOf);
    if Widest(views).Some? {
      BuiltinNamed(routed, s.tables, a, base, Widest(views).value, scope);
    }
    assert scope != Global ==> SaysAt(routed, s.tables, a, scope);
  }

  /** What the whole server shows in the end: the widest view, unless its own profile is mute. */
  function ShownEverywhere(t0: Tables, views: seq<OldView>): View {
    if Mute(t0, Global) && !BuiltinAt(t0, Global) then NoView else AsView(Widest(views))
  }

  lemma AfterEverywhere(s: Store, base: Effective, known: Platforms, views: seq<OldView>, guildOf: map<string, string>)
    requires Sound(s) && NoneNamed(s.tables, base)
    ensures ViewAt(RouteAll(s, base, known, views, guildOf), base, known, [Global]) == ShownEverywhere(s.tables, views)
  {
    var a := RoutedViews(views, guildOf, MutesOf(s.tables));
    var routed := RouteViews(s, base, known, views, guildOf).tables;
    RouteViewsCarry(s, base, known, views, guildOf);
    SaidAfterIs(s, base, known, views, guildOf, Global);
    NothingNamedAt(s.tables, base, Global);
    if Widest(views).Some? {
      BuiltinNamed(routed, s.tables, a, base, Widest(views).value, Global);
    }
    ViewEverywhere(RouteAll(s, base, known, views, guildOf), base, known);
  }

  /** What a guild shows in the end. */
  function ShownInGuild(t0: Tables, views: seq<OldView>, guild: string): View {
    var said := SaidAfter(t0, views, Guild(guild), Owner(views, guild));
    if said.Some? then said.value else ShownEverywhere(t0, views)
  }

  /** What a guild's channel shows in the end. */
  function ShownInChannel(t0: Tables, views: seq<OldView>, guild: string, channel: string): View {
    var here := Channel(guild, channel);
    var said := SaidAfter(t0, views, here, ChannelGiven(views, guild, channel, Mute(t0, here)));
    if said.Some? then said.value else ShownInGuild(t0, views, guild)
  }

  /** The view in force after the conversion, wherever a job is seen. */
  lemma InForceAfter(s: Store, base: Effective, known: Platforms, views: seq<OldView>, guildOf: map<string, string>,
                     guild: string, channel: string)
    requires Sound(s) && NoneNamed(s.tables, base) && DistinctViews(views)
    ensures var t := RouteAll(s, base, known, views, guildOf);
            && ViewAt(t, base, known, [Global]) == ShownEverywhere(s.tables, views)
            && ViewAt(t, base, known, Chain(Some(guild), None, None)) == ShownInGuild(s.tables, views, guild)
            && (channel in guildOf && guildOf[channel] == guild ==>
                  ViewAt(t, base, known, Chain(Some(guild), Some(channel), None)) ==
                  ShownInChannel(s.tables, views, guild, channel))
  {
    var t := RouteAll(s, base, known, views, guildOf);
    AfterEverywhere(s, base, known, views, guildOf);
    ViewAlongGuild(t, base, known, guild, channel);
    SaidAfterIs(s, base, known, views, guildOf, Guild(guild));
    GuildRoutesAre(views, guildOf, MutesOf(s.tables), guild);
    if channel in guildOf && guildOf[channel] == guild {
      SaidAfterIs(s, base, known, views, guildOf, Channel(guild, channel));
      RoutesAre(views, guildOf, MutesOf(s.tables), guild, channel);
    }
  }

  // ---- what it means for the jobs ----

  /** Whether the widest view is kept from a scope by a mute profile in between. */
  predicate Silenced(t: Tables, s: Scope) {
    Mute(t, s) && !BuiltinAt(t, s)
  }

  /** Where the conversion puts another view in force than the one picked for a job seen there.
      The view picked by channel is replaced when it also has the guild, and the channel, not
      being mute, is left to it: another view lists the channel too, or the built-in profile is
      assigned there and given the widest view. The view picked by guild does not reach a
      channel that is mute, or has the built-in profile and so the widest view. The widest view
      does not reach what a mute profile keeps from it. */
  predicate Misrouted(t: Tables, views: seq<OldView>, guild: string, channel: string) {
    var here, around := Channel(guild, channel), Guild(guild);
    var first, owner, widest := ChannelFirst(views, channel), Owner(views, guild), Widest(views);
    if first.Some? then
      !Mute(t, here) && (Usurped(views, guild, channel) || (owner == first && BuiltinAt(t, here) && widest.Some?))
    else if owner.Some? then
      Mute(t, here) || (BuiltinAt(t, here) && widest.Some?)
    else
      widest.Some? && !BuiltinAt(t, here) && (Mute(t, here) || MisroutedInGuild(t, views, guild))
  }

  /** The same for a job seen in a guild and in no channel. */
  predicate MisroutedInGuild(t: Tables, views: seq<OldView>, guild: string) {
    && Owner(views, guild).None? && Widest(views).Some? && !BuiltinAt(t, Guild(guild))
    && (Mute(t, Guild(guild)) || Silenced(t, Global))
  }

  lemma ViewsApart(views: seq<OldView>, guild: string, channel: string)
    requires DistinctViews(views) && Widest(views).Some?
    ensures Owner(views, guild) != Widest(views) && ChannelFirst(views, channel) != Widest(views)
  {
    WidestListed(views);
    if Owner(views, guild).Some? {
      OwnerListed(views, guild);
    }
    if ChannelFirst(views, channel).Some? {
      ChannelListed(views, channel);
    }
  }

  lemma ShownIsPicked(t: Tables, base: Effective, views: seq<OldView>, guild: string, channel: string)
    requires NoneNamed(t, base) && DistinctViews(views)
    ensures ShownInChannel(t, views, guild, channel) == AsView(Picked(views, Some(guild), Some(channel)))
            <==> !Misrouted(t, views, guild, channel)
  {
    ChannelOwnerIs(views, guild, channel);
    NothingNamedAt(t, base, Channel(guild, channel));
    NothingNamedAt(t, base, Guild(guild));
    if Widest(views).Some? {
      ViewsApart(views, guild, channel);
    }
  }

  /** The migration preserves meaning: where no profile names a view beforehand, what is in force at a
      guild's channel afterwards is the view the jobs there were shown by, exactly unless the
      channel is misrouted. */
  lemma RoutingPreserved(s: Store, base: Effective, known: Platforms, views: seq<OldView>, guildOf: map<string, string>,
                         guild: string, channel: string)
    requires Sound(s) && NoneNamed(s.tables, base) && DistinctViews(views)
    requires channel in guildOf && guildOf[channel] == guild
    ensures ViewAt(RouteAll(s, base, known, views, guildOf), base, known, Chain(Some(guild), Some(channel), None))
            == AsView(Picked(views, Some(guild), Some(channel)))
            <==> !Misrouted(s.tables, views, guild, channel)
  {
    InForceAfter(s, base, known, views, guildOf, guild, channel);
    ShownIsPicked(s.tables, base, views, guild, channel);
  }

  /** The same for jobs from no channel, and from no guild either. */
  lemma RoutingPreservedAround(s: Store, base: Effective, known: Platforms, views: seq<OldView>,
                               guildOf: map<string, string>, guild: string)
    requires Sound(s) && NoneNamed(s.tables, base) && DistinctViews(views)
    ensures ViewAt(RouteAll(s, base, known, views, guildOf), base, known, Chain(Some(guild), None, None))
            == AsView(Picked(views, Some(guild), None))
            <==> !MisroutedInGuild(s.tables, views, guild)
    ensures ViewAt(RouteAll(s, base, known, views, guildOf), base, known, Chain(None, None, None))
            == AsView(Picked(views, None, None))
            <==> !(Widest(views).Some? && Silenced(s.tables, Global))
  {
    InForceAfter(s, base, known, views, guildOf, guild, "");
    NothingNamedAt(s.tables, base, Guild(guild));
    if Widest(views).Some? {
      ViewsApart(views, guild, "");
    }
  }

  /** In particular it always is where no channel is listed by two enabled views, no profile at the
      place or around it is mute and the built-in one is assigned to the whole server at most. */
  lemma RoutingPreservedUnshared(s: Store, base: Effective, known: Platforms, views: seq<OldView>,
                                 guildOf: map<string, string>, guild: string, channel: string)
    requires Sound(s) && NoneNamed(s.tables, base) && DistinctViews(views)
    requires channel in guildOf && guildOf[channel] == guild
    requires forall i, j :: 0 <= i < j < |views| && views[i].enabled && views[j].enabled ==>
               !(channel in views[i].channels && channel in views[j].channels)
    requires !Silenced(s.tables, Global) && !Mute(s.tables, Guild(guild))
    requires !Mute(s.tables, Channel(guild, channel)) && !BuiltinAt(s.tables, Channel(guild, channel))
    ensures ViewAt(RouteAll(s, base, known, views, guildOf), base, known, Chain(Some(guild), Some(channel), None))
         == AsView(Picked(views, Some(guild), Some(channel)))
  {
    RoutingPreserved(s, base, known, views, guildOf, guild, channel);
    if ChannelFirst(views, channel).Some? {
      ChannelListed(views, channel);
    }
  }

  // ---- where it does not hold ----

  /** The built-in profile naming `view`, assigned everywhere and at one channel. */
  function AtChannel(view: Option<View>): Tables {
    var sections := UNNAMED.(delivery := UNNAMED.delivery.(view := view));
    Tables(map[DEFAULT := Profile(Layer(NO_TOGGLES, None, sections), true)],
           map[Global := DEFAULT, Channel("g", "c") := DEFAULT])
  }

  const LISTS_GUILD := OldView("a", true, ["g"], [])
  const SHOWS_ALL := OldView("w", true, [], [])

  lemma AtChannelIs(view: Option<View>, base: Effective)
    requires view in {None, Some(NoView)} && base.options.delivery.view == NoView
    ensures var t := AtChannel(view);
            && Sound(Store(t, 2)) && NoneNamed(t, base) && BuiltinAt(t, Channel("g", "c"))
            && (Mute(t, Channel("g", "c")) <==> view == Some(NoView))
  {
  }

  lemma GuildOnly()
    ensures Owner([LISTS_GUILD], "g") == Some("a")
    ensures Widest([LISTS_GUILD]) == None && ChannelFirst([LISTS_GUILD], "c") == None
  {
    var v := LISTS_GUILD;
    assert [v][..0] == [];
    assert !IsEverything(v) && "c" !in v.channels && "g" in v.guilds;
  }

  lemma GuildThenAll()
    ensures var views := [LISTS_GUILD, SHOWS_ALL];
            Owner(views, "g") == Some("a") && Widest(views) == Some("w") && ChannelFirst(views, "c") == None
  {
    var v, w := LISTS_GUILD, SHOWS_ALL;
    GuildOnly();
    assert [v, w][..1] == [v];
    assert IsEverything(w) && "c" !in w.channels;
  }

  /** With nothing named anywhere, the built-in profile assigned at a channel takes the channel of a
      guild's view for the widest one. */
  lemma BuiltinMisroutes(base: Effective, known: Platforms, guildOf: map<string, string>)
    requires base.options.delivery.view == NoView && "c" in guildOf && guildOf["c"] == "g"
    ensures var s, views := Store(AtChannel(None), 2), [LISTS_GUILD, SHOWS_ALL];
            && Misrouted(s.tables, views, "g", "c") && !Usurped(views, "g", "c")
            && Picked(views, Some("g"), Some("c")) == Some("a")
            && ViewAt(RouteAll(s, base, known, views, guildOf), base, known, Chain(Some("g"), Some("c"), None)) == ViewId("w")
  {
    var s, views := Store(AtChannel(None), 2), [LISTS_GUILD, SHOWS_ALL];
    AtChannelIs(None, base);
    GuildOnly();
    GuildThenAll();
    ChannelOwnerIs(views, "g", "c");
    InForceAfter(s, base, known, views, guildOf, "g", "c");
  }

  /** A channel whose profile says there is no view keeps its guild's view out. */
  lemma MuteMisroutes(base: Effective, known: Platforms, guildOf: map<string, string>)
    requires base.options.delivery.view == NoView && "c" in guildOf && guildOf["c"] == "g"
    ensures var s, views := Store(AtChannel(Some(NoView)), 2), [LISTS_GUILD];
            && Misrouted(s.tables, views, "g", "c") && !Usurped(views, "g", "c")
            && Picked(views, Some("g"), Some("c")) == Some("a")
            && ViewAt(RouteAll(s, base, known, views, guildOf), base, known, Chain(Some("g"), Some("c"), None)) == NoView
  {
    var s, views := Store(AtChannel(Some(NoView)), 2), [LISTS_GUILD];
    AtChannelIs(Some(NoView), base);
    GuildOnly();
    InForceAfter(s, base, known, views, guildOf, "g", "c");
  }
}
