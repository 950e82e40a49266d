/** Routing the content views older schemas picked jobs by through the profiles of the scopes they
    showed, and the pick itself, made once more for the jobs already there. */
module Routing {
  import opened Json
  import opened Profiles

  /** A view as it was before: the guilds and channels it showed, and with both lists empty the whole
      server. Sequences of views are sorted by slug. */
  datatype OldView = OldView(id: string, enabled: bool, guilds: seq<string>, channels: seq<string>)

  predicate IsEverything(v: OldView) {
    v.guilds == [] && v.channels == []
  }

  ghost predicate DistinctViews(views: seq<OldView>) {
    forall i, j :: 0 <= i < j < |views| ==> views[i].id != views[j].id
  }

  // ---- the pick ----

  /** Ranks a view for a job: 2 by its channel, 1 by its guild, 0 when it shows all there is. A job
      need not come from a channel, nor from a guild. */
  function Closeness(v: OldView, guild: Option<string>, channel: Option<string>): Option<nat> {
    if channel.Some? && channel.value in v.channels then Some(2)
    else if guild.Some? && guild.value in v.guilds then Some(1)
    else if IsEverything(v) then Some(0)
    else None
  }

  /** Whether view `i` is taken for a job: it shows it, no other fits more closely, and none of
      those that fit as closely comes before it. */
  ghost predicate Taken(views: seq<OldView>, shows: OldView -> bool, guild: Option<string>, channel: Option<string>, i: nat) {
    && i < |views| && views[i].enabled && shows(views[i]) && Closeness(views[i], guild, channel).Some?
    && forall j :: 0 <= j < |views| && views[j].enabled && shows(views[j]) && Closeness(views[j], guild, channel).Some? ==>
         var fit, other := Closeness(views[i], guild, channel).value, Closeness(views[j], guild, channel).value;
         other < fit || (other == fit && i <= j)
  }

  /** Goes through the views once, keeping the best so far and replacing it only by a better one. */
  method Pick(views: seq<OldView>, shows: OldView -> bool, guild: Option<string>, channel: Option<string>)
    returns (r: Option<nat>)
    ensures r.Some? ==> Taken(views, shows, guild, channel, r.value)
    ensures r.None? ==> forall i :: 0 <= i < |views| && views[i].enabled && shows(views[i]) ==>
                          Closeness(views[i], guild, channel).None?
  {
    r := None;
    for i := 0 to |views|
      invariant r.Some? ==> r.value < i && Taken(views[..i], shows, guild, channel, r.value)
      invariant r.None? ==> forall j :: 0 <= j < i && views[j].enabled && shows(views[j]) ==>
                              Closeness(views[j], guild, channel).None?
    {
      var fit := Closeness(views[i], guild, channel);
      assert forall j :: 0 <= j < i ==> views[..i][j] == views[j] == views[..i + 1][j];
      if views[i].enabled && shows(views[i]) && fit.Some? {
        if r.None? || Closeness(views[r.value], guild, channel).value < fit.value {
          r := Some(i);
        }
      }
    }
    assert views[..|views|] == views;
  }

  /** The first enabled view that lists the guild. */
  function Owner(views: seq<OldView>, guild: string): Option<string>
    decreases |views|
  {
    if views == [] then None
    else
      var n := |views| - 1;
      var earlier := Owner(views[..n], guild);
      if earlier.Some? then earlier
      else if views[n].enabled && guild in views[n].guilds then Some(views[n].id)
      else None
  }

  /** The first enabled view that lists the channel. */
  function ChannelFirst(views: seq<OldView>, channel: string): Option<string>
    decreases |views|
  {
    if views == [] then None
    else
      var n := |views| - 1;
      var earlier := ChannelFirst(views[..n], channel);
      if earlier.Some? then earlier
      else if views[n].enabled && channel in views[n].channels then Some(views[n].id)
      else None
  }

  /** The first enabled view that shows everything. */
  function Widest(views: seq<OldView>): Option<string>
    decreases |views|
  {
    if views == [] then None
    else
      var n := |views| - 1;
      var earlier := Widest(views[..n]);
      if earlier.Some? then earlier
      else if views[n].enabled && IsEverything(views[n]) then Some(views[n].id)
      else None
  }

  /** The view a job was shown by. */
  function Picked(views: seq<OldView>, guild: Option<string>, channel: Option<string>): Option<string> {
    if channel.Some? && ChannelFirst(views, channel.value).Some? then ChannelFirst(views, channel.value)
    else if guild.Some? && Owner(views, guild.value).Some? then Owner(views, guild.value)
    else Widest(views)
  }

  lemma {:induction false} OwnerIsFirst(views: seq<OldView>, guild: string, i: nat)
    requires i < |views| && views[i].enabled && guild in views[i].guilds
    ensures Owner(views, guild).Some?
    ensures (forall j :: 0 <= j < i && views[j].enabled ==> guild !in views[j].guilds) ==>
              Owner(views, guild) == Some(views[i].id)
    decreases |views|
  {
    var n := |views| - 1;
    if i < n {
      OwnerIsFirst(views[..n], guild, i);
    } else if Owner(views[..n], guild).Some? {
      OwnerListed(views[..n], guild);
    }
  }

  lemma {:induction false} OwnerListed(views: seq<OldView>, guild: string)
    requires Owner(views, guild).Some?
    ensures exists j :: 0 <= j < |views| && views[j].enabled && guild in views[j].guilds
                        && views[j].id == Owner(views, guild).value
    decreases |views|
  {
    var n := |views| - 1;
    if Owner(views[..n], guild).Some? {
      OwnerListed(views[..n], guild);
      var j :| 0 <= j < n && views[..n][j].enabled && guild in views[..n][j].guilds
               && views[..n][j].id == Owner(views[..n], guild).value;
      assert views[j].enabled;
    } else {
      assert views[n].enabled;
    }
  }

  lemma {:induction false} ChannelIsFirst(views: seq<OldView>, channel: string, i: nat)
    requires i < |views| && views[i].enabled && channel in views[i].channels
    ensures ChannelFirst(views, channel).Some?
    ensures (forall j :: 0 <= j < i && views[j].enabled ==> channel !in views[j].channels) ==>
              ChannelFirst(views, channel) == Some(views[i].id)
    decreases |views|
  {
    var n := |views| - 1;
    if i < n {
      ChannelIsFirst(views[..n], channel, i);
    } else if ChannelFirst(views[..n], channel).Some? {
      ChannelListed(views[..n], channel);
    }
  }

  lemma {:induction false} ChannelListed(views: seq<OldView>, channel: string)
    requires ChannelFirst(views, channel).Some?
    ensures exists j :: 0 <= j < |views| && views[j].enabled && channel in views[j].channels
                        && views[j].id == ChannelFirst(views, channel).value
    decreases |views|
  {
    var n := |views| - 1;
    if ChannelFirst(views[..n], channel).Some? {
      ChannelListed(views[..n], channel);
      var j :| 0 <= j < n && views[..n][j].enabled && channel in views[..n][j].channels
               && views[..n][j].id == ChannelFirst(views[..n], channel).value;
      assert views[j].enabled;
    } else {
      assert views[n].enabled;
    }
  }

  lemma {:induction false} WidestIsFirst(views: seq<OldView>, i: nat)
    requires i < |views| && views[i].enabled && IsEverything(views[i])
    ensures Widest(views).Some?
    ensures (forall j :: 0 <= j < i && views[j].enabled ==> !IsEverything(views[j])) ==> Widest(views) == Some(views[i].id)
    decreases |views|
  {
    var n := |views| - 1;
    if i < n {
      WidestIsFirst(views[..n], i);
    } else if Widest(views[..n]).Some? {
      WidestListed(views[..n]);
    }
  }

  lemma {:induction false} WidestListed(views: seq<OldView>)
    requires Widest(views).Some?
    ensures exists j :: 0 <= j < |views| && views[j].enabled && IsEverything(views[j]) && views[j].id == Widest(views).value
    decreases |views|
  {
    var n := |views| - 1;
    if Widest(views[..n]).Some? {
      WidestListed(views[..n]);
      var j :| 0 <= j < n && views[..n][j].enabled && IsEverything(views[..n][j])
               && views[..n][j].id == Widest(views[..n]).value;
      assert views[j].enabled;
    } else {
      assert views[n].enabled;
    }
  }

  /** The view taken for a job whose platform every view shows is the first to list its channel,
      else the first to list its guild, else the first to show everything. */
  lemma TakenIsPicked(views: seq<OldView>, shows: OldView -> bool, guild: Option<string>, channel: Option<string>, i: nat)
    requires Taken(views, shows, guild, channel, i)
    requires forall j :: 0 <= j < |views| && views[j].enabled ==> shows(views[j])
    ensures Picked(views, guild, channel) == Some(views[i].id)
  {
    if Closeness(views[i], guild, channel) == Some(2) {
      forall j | 0 <= j < i && views[j].enabled ensures channel.value !in views[j].channels {
      }
      ChannelIsFirst(views, channel.value, i);
    } else {
      assert channel.Some? ==> ChannelFirst(views, channel.value).None? by {
        if channel.Some? && ChannelFirst(views, channel.value).Some? {
          ChannelListed(views, channel.value);
        }
      }
      NotByChannel(views, shows, guild, channel, i);
    }
  }

  lemma NotByChannel(views: seq<OldView>, shows: OldView -> bool, guild: Option<string>, channel: Option<string>, i: nat)
    requires Taken(views, shows, guild, channel, i) && Closeness(views[i], guild, channel) != Some(2)
    requires forall j :: 0 <= j < |views| && views[j].enabled ==> shows(views[j])
    requires channel.Some? ==> ChannelFirst(views, channel.value).None?
    ensures Picked(views, guild, channel) == Some(views[i].id)
  {
    if Closeness(views[i], guild, channel) == Some(1) {
      forall j | 0 <= j < i && views[j].enabled ensures guild.value !in views[j].guilds {
        assert Closeness(views[j], guild, channel) != Some(2);
      }
      OwnerIsFirst(views, guild.value, i);
    } else {
      assert guild.Some? ==> Owner(views, guild.value).None? by {
        if guild.Some? && Owner(views, guild.value).Some? {
          OwnerListed(views, guild.value);
        }
      }
      forall j | 0 <= j < i && views[j].enabled ensures !IsEverything(views[j]) {
      }
      WidestIsFirst(views, i);
    }
  }

  /** No view is taken for a job no enabled view is close to. */
  lemma NoneTaken(views: seq<OldView>, guild: Option<string>, channel: Option<string>)
    requires forall i :: 0 <= i < |views| && views[i].enabled ==> Closeness(views[i], guild, channel).None?
    ensures Picked(views, guild, channel) == None
  {
    if channel.Some? && ChannelFirst(views, channel.value).Some? {
      ChannelListed(views, channel.value);
    }
    if guild.Some? && Owner(views, guild.value).Some? {
      OwnerListed(views, guild.value);
    }
    if Widest(views).Some? {
      WidestListed(views);
    }
  }

  // ---- routing, seen as a map from scopes to the views they are given ----

  type Routes = map<Scope, string>

  /** Scopes whose profile says outright that there is no view. */
  type Mutes = iset<Scope>

  /** The view in force at a scope being routed: its own, else its guild's unless it is mute. */
  ghost function InForce(a: Routes, mutes: Mutes, s: Scope): Option<string> {
    if s in a then Some(a[s])
    else if s in mutes then None
    else if s.Channel? && Guild(s.guild) in a then Some(a[Guild(s.guild)])
    else None
  }

  ghost function RoutedScope(a: Routes, mutes: Mutes, view: string, s: Scope): Routes {
    if InForce(a, mutes, s) == Some(view) || s in a then a else a[s := view]
  }

  ghost function RoutedScopes(a: Routes, mutes: Mutes, view: string, scopes: seq<Scope>): Routes
    decreases |scopes|
  {
    if scopes == [] then a
    else RoutedScope(RoutedScopes(a, mutes, view, scopes[..|scopes| - 1]), mutes, view, scopes[|scopes| - 1])
  }

  /** The scopes a view is routed at: its guilds, then those of its channels whose guild is
      known. */
  function GuildScopes(guilds: seq<string>): seq<Scope> {
    seq(|guilds|, i requires 0 <= i < |guilds| => Guild(guilds[i]))
  }

  function ChannelScopes(channels: seq<string>, guildOf: map<string, string>): seq<Scope>
    decreases |channels|
  {
    if channels == [] then []
    else
      var n := |channels| - 1;
      ChannelScopes(channels[..n], guildOf)
      + if channels[n] in guildOf then [Channel(guildOf[channels[n]], channels[n])] else []
  }

  function ScopesOf(v: OldView, guildOf: map<string, string>): seq<Scope> {
    GuildScopes(v.guilds) + ChannelScopes(v.channels, guildOf)
  }

  ghost function RoutedViews(views: seq<OldView>, guildOf: map<string, string>, mutes: Mutes): Routes
    decreases |views|
  {
    if views == [] then map[]
    else
      var n := |views| - 1;
      var before := RoutedViews(views[..n], guildOf, mutes);
      if views[n].enabled then RoutedScopes(before, mutes, views[n].id, ScopesOf(views[n], guildOf)) else before
  }

  lemma {:induction false} RoutedTogether(a: Routes, mutes: Mutes, view: string, xs: seq<Scope>, ys: seq<Scope>)
    ensures RoutedScopes(a, mutes, view, xs + ys) == RoutedScopes(RoutedScopes(a, mutes, view, xs), mutes, view, ys)
    decreases |ys|
  {
    if ys == [] {
      assert xs + ys == xs;
    } else {
      assert (xs + ys)[..|xs + ys| - 1] == xs + ys[..|ys| - 1];
      RoutedTogether(a, mutes, view, xs, ys[..|ys| - 1]);
    }
  }

  /** Routing a view at its guilds gives it those no view has yet. */
  lemma {:induction false} RoutedGuilds(a: Routes, mutes: Mutes, view: string, guilds: seq<string>, s: Scope)
    ensures var r := RoutedScopes(a, mutes, view, GuildScopes(guilds));
            && (s in a ==> s in r && r[s] == a[s])
            && (s !in a ==> (s in r <==> s.Guild? && s.guild in guilds) && (s in r ==> r[s] == view))
    decreases |guilds|
  {
    if guilds != [] {
      var n := |guilds| - 1;
      assert GuildScopes(guilds)[..n] == GuildScopes(guilds[..n]);
      RoutedGuilds(a, mutes, view, guilds[..n], s);
      RoutedGuilds(a, mutes, view, guilds[..n], Guild(guilds[n]));
      assert guilds == guilds[..n] + [guilds[n]];
    }
  }

  /** Routing a view at its channels then gives it those no view has yet, except where the guild
      is its own already and the channel not mute. */
  lemma {:induction false} RoutedChannels(a: Routes, mutes: Mutes, view: string, channels: seq<string>,
                                          guildOf: map<string, string>, s: Scope)
    ensures var r := RoutedScopes(a, mutes, view, ChannelScopes(channels, guildOf));
            && (s in a ==> s in r && r[s] == a[s])
            && (s !in a ==>
                  && (s in r <==> s.Channel? && s.channel in channels && s.channel in guildOf
                                  && guildOf[s.channel] == s.guild
                                  && (s in mutes || !(Guild(s.guild) in a && a[Guild(s.guild)] == view)))
                  && (s in r ==> r[s] == view))
    decreases |channels|
  {
    if channels != [] {
      var n := |channels| - 1;
      var c := channels[n];
      RoutedChannels(a, mutes, view, channels[..n], guildOf, s);
      assert channels == channels[..n] + [c];
      if c in guildOf {
        var here := Channel(guildOf[c], c);
        RoutedChannels(a, mutes, view, channels[..n], guildOf, here);
        RoutedChannels(a, mutes, view, channels[..n], guildOf, Guild(guildOf[c]));
        var scopes := ChannelScopes(channels, guildOf);
        assert scopes[..|scopes| - 1] == ChannelScopes(channels[..n], guildOf) && scopes[|scopes| - 1] == here;
      } else {
        assert ChannelScopes(channels, guildOf) == ChannelScopes(channels[..n], guildOf);
      }
    }
  }

  /** The view a channel is routed to by itself: the first to list it that is not the one its
      guild is routed to. */
  function ChannelOwner(views: seq<OldView>, guild: string, channel: string): Option<string>
    decreases |views|
  {
    if views == [] then None
    else
      var n := |views| - 1;
      var earlier := ChannelOwner(views[..n], guild, channel);
      if earlier.Some? then earlier
      else if views[n].enabled && channel in views[n].channels && Owner(views, guild) != Some(views[n].id) then
        Some(views[n].id)
      else None
  }

  /** The view a channel is routed to by itself, when it may be mute. A mute channel does not see its
      guild's view, so the first view to list it is given to it. */
  function ChannelGiven(views: seq<OldView>, guild: string, channel: string, mute: bool): Option<string> {
    if mute then ChannelFirst(views, channel) else ChannelOwner(views, guild, channel)
  }

  /** Where routing leaves every guild and every channel. */
  lemma {:induction false} RoutesAre(views: seq<OldView>, guildOf: map<string, string>, mutes: Mutes, guild: string,
                                     channel: string)
    requires DistinctViews(views) && channel in guildOf && guildOf[channel] == guild
    ensures var a := RoutedViews(views, guildOf, mutes);
            && (if Guild(guild) in a then Some(a[Guild(guild)]) else None) == Owner(views, guild)
            && (if Channel(guild, channel) in a then Some(a[Channel(guild, channel)]) else None)
               == ChannelGiven(views, guild, channel, Channel(guild, channel) in mutes)
    decreases |views|
  {
    if views != [] {
      var n := |views| - 1;
      var v := views[n];
      RoutesAre(views[..n], guildOf, mutes, guild, channel);
      if v.enabled {
        var a := RoutedViews(views[..n], guildOf, mutes);
        var g := RoutedScopes(a, mutes, v.id, GuildScopes(v.guilds));
        RoutedTogether(a, mutes, v.id, GuildScopes(v.guilds), ChannelScopes(v.channels, guildOf));
        RoutedGuilds(a, mutes, v.id, v.guilds, Guild(guild));
        RoutedGuilds(a, mutes, v.id, v.guilds, Channel(guild, channel));
        RoutedChannels(g, mutes, v.id, v.channels, guildOf, Guild(guild));
        RoutedChannels(g, mutes, v.id, v.channels, guildOf, Channel(guild, channel));
      }
    }
  }

  /** The guild's route does not depend on which channel is looked at. */
  lemma {:induction false} GuildRoutesAre(views: seq<OldView>, guildOf: map<string, string>, mutes: Mutes, guild: string)
    ensures var a := RoutedViews(views, guildOf, mutes);
            (if Guild(guild) in a then Some(a[Guild(guild)]) else None) == Owner(views, guild)
    decreases |views|
  {
    if views != [] {
      var n := |views| - 1;
      var v := views[n];
      GuildRoutesAre(views[..n], guildOf, mutes, guild);
      if v.enabled {
        var a := RoutedViews(views[..n], guildOf, mutes);
        var g := RoutedScopes(a, mutes, v.id, GuildScopes(v.guilds));
        RoutedTogether(a, mutes, v.id, GuildScopes(v.guilds), ChannelScopes(v.channels, guildOf));
        RoutedGuilds(a, mutes, v.id, v.guilds, Guild(guild));
        RoutedChannels(g, mutes, v.id, v.channels, guildOf, Guild(guild));
      }
    }
  }

  /** The view in force at a guild's channel once every view is routed. */
  function Routed(views: seq<OldView>, guild: string, channel: string): Option<string> {
    if ChannelOwner(views, guild, channel).Some? then ChannelOwner(views, guild, channel)
    else if Owner(views, guild).Some? then Owner(views, guild)
    else Widest(views)
  }

  /** Whether the view a job's channel was shown by also has its guild, while another lists the
      channel too: the channel is then left to the guild, and taken by the other view. */
  predicate Usurped(views: seq<OldView>, guild: string, channel: string) {
    && ChannelFirst(views, channel).Some? && Owner(views, guild) == ChannelFirst(views, channel)
    && exists j :: 0 <= j < |views| && views[j].enabled && channel in views[j].channels
                   && Some(views[j].id) != ChannelFirst(views, channel)
  }

  lemma {:induction false} ChannelOwnerIs(views: seq<OldView>, guild: string, channel: string)
    requires DistinctViews(views)
    ensures ChannelFirst(views, channel).None? ==> ChannelOwner(views, guild, channel).None?
    ensures ChannelFirst(views, channel).Some? && Owner(views, guild) != ChannelFirst(views, channel) ==>
              ChannelOwner(views, guild, channel) == ChannelFirst(views, channel)
    ensures ChannelFirst(views, channel).Some? && Owner(views, guild) == ChannelFirst(views, channel) ==>
              && (ChannelOwner(views, guild, channel).Some? <==> Usurped(views, guild, channel))
              && ChannelOwner(views, guild, channel) != ChannelFirst(views, channel)
    decreases |views|
  {
    if views != [] {
      var n := |views| - 1;
      ChannelOwnerIs(views[..n], guild, channel);
      if Usurped(views[..n], guild, channel) {
        var j :| 0 <= j < n && views[..n][j].enabled && channel in views[..n][j].channels
                 && Some(views[..n][j].id) != ChannelFirst(views[..n], channel);
        assert views[j] == views[..n][j];
        assert Usurped(views, guild, channel);
      }
      OwnerBefore(views, guild);
      if ChannelFirst(views[..n], channel).Some? {
        ChannelListed(views[..n], channel);
      }
      if Usurped(views, guild, channel) && ChannelFirst(views[..n], channel).Some? {
        var j :| 0 <= j < |views| && views[j].enabled && channel in views[j].channels
                 && Some(views[j].id) != ChannelFirst(views, channel);
        if j < n {
          assert views[..n][j] == views[j];
        }
      }
      if Usurped(views, guild, channel) && ChannelFirst(views[..n], channel).None? {
        var j :| 0 <= j < |views| && views[j].enabled && channel in views[j].channels
                 && Some(views[j].id) != ChannelFirst(views, channel);
        ChannelIsFirst(views[..n], channel, j);
      }
    }
  }

  lemma OwnerBefore(views: seq<OldView>, guild: string)
    requires views != [] && DistinctViews(views)
    ensures Owner(views[..|views| - 1], guild).Some? ==>
              && Owner(views, guild) == Owner(views[..|views| - 1], guild)
              && Owner(views, guild) != Some(views[|views| - 1].id)
  {
    var n := |views| - 1;
    if Owner(views[..n], guild).Some? {
      OwnerListed(views[..n], guild);
    }
  }

  /** On the routes alone, no scope being mute, routing means what the pick meant exactly unless the
      channel is usurped. */
  lemma RoutedIsPicked(views: seq<OldView>, guild: string, channel: string)
    requires DistinctViews(views)
    ensures Routed(views, guild, channel) == Picked(views, Some(guild), Some(channel)) <==> !Usurped(views, guild, channel)
  {
    ChannelOwnerIs(views, guild, channel);
  }

  /** It does happen: a view listing a guild and one of its channels, and a later one listing the
      channel as well. Jobs there were shown by the first and are routed to the second. */
  lemma UsurpedExample()
    ensures var views := [OldView("a", true, ["g"], ["c"]), OldView("b", true, [], ["c"])];
            && Usurped(views, "g", "c")
            && Picked(views, Some("g"), Some("c")) == Some("a")
            && Routed(views, "g", "c") == Some("b")
  {
    var first, second := OldView("a", true, ["g"], ["c"]), OldView("b", true, [], ["c"]);
    OneView(first, "g", "c");
    TwoViews(first, second, "g", "c");
    assert [first, second][1] == second;
  }

  lemma OneView(v: OldView, guild: string, channel: string)
    requires v.enabled && guild in v.guilds && channel in v.channels
    ensures Owner([v], guild) == Some(v.id) && ChannelFirst([v], channel) == Some(v.id)
    ensures ChannelOwner([v], guild, channel) == None
  {
    assert [v][..0] == [];
  }

  lemma TwoViews(v: OldView, w: OldView, guild: string, channel: string)
    requires Owner([v], guild) == ChannelFirst([v], channel) == Some(v.id) && ChannelOwner([v], guild, channel) == None
    requires w.enabled && channel in w.channels && w.id != v.id
    ensures Owner([v, w], guild) == ChannelFirst([v, w], channel) == Some(v.id)
    ensures ChannelOwner([v, w], guild, channel) == Some(w.id)
  {
    assert [v, w][..1] == [v];
  }
}
