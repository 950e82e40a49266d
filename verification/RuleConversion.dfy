/** Turning the policies watch rules used to carry into channel profiles: allowed hosts become
    the platforms they belong to, limits are kept, and several rules of one channel add up. */
module RuleConversion {
  import opened Json
  import opened Policy
  import opened Profiles
  import opened Text

  /** The limits a rule kept, as its columns held them. */
  datatype RuleLimits = RuleLimits(maxSourceBytes: Option<int>, maxDuration: Option<int>, maxHeight: Option<int>)

  datatype RulePolicy = RulePolicy(guild: string, channel: string, hosts: seq<string>, limits: RuleLimits)

  function ScopeOf(r: RulePolicy): Scope {
    Channel(r.guild, r.channel)
  }

  // ---- which platforms a host allows ----

  /** A host as rules name it, without the wildcards in front. */
  function Bare(host: string): string {
    if "*." <= host then Bare(host[2..]) else Lower(host)
  }

  /** Whether one host is the other, or under it. */
  predicate SameSite(host: string, h: string) {
    h == host || EndsWith(host, "." + h) || EndsWith(h, "." + host)
  }

  function PlatformsForHost(known: Platforms, host: string): set<string> {
    var bare := Bare(host);
    if bare == "" then {}
    else set p | p in known.hosts && exists h :: h in known.hosts[p] && SameSite(bare, Lower(h))
  }

  /** The platforms one host of a rule allows: those that take it, else the web resolver. */
  function TakersOf(known: Platforms, host: string): set<string> {
    var takers := PlatformsForHost(known, host);
    if takers == {} && "web" in known.baseline then {"web"} else takers
  }

  lemma {:induction false} BareOfLower(host: string)
    ensures Bare(Lower(host)) == Bare(host)
  {
    var lower := Lower(host);
    if |host| >= 2 {
      assert lower[0] == LowerChar(host[0]) && lower[1] == LowerChar(host[1]);
      assert "*." <= lower <==> "*." <= host;
    }
    if "*." <= host {
      BareOfLower(host[2..]);
      assert lower[2..] == Lower(host[2..]);
    } else {
      assert Lower(lower) == lower;
    }
  }

  /** Wildcards in front and the case a host is written in make no difference. */
  lemma HostAsWritten(known: Platforms, host: string, other: string)
    requires Lower(host) == Lower(other)
    ensures TakersOf(known, host) == TakersOf(known, other) == TakersOf(known, "*." + other)
  {
    BareOfLower(host);
    BareOfLower(other);
    assert ("*." + other)[2..] == other;
  }

  /** A platform takes the hosts of the site of one of its own. */
  lemma HostTaken(known: Platforms, p: string, h: string, host: string)
    requires p in known.hosts && h in known.hosts[p]
    requires host != "" && !("*." <= host) && Lower(host) == host && SameSite(host, Lower(h))
    ensures p in TakersOf(known, host)
  {
    assert Bare(host) == host;
    assert p in PlatformsForHost(known, host);
  }

  /** Where the web resolver is known a rule's host always allows something: a platform that takes
      it, or else the web resolver alone. */
  lemma HostsAllowSomething(known: Platforms, host: string)
    requires "web" in known.baseline
    ensures TakersOf(known, host) != {}
    ensures forall p :: p in TakersOf(known, host) ==>
              (p in known.hosts && exists h :: h in known.hosts[p] && SameSite(Bare(host), Lower(h)))
              || TakersOf(known, host) == {"web"}
  {
  }

  ghost predicate Beneath(host: string, h: string) {
    exists front :: host == front + "." + h
  }

  lemma EndsBeneath(host: string, h: string)
    ensures EndsWith(host, "." + h) <==> Beneath(host, h)
  {
    var end := "." + h;
    if EndsWith(host, end) {
      var front := host[..|host| - |end|];
      assert host == front + end == front + "." + h;
    }
    if Beneath(host, h) {
      var front :| host == front + "." + h;
      assert host == front + end;
    }
  }

  /** Two hosts are of one site when they are the same or one lies beneath the other. */
  lemma SiteLabels(a: string, b: string)
    ensures SameSite(a, b) <==> a == b || Beneath(a, b) || Beneath(b, a)
  {
    EndsBeneath(a, b);
    EndsBeneath(b, a);
  }

  predicate Allows(known: Platforms, r: RulePolicy, p: string) {
    exists i :: 0 <= i < |r.hosts| && p in TakersOf(known, r.hosts[i])
  }

  method AllowedBy(known: Platforms, hosts: seq<string>) returns (allowed: set<string>)
    ensures forall p :: p in allowed <==> exists i :: 0 <= i < |hosts| && p in TakersOf(known, hosts[i])
  {
    allowed := {};
    for i := 0 to |hosts|
      invariant forall p :: p in allowed <==> exists j :: 0 <= j < i && p in TakersOf(known, hosts[j])
    {
      allowed := allowed + TakersOf(known, hosts[i]);
    }
  }

  // ---- one rule ----

  /** Whether a profile alone has platform `p` on. */
  predicate OnAlone(known: Platforms, toggles: PlatformToggles, p: string)
    requires p in known.baseline
  {
    Toggled(toggles, known, p, known.baseline[p])
  }

  function Allowance(known: Platforms, r: RulePolicy): set<string> {
    set p | p in AllTakers(known) && Allows(known, r, p)
  }

  function AllTakers(known: Platforms): set<string> {
    known.hosts.Keys + {"web"}
  }

  /** The toggles of the profile a rule becomes: a rule naming no host restricts nothing, one
      naming hosts allows only their platforms, and within a profile already assigned to the
      channel only what that had on. */
  function ConvertedToggles(known: Platforms, r: RulePolicy, before: Option<PlatformToggles>): PlatformToggles {
    if r.hosts == [] then
      if before.Some? then before.value else NO_TOGGLES
    else
      PlatformToggles(Disabled, [],
        if before.None? then map p | p in Allowance(known, r) :: true
        else map p | p in known.baseline :: Allows(known, r, p) && OnAlone(known, before.value, p))
  }

  const LARGEST_HEIGHT: nat := 0xFFFF_FFFF

  function AtLeast(n: int, least: nat): nat {
    if n < least then least else n
  }

  /** A rule's limits as a profile's: sizes at least one, a duration at least zero, a height that
      fits in 32 bits. */
  function LimitsOf(r: RuleLimits): LimitsOverlay {
    LimitsOverlay(
      if r.maxSourceBytes.Some? then Some(AtLeast(r.maxSourceBytes.value, 1)) else None,
      if r.maxDuration.Some? then Some(Some(AtLeast(r.maxDuration.value, 0))) else None,
      if r.maxHeight.Some? then
        Some(if AtLeast(r.maxHeight.value, 1) > LARGEST_HEIGHT then LARGEST_HEIGHT else AtLeast(r.maxHeight.value, 1))
      else None,
      None)
  }

  /** The sections of the profile a rule becomes: its own limits, and where it names none those of
      the profile assigned before. */
  function ConvertedSections(r: RulePolicy, before: Option<Sections>): Sections {
    var own := LimitsOf(r.limits);
    UNNAMED.(limits :=
      if before.None? then own
      else
        var was := before.value.limits;
        LimitsOverlay(
          Or(own.maxSourceBytes, was.maxSourceBytes),
          Or(own.maxDuration, was.maxDuration),
          Or(own.maxHeight, was.maxHeight),
          was.maxCapture))
  }

  /** The profile assigned at the rule's channel, if any. */
  function Before(t: Tables, r: RulePolicy): Option<Layer> {
    LayerAt(t, ScopeOf(r))
  }

  function ConvertedLayer(t: Tables, known: Platforms, r: RulePolicy): Layer {
    var before := Before(t, r);
    Layer(
      ConvertedToggles(known, r, if before.Some? then Some(before.value.toggles) else None),
      None,
      ConvertedSections(r, if before.Some? then Some(before.value.sections) else None))
  }

  function Converted(t: Tables, known: Platforms, r: RulePolicy, newId: ProfileId): Tables {
    Tables(t.profiles[newId := Profile(ConvertedLayer(t, known, r), false)],
           t.assignments[ScopeOf(r) := newId])
  }

  function ConvertedAll(t: Tables, known: Platforms, rules: seq<RulePolicy>, ids: seq<ProfileId>): Tables
    requires |ids| == |rules|
    decreases |rules|
  {
    if rules == [] then t
    else
      var n := |rules| - 1;
      Converted(ConvertedAll(t, known, rules[..n], ids[..n]), known, rules[n], ids[n])
  }

  ghost predicate NewIds(t: Tables, ids: seq<ProfileId>) {
    && (forall i :: 0 <= i < |ids| ==> ids[i] !in t.profiles)
    && (forall i, j :: 0 <= i < j < |ids| ==> ids[i] != ids[j])
  }

  /** The toggles one rule leaves, its hosts looked up one after the other. */
  method Restrict(known: Platforms, r: RulePolicy, before: Option<PlatformToggles>) returns (toggles: PlatformToggles)
    requires known.hosts.Keys <= known.baseline.Keys
    ensures toggles == ConvertedToggles(known, r, before)
  {
    var allowed := AllowedBy(known, r.hosts);
    AllowanceIs(known, r, allowed);
    if r.hosts == [] {
      toggles := if before.Some? then before.value else NO_TOGGLES;
    } else if before.None? {
      toggles := PlatformToggles(Disabled, [], map p | p in allowed :: true);
    } else {
      var alone := Applied(before.value, known, known.baseline);
      toggles := PlatformToggles(Disabled, [], map p | p in known.baseline :: p in allowed && alone[p]);
    }
  }

  /** Converts every staged rule in turn and unstages it. How many profiles were made. */
  method Convert(t: Tables, known: Platforms, staged: seq<RulePolicy>, ids: seq<ProfileId>)
    returns (converted: Tables, left: seq<RulePolicy>, count: nat)
    requires |ids| == |staged| && known.hosts.Keys <= known.baseline.Keys
    ensures converted == ConvertedAll(t, known, staged, ids)
    ensures left == [] && count == |staged|
  {
    converted, left, count := t, staged, 0;
    while left != []
      invariant count <= |staged| && left == staged[count..]
      invariant converted == ConvertedAll(t, known, staged[..count], ids[..count])
      decreases |left|
    {
      var r := left[0];
      var existing := Before(converted, r);
      var toggles := Restrict(known, r, if existing.Some? then Some(existing.value.toggles) else None);
      var sections := ConvertedSections(r, if existing.Some? then Some(existing.value.sections) else None);
      assert Layer(toggles, None, sections) == ConvertedLayer(converted, known, r);
      converted := Tables(converted.profiles[ids[count] := Profile(Layer(toggles, None, sections), false)],
                          converted.assignments[ScopeOf(r) := ids[count]]);
      assert staged[..count + 1][..count] == staged[..count] && ids[..count + 1][..count] == ids[..count];
      count, left := count + 1, left[1..];
    }
    assert staged[..count] == staged && ids[..count] == ids;
  }

  lemma AllowanceIs(known: Platforms, r: RulePolicy, allowed: set<string>)
    requires forall p :: p in allowed <==> exists i :: 0 <= i < |r.hosts| && p in TakersOf(known, r.hosts[i])
    ensures allowed == Allowance(known, r)
    ensures forall p :: p in allowed <==> Allows(known, r, p)
  {
    forall p | Allows(known, r, p) ensures p in AllTakers(known) {
      var i :| 0 <= i < |r.hosts| && p in TakersOf(known, r.hosts[i]);
    }
  }

  /** Two loads in a row: the second gets what the first leaves staged, and changes nothing. */
  method LoadTwice(t: Tables, known: Platforms, staged: seq<RulePolicy>, ids: seq<ProfileId>)
    returns (once: Tables, twice: Tables, again: nat)
    requires |ids| == |staged| && known.hosts.Keys <= known.baseline.Keys
    ensures once == ConvertedAll(t, known, staged, ids)
    ensures twice == once && again == 0
  {
    var left, count;
    once, left, count := Convert(t, known, staged, ids);
    twice, left, again := Convert(once, known, left, []);
  }

  // ---- what the rules of a channel add up to ----

  /** Whether platform `p` is on in the channel before any rule restricts it: as the profile
      assigned there had it; without one, everything, unless the first rule names no host and
      so leaves the platforms as the server has them. */
  ghost predicate Start(t: Tables, known: Platforms, rules: seq<RulePolicy>, s: Scope, p: string)
    requires p in known.baseline
  {
    if LayerAt(t, s).Some? then OnAlone(known, LayerAt(t, s).value.toggles, p)
    else FirstNamesHosts(rules, s) || known.baseline[p]
  }

  ghost predicate FirstNamesHosts(rules: seq<RulePolicy>, s: Scope) {
    exists i: nat :: FirstAt(rules, i, s) && rules[i].hosts != []
  }

  /** Rule `i` is the first of the scope. */
  ghost predicate FirstAt(rules: seq<RulePolicy>, i: nat, s: Scope) {
    i < |rules| && ScopeOf(rules[i]) == s && forall j :: 0 <= j < i ==> ScopeOf(rules[j]) != s
  }

  ghost predicate Mentioned(rules: seq<RulePolicy>, s: Scope) {
    exists i :: 0 <= i < |rules| && ScopeOf(rules[i]) == s
  }

  /** Whether every rule of the scope that names hosts allows `p`. */
  ghost predicate AllAllow(known: Platforms, rules: seq<RulePolicy>, s: Scope, p: string) {
    forall i :: 0 <= i < |rules| && ScopeOf(rules[i]) == s && rules[i].hosts != [] ==> Allows(known, rules[i], p)
  }

  lemma ConvertedOn(known: Platforms, r: RulePolicy, before: Option<PlatformToggles>, p: string)
    requires p in known.baseline && known.hosts.Keys <= known.baseline.Keys
    ensures OnAlone(known, ConvertedToggles(known, r, before), p) <==>
            && (if before.Some? then OnAlone(known, before.value, p) else r.hosts != [] || known.baseline[p])
            && (r.hosts != [] ==> Allows(known, r, p))
  {
    if r.hosts != [] && Allows(known, r, p) {
      var i :| 0 <= i < |r.hosts| && p in TakersOf(known, r.hosts[i]);
      assert p in AllTakers(known);
    }
  }

  lemma MentionedNext(rules: seq<RulePolicy>, s: Scope)
    requires rules != []
    ensures var n := |rules| - 1;
            Mentioned(rules, s) <==> Mentioned(rules[..n], s) || ScopeOf(rules[n]) == s
  {
    var n := |rules| - 1;
    if Mentioned(rules[..n], s) {
      var i :| 0 <= i < n && ScopeOf(rules[..n][i]) == s;
      assert ScopeOf(rules[i]) == s;
    }
    if Mentioned(rules, s) {
      var i :| 0 <= i < |rules| && ScopeOf(rules[i]) == s;
      if i < n {
        assert rules[..n][i] == rules[i];
      }
    }
  }

  lemma FirstAtEarlier(rules: seq<RulePolicy>, i: nat, s: Scope)
    requires i < |rules| - 1
    ensures FirstAt(rules, i, s) <==> FirstAt(rules[..|rules| - 1], i, s)
  {
    var n := |rules| - 1;
    assert forall j :: 0 <= j < n ==> rules[..n][j] == rules[j];
  }

  lemma FirstAtLast(rules: seq<RulePolicy>, s: Scope)
    requires rules != []
    ensures var n := |rules| - 1;
            FirstAt(rules, n, s) <==> !Mentioned(rules[..n], s) && ScopeOf(rules[n]) == s
  {
    var n := |rules| - 1;
    assert forall j :: 0 <= j < n ==> rules[..n][j] == rules[j];
  }

  lemma FirstNamesNext(rules: seq<RulePolicy>, s: Scope)
    requires rules != []
    ensures var n := |rules| - 1;
            FirstNamesHosts(rules, s) <==>
              FirstNamesHosts(rules[..n], s)
              || (!Mentioned(rules[..n], s) && ScopeOf(rules[n]) == s && rules[n].hosts != [])
  {
    var n := |rules| - 1;
    FirstAtLast(rules, s);
    if FirstNamesHosts(rules[..n], s) {
      var i: nat :| FirstAt(rules[..n], i, s) && rules[..n][i].hosts != [];
      FirstAtEarlier(rules, i, s);
    }
    if FirstNamesHosts(rules, s) {
      var i: nat :| FirstAt(rules, i, s) && rules[i].hosts != [];
      if i < n {
        FirstAtEarlier(rules, i, s);
        assert rules[..n][i] == rules[i];
      }
    }
  }

  lemma AllAllowNext(known: Platforms, rules: seq<RulePolicy>, s: Scope, p: string)
    requires rules != []
    ensures var n := |rules| - 1;
            AllAllow(known, rules, s, p) <==>
              AllAllow(known, rules[..n], s, p)
              && (ScopeOf(rules[n]) == s && rules[n].hosts != [] ==> Allows(known, rules[n], p))
  {
    var n := |rules| - 1;
    if AllAllow(known, rules, s, p) {
      forall i | 0 <= i < n && ScopeOf(rules[..n][i]) == s && rules[..n][i].hosts != []
        ensures Allows(known, rules[..n][i], p)
      {
        assert rules[..n][i] == rules[i];
      }
    }
    if AllAllow(known, rules[..n], s, p) {
      forall i | 0 <= i < n && ScopeOf(rules[i]) == s && rules[i].hosts != []
        ensures Allows(known, rules[i], p)
      {
        assert rules[..n][i] == rules[i];
      }
    }
  }

  lemma {:induction false} ConvertedConsistent(t: Tables, known: Platforms, rules: seq<RulePolicy>, ids: seq<ProfileId>)
    requires |ids| == |rules| && NewIds(t, ids) && Consistent(t)
    ensures Consistent(ConvertedAll(t, known, rules, ids))
    ensures forall id :: id in ConvertedAll(t, known, rules, ids).profiles ==> id in t.profiles || id in ids
    ensures forall id :: id in t.profiles ==>
              && id in ConvertedAll(t, known, rules, ids).profiles
              && ConvertedAll(t, known, rules, ids).profiles[id] == t.profiles[id]
    decreases |rules|
  {
    if rules != [] {
      var n := |rules| - 1;
      ConvertedConsistent(t, known, rules[..n], ids[..n]);
      assert ids[n] !in t.profiles && DEFAULT in t.profiles;
    }
  }

  /** Converting a rule changes what is assigned at its own channel and nowhere else. */
  lemma {:induction false} OtherScopes(t: Tables, known: Platforms, rules: seq<RulePolicy>, ids: seq<ProfileId>, s: Scope)
    requires |ids| == |rules| && NewIds(t, ids) && Consistent(t)
    ensures !Mentioned(rules, s) ==> LayerAt(ConvertedAll(t, known, rules, ids), s) == LayerAt(t, s)
    ensures Mentioned(rules, s) ==> LayerAt(ConvertedAll(t, known, rules, ids), s).Some?
    decreases |rules|
  {
    if rules != [] {
      var n := |rules| - 1;
      OneRule(t, known, rules, ids, s);
      OtherScopes(t, known, rules[..n], ids[..n], s);
      MentionedNext(rules, s);
    }
  }

  /** The last rule's step, seen from any scope. */
  lemma OneRule(t: Tables, known: Platforms, rules: seq<RulePolicy>, ids: seq<ProfileId>, s: Scope)
    requires rules != [] && |ids| == |rules| && NewIds(t, ids) && Consistent(t)
    ensures var n := |rules| - 1;
            var before := ConvertedAll(t, known, rules[..n], ids[..n]);
            LayerAt(ConvertedAll(t, known, rules, ids), s) ==
            if ScopeOf(rules[n]) == s then Some(ConvertedLayer(before, known, rules[n])) else LayerAt(before, s)
  {
    var n := |rules| - 1;
    ConvertedConsistent(t, known, rules[..n], ids[..n]);
    assert ids[n] !in ids[..n] && ids[n] !in t.profiles;
    ConvertedSeen(ConvertedAll(t, known, rules[..n], ids[..n]), known, rules[n], ids[n], s);
  }

  lemma ConvertedSeen(t: Tables, known: Platforms, r: RulePolicy, newId: ProfileId, s: Scope)
    requires newId !in t.profiles && Consistent(t)
    ensures LayerAt(Converted(t, known, r, newId), s) ==
            if ScopeOf(r) == s then Some(ConvertedLayer(t, known, r)) else LayerAt(t, s)
  {
  }

  /** After every staged rule is converted, in any number and order: a platform is on in a
      channel's profile exactly when it was on to start with and every rule of the channel that
      names hosts allows it. */
  lemma {:induction false} RulesIntersect(t: Tables, known: Platforms, rules: seq<RulePolicy>, ids: seq<ProfileId>,
                                          s: Scope, p: string)
    requires |ids| == |rules| && NewIds(t, ids) && Consistent(t)
    requires known.hosts.Keys <= known.baseline.Keys && p in known.baseline
    requires Mentioned(rules, s)
    ensures LayerAt(ConvertedAll(t, known, rules, ids), s).Some?
    ensures OnAlone(known, LayerAt(ConvertedAll(t, known, rules, ids), s).value.toggles, p)
            <==> Start(t, known, rules, s, p) && AllAllow(known, rules, s, p)
    decreases |rules|
  {
    var n := |rules| - 1;
    OneRule(t, known, rules, ids, s);
    OtherScopes(t, known, rules[..n], ids[..n], s);
    MentionedNext(rules, s);
    FirstNamesNext(rules, s);
    AllAllowNext(known, rules, s, p);
    if Mentioned(rules[..n], s) {
      RulesIntersect(t, known, rules[..n], ids[..n], s, p);
    } else {
      NothingAsked(known, rules[..n], s, p);
    }
    if ScopeOf(rules[n]) == s {
      var before := Before(ConvertedAll(t, known, rules[..n], ids[..n]), rules[n]);
      ConvertedOn(known, rules[n], if before.Some? then Some(before.value.toggles) else None, p);
    }
  }

  lemma NothingAsked(known: Platforms, rules: seq<RulePolicy>, s: Scope, p: string)
    requires !Mentioned(rules, s)
    ensures AllAllow(known, rules, s, p) && !FirstNamesHosts(rules, s)
  {
  }

  /** For a platform on by default the order of the rules does not matter: it is on exactly when
      every rule naming hosts allows it and the profile assigned before, if any, had it on. */
  lemma DefaultPlatforms(t: Tables, known: Platforms, rules: seq<RulePolicy>, ids: seq<ProfileId>, s: Scope, p: string)
    requires |ids| == |rules| && NewIds(t, ids) && Consistent(t)
    requires known.hosts.Keys <= known.baseline.Keys && p in known.baseline && known.baseline[p]
    requires Mentioned(rules, s)
    ensures LayerAt(ConvertedAll(t, known, rules, ids), s).Some?
    ensures OnAlone(known, LayerAt(ConvertedAll(t, known, rules, ids), s).value.toggles, p)
            <==> && (LayerAt(t, s).Some? ==> OnAlone(known, LayerAt(t, s).value.toggles, p))
                 && AllAllow(known, rules, s, p)
  {
    RulesIntersect(t, known, rules, ids, s, p);
  }

  // ---- what is in force in the channel ----

  /** Whether some rule of the scope names hosts. */
  ghost predicate NamesHosts(rules: seq<RulePolicy>, s: Scope) {
    exists i :: 0 <= i < |rules| && ScopeOf(rules[i]) == s && rules[i].hosts != []
  }

  lemma NamesHostsNext(rules: seq<RulePolicy>, s: Scope)
    requires rules != []
    ensures var n := |rules| - 1;
            NamesHosts(rules, s) <==> NamesHosts(rules[..n], s) || (ScopeOf(rules[n]) == s && rules[n].hosts != [])
  {
    var n := |rules| - 1;
    if NamesHosts(rules[..n], s) {
      var i :| 0 <= i < n && ScopeOf(rules[..n][i]) == s && rules[..n][i].hosts != [];
      assert rules[i] == rules[..n][i];
    }
    if NamesHosts(rules, s) {
      var i :| 0 <= i < |rules| && ScopeOf(rules[i]) == s && rules[i].hosts != [];
      if i < n {
        assert rules[..n][i] == rules[i];
      }
    }
  }

  /** Rules naming hosts settle every platform, whatever is in force around the channel; others leave
      the toggles as they are. */
  lemma {:induction false} TogglesAfter(t: Tables, known: Platforms, rules: seq<RulePolicy>, ids: seq<ProfileId>, s: Scope)
    requires |ids| == |rules| && NewIds(t, ids) && Consistent(t)
    ensures var now := TogglesAt(ConvertedAll(t, known, rules, ids), s);
            if NamesHosts(rules, s) then now.def == Disabled && now.presets == [] else now == TogglesAt(t, s)
    decreases |rules|
  {
    if rules != [] {
      var n := |rules| - 1;
      TogglesAfter(t, known, rules[..n], ids[..n], s);
      OneRule(t, known, rules, ids, s);
      NamesHostsNext(rules, s);
    }
  }

  /** Whether a platform is on along `scopes`. */
  predicate OnAlong(t: Tables, base: Effective, known: Platforms, scopes: seq<Scope>, p: string) {
    var platforms := EffectiveFor(t, base, known, scopes).platforms;
    p in platforms && platforms[p]
  }

  lemma {:induction false} PlatformsKept(t: Tables, base: Effective, known: Platforms, scopes: seq<Scope>)
    ensures EffectiveFor(t, base, known, scopes).platforms.Keys == base.platforms.Keys
    decreases |scopes|
  {
    if scopes == [] {
      BuiltinLaid(t, base, known);
    } else {
      var n := |scopes| - 1;
      PlatformsKept(t, base, known, scopes[..n]);
      ScopeLaid(t, base, known, scopes[..n], scopes[n]);
      assert scopes[..n] + [scopes[n]] == scopes;
    }
  }

  /** At one scope more the profile there decides over what is on around it. */
  lemma OnOneMore(t: Tables, base: Effective, known: Platforms, around: seq<Scope>, here: Scope, p: string)
    requires p in base.platforms
    ensures OnAlong(t, base, known, around + [here], p) <==>
            Toggled(TogglesAt(t, here), known, p, OnAlong(t, base, known, around, p))
  {
    PlatformsKept(t, base, known, around);
    ScopeLaid(t, base, known, around, here);
  }

  lemma OnInChannel(t: Tables, base: Effective, known: Platforms, guild: string, channel: string, p: string)
    requires p in base.platforms
    ensures OnAlong(t, base, known, Chain(Some(guild), Some(channel), None), p) <==>
            Toggled(TogglesAt(t, Channel(guild, channel)), known, p,
                    OnAlong(t, base, known, Chain(Some(guild), None, None), p))
  {
    assert Chain(Some(guild), Some(channel), None) == Chain(Some(guild), None, None) + [Channel(guild, channel)];
    OnOneMore(t, base, known, Chain(Some(guild), None, None), Channel(guild, channel), p);
  }

  /** Converting rules changes nothing around channels. */
  lemma AroundStays(t: Tables, base: Effective, known: Platforms, rules: seq<RulePolicy>, ids: seq<ProfileId>, guild: string)
    requires |ids| == |rules| && NewIds(t, ids) && Consistent(t)
    ensures EffectiveFor(ConvertedAll(t, known, rules, ids), base, known, Chain(Some(guild), None, None))
         == EffectiveFor(t, base, known, Chain(Some(guild), None, None))
  {
    var around := Chain(Some(guild), None, None);
    ConvertedConsistent(t, known, rules, ids);
    forall s | s in around ensures LayerAt(t, s) == LayerAt(ConvertedAll(t, known, rules, ids), s) {
      assert !Mentioned(rules, s);
      OtherScopes(t, known, rules, ids, s);
    }
    SameLayers(t, ConvertedAll(t, known, rules, ids), around);
  }

  /** What is in force in a channel after its rules are converted: where one of them names hosts, what
      the channel had to start with and they all allow, whatever is in force around it; otherwise
      what was in force. */
  lemma InForceConverted(t: Tables, base: Effective, known: Platforms, rules: seq<RulePolicy>, ids: seq<ProfileId>,
                         guild: string, channel: string, p: string)
    requires |ids| == |rules| && NewIds(t, ids) && Consistent(t)
    requires known.hosts.Keys <= known.baseline.Keys && p in known.baseline && p in base.platforms
    ensures var s, chain := Channel(guild, channel), Chain(Some(guild), Some(channel), None);
            OnAlong(ConvertedAll(t, known, rules, ids), base, known, chain, p) <==>
            if NamesHosts(rules, s) then Start(t, known, rules, s, p) && AllAllow(known, rules, s, p)
            else OnAlong(t, base, known, chain, p)
  {
    var s, after := Channel(guild, channel), ConvertedAll(t, known, rules, ids);
    TogglesAfter(t, known, rules, ids, s);
    AroundStays(t, base, known, rules, ids, guild);
    OnInChannel(t, base, known, guild, channel, p);
    OnInChannel(after, base, known, guild, channel, p);
    if NamesHosts(rules, s) {
      var i :| 0 <= i < |rules| && ScopeOf(rules[i]) == s && rules[i].hosts != [];
      assert Mentioned(rules, s);
      RulesIntersect(t, known, rules, ids, s, p);
    }
  }

  /** Where the start of the intersection is not what was in force: the channel's profile leaves the
      platform to what is around, or there is none, and that is not the platform's default, or
      not everything. */
  ghost predicate Shifted(t: Tables, base: Effective, known: Platforms, rules: seq<RulePolicy>, guild: string,
                          channel: string, p: string)
    requires p in known.baseline
  {
    var s := Channel(guild, channel);
    && NamesHosts(rules, s) && AllAllow(known, rules, s, p)
    && (Start(t, known, rules, s, p) <==> !OnAlong(t, base, known, Chain(Some(guild), Some(channel), None), p))
  }

  /** The conversion means what the rules meant, a platform being in force in the channel afterwards if
      it was before and every rule naming hosts allows it, exactly unless it is shifted. Then the
      platform is on afterwards although it was off, or off although it was on and allowed. */
  lemma RulesPreserved(t: Tables, base: Effective, known: Platforms, rules: seq<RulePolicy>, ids: seq<ProfileId>,
                       guild: string, channel: string, p: string)
    requires |ids| == |rules| && NewIds(t, ids) && Consistent(t)
    requires known.hosts.Keys <= known.baseline.Keys && p in known.baseline && p in base.platforms
    ensures var chain := Chain(Some(guild), Some(channel), None);
            (OnAlong(ConvertedAll(t, known, rules, ids), base, known, chain, p) <==>
               OnAlong(t, base, known, chain, p) && AllAllow(known, rules, Channel(guild, channel), p))
            <==> !Shifted(t, base, known, rules, guild, channel, p)
  {
    var s := Channel(guild, channel);
    InForceConverted(t, base, known, rules, ids, guild, channel, p);
    if !NamesHosts(rules, s) {
      assert AllAllow(known, rules, s, p);
    }
  }

  /** The server's profile and the built-in one, whatever their sections say: one guild has "x" off. */
  function OffInGuild(builtin: Sections, guild: Sections): Tables {
    Tables(map[DEFAULT := Profile(Layer(NO_TOGGLES, None, builtin), true),
               2 := Profile(Layer(PlatformToggles(Inherit, [], map["x" := false]), None, guild), false)],
           map[Global := DEFAULT, Guild("g") := 2])
  }

  const ONE_PLATFORM := Platforms(map["x" := true], map[], map["x" := {"x"}])
  const ALLOWS_X := RulePolicy("g", "c", ["x"], RuleLimits(None, None, None))

  /** It happens: a server has a platform off, and a rule that allows the platform's host turns it on in
      its channel. */
  lemma RuleTurnsOn(base: Effective, builtin: Sections, guild: Sections)
    requires base.platforms == map["x" := true]
    ensures var t, chain := OffInGuild(builtin, guild), Chain(Some("g"), Some("c"), None);
            && Shifted(t, base, ONE_PLATFORM, [ALLOWS_X], "g", "c", "x")
            && !OnAlong(t, base, ONE_PLATFORM, chain, "x")
            && OnAlong(ConvertedAll(t, ONE_PLATFORM, [ALLOWS_X], [3]), base, ONE_PLATFORM, chain, "x")
  {
    var t := OffInGuild(builtin, guild);
    OneRuleAlone(t);
    GuildSwitches(t, base, ONE_PLATFORM, "g", "x");
    NothingInChannel(t, base, ONE_PLATFORM, "g", "c", "x");
    InForceConverted(t, base, ONE_PLATFORM, [ALLOWS_X], [3], "g", "c", "x");
  }

  lemma HostAllows()
    ensures Allows(ONE_PLATFORM, ALLOWS_X, "x")
  {
    assert Lower("x")[0] == 'x';
    assert Bare("x") == Lower("x") == "x";
    assert SameSite("x", "x") && "x" in ONE_PLATFORM.hosts["x"];
    assert "x" in PlatformsForHost(ONE_PLATFORM, "x");
    assert ALLOWS_X.hosts[0] == "x";
  }

  lemma OneRuleAlone(t: Tables)
    requires Channel("g", "c") !in t.assignments
    ensures var s := Channel("g", "c");
            && NamesHosts([ALLOWS_X], s) && Start(t, ONE_PLATFORM, [ALLOWS_X], s, "x")
            && AllAllow(ONE_PLATFORM, [ALLOWS_X], s, "x")
  {
    HostAllows();
    assert [ALLOWS_X][0] == ALLOWS_X;
    assert FirstAt([ALLOWS_X], 0, Channel("g", "c"));
  }

  lemma NothingInChannel(t: Tables, base: Effective, known: Platforms, guild: string, channel: string, p: string)
    requires p in base.platforms && Channel(guild, channel) !in t.assignments
    ensures OnAlong(t, base, known, Chain(Some(guild), Some(channel), None), p) <==>
            OnAlong(t, base, known, Chain(Some(guild), None, None), p)
  {
    OnInChannel(t, base, known, guild, channel, p);
  }

  lemma GuildSwitches(t: Tables, base: Effective, known: Platforms, guild: string, p: string)
    requires p in base.platforms && LayerAt(t, Guild(guild)).Some? && p in LayerAt(t, Guild(guild)).value.toggles.overrides
    ensures OnAlong(t, base, known, Chain(Some(guild), None, None), p) <==>
            LayerAt(t, Guild(guild)).value.toggles.overrides[p]
  {
    assert Chain(Some(guild), None, None) == [Global] + [Guild(guild)];
    OnOneMore(t, base, known, [Global], Guild(guild), p);
  }

  // ---- limits ----

  /** What a rule says about a limit, as a profile would. */
  function LimitNamed(r: RulePolicy, l: Leaf): Option<Setting> {
    if SectionOf(l) == Limits then LimitsLeaf(LimitsOf(r.limits), l) else None
  }

  /** Rule `i` is the last of the scope's to name the limit `l`. */
  ghost predicate NamesLast(rules: seq<RulePolicy>, i: int, s: Scope, l: Leaf) {
    LastAsking(rules, i, s, r => LimitNamed(r, l))
  }

  ghost predicate LimitUnnamed(rules: seq<RulePolicy>, s: Scope, l: Leaf) {
    NoneAsking(rules, s, r => LimitNamed(r, l))
  }

  /** Rule `i` is the last of the scope's to ask for something. */
  ghost predicate LastAsking(rules: seq<RulePolicy>, i: int, s: Scope, asked: RulePolicy -> Option<Setting>) {
    && 0 <= i < |rules| && ScopeOf(rules[i]) == s && asked(rules[i]).Some?
    && forall j :: i < j < |rules| && ScopeOf(rules[j]) == s ==> asked(rules[j]).None?
  }

  ghost predicate NoneAsking(rules: seq<RulePolicy>, s: Scope, asked: RulePolicy -> Option<Setting>) {
    forall i :: 0 <= i < |rules| && ScopeOf(rules[i]) == s ==> asked(rules[i]).None?
  }

  function Named(layer: Option<Layer>, l: Leaf): Option<Setting> {
    if layer.Some? then LeafOf(layer.value.sections, l) else None
  }

  lemma LimitAfter(t: Tables, known: Platforms, r: RulePolicy, l: Leaf)
    ensures Named(Some(ConvertedLayer(t, known, r)), l) ==
            if SectionOf(l) != Limits then None
            else if LimitNamed(r, l).Some? then LimitNamed(r, l)
            else Named(Before(t, r), l)
  {
    NothingUnnamed(l);
  }

  lemma NoneAskingNext(rules: seq<RulePolicy>, s: Scope, asked: RulePolicy -> Option<Setting>)
    requires rules != [] && NoneAsking(rules, s, asked)
    ensures NoneAsking(rules[..|rules| - 1], s, asked)
  {
    var n := |rules| - 1;
    forall i | 0 <= i < n && ScopeOf(rules[..n][i]) == s ensures asked(rules[..n][i]).None? {
      assert rules[..n][i] == rules[i];
    }
  }

  lemma LastAskingNext(rules: seq<RulePolicy>, i: int, s: Scope, asked: RulePolicy -> Option<Setting>)
    requires LastAsking(rules, i, s, asked) && i < |rules| - 1
    ensures LastAsking(rules[..|rules| - 1], i, s, asked) && rules[..|rules| - 1][i] == rules[i]
  {
    var n := |rules| - 1;
    assert rules[..n][i] == rules[i];
    forall j | i < j < n && ScopeOf(rules[..n][j]) == s ensures asked(rules[..n][j]).None? {
      assert rules[..n][j] == rules[j];
    }
  }

  /** Something a profile may say, by how a layer says it and how a rule asks for it. */
  datatype Matter = Matter(said: Layer -> Option<Setting>, asked: RulePolicy -> Option<Setting>)

  function SaidOf(layer: Option<Layer>, matter: Matter): Option<Setting> {
    if layer.Some? then matter.said(layer.value) else None
  }

  /** A converted profile says what its rule asks for, else what the one before said. */
  ghost predicate Passed(matter: Matter) {
    forall t, known, r :: matter.said(ConvertedLayer(t, known, r)) == Or(matter.asked(r), SaidOf(Before(t, r), matter))
  }

  function LimitMatter(l: Leaf): Matter {
    Matter((layer: Layer) => LeafOf(layer.sections, l), r => LimitNamed(r, l))
  }

  lemma LimitsPassed(l: Leaf)
    requires SectionOf(l) == Limits
    ensures Passed(LimitMatter(l))
  {
    forall t, known, r
      ensures LeafOf(ConvertedLayer(t, known, r).sections, l) == Or(LimitNamed(r, l), Named(Before(t, r), l))
    {
      LimitAfter(t, known, r, l);
    }
  }

  lemma {:induction false} MatterCarried(t: Tables, known: Platforms, rules: seq<RulePolicy>, ids: seq<ProfileId>,
                                         s: Scope, matter: Matter, i: int)
    requires |ids| == |rules| && NewIds(t, ids) && Consistent(t) && Passed(matter) && LastAsking(rules, i, s, matter.asked)
    ensures SaidOf(LayerAt(ConvertedAll(t, known, rules, ids), s), matter) == matter.asked(rules[i])
    decreases |rules|
  {
    OneRule(t, known, rules, ids, s);
    var n := |rules| - 1;
    if i < n {
      LastAskingNext(rules, i, s, matter.asked);
      MatterCarried(t, known, rules[..n], ids[..n], s, matter, i);
    }
  }

  lemma {:induction false} MatterLeft(t: Tables, known: Platforms, rules: seq<RulePolicy>, ids: seq<ProfileId>,
                                      s: Scope, matter: Matter)
    requires |ids| == |rules| && NewIds(t, ids) && Consistent(t) && Passed(matter) && NoneAsking(rules, s, matter.asked)
    ensures SaidOf(LayerAt(ConvertedAll(t, known, rules, ids), s), matter) == SaidOf(LayerAt(t, s), matter)
    decreases |rules|
  {
    if rules != [] {
      var n := |rules| - 1;
      OneRule(t, known, rules, ids, s);
      NoneAskingNext(rules, s, matter.asked);
      MatterLeft(t, known, rules[..n], ids[..n], s, matter);
    }
  }

  /** What the last rule does to a leaf of the channel's profile. */
  lemma LeafNext(t: Tables, known: Platforms, rules: seq<RulePolicy>, ids: seq<ProfileId>, s: Scope, l: Leaf)
    requires rules != [] && |ids| == |rules| && NewIds(t, ids) && Consistent(t)
    ensures var n := |rules| - 1;
            Named(LayerAt(ConvertedAll(t, known, rules, ids), s), l) ==
            var before := Named(LayerAt(ConvertedAll(t, known, rules[..n], ids[..n]), s), l);
            if ScopeOf(rules[n]) != s then before
            else if SectionOf(l) != Limits then None
            else if LimitNamed(rules[n], l).Some? then LimitNamed(rules[n], l)
            else before
  {
    var n := |rules| - 1;
    OneRule(t, known, rules, ids, s);
    LimitAfter(ConvertedAll(t, known, rules[..n], ids[..n]), known, rules[n], l);
  }

  /** A limit of the channel's profile is what the last rule to name it says. */
  lemma LimitsCarried(t: Tables, known: Platforms, rules: seq<RulePolicy>, ids: seq<ProfileId>, s: Scope, l: Leaf, i: int)
    requires |ids| == |rules| && NewIds(t, ids) && Consistent(t)
    requires SectionOf(l) == Limits && NamesLast(rules, i, s, l)
    ensures Named(LayerAt(ConvertedAll(t, known, rules, ids), s), l) == LimitNamed(rules[i], l)
  {
    var matter := LimitMatter(l);
    LimitsPassed(l);
    assert LastAsking(rules, i, s, matter.asked);
    MatterCarried(t, known, rules, ids, s, matter, i);
  }

  /** A limit no rule names is the one the profile assigned before named. */
  lemma LimitsLeft(t: Tables, known: Platforms, rules: seq<RulePolicy>, ids: seq<ProfileId>, s: Scope, l: Leaf)
    requires |ids| == |rules| && NewIds(t, ids) && Consistent(t)
    requires SectionOf(l) == Limits && LimitUnnamed(rules, s, l)
    ensures Named(LayerAt(ConvertedAll(t, known, rules, ids), s), l) == Named(LayerAt(t, s), l)
  {
    var matter := LimitMatter(l);
    LimitsPassed(l);
    assert NoneAsking(rules, s, matter.asked);
    MatterLeft(t, known, rules, ids, s, matter);
  }

  /** The last rule of the scope to set something. */
  ghost predicate LastSetting(rules: seq<RulePolicy>, i: int, s: Scope, asked: RuleLimits -> Option<int>) {
    && 0 <= i < |rules| && ScopeOf(rules[i]) == s && asked(rules[i].limits).Some?
    && forall j :: i < j < |rules| && ScopeOf(rules[j]) == s ==> asked(rules[j].limits).None?
  }

  /** In the rule's own numbers: the largest source and the height are what the last rule setting them
      says, at least one, the height no more than 32 bits hold; the duration is at least zero. */
  lemma LimitsInNumbers(t: Tables, known: Platforms, rules: seq<RulePolicy>, ids: seq<ProfileId>, s: Scope, i: int)
    requires |ids| == |rules| && NewIds(t, ids) && Consistent(t) && Mentioned(rules, s)
    ensures LayerAt(ConvertedAll(t, known, rules, ids), s).Some?
    ensures var limits := LayerAt(ConvertedAll(t, known, rules, ids), s).value.sections.limits;
            && (LastSetting(rules, i, s, (r: RuleLimits) => r.maxSourceBytes) ==>
                  var n := rules[i].limits.maxSourceBytes.value;
                  limits.maxSourceBytes.Some? && (n >= 1 ==> limits.maxSourceBytes.value == n) && (n < 1 ==> limits.maxSourceBytes.value == 1))
            && (LastSetting(rules, i, s, (r: RuleLimits) => r.maxDuration) ==>
                  var n := rules[i].limits.maxDuration.value;
                  limits.maxDuration.Some? && limits.maxDuration.value.Some?
                  && (n >= 0 ==> limits.maxDuration.value.value == n) && (n < 0 ==> limits.maxDuration.value.value == 0))
            && (LastSetting(rules, i, s, (r: RuleLimits) => r.maxHeight) ==>
                  var n := rules[i].limits.maxHeight.value;
                  limits.maxHeight.Some? && (1 <= n < 0x1_0000_0000 ==> limits.maxHeight.value == n)
                  && (n < 1 ==> limits.maxHeight.value == 1)
                  && (n >= 0x1_0000_0000 ==> limits.maxHeight.value == 0xFFFF_FFFF))
  {
    OtherScopes(t, known, rules, ids, s);
    if LastSetting(rules, i, s, (r: RuleLimits) => r.maxSourceBytes) {
      LimitsCarried(t, known, rules, ids, s, MaxSourceBytes, i);
    }
    if LastSetting(rules, i, s, (r: RuleLimits) => r.maxDuration) {
      LimitsCarried(t, known, rules, ids, s, MaxDuration, i);
    }
    if LastSetting(rules, i, s, (r: RuleLimits) => r.maxHeight) {
      LimitsCarried(t, known, rules, ids, s, MaxHeight, i);
    }
  }

  /** Nothing but limits and toggles is carried over from the profile assigned before: no other leaf,
      and not the language. */
  lemma {:induction false} OnlyLimits(t: Tables, known: Platforms, rules: seq<RulePolicy>, ids: seq<ProfileId>,
                                      s: Scope, l: Leaf)
    requires |ids| == |rules| && NewIds(t, ids) && Consistent(t)
    requires SectionOf(l) != Limits && Mentioned(rules, s)
    ensures Named(LayerAt(ConvertedAll(t, known, rules, ids), s), l).None?
    ensures LayerAt(ConvertedAll(t, known, rules, ids), s).Some?
    ensures LayerAt(ConvertedAll(t, known, rules, ids), s).value.language.None?
    decreases |rules|
  {
    var n := |rules| - 1;
    LeafNext(t, known, rules, ids, s, l);
    OneRule(t, known, rules, ids, s);
    MentionedNext(rules, s);
    if Mentioned(rules[..n], s) {
      OnlyLimits(t, known, rules[..n], ids[..n], s, l);
    }
  }

  /** A channel's profile with a language and some sections. */
  function Assigned(builtin: Sections, sections: Sections, language: string): Tables {
    Tables(map[DEFAULT := Profile(Layer(NO_TOGGLES, None, builtin), true),
               2 := Profile(Layer(NO_TOGGLES, Some(language), sections), false)],
           map[Global := DEFAULT, Channel("g", "c") := 2])
  }

  const NAMES_NOTHING := RulePolicy("g", "c", [], RuleLimits(None, None, None))

  /** It happens: a rule that asks for nothing makes a channel's profile lose its language and a leaf as
      the debugging option. */
  lemma DropsOptions(known: Platforms, builtin: Sections, sections: Sections, language: string)
    requires sections.errors.debug == Some(true)
    ensures var after := LayerAt(ConvertedAll(Assigned(builtin, sections, language), known, [NAMES_NOTHING], [3]), Channel("g", "c"));
            after.Some? && Named(after, Debug) == None && after.value.language == None
  {
    var t := Assigned(builtin, sections, language);
    assert [NAMES_NOTHING][0] == NAMES_NOTHING;
    OnlyLimits(t, known, [NAMES_NOTHING], [3], Channel("g", "c"), Debug);
  }
}
