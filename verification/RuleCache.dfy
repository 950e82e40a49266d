/** Watch rules, and the two maps bots look them up in, refilled on every change of the table. A
    disabled rule for a channel matters too: it exempts the channel from its guild's rule. */
module RuleCache {
  import opened Json
  import opened Text

  datatype Input = Input(channel: Option<string>, enabled: bool)

  datatype Rule = Rule(application: nat, guild: string, input: Input)

  type Table = map<nat, Rule>

  // ---- Discord ids, written as decimal text ----

  const LARGEST: nat := 0xFFFF_FFFF_FFFF_FFFF

  /** A 64-bit number above zero. A plus sign and leading zeros are let through. */
  function ParseId(text: string): (id: Option<nat>)
    ensures id.Some? ==> 0 < id.value <= LARGEST
  {
    var digits := if text != [] && text[0] == '+' then text[1..] else text;
    if digits == [] || !AllDigits(digits) then None
    else
      var n := Decimal(digits);
      if n == 0 || n > LARGEST then None else Some(n)
  }

  predicate Canonical(text: string) {
    ParseId(text).Some? && text[0] != '+' && text[0] != '0'
  }

  lemma {:induction false} NumberLarge(a: string)
    requires AllDigits(a) && a != [] && a[0] != '0'
    ensures Decimal(a) > 0
    decreases |a|
  {
    if |a| > 1 {
      NumberLarge(a[..|a| - 1]);
    }
  }

  lemma {:induction false} NumberOnce(a: string, b: string)
    requires AllDigits(a) && AllDigits(b) && a != [] && b != [] && a[0] != '0' && b[0] != '0'
    requires Decimal(a) == Decimal(b)
    ensures a == b
    decreases |a|
  {
    var m, n := |a| - 1, |b| - 1;
    var x, y := a[m] as int - '0' as int, b[n] as int - '0' as int;
    assert Decimal(a[..m]) == Decimal(b[..n]) && x == y;
    if m > 0 {
      NumberLarge(a[..m]);
    }
    if n > 0 {
      NumberLarge(b[..n]);
    }
    if m > 0 && n > 0 {
      NumberOnce(a[..m], b[..n]);
    }
    assert a == a[..m] + [a[m]] && b == b[..n] + [b[n]];
  }

  /** An id has one canonical text. */
  lemma CanonicalOnce(a: string, b: string)
    requires Canonical(a) && Canonical(b) && ParseId(a) == ParseId(b)
    ensures a == b
  {
    NumberOnce(a, b);
  }

  // ---- the table ----

  /** What a rule is for: a channel under an application, or a whole guild under one. */
  datatype Place = Channel(application: nat, id: nat) | Guild(application: nat, id: nat)

  function PlaceOf(rule: Rule): Option<Place> {
    match rule.input.channel
    case Some(channel) =>
      var id := ParseId(channel);
      if id.Some? then Some(Channel(rule.application, id.value)) else None
    case None =>
      var id := ParseId(rule.guild);
      if id.Some? then Some(Guild(rule.application, id.value)) else None
  }

  /** Some rule of the table, on or as asked, is for this place. */
  ghost predicate Ruled(table: Table, place: Place) {
    exists id :: id in table && PlaceOf(table[id]) == Some(place)
  }

  ghost predicate RuledOn(table: Table, place: Place) {
    exists id :: id in table && PlaceOf(table[id]) == Some(place) && table[id].input.enabled
  }

  /** The channel to watch for a message there, as the table has it. */
  ghost function Governing(table: Table, application: nat, guild: Option<nat>, channel: nat): Option<nat> {
    if Ruled(table, Channel(application, channel)) then
      if RuledOn(table, Channel(application, channel)) then Some(channel) else None
    else if guild.Some? && RuledOn(table, Guild(application, guild.value)) then Some(channel)
    else None
  }

  /** Two rules for one channel, one on and one off. */
  ghost predicate Clash(table: Table, a: nat, b: nat) {
    && a in table && b in table
    && PlaceOf(table[a]).Some? && PlaceOf(table[a]).value.Channel? && PlaceOf(table[a]) == PlaceOf(table[b])
    && table[a].input.enabled && !table[b].input.enabled
  }

  ghost predicate Clear(table: Table) {
    forall a, b :: !Clash(table, a, b)
  }

  // ---- the cache ----

  datatype Cached = Cached(channels: map<(nat, nat), Option<nat>>, guilds: map<(nat, nat), nat>)

  function Lookup(cached: Cached, application: nat, guild: Option<nat>, channel: nat): Option<nat> {
    if (application, channel) in cached.channels then cached.channels[(application, channel)]
    else if guild.Some? && (application, guild.value) in cached.guilds then Some(channel)
    else None
  }

  /** A rule entered in the cache. The channel kept for a whole guild is a placeholder. */
  function Entered(cached: Cached, rule: Rule): Cached {
    match PlaceOf(rule)
    case None => cached
    case Some(Channel(application, id)) =>
      cached.(channels := cached.channels[(application, id) := if rule.input.enabled then Some(id) else None])
    case Some(Guild(application, id)) =>
      if rule.input.enabled then cached.(guilds := cached.guilds[(application, id) := 1]) else cached
  }

  function Filled(table: Table, order: seq<nat>): Cached
    requires forall i :: 0 <= i < |order| ==> order[i] in table
  {
    if order == [] then Cached(map[], map[])
    else Entered(Filled(table, order[..|order| - 1]), table[order[|order| - 1]])
  }

  /** The ids of a table, each once, in some order. */
  ghost predicate Lists(order: seq<nat>, table: Table) {
    && (forall i :: 0 <= i < |order| ==> order[i] in table)
    && (forall i, j :: 0 <= i < j < |order| ==> order[i] != order[j])
    && (forall id :: id in table ==> id in order)
  }

  function Count(cached: Cached): nat {
    |set k | k in cached.channels && cached.channels[k].Some?| + |cached.guilds|
  }

  /** The rules are read in no set order. */
  method ReadRules(table: Table) returns (order: seq<nat>)
    ensures Lists(order, table)
  {
    order := [];
    var pending := table.Keys;
    while pending != {}
      invariant forall id :: id in table <==> id in pending || id in order
      invariant forall id :: id in pending ==> id !in order
      invariant forall i, j :: 0 <= i < j < |order| ==> order[i] != order[j]
    {
      var id :| id in pending;
      order := order + [id];
      pending := pending - {id};
    }
  }

  method Refresh(table: Table) returns (cached: Cached, count: nat, ghost order: seq<nat>)
    ensures Lists(order, table)
    ensures cached == Filled(table, order) && count == Count(cached)
  {
    var rules := ReadRules(table);
    order := rules;
    cached := Cached(map[], map[]);
    for i := 0 to |rules|
      invariant cached == Filled(table, rules[..i])
    {
      var rule := table[rules[i]];
      assert rules[..i + 1][..i] == rules[..i];
      match rule.input.channel {
        case Some(text) =>
          var channel := ParseId(text);
          if channel.None? {
            continue;
          }
          cached := cached.(channels := cached.channels[(rule.application, channel.value) :=
              if rule.input.enabled then channel else None]);
        case None =>
          if rule.input.enabled {
            var guild := ParseId(rule.guild);
            if guild.None? {
              continue;
            }
            cached := cached.(guilds := cached.guilds[(rule.application, guild.value) := 1]);
          }
      }
    }
    assert rules[..|rules|] == rules;
    count := |set k | k in cached.channels && cached.channels[k].Some?| + |cached.guilds|;
  }

  // ---- what the cache holds ----

  ghost predicate RuledBy(table: Table, order: seq<nat>, place: Place, i: nat)
    requires forall i :: 0 <= i < |order| ==> order[i] in table
  {
    i < |order| && PlaceOf(table[order[i]]) == Some(place)
  }

  function Said(rule: Rule, channel: nat): Option<nat> {
    if rule.input.enabled then Some(channel) else None
  }

  lemma RuledEarlier(table: Table, order: seq<nat>, place: Place, i: nat)
    requires (forall j :: 0 <= j < |order| ==> order[j] in table) && i < |order| - 1
    ensures RuledBy(table, order, place, i) <==> RuledBy(table, order[..|order| - 1], place, i)
    ensures order[..|order| - 1][i] == order[i]
  {
  }

  /** Whether the entry at `k` of the cache is owed to rule `i`. */
  ghost predicate EnteredBy(table: Table, order: seq<nat>, k: (nat, nat), i: nat)
    requires forall j :: 0 <= j < |order| ==> order[j] in table
  {
    && RuledBy(table, order, Channel(k.0, k.1), i)
    && k in Filled(table, order).channels
    && Filled(table, order).channels[k] == Said(table[order[i]], k.1)
  }

  lemma LastEntered(table: Table, order: seq<nat>, k: (nat, nat))
    requires (forall i :: 0 <= i < |order| ==> order[i] in table) && order != []
    ensures var n := |order| - 1;
            var before, after := Filled(table, order[..n]).channels, Filled(table, order).channels;
            if PlaceOf(table[order[n]]) == Some(Channel(k.0, k.1)) then EnteredBy(table, order, k, n)
            else (k in after <==> k in before) && (k in before ==> after[k] == before[k])
  {
  }

  /** A channel is in the cache because some rule is for it, and says what such a rule says. */
  lemma {:induction false} ChannelEntry(table: Table, order: seq<nat>, application: nat, channel: nat)
    requires forall i :: 0 <= i < |order| ==> order[i] in table
    ensures var cached, k, place := Filled(table, order), (application, channel), Channel(application, channel);
            && (k in cached.channels <==> exists i: nat :: RuledBy(table, order, place, i))
            && (k in cached.channels ==> exists i: nat :: EnteredBy(table, order, k, i))
    decreases |order|
  {
    if order != [] {
      var n := |order| - 1;
      var k, place := (application, channel), Channel(application, channel);
      ChannelEntry(table, order[..n], application, channel);
      LastEntered(table, order, k);
      if PlaceOf(table[order[n]]) != Some(place) {
        if k in Filled(table, order).channels {
          var i: nat :| EnteredBy(table, order[..n], k, i);
          RuledEarlier(table, order, place, i);
          assert EnteredBy(table, order, k, i);
        }
        forall i: nat | RuledBy(table, order, place, i) ensures k in Filled(table, order).channels {
          RuledEarlier(table, order, place, i);
        }
      }
    }
  }

  /** Whether rule `i` watches a place. */
  ghost predicate OnBy(table: Table, order: seq<nat>, place: Place, i: nat)
    requires forall j :: 0 <= j < |order| ==> order[j] in table
  {
    RuledBy(table, order, place, i) && table[order[i]].input.enabled
  }

  lemma LastGuild(table: Table, order: seq<nat>, application: nat, guild: nat)
    requires (forall i :: 0 <= i < |order| ==> order[i] in table) && order != []
    ensures var n := |order| - 1;
            (application, guild) in Filled(table, order).guilds <==>
            (application, guild) in Filled(table, order[..n]).guilds || OnBy(table, order, Guild(application, guild), n)
  {
  }

  lemma {:induction false} GuildEntry(table: Table, order: seq<nat>, application: nat, guild: nat)
    requires forall i :: 0 <= i < |order| ==> order[i] in table
    ensures (application, guild) in Filled(table, order).guilds <==>
            exists i: nat :: OnBy(table, order, Guild(application, guild), i)
    decreases |order|
  {
    if order != [] {
      var n := |order| - 1;
      var place := Guild(application, guild);
      GuildEntry(table, order[..n], application, guild);
      LastGuild(table, order, application, guild);
      if i: nat :| OnBy(table, order[..n], place, i) {
        RuledEarlier(table, order, place, i);
        assert OnBy(table, order, place, i);
      }
      forall i: nat | OnBy(table, order, place, i) && i < n ensures OnBy(table, order[..n], place, i) {
        RuledEarlier(table, order, place, i);
      }
    }
  }

  ghost predicate Agrees(cached: Cached, table: Table) {
    forall application, guild, channel ::
      Lookup(cached, application, guild, channel) == Governing(table, application, guild, channel)
  }

  lemma ClearAgrees(table: Table, order: seq<nat>)
    requires Lists(order, table) && Clear(table)
    ensures Agrees(Filled(table, order), table)
  {
    var cached := Filled(table, order);
    forall application, guild: Option<nat>, channel
      ensures Lookup(cached, application, guild, channel) == Governing(table, application, guild, channel)
    {
      ChannelAgrees(table, order, application, channel);
      if guild.Some? {
        GuildAgrees(table, order, application, guild.value);
      }
    }
  }

  lemma ChannelAgrees(table: Table, order: seq<nat>, application: nat, channel: nat)
    requires Lists(order, table) && Clear(table)
    ensures var cached, k, place := Filled(table, order), (application, channel), Channel(application, channel);
            && (k in cached.channels <==> Ruled(table, place))
            && (k in cached.channels ==> cached.channels[k] == if RuledOn(table, place) then Some(channel) else None)
  {
    var cached, k, place := Filled(table, order), (application, channel), Channel(application, channel);
    ChannelEntry(table, order, application, channel);
    if Ruled(table, place) {
      var id :| id in table && PlaceOf(table[id]) == Some(place);
      var i: nat :| i < |order| && order[i] == id;
      assert RuledBy(table, order, place, i);
    }
    if k in cached.channels {
      var i: nat :| EnteredBy(table, order, k, i);
      var a := order[i];
      assert Ruled(table, place);
      if RuledOn(table, place) {
        var b :| b in table && PlaceOf(table[b]) == Some(place) && table[b].input.enabled;
        assert !Clash(table, b, a);
      }
    }
  }

  lemma GuildAgrees(table: Table, order: seq<nat>, application: nat, guild: nat)
    requires Lists(order, table)
    ensures (application, guild) in Filled(table, order).guilds <==> RuledOn(table, Guild(application, guild))
  {
    GuildEntry(table, order, application, guild);
    OnSomewhere(table, order, Guild(application, guild));
  }

  /** A listing has a rule on for a place exactly when the table does. */
  lemma OnSomewhere(table: Table, order: seq<nat>, place: Place)
    requires Lists(order, table)
    ensures (exists i: nat :: OnBy(table, order, place, i)) <==> RuledOn(table, place)
  {
    if i: nat :| OnBy(table, order, place, i) {
      assert order[i] in table;
    }
    if RuledOn(table, place) {
      var id :| id in table && PlaceOf(table[id]) == Some(place) && table[id].input.enabled;
      var i: nat :| i < |order| && order[i] == id;
      assert OnBy(table, order, place, i);
    }
  }

  /** Any rule may be the one read last. */
  lemma LastOf(table: Table, last: nat) returns (order: seq<nat>)
    requires last in table
    ensures Lists(order, table) && order != [] && order[|order| - 1] == last
  {
    var others := ListOf(table, table.Keys - {last});
    order := others + [last];
  }

  lemma ListOf(table: Table, ids: set<nat>) returns (order: seq<nat>)
    requires ids <= table.Keys
    ensures forall id :: id in order <==> id in ids
    ensures forall i, j :: 0 <= i < j < |order| ==> order[i] != order[j]
    decreases ids
  {
    order := [];
    if ids != {} {
      var id :| id in ids;
      var others := ListOf(table, ids - {id});
      order := others + [id];
    }
  }

  /** The cache answers as the table does, however its rows are read, exactly when no channel has one
      rule on and another off under one application. */
  lemma CacheAgrees(table: Table)
    ensures (forall order :: Lists(order, table) ==> Agrees(Filled(table, order), table)) <==> Clear(table)
  {
    if Clear(table) {
      forall order | Lists(order, table) ensures Agrees(Filled(table, order), table) {
        ClearAgrees(table, order);
      }
    } else {
      var a, b :| Clash(table, a, b);
      var order := LastOf(table, b);
      var place := PlaceOf(table[a]).value;
      assert Ruled(table, place) && RuledOn(table, place);
      assert Lookup(Filled(table, order), place.application, None, place.id) !=
             Governing(table, place.application, None, place.id);
    }
  }

  // ---- rules kept one to a place ----

  /** Two rules the table does not keep together: it compares the ids as text. */
  predicate Duplicates(a: Rule, b: Rule) {
    && a.application == b.application
    && a.input.channel == b.input.channel
    && (a.input.channel.None? ==> a.guild == b.guild)
  }

  ghost predicate Unique(table: Table) {
    forall a, b :: a in table && b in table && a != b ==> !Duplicates(table[a], table[b])
  }

  /** Every id names something. */
  ghost predicate Checked(table: Table) {
    forall id :: id in table ==> ParseId(table[id].guild).Some? && PlaceOf(table[id]).Some?
  }

  predicate CanonicalIds(rule: Rule) {
    Canonical(rule.guild) && (rule.input.channel.Some? ==> Canonical(rule.input.channel.value))
  }

  ghost predicate AllCanonical(table: Table) {
    forall id :: id in table ==> CanonicalIds(table[id])
  }

  /** With canonical ids a place has one rule, so the cache agrees with the table. */
  lemma CanonicalOneEach(table: Table, a: nat, b: nat)
    requires Unique(table) && AllCanonical(table) && a in table && b in table
    requires PlaceOf(table[a]).Some? && PlaceOf(table[a]) == PlaceOf(table[b])
    ensures a == b
  {
    var x, y := table[a], table[b];
    if x.input.channel.Some? {
      CanonicalOnce(x.input.channel.value, y.input.channel.value);
    } else {
      CanonicalOnce(x.guild, y.guild);
    }
    assert Duplicates(x, y);
  }

  lemma CanonicalClear(table: Table)
    requires Unique(table) && AllCanonical(table)
    ensures Clear(table)
  {
    forall a, b ensures !Clash(table, a, b) {
      if Clash(table, a, b) {
        CanonicalOneEach(table, a, b);
      }
    }
  }

  // ---- counting ----

  lemma {:induction false} SameSize<A, B>(s: set<A>, t: set<B>, f: A -> B)
    requires forall x :: x in s ==> f(x) in t
    requires forall x, y :: x in s && y in s && f(x) == f(y) ==> x == y
    requires forall z :: z in t ==> exists x :: x in s && f(x) == z
    ensures |s| == |t|
    decreases s
  {
    if s == {} {
      assert t == {};
    } else {
      var x :| x in s;
      SameSize(s - {x}, t - {f(x)}, f);
    }
  }

  /** Every place some enabled rule is for. */
  ghost function Watched(table: Table): set<Place> {
    set id | id in table && table[id].input.enabled && PlaceOf(table[id]).Some? :: PlaceOf(table[id]).value
  }

  lemma WatchedIs(table: Table, place: Place)
    ensures place in Watched(table) <==> RuledOn(table, place)
  {
  }

  lemma ChannelsWatched(table: Table, order: seq<nat>)
    requires Lists(order, table) && Clear(table)
    ensures var cached := Filled(table, order);
            |set k | k in cached.channels && cached.channels[k].Some?| == |set p | p in Watched(table) && p.Channel?|
  {
    var cached := Filled(table, order);
    var channels: set<Place> := set p | p in Watched(table) && p.Channel?;
    var on: set<(nat, nat)> := set k | k in cached.channels && cached.channels[k].Some?;
    var place := (k: (nat, nat)) => Channel(k.0, k.1);
    forall k: (nat, nat) ensures k in on <==> place(k) in channels {
      ChannelAgrees(table, order, k.0, k.1);
      WatchedIs(table, place(k));
    }
    forall p | p in channels ensures exists k :: k in on && place(k) == p {
      assert place((p.application, p.id)) == p;
    }
    SameSize(on, channels, place);
  }

  lemma GuildsWatched(table: Table, order: seq<nat>)
    requires Lists(order, table)
    ensures |Filled(table, order).guilds| == |set p | p in Watched(table) && p.Guild?|
  {
    var guilds: set<Place> := set p | p in Watched(table) && p.Guild?;
    var on: set<(nat, nat)> := Filled(table, order).guilds.Keys;
    var place := (k: (nat, nat)) => Guild(k.0, k.1);
    forall k: (nat, nat) ensures k in on <==> place(k) in guilds {
      GuildAgrees(table, order, k.0, k.1);
      WatchedIs(table, place(k));
    }
    forall p | p in guilds ensures exists k :: k in on && place(k) == p {
      assert place((p.application, p.id)) == p;
    }
    SameSize(on, guilds, place);
  }

  /** The count reported is the number of places watched. */
  lemma CountIsWatched(table: Table, order: seq<nat>)
    requires Lists(order, table) && Clear(table)
    ensures Count(Filled(table, order)) == |Watched(table)|
  {
    ChannelsWatched(table, order);
    GuildsWatched(table, order);
    var channels := set p | p in Watched(table) && p.Channel?;
    var guilds := set p | p in Watched(table) && p.Guild?;
    assert Watched(table) == channels + guilds && channels !! guilds;
  }

  /** With canonical ids that is the number of rules on. */
  lemma CanonicalCount(table: Table)
    requires Unique(table) && Checked(table) && AllCanonical(table)
    ensures |Watched(table)| == |On(table)|
  {
    var on := On(table);
    forall a, b | a in on && b in on && PlaceUnder(table, a) == PlaceUnder(table, b) ensures a == b {
      CanonicalOneEach(table, a, b);
    }
    forall p | p in Watched(table) ensures exists id :: id in on && PlaceUnder(table, id) == p {
      WatchedFrom(table, p);
    }
    SameSize(on, Watched(table), id => PlaceUnder(table, id));
  }

  ghost function On(table: Table): set<nat> {
    set id | id in table && table[id].input.enabled
  }

  function PlaceUnder(table: Table, id: nat): Place {
    if id in table && PlaceOf(table[id]).Some? then PlaceOf(table[id]).value else Guild(0, 0)
  }

  lemma WatchedFrom(table: Table, p: Place)
    requires p in Watched(table)
    ensures exists id :: id in table && table[id].input.enabled && PlaceUnder(table, id) == p
  {
    var id :| id in table && PlaceOf(table[id]) == Some(p) && table[id].input.enabled;
    assert PlaceUnder(table, id) == p;
  }

  /** Ids are only told apart as text: a channel written with a leading zero gets a second rule. */
  lemma SecondSpelling()
    ensures var on, off := Rule(1, "5", Input(Some("7"), true)), Rule(1, "5", Input(Some("07"), false));
            var (first, once) := Created(map[], 0, on);
            var (second, twice) := Created(once, 1, off);
            first.Done? && second.Done? && !Clear(twice)
  {
    var on, off := Rule(1, "5", Input(Some("7"), true)), Rule(1, "5", Input(Some("07"), false));
    assert ParseId("5") == Some(5) by {
      assert "5"[..0] == "";
    }
    assert ParseId("7") == Some(7) by {
      assert "7"[..0] == "";
    }
    assert ParseId("07") == Some(7) by {
      assert "07"[..1] == "0" && "0"[..0] == "";
    }
    var (first, once) := Created(map[], 0, on);
    var (second, twice) := Created(once, 1, off);
    assert Clash(twice, 0, 1);
  }

  // ---- keeping rules ----

  datatype Outcome = Done | Invalid | NotFound | Duplicate

  predicate Admissible(input: Input) {
    input.channel.Some? ==> ParseId(input.channel.value).Some?
  }

  predicate TakenBy(table: Table, id: nat, rule: Rule) {
    exists other :: other in table && other != id && Duplicates(table[other], rule)
  }

  function Created(table: Table, id: nat, rule: Rule): (Outcome, Table) {
    if !Admissible(rule.input) || ParseId(rule.guild).None? then (Invalid, table)
    else if TakenBy(table, id, rule) then (Duplicate, table)
    else (Done, table[id := rule])
  }

  function Updated(table: Table, id: nat, input: Input): (Outcome, Table) {
    if !Admissible(input) then (Invalid, table)
    else if id !in table then (NotFound, table)
    else
      var rule := table[id].(input := input);
      if TakenBy(table, id, rule) then (Duplicate, table) else (Done, table[id := rule])
  }

  function Deleted(table: Table, id: nat): (Outcome, Table) {
    if id !in table then (NotFound, table) else (Done, table - {id})
  }

  datatype Step =
    | Create(id: nat, rule: Rule)
    | Update(id: nat, input: Input)
    | Delete(id: nat)

  function After(table: Table, step: Step): (Outcome, Table) {
    match step
    case Create(id, rule) => Created(table, id, rule)
    case Update(id, input) => Updated(table, id, input)
    case Delete(id) => Deleted(table, id)
  }

  /** Rules not kept together are for one place, and where ids are canonical any two rules for one place are. */
  lemma DuplicatesShareAPlace(a: Rule, b: Rule)
    requires PlaceOf(a).Some? && PlaceOf(b).Some?
    ensures Duplicates(a, b) ==> PlaceOf(a) == PlaceOf(b)
    ensures CanonicalIds(a) && CanonicalIds(b) ==> (Duplicates(a, b) <==> PlaceOf(a) == PlaceOf(b))
  {
    if CanonicalIds(a) && CanonicalIds(b) && PlaceOf(a) == PlaceOf(b) {
      if a.input.channel.Some? {
        CanonicalOnce(a.input.channel.value, b.input.channel.value);
      } else {
        CanonicalOnce(a.guild, b.guild);
      }
    }
  }

  /** What each operation comes to: which of the four outcomes, and the rule it leaves. */
  lemma StepExactly(table: Table, step: Step)
    ensures var (outcome, after) := After(table, step);
            match step
            case Create(id, rule) =>
              && (outcome == Invalid <==> ParseId(rule.guild).None? || PlaceOf(rule).None?)
              && outcome != NotFound
              && (outcome == Done <==> ParseId(rule.guild).Some? && PlaceOf(rule).Some? && AloneIn(table, id, rule))
              && (outcome == Done ==> id in after && after[id] == rule)
            case Update(id, input) =>
              && (outcome == Invalid <==> input.channel.Some? && ParseId(input.channel.value).None?)
              && (outcome == NotFound <==> outcome != Invalid && id !in table)
              && (outcome == Done <==>
                    (outcome != Invalid && id in table && AloneIn(table, id, Rule(table[id].application, table[id].guild, input))))
              && (outcome == Done ==> id in after && after[id] == Rule(table[id].application, table[id].guild, input))
            case Delete(id) =>
              && (outcome == Done <==> id in table) && (outcome == NotFound <==> id !in table)
              && id !in after
  {
  }

  ghost predicate AloneIn(table: Table, id: nat, rule: Rule) {
    forall other :: other in table && other != id ==> !Duplicates(table[other], rule)
  }

  lemma EnteredKeeps(table: Table, id: nat, rule: Rule)
    requires Unique(table) && Checked(table) && !TakenBy(table, id, rule)
    requires ParseId(rule.guild).Some? && PlaceOf(rule).Some?
    ensures Unique(table[id := rule]) && Checked(table[id := rule])
  {
    var after := table[id := rule];
    forall a, b | a in after && b in after && a != b ensures !Duplicates(after[a], after[b]) {
      if a == id {
        assert !Duplicates(table[b], rule);
      } else if b == id {
        assert !Duplicates(table[a], rule);
      } else {
        assert !Duplicates(table[a], table[b]);
      }
    }
  }

  /** Every operation keeps the rules apart and their ids real; one that fails changes nothing. */
  lemma StepKeeps(table: Table, step: Step)
    requires Unique(table) && Checked(table)
    requires step.Create? ==> step.id !in table
    ensures var (outcome, after) := After(table, step);
            && Unique(after) && Checked(after)
            && (!outcome.Done? ==> after == table)
            && (forall id :: id != step.id ==> (id in after <==> id in table) && (id in after ==> after[id] == table[id]))
  {
    match step
    case Create(id, rule) =>
      if Created(table, id, rule).0.Done? {
        EnteredKeeps(table, id, rule);
      }
    case Update(id, input) =>
      if Updated(table, id, input).0.Done? {
        EnteredKeeps(table, id, table[id].(input := input));
      }
    case Delete(id) =>
      RemovedKeeps(table, id);
  }

  lemma RemovedKeeps(table: Table, id: nat)
    requires Unique(table) && Checked(table)
    ensures Unique(table - {id}) && Checked(table - {id})
  {
  }

  class RuleStore {
    var table: Table
    var cache: Cached

    /** The cache was filled from the table as it is. */
    ghost predicate Fresh() reads this {
      exists order :: Lists(order, table) && cache == Filled(table, order)
    }

    ghost predicate Valid() reads this {
      Unique(table) && Checked(table) && Fresh()
    }

    constructor ()
      ensures Valid() && table == map[]
    {
      table := map[];
      cache := Cached(map[], map[]);
      new;
      assert Lists([], table) && cache == Filled(table, []);
    }

    /** Fills both maps and returns their count of places. */
    method Load() returns (count: nat)
      modifies this`cache
      ensures Fresh()
      ensures Clear(table) ==> count == |Watched(table)|
    {
      ghost var order;
      cache, count, order := Refresh(table);
      if Clear(table) {
        CountIsWatched(table, order);
      }
    }

    /** The channel to watch for a message there. */
    method Rule(application: nat, guild: Option<nat>, channel: nat) returns (watched: Option<nat>)
      requires Valid()
      ensures Clear(table) ==> watched == Governing(table, application, guild, channel)
      ensures AllCanonical(table) ==> Clear(table)
    {
      watched := Lookup(cache, application, guild, channel);
      if Clear(table) {
        CacheAgrees(table);
      }
      if AllCanonical(table) {
        CanonicalClear(table);
      }
    }

    method Create(newId: nat, rule: Rule) returns (outcome: Outcome)
      requires Valid() && newId !in table
      modifies this
      ensures Valid() && (outcome, table) == After(old(table), Step.Create(newId, rule))
      ensures !outcome.Done? ==> cache == old(cache)
    {
      StepKeeps(table, Step.Create(newId, rule));
      if !Admissible(rule.input) || ParseId(rule.guild).None? {
        return Invalid;
      }
      if TakenBy(table, newId, rule) {
        return Duplicate;
      }
      table := table[newId := rule];
      var count;
      ghost var order;
      cache, count, order := Refresh(table);
      return Done;
    }

    method Update(id: nat, input: Input) returns (outcome: Outcome)
      requires Valid()
      modifies this
      ensures Valid() && (outcome, table) == After(old(table), Step.Update(id, input))
      ensures !outcome.Done? ==> cache == old(cache)
    {
      StepKeeps(table, Step.Update(id, input));
      if !Admissible(input) {
        return Invalid;
      }
      if id !in table {
        return NotFound;
      }
      var rule := table[id].(input := input);
      if TakenBy(table, id, rule) {
        return Duplicate;
      }
      table := table[id := rule];
      var count;
      ghost var order;
      cache, count, order := Refresh(table);
      return Done;
    }

    method Delete(id: nat) returns (outcome: Outcome)
      requires Valid()
      modifies this
      ensures Valid() && (outcome, table) == After(old(table), Step.Delete(id))
      ensures !outcome.Done? ==> cache == old(cache)
    {
      StepKeeps(table, Step.Delete(id));
      if id !in table {
        return NotFound;
      }
      table := table - {id};
      var count;
      ghost var order;
      cache, count, order := Refresh(table);
      return Done;
    }
  }
}
