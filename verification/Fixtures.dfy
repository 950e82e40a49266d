/** The links platforms are checked with: seeded, added, learned from jobs, switched off by the
    runs that find them dead, and removed for good when they shipped with the server. */
module Fixtures {
  import opened Json
  import opened Sets

  datatype Origin = Builtin | Custom | Job

  datatype Key = Key(platform: string, url: string)

  datatype Link = Link(key: Key, origin: Origin, enabled: bool, removed: bool)

  type Id = nat

  /** Ids grow with time, so they order links by when they were added. `passes` is when a link
      last resolved. */
  datatype Store = Store(links: map<Id, Link>, passes: map<Key, int>, next: Id)

  const LEARNED_LINKS: nat := 3

  predicate Live(s: Store, id: Id) {
    id in s.links && !s.links[id].removed
  }

  /** Whether the platform has the link already, removed or not. */
  predicate Taken(s: Store, key: Key) {
    exists id :: id in s.links && s.links[id].key == key
  }

  predicate InUse(s: Store, platform: string, id: Id) {
    Live(s, id) && s.links[id].enabled && s.links[id].key.platform == platform
  }

  predicate HasLinkInUse(s: Store, platform: string) {
    exists id :: id in s.links && InUse(s, platform, id)
  }

  function Learned(s: Store, platform: string): set<Id> {
    set id | id in s.links && s.links[id].origin == Job && s.links[id].key.platform == platform && !s.links[id].removed
  }

  // ---- what is done to the links ----

  datatype LinkError = Duplicate | NotFound

  datatype Edit = Changed(store: Store) | Refused(error: LinkError)

  /** A refused edit changes nothing and says why. */
  predicate Outcome(e: Edit, before: Store, after: Store, error: Option<LinkError>) {
    match e
    case Changed(store) => after == store && error == None
    case Refused(why) => after == before && error == Some(why)
  }

  function Inserted(s: Store, key: Key, origin: Origin): Store {
    s.(links := s.links[s.next := Link(key, origin, true, false)], next := s.next + 1)
  }

  function Seeded(s: Store, shipped: seq<Key>): Store
    decreases |shipped|
  {
    if shipped == [] then s
    else
      var before := Seeded(s, shipped[..|shipped| - 1]);
      if Taken(before, shipped[|shipped| - 1]) then before else Inserted(before, shipped[|shipped| - 1], Builtin)
  }

  function Added(s: Store, key: Key): Edit {
    if Taken(s, key) then Refused(Duplicate) else Changed(Inserted(s, key, Custom))
  }

  /** Points a link at another address, in use again, its result gone with the old one. */
  function Edited(s: Store, id: Id, url: string): Edit {
    if !Live(s, id) then Refused(NotFound)
    else
      var link := s.links[id];
      var key := Key(link.key.platform, url);
      if url != link.key.url && Taken(s, key) then Refused(Duplicate)
      else Changed(s.(
        links := s.links[id := link.(key := key, enabled := true)],
        passes := if url != link.key.url then s.passes - {link.key} else s.passes))
  }

  function Switched(s: Store, id: Id, on: bool): Edit {
    if !Live(s, id) then Refused(NotFound) else Changed(s.(links := s.links[id := s.links[id].(enabled := on)]))
  }

  /** Removes a link: one that shipped is marked removed, any other goes. */
  function RemovedLink(s: Store, id: Id): Store {
    if !Live(s, id) then s
    else
      var link := s.links[id];
      s.(passes := s.passes - {link.key},
         links := if link.origin == Builtin then s.links[id := link.(removed := true)] else s.links - {id})
  }

  /** The learned links past the newest few. */
  function Excess(s: Store, platform: string): set<Id> {
    set id | id in Learned(s, platform) && |Above(Learned(s, platform), id)| >= LEARNED_LINKS
  }

  function Dropped(s: Store, ids: set<Id>): Store {
    s.(links := s.links - ids,
       passes := map k | k in s.passes && (forall id :: id in ids && id in s.links ==> s.links[id].key != k) :: s.passes[k])
  }

  function LearnedFrom(s: Store, key: Key): Store {
    if Taken(s, key) then s
    else
      var with := Inserted(s, key, Job);
      Dropped(with, Excess(with, key.platform))
  }

  // ---- runs ----

  datatype Verdict = Resolves | WantsLogin | Fails

  datatype Tried = Tried(url: string, verdict: Verdict)

  /** Links tried in turn until one resolves. */
  function TriedUntil(urls: seq<string>, verdict: string -> Verdict): seq<Tried>
    decreases |urls|
  {
    if urls == [] then []
    else if verdict(urls[0]) == Resolves then [Tried(urls[0], Resolves)]
    else [Tried(urls[0], verdict(urls[0]))] + TriedUntil(urls[1..], verdict)
  }

  method TryLinks(urls: seq<string>, verdict: string -> Verdict) returns (outcomes: seq<Tried>)
    ensures outcomes == TriedUntil(urls, verdict)
  {
    outcomes := [];
    for i := 0 to |urls|
      invariant TriedUntil(urls, verdict) == outcomes + TriedUntil(urls[i..], verdict)
    {
      assert urls[i..][0] == urls[i] && urls[i..][1..] == urls[i + 1..];
      outcomes := outcomes + [Tried(urls[i], verdict(urls[i]))];
      if verdict(urls[i]) == Resolves {
        return;
      }
    }
  }

  predicate AnyResolved(outcomes: seq<Tried>) {
    exists i :: 0 <= i < |outcomes| && outcomes[i].verdict == Resolves
  }

  /** Whether a run found the address dead: it failed without wanting a login. */
  predicate FoundDead(outcomes: seq<Tried>, url: string) {
    exists i :: 0 <= i < |outcomes| && outcomes[i] == Tried(url, Fails)
  }

  predicate FoundAlive(outcomes: seq<Tried>, url: string) {
    exists i :: 0 <= i < |outcomes| && outcomes[i] == Tried(url, Resolves)
  }

  /** What a run found, stored as the latest results. With `retire`, links that failed while
      another resolved are switched off. */
  function Recorded(s: Store, platform: string, outcomes: seq<Tried>, retire: bool, at: int): Store {
    s.(passes := Passed(s.passes, platform, outcomes, at),
       links := if retire && AnyResolved(outcomes) then Retired(s.links, platform, outcomes) else s.links)
  }

  function Passed(passes: map<Key, int>, platform: string, outcomes: seq<Tried>, at: int): map<Key, int>
    decreases |outcomes|
  {
    if outcomes == [] then passes
    else
      var last := outcomes[|outcomes| - 1];
      var before := Passed(passes, platform, outcomes[..|outcomes| - 1], at);
      if last.verdict == Resolves then before[Key(platform, last.url) := at] else before
  }

  /** The links with those of `platform` in use that a run found dead switched off. */
  function Retired(links: map<Id, Link>, platform: string, outcomes: seq<Tried>): map<Id, Link> {
    map id | id in links ::
      if links[id].key.platform == platform && !links[id].removed && links[id].enabled && FoundDead(outcomes, links[id].key.url)
      then links[id].(enabled := false) else links[id]
  }

  method StorePasses(passes: map<Key, int>, platform: string, outcomes: seq<Tried>, at: int) returns (out: map<Key, int>)
    ensures out == Passed(passes, platform, outcomes, at)
  {
    out := passes;
    for i := 0 to |outcomes|
      invariant out == Passed(passes, platform, outcomes[..i], at)
    {
      assert outcomes[..i + 1][..i] == outcomes[..i];
      if outcomes[i].verdict == Resolves {
        out := out[Key(platform, outcomes[i].url) := at];
      }
    }
    assert outcomes[..|outcomes|] == outcomes;
  }

  method RetireLinks(links: map<Id, Link>, platform: string, outcomes: seq<Tried>) returns (out: map<Id, Link>)
    ensures out == Retired(links, platform, outcomes)
  {
    out := links;
    for i := 0 to |outcomes|
      invariant out == Retired(links, platform, outcomes[..i])
    {
      RetiredNext(links, platform, outcomes, i);
      if outcomes[i].verdict == Fails {
        out := SwitchedOff(out, Key(platform, outcomes[i].url));
      }
    }
    assert outcomes[..|outcomes|] == outcomes;
  }

  function SwitchedOff(links: map<Id, Link>, key: Key): map<Id, Link> {
    map id | id in links ::
      if links[id].key == key && !links[id].removed && links[id].enabled then links[id].(enabled := false) else links[id]
  }

  lemma RetiredNext(links: map<Id, Link>, platform: string, outcomes: seq<Tried>, i: nat)
    requires i < |outcomes|
    ensures Retired(links, platform, outcomes[..i + 1]) ==
            var sofar := Retired(links, platform, outcomes[..i]);
            if outcomes[i].verdict == Fails then SwitchedOff(sofar, Key(platform, outcomes[i].url)) else sofar
  {
    FoundDeadNext(outcomes, i);
  }

  // ---- the store, changed in place ----

  class FixtureStore {
    var links: map<Id, Link>
    var passes: map<Key, int>
    var next: Id

    function Contents(): Store
      reads this
    {
      Store(links, passes, next)
    }

    constructor ()
      ensures Contents() == Store(map[], map[], 0)
    {
      links, passes, next := map[], map[], 0;
    }

    method Insert(key: Key, origin: Origin)
      modifies this
      ensures Contents() == Inserted(old(Contents()), key, origin)
    {
      links := links[next := Link(key, origin, true, false)];
      next := next + 1;
    }

    method Seed(shipped: seq<Key>)
      modifies this
      ensures Contents() == Seeded(old(Contents()), shipped)
    {
      for i := 0 to |shipped|
        invariant Contents() == Seeded(old(Contents()), shipped[..i])
      {
        assert shipped[..i + 1][..i] == shipped[..i];
        if !Taken(Contents(), shipped[i]) {
          Insert(shipped[i], Builtin);
        }
      }
      assert shipped[..|shipped|] == shipped;
    }

    method AddLink(key: Key) returns (error: Option<LinkError>)
      modifies this
      ensures Outcome(Added(old(Contents()), key), old(Contents()), Contents(), error)
    {
      if Taken(Contents(), key) {
        return Some(Duplicate);
      }
      Insert(key, Custom);
      return None;
    }

    method EditLink(id: Id, url: string) returns (error: Option<LinkError>)
      modifies this
      ensures Outcome(Edited(old(Contents()), id, url), old(Contents()), Contents(), error)
    {
      if !Live(Contents(), id) {
        return Some(NotFound);
      }
      var current := links[id].key;
      if current.url != url {
        if Taken(Contents(), Key(current.platform, url)) {
          return Some(Duplicate);
        }
        passes := passes - {current};
      }
      links := links[id := links[id].(key := Key(current.platform, url), enabled := true)];
      return None;
    }

    method SetEnabled(id: Id, enabled: bool) returns (error: Option<LinkError>)
      modifies this
      ensures Outcome(Switched(old(Contents()), id, enabled), old(Contents()), Contents(), error)
    {
      if !Live(Contents(), id) {
        return Some(NotFound);
      }
      links := links[id := links[id].(enabled := enabled)];
      return None;
    }

    method RemoveLink(id: Id) returns (removed: bool)
      modifies this
      ensures removed <==> Live(old(Contents()), id)
      ensures Contents() == RemovedLink(old(Contents()), id)
    {
      if !Live(Contents(), id) {
        return false;
      }
      passes := passes - {links[id].key};
      if links[id].origin == Builtin {
        links := links[id := links[id].(removed := true)];
      } else {
        links := links - {id};
      }
      return true;
    }

    method Learn(key: Key) returns (added: bool)
      modifies this
      ensures added <==> !Taken(old(Contents()), key)
      ensures Contents() == LearnedFrom(old(Contents()), key)
    {
      if Taken(Contents(), key) {
        return false;
      }
      Insert(key, Job);
      ghost var with := Contents();
      var pending := Excess(Contents(), key.platform);
      ghost var done := {};
      while pending != {}
        invariant pending !! done && pending + done == Excess(with, key.platform)
        invariant Contents() == Dropped(with, done)
      {
        var id :| id in pending;
        DroppedNext(with, done, id);
        passes := passes - {links[id].key};
        links := links - {id};
        pending := pending - {id};
        done := done + {id};
      }
      return true;
    }

    method Record(platform: string, outcomes: seq<Tried>, retire: bool, at: int)
      modifies this
      ensures Contents() == Recorded(old(Contents()), platform, outcomes, retire, at)
    {
      passes := StorePasses(passes, platform, outcomes, at);
      if retire && AnyResolved(outcomes) {
        links := RetireLinks(links, platform, outcomes);
      }
    }
  }

  lemma DroppedNext(s: Store, done: set<Id>, id: Id)
    requires id in s.links && id !in done
    ensures var sofar := Dropped(s, done);
            && id in sofar.links && sofar.links[id] == s.links[id]
            && Dropped(s, done + {id}).links == sofar.links - {id}
            && Dropped(s, done + {id}).passes == sofar.passes - {s.links[id].key}
  {
    assert s.links - (done + {id}) == s.links - done - {id};
    var with, sofar := Dropped(s, done + {id}).passes, Dropped(s, done).passes;
    forall k ensures k in with <==> k in sofar - {s.links[id].key} {
    }
  }

  lemma FoundDeadNext(outcomes: seq<Tried>, i: nat)
    requires i < |outcomes|
    ensures forall url :: FoundDead(outcomes[..i + 1], url) <==>
              FoundDead(outcomes[..i], url) || outcomes[i] == Tried(url, Fails)
  {
    forall url
      ensures FoundDead(outcomes[..i + 1], url) <==> FoundDead(outcomes[..i], url) || outcomes[i] == Tried(url, Fails)
    {
      if FoundDead(outcomes[..i], url) {
        var j :| 0 <= j < i && outcomes[..i][j] == Tried(url, Fails);
        assert outcomes[..i + 1][j] == Tried(url, Fails);
      }
      if outcomes[i] == Tried(url, Fails) {
        assert outcomes[..i + 1][i] == Tried(url, Fails);
      }
      if FoundDead(outcomes[..i + 1], url) {
        var j :| 0 <= j < i + 1 && outcomes[..i + 1][j] == Tried(url, Fails);
        if j < i {
          assert outcomes[..i][j] == Tried(url, Fails);
        }
      }
    }
  }

  // ---- invariants of the links ----

  ghost predicate DistinctKeys(links: map<Id, Link>) {
    forall i, j :: i in links && j in links && links[i].key == links[j].key ==> i == j
  }

  /** No platform has an address twice, learned links are never marked removed, and few enough
      of them are live. */
  ghost predicate Sound(s: Store) {
    && (forall id :: id in s.links ==> id < s.next)
    && DistinctKeys(s.links)
    && (forall id :: id in s.links && s.links[id].removed ==> s.links[id].origin == Builtin)
    && (forall platform :: |Learned(s, platform)| <= LEARNED_LINKS)
  }

  datatype Operation =
    | Seeding(shipped: seq<Key>)
    | Adding(key: Key)
    | Editing(id: Id, url: string)
    | Switching(id: Id, on: bool)
    | Removing(id: Id)
    | Learning(key: Key)
    | Recording(platform: string, outcomes: seq<Tried>, retire: bool, at: int)

  function Kept(s: Store, e: Edit): Store {
    if e.Changed? then e.store else s
  }

  function After(s: Store, op: Operation): Store {
    match op
    case Seeding(shipped) => Seeded(s, shipped)
    case Adding(key) => Kept(s, Added(s, key))
    case Editing(id, url) => Kept(s, Edited(s, id, url))
    case Switching(id, on) => Kept(s, Switched(s, id, on))
    case Removing(id) => RemovedLink(s, id)
    case Learning(key) => LearnedFrom(s, key)
    case Recording(platform, outcomes, retire, at) => Recorded(s, platform, outcomes, retire, at)
  }

  function AfterAll(s: Store, ops: seq<Operation>): Store
    decreases |ops|
  {
    if ops == [] then s else After(AfterAll(s, ops[..|ops| - 1]), ops[|ops| - 1])
  }

  lemma {:induction false} Least(s: set<Id>) returns (m: Id)
    requires s != {}
    ensures m in s && forall k :: k in s ==> m <= k
    decreases |s|
  {
    var x :| x in s;
    if s == {x} {
      m := x;
    } else {
      var rest := Least(s - {x});
      m := if rest < x then rest else x;
      forall k | k in s ensures m <= k {
        assert k == x || k in s - {x};
      }
    }
  }

  /** Of any ids at most `n` have fewer than `n` above them. */
  lemma FewAtTheTop(all: set<Id>, top: set<Id>, n: nat)
    requires top <= all && forall id :: id in top ==> |Above(all, id)| < n
    ensures |top| <= n
  {
    if top != {} {
      var m := Least(top);
      Fewer(top - {m}, Above(all, m));
    }
  }

  lemma InsertedSound(s: Store, key: Key, origin: Origin)
    requires Sound(s) && !Taken(s, key)
    ensures forall id :: id in Inserted(s, key, origin).links ==> id < Inserted(s, key, origin).next
    ensures DistinctKeys(Inserted(s, key, origin).links)
    ensures forall platform :: (origin != Job || platform != key.platform) ==>
              Learned(Inserted(s, key, origin), platform) == Learned(s, platform)
    ensures origin != Job ==> Sound(Inserted(s, key, origin))
  {
    var s' := Inserted(s, key, origin);
    forall platform | origin != Job || platform != key.platform
      ensures Learned(s', platform) == Learned(s, platform)
    {
    }
  }

  lemma LearnedSound(s: Store, key: Key)
    requires Sound(s)
    ensures Sound(LearnedFrom(s, key))
  {
    if !Taken(s, key) {
      var with := Inserted(s, key, Job);
      var s' := LearnedFrom(s, key);
      InsertedSound(s, key, Job);
      forall platform ensures |Learned(s', platform)| <= LEARNED_LINKS {
        if platform == key.platform {
          FewAtTheTop(Learned(with, platform), Learned(s', platform), LEARNED_LINKS);
        } else {
          assert Learned(s', platform) == Learned(s, platform);
        }
      }
    }
  }

  lemma SameLearned(s: Store, s': Store)
    requires s'.links.Keys <= s.links.Keys
    requires forall id :: id in s'.links ==>
               s'.links[id].origin == s.links[id].origin && s'.links[id].key.platform == s.links[id].key.platform
               && (s.links[id].removed ==> s'.links[id].removed)
    ensures forall platform :: |Learned(s', platform)| <= |Learned(s, platform)|
  {
    forall platform ensures |Learned(s', platform)| <= |Learned(s, platform)| {
      Fewer(Learned(s', platform), Learned(s, platform));
    }
  }

  lemma {:induction false} SeededSound(s: Store, shipped: seq<Key>)
    requires Sound(s)
    ensures Sound(Seeded(s, shipped))
    decreases |shipped|
  {
    if shipped != [] {
      var n := |shipped| - 1;
      SeededSound(s, shipped[..n]);
      if !Taken(Seeded(s, shipped[..n]), shipped[n]) {
        InsertedSound(Seeded(s, shipped[..n]), shipped[n], Builtin);
      }
    }
  }

  lemma EditedSound(s: Store, id: Id, url: string)
    requires Sound(s)
    ensures Sound(Kept(s, Edited(s, id, url)))
  {
    SameLearned(s, Kept(s, Edited(s, id, url)));
  }

  lemma RecordedSound(s: Store, platform: string, outcomes: seq<Tried>, retire: bool, at: int)
    requires Sound(s)
    ensures Sound(Recorded(s, platform, outcomes, retire, at))
  {
    SameLearned(s, Recorded(s, platform, outcomes, retire, at));
  }

  lemma RemovedSound(s: Store, id: Id)
    requires Sound(s)
    ensures Sound(RemovedLink(s, id))
  {
    SameLearned(s, RemovedLink(s, id));
  }

  /** Every operation keeps addresses unique and at most three learned links live. */
  lemma OperationsSound(s: Store, op: Operation)
    requires Sound(s)
    ensures Sound(After(s, op))
  {
    match op
    case Seeding(shipped) => SeededSound(s, shipped);
    case Adding(key) =>
      if !Taken(s, key) {
        InsertedSound(s, key, Custom);
      }
    case Learning(key) => LearnedSound(s, key);
    case Editing(id, url) => EditedSound(s, id, url);
    case Switching(id, on) => SameLearned(s, After(s, op));
    case Removing(id) => RemovedSound(s, id);
    case Recording(platform, outcomes, retire, at) => RecordedSound(s, platform, outcomes, retire, at);
  }

  lemma {:induction false} RunsSound(s: Store, ops: seq<Operation>)
    requires Sound(s)
    ensures Sound(AfterAll(s, ops))
    decreases |ops|
  {
    if ops != [] {
      RunsSound(s, ops[..|ops| - 1]);
      OperationsSound(AfterAll(s, ops[..|ops| - 1]), ops[|ops| - 1]);
    }
  }

  /** Operations are carried out one after the other. */
  lemma {:induction false} RunsTogether(s: Store, ops: seq<Operation>, more: seq<Operation>)
    ensures AfterAll(s, []) == s && (ops != [] ==> AfterAll(s, [ops[0]]) == After(s, ops[0]))
    ensures AfterAll(s, ops + more) == AfterAll(AfterAll(s, ops), more)
    decreases |more|
  {
    assert ops != [] ==> [ops[0]][..0] == [] && AfterAll(s, [ops[0]][..0]) == s;
    if more == [] {
      assert ops + more == ops;
    } else {
      var n := |more| - 1;
      assert (ops + more)[..|ops + more| - 1] == ops + more[..n];
      RunsTogether(s, ops, more[..n]);
    }
  }

  // ---- removed for good ----

  lemma {:induction false} SeededKeeps(s: Store, shipped: seq<Key>, id: Id)
    requires Sound(s) && id in s.links
    ensures id in Seeded(s, shipped).links && Seeded(s, shipped).links[id] == s.links[id]
    decreases |shipped|
  {
    if shipped != [] {
      SeededKeeps(s, shipped[..|shipped| - 1], id);
      SeededSound(s, shipped[..|shipped| - 1]);
    }
  }

  lemma TombstoneStays(s: Store, op: Operation, id: Id)
    requires Sound(s) && id in s.links && s.links[id].removed
    ensures id in After(s, op).links && After(s, op).links[id] == s.links[id]
  {
    if op.Seeding? {
      SeededKeeps(s, op.shipped, id);
    }
  }

  lemma {:induction false} TombstoneStaysAll(s: Store, ops: seq<Operation>, id: Id)
    requires Sound(s) && id in s.links && s.links[id].removed
    ensures id in AfterAll(s, ops).links && AfterAll(s, ops).links[id] == s.links[id]
    decreases |ops|
  {
    if ops != [] {
      TombstoneStaysAll(s, ops[..|ops| - 1], id);
      RunsSound(s, ops[..|ops| - 1]);
      TombstoneStays(AfterAll(s, ops[..|ops| - 1]), ops[|ops| - 1], id);
    }
  }

  /** Once a shipped link is marked removed it is gone for good, whatever is seeded, learned, added,
      edited, switched or recorded afterwards: no live link has its address again. */
  lemma RemovedForGood(s: Store, ops: seq<Operation>, id: Id, other: Id)
    requires Sound(s) && id in s.links && s.links[id].removed
    requires Live(AfterAll(s, ops), other)
    ensures AfterAll(s, ops).links[other].key != s.links[id].key
  {
    TombstoneStaysAll(s, ops, id);
    RunsSound(s, ops);
  }

  /** Only the address a link has when it is removed is kept out: after seeding an address is
      live exactly unless a removed link holds it. An edit before the removal moves the link off
      the address it shipped with, which seeding then brings back. */
  lemma {:induction false} SeededUnlessRemoved(s: Store, shipped: seq<Key>, key: Key)
    requires Sound(s) && key in shipped
    ensures HasLive(Seeded(s, shipped), key) <==> !HasTombstone(s, key)
    decreases |shipped|
  {
    var n := |shipped| - 1;
    SeededSound(s, shipped[..n]);
    SeededSound(s, shipped);
    var before, after := Seeded(s, shipped[..n]), Seeded(s, shipped);
    if HasTombstone(s, key) {
      var id :| id in s.links && s.links[id].removed && s.links[id].key == key;
      SeededKeeps(s, shipped, id);
    } else if shipped[n] == key {
      SeededAddsNoTombstone(s, shipped[..n]);
      if Taken(before, key) {
        var id :| id in before.links && before.links[id].key == key;
        assert Live(after, id) && after.links[id].key == key;
      } else {
        assert Live(after, before.next) && after.links[before.next].key == key;
      }
    } else {
      SeededUnlessRemoved(s, shipped[..n], key);
      var id :| id in before.links && Live(before, id) && before.links[id].key == key;
      assert id in after.links && after.links[id] == before.links[id];
    }
  }

  const NO_LINKS := Store(map[], map[], 0)

  /** It does: a shipped link pointed elsewhere and then removed is back after seeding. */
  lemma EditedComesBack(platform: string, url: string, other: string)
    requires url != other
    ensures var key := Key(platform, url);
            var seeded := Seeded(NO_LINKS, [key]);
            var edited := Edited(seeded, 0, other);
            && HasLive(seeded, key) && edited.Changed?
            && var removed := RemovedLink(edited.store, 0);
               !HasLive(removed, key) && HasLive(Seeded(removed, [key]), key)
  {
    var key := Key(platform, url);
    SeededOne(NO_LINKS, key);
    var seeded := Seeded(NO_LINKS, [key]);
    assert seeded.links == map[0 := Link(key, Builtin, true, false)];
    var edited := Edited(seeded, 0, other);
    assert edited.Changed? && edited.store.links == map[0 := Link(Key(platform, other), Builtin, true, false)];
    SeededOne(RemovedLink(edited.store, 0), key);
  }

  lemma SeededOne(s: Store, key: Key)
    requires !Taken(s, key)
    ensures Seeded(s, [key]) == Inserted(s, key, Builtin)
    ensures !HasLive(s, key) && HasLive(Seeded(s, [key]), key)
  {
    assert [key][..0] == [];
    assert s.next in Inserted(s, key, Builtin).links && Inserted(s, key, Builtin).links[s.next].key == key;
  }

  predicate HasLive(s: Store, key: Key) {
    exists id :: id in s.links && Live(s, id) && s.links[id].key == key
  }

  predicate HasTombstone(s: Store, key: Key) {
    exists id :: id in s.links && s.links[id].removed && s.links[id].key == key
  }

  lemma {:induction false} SeededAddsNoTombstone(s: Store, shipped: seq<Key>)
    requires Sound(s)
    ensures forall id :: id in Seeded(s, shipped).links && Seeded(s, shipped).links[id].removed ==>
              id in s.links && s.links[id] == Seeded(s, shipped).links[id]
    decreases |shipped|
  {
    if shipped != [] {
      SeededAddsNoTombstone(s, shipped[..|shipped| - 1]);
      SeededSound(s, shipped[..|shipped| - 1]);
    }
  }

  // ---- what each operation does, link by link ----

  predicate Has(s: Store, link: Link) {
    exists id :: id in s.links && s.links[id] == link
  }

  /** Every link but one is as it was. */
  ghost predicate OthersSame(s: Store, t: Store, id: Id) {
    forall other :: other != id ==>
      (other in t.links <==> other in s.links) && (other in s.links ==> t.links[other] == s.links[other])
  }

  /** Results are as they were, save that the one of `gone` went. */
  ghost predicate ResultGone(s: Store, t: Store, gone: Key) {
    forall k :: (k in t.passes <==> k in s.passes && k != gone) && (k in t.passes ==> t.passes[k] == s.passes[k])
  }

  /** An address is added exactly unless its platform has it, removed or not. The links are then
      those before and the new one, in use. */
  lemma AddedDoes(s: Store, key: Key)
    requires Sound(s)
    ensures After(s, Adding(key)) == if Added(s, key).Changed? then Added(s, key).store else s
    ensures var e := Added(s, key);
            && (e.Changed? <==> forall id :: id in s.links ==> s.links[id].key != key)
            && (e.Refused? ==> e.error == Duplicate)
            && (e.Changed? ==>
                  && e.store.passes == s.passes
                  && forall link :: Has(e.store, link) <==> Has(s, link) || link == Link(key, Custom, true, false))
  {
    var e := Added(s, key);
    if e.Changed? {
      forall link ensures Has(e.store, link) <==> Has(s, link) || link == Link(key, Custom, true, false) {
        InsertedHas(s, key, Custom, link);
      }
    }
  }

  lemma InsertedHas(s: Store, key: Key, origin: Origin, link: Link)
    requires Sound(s)
    ensures Has(Inserted(s, key, origin), link) <==> Has(s, link) || link == Link(key, origin, true, false)
  {
    var t := Inserted(s, key, origin);
    assert t.links[s.next] == Link(key, origin, true, false);
    if id :| id in s.links && s.links[id] == link {
      assert id in t.links && t.links[id] == link;
    }
  }

  /** A link is moved exactly when it is there and no other has the address, removed or not. It is
      then in use there as what it was, and only a result at the address it left is gone. */
  lemma EditedDoes(s: Store, id: Id, url: string)
    requires Sound(s)
    ensures After(s, Editing(id, url)) == if Edited(s, id, url).Changed? then Edited(s, id, url).store else s
    ensures var e := Edited(s, id, url);
            && (e.Changed? <==> Live(s, id) && OnlyHolder(s, id, Key(s.links[id].key.platform, url)))
            && (e.Refused? ==> e.error == if Live(s, id) then Duplicate else NotFound)
            && (e.Changed? ==>
                  && var was := s.links[id];
                  && id in e.store.links
                  && e.store.links[id] == Link(Key(was.key.platform, url), was.origin, true, false)
                  && OthersSame(s, e.store, id)
                  && (if url == was.key.url then e.store.passes == s.passes else ResultGone(s, e.store, was.key)))
  {
  }

  ghost predicate OnlyHolder(s: Store, id: Id, key: Key) {
    forall other :: other in s.links && s.links[other].key == key ==> other == id
  }

  /** A link is switched exactly when it is there, and nothing else about it changes. */
  lemma SwitchedDoes(s: Store, id: Id, on: bool)
    requires Sound(s)
    ensures After(s, Switching(id, on)) == if Switched(s, id, on).Changed? then Switched(s, id, on).store else s
    ensures var e := Switched(s, id, on);
            && (e.Changed? <==> Live(s, id)) && (e.Refused? ==> e.error == NotFound)
            && (e.Changed? ==>
                  && id in e.store.links && e.store.links[id].enabled == on
                  && e.store.links[id].key == s.links[id].key
                  && e.store.links[id].origin == s.links[id].origin && Live(e.store, id)
                  && OthersSame(s, e.store, id) && e.store.passes == s.passes)
  {
  }

  /** A removed link is live no more, its result gone, and its address kept out exactly if it shipped. */
  lemma RemovedDoes(s: Store, id: Id)
    requires Sound(s)
    ensures var t := RemovedLink(s, id);
            && !Live(t, id) && OthersSame(s, t, id)
            && (!Live(s, id) ==> t == s)
            && (Live(s, id) ==>
                  && ResultGone(s, t, s.links[id].key)
                  && !HasLive(t, s.links[id].key)
                  && (HasTombstone(t, s.links[id].key) <==> s.links[id].origin == Builtin))
  {
    if Live(s, id) && s.links[id].origin == Builtin {
      var t := RemovedLink(s, id);
      assert id in t.links && t.links[id].removed && t.links[id].key == s.links[id].key;
    }
  }

  /** Learned links go in order of their age. */
  lemma OldestGo(s: Store, key: Key, gone: Id, kept: Id)
    requires Sound(s) && !Taken(s, key)
    requires gone in s.links && gone !in LearnedFrom(s, key).links && kept in Learned(LearnedFrom(s, key), key.platform)
    ensures gone < kept && s.links[gone].key !in LearnedFrom(s, key).passes
  {
    var with := Inserted(s, key, Job);
    var all := Learned(with, key.platform);
    if kept <= gone {
      Fewer(Above(all, gone), Above(all, kept));
    }
  }

  /** The results stored: whatever a run resolved has passed at that time, all else is as it was. */
  lemma {:induction false} PassesExactly(passes: map<Key, int>, platform: string, outcomes: seq<Tried>, at: int, k: Key)
    ensures var after := Passed(passes, platform, outcomes, at);
            var alive := k.platform == platform && FoundAlive(outcomes, k.url);
            && (k in after <==> k in passes || alive)
            && (k in after ==> after[k] == if alive then at else passes[k])
    decreases |outcomes|
  {
    if outcomes != [] {
      var n := |outcomes| - 1;
      PassesExactly(passes, platform, outcomes[..n], at, k);
      FoundAliveNext(outcomes, k.url);
    }
  }

  lemma FoundAliveNext(outcomes: seq<Tried>, url: string)
    requires outcomes != []
    ensures FoundAlive(outcomes, url) <==>
            FoundAlive(outcomes[..|outcomes| - 1], url) || outcomes[|outcomes| - 1] == Tried(url, Resolves)
  {
    var n := |outcomes| - 1;
    if i :| 0 <= i < n && outcomes[..n][i] == Tried(url, Resolves) {
      assert outcomes[i] == Tried(url, Resolves);
    }
    if i :| 0 <= i < |outcomes| && outcomes[i] == Tried(url, Resolves) {
      assert i < n ==> outcomes[..n][i] == Tried(url, Resolves);
    }
  }

  /** A recorded run takes no link away, and changes nothing about one but whether it is on. */
  lemma RecordedDoes(s: Store, platform: string, outcomes: seq<Tried>, retire: bool, at: int, id: Id)
    ensures var t := Recorded(s, platform, outcomes, retire, at);
            && (id in t.links <==> id in s.links)
            && (id in s.links ==>
                  && t.links[id].key == s.links[id].key && t.links[id].origin == s.links[id].origin
                  && t.links[id].removed == s.links[id].removed && (t.links[id].enabled ==> s.links[id].enabled))
  {
  }

  /** The links tried are the first of the list, up to the first that resolves, each with its own
      verdict: all of them when none does. */
  lemma {:induction false} TriedExactly(urls: seq<string>, verdict: string -> Verdict)
    ensures var tried := TriedUntil(urls, verdict);
            && |tried| <= |urls|
            && (forall i :: 0 <= i < |tried| ==> tried[i] == Tried(urls[i], verdict(urls[i])))
            && (forall i :: 0 <= i < |tried| - 1 ==> verdict(urls[i]) != Resolves)
            && (|tried| < |urls| ==> tried != [] && tried[|tried| - 1].verdict == Resolves)
    decreases |urls|
  {
    if urls != [] && verdict(urls[0]) != Resolves {
      TriedExactly(urls[1..], verdict);
      var rest := TriedUntil(urls[1..], verdict);
      forall i | 0 <= i < |rest| ensures rest[i] == Tried(urls[i + 1], verdict(urls[i + 1])) {
        assert urls[1..][i] == urls[i + 1];
      }
    }
  }

  // ---- runs and the links in use ----

  /** What a recorded run switches off: only links that failed without wanting a login, in a run
      in which another resolved. */
  lemma RetiredLinks(s: Store, platform: string, outcomes: seq<Tried>, retire: bool, at: int, id: Id, of: string)
    requires InUse(s, of, id)
    ensures !InUse(Recorded(s, platform, outcomes, retire, at), of, id) <==>
            && retire && of == platform && AnyResolved(outcomes)
            && FoundDead(outcomes, s.links[id].key.url)
  {
  }

  /** A recorded run leaves a platform a link in use exactly unless every link it has in use was
      found dead by a run in which something, then no longer in use, resolved. */
  lemma KeepsOneExactly(s: Store, platform: string, outcomes: seq<Tried>, at: int)
    requires HasLinkInUse(s, platform)
    ensures HasLinkInUse(Recorded(s, platform, outcomes, true, at), platform) <==>
            !(AnyResolved(outcomes) && forall id :: id in s.links && InUse(s, platform, id) ==> FoundDead(outcomes, s.links[id].key.url))
  {
    var s' := Recorded(s, platform, outcomes, true, at);
    if HasLinkInUse(s', platform) {
      var id :| id in s'.links && InUse(s', platform, id);
      RetiredLinks(s, platform, outcomes, true, at, id, platform);
    } else {
      forall id | id in s.links && InUse(s, platform, id)
        ensures AnyResolved(outcomes) && FoundDead(outcomes, s.links[id].key.url)
      {
        RetiredLinks(s, platform, outcomes, true, at, id, platform);
        assert id in s'.links;
      }
    }
  }

  lemma {:induction false} TriedOnce(urls: seq<string>, verdict: string -> Verdict)
    ensures forall i :: 0 <= i < |TriedUntil(urls, verdict)| ==>
              && TriedUntil(urls, verdict)[i].url in urls
              && TriedUntil(urls, verdict)[i].verdict == verdict(TriedUntil(urls, verdict)[i].url)
    decreases |urls|
  {
    if urls != [] && verdict(urls[0]) != Resolves {
      TriedOnce(urls[1..], verdict);
    }
  }

  /** As long as the link that resolved is still in use when the run is recorded, the platform
      keeps it. */
  lemma ResolvedLinkStays(s: Store, platform: string, urls: seq<string>, verdict: string -> Verdict, at: int, id: Id)
    requires InUse(s, platform, id) && FoundAlive(TriedUntil(urls, verdict), s.links[id].key.url)
    ensures InUse(Recorded(s, platform, TriedUntil(urls, verdict), true, at), platform, id)
  {
    TriedOnce(urls, verdict);
    RetiredLinks(s, platform, TriedUntil(urls, verdict), true, at, id, platform);
  }

  // ---- runs that overlap ----

  /** Sorts links for a run: a later success goes first, no success at all goes last, and age breaks
      ties. */
  predicate TriedBefore(s: Store, a: Id, b: Id)
    requires a in s.links && b in s.links
  {
    var x, y := s.links[a].key, s.links[b].key;
    if x in s.passes && y in s.passes then s.passes[x] > s.passes[y] || (s.passes[x] == s.passes[y] && a < b)
    else if x in s.passes then true
    else if y in s.passes then false
    else a < b
  }

  /** `urls` is the list a run works through: every address in use on the platform, sorted as above. */
  ghost predicate RunList(s: Store, platform: string, urls: seq<string>) {
    exists ids: seq<Id> :: ListedBy(s, platform, urls, ids)
  }

  ghost predicate ListedBy(s: Store, platform: string, urls: seq<string>, ids: seq<Id>) {
    && |ids| == |urls|
    && (forall i :: 0 <= i < |ids| ==> ids[i] in s.links && InUse(s, platform, ids[i]) && urls[i] == s.links[ids[i]].key.url)
    && (forall i, j :: 0 <= i < j < |ids| ==> TriedBefore(s, ids[i], ids[j]))
    && (forall id :: id in s.links && InUse(s, platform, id) ==> id in ids)
  }

  /** Of two addresses the one tried first has resolved if the other has, and not before it. */
  lemma LastResolvedFirst(s: Store, platform: string, urls: seq<string>, i: nat, j: nat)
    requires RunList(s, platform, urls) && i < j < |urls| && Key(platform, urls[j]) in s.passes
    ensures Key(platform, urls[i]) in s.passes && s.passes[Key(platform, urls[i])] >= s.passes[Key(platform, urls[j])]
  {
    var ids: seq<Id> :| ListedBy(s, platform, urls, ids);
    ListedInOrder(s, ids[i], ids[j]);
    assert s.links[ids[i]].key == Key(platform, urls[i]) && s.links[ids[j]].key == Key(platform, urls[j]);
  }

  lemma ListedInOrder(s: Store, a: Id, b: Id)
    requires a in s.links && b in s.links && TriedBefore(s, a, b) && s.links[b].key in s.passes
    ensures s.links[a].key in s.passes && s.passes[s.links[a].key] >= s.passes[s.links[b].key]
  {
  }

  /** A run started by reading the links in use, and the verdicts its links will get. */
  datatype Run = Run(platform: string, urls: seq<string>)

  /** The runner: the links, the platforms being checked, and the runs that have read their links
      and not been recorded, whether or not they have claimed their platform yet. Meanwhile jobs
      teach links and links are added by hand. */
  datatype Runner = Runner(store: Store, running: set<string>, read: map<nat, Run>, claimed: set<nat>)

  datatype Step =
    | Read(run: nat, platform: string, urls: seq<string>)
    | Claim(run: nat)
    | Record(run: nat, verdict: string -> Verdict, at: int)
    | Learn(key: Key)
    | Add(key: Key)

  ghost predicate Enabled(r: Runner, s: Step) {
    match s
    case Read(k, platform, urls) => k !in r.read && urls != [] && RunList(r.store, platform, urls)
    case Claim(k) => k in r.read && k !in r.claimed && r.read[k].platform !in r.running
    case Record(k, verdict, at) => k in r.read && k in r.claimed
    case _ => true
  }

  function Taking(r: Runner, s: Step): Runner {
    match s
    case Read(k, platform, urls) => r.(read := r.read[k := Run(platform, urls)])
    case Claim(k) =>
      if k in r.read then r.(running := r.running + {r.read[k].platform}, claimed := r.claimed + {k}) else r
    case Record(k, verdict, at) =>
      if k in r.read then
        Runner(Recorded(r.store, r.read[k].platform, TriedUntil(r.read[k].urls, verdict), true, at),
               r.running - {r.read[k].platform}, r.read - {k}, r.claimed - {k})
      else r
    case Learn(key) => r.(store := LearnedFrom(r.store, key))
    case Add(key) => r.(store := Kept(r.store, Added(r.store, key)))
  }

  ghost predicate Trace(r: Runner, steps: seq<Step>)
    decreases |steps|
  {
    steps != [] ==> Enabled(r, steps[0]) && Trace(Taking(r, steps[0]), steps[1..])
  }

  function TakingAll(r: Runner, steps: seq<Step>): Runner
    decreases |steps|
  {
    if steps == [] then r else TakingAll(Taking(r, steps[0]), steps[1..])
  }

  predicate UrlInUse(s: Store, platform: string, url: string) {
    exists id :: id in s.links && InUse(s, platform, id) && s.links[id].key.url == url
  }

  /** Whether a run's list is what its platform has in use. */
  ghost predicate UpToDate(s: Store, run: Run) {
    forall url :: url in run.urls <==> UrlInUse(s, run.platform, url)
  }

  // ---- when a step costs a platform its last link ----

  /** A step leaves a platform with a link in use exactly unless it records a run of the platform in
      which something resolved and every link then in use was found dead. */
  lemma StepKeepsExactly(r: Runner, s: Step, platform: string)
    requires Sound(r.store) && HasLinkInUse(r.store, platform)
    ensures HasLinkInUse(Taking(r, s).store, platform) <==> !Clears(r, s, platform)
  {
    match s
    case Record(k, verdict, at) =>
      if k in r.read && r.read[k].platform == platform {
        KeepsOneExactly(r.store, platform, TriedUntil(r.read[k].urls, verdict), at);
      } else if k in r.read {
        var id :| id in r.store.links && InUse(r.store, platform, id);
        RetiredLinks(r.store, r.read[k].platform, TriedUntil(r.read[k].urls, verdict), true, at, id, platform);
        assert id in Taking(r, s).store.links;
      }
    case Learn(key) =>
      LearnKeepsOne(r.store, key, platform);
    case Add(key) =>
      var id :| id in r.store.links && InUse(r.store, platform, id);
      assert id in Taking(r, s).store.links;
    case Read(_, _, _) =>
    case Claim(_) =>
  }

  ghost predicate Clears(r: Runner, s: Step, platform: string) {
    && s.Record? && s.run in r.read && r.read[s.run].platform == platform
    && var outcomes := TriedUntil(r.read[s.run].urls, s.verdict);
       AnyResolved(outcomes) && AllFoundDead(r.store, platform, outcomes)
  }

  ghost predicate AllFoundDead(s: Store, platform: string, outcomes: seq<Tried>) {
    forall id :: id in s.links && InUse(s, platform, id) ==> FoundDead(outcomes, s.links[id].key.url)
  }

  lemma LearnKeepsOne(s: Store, key: Key, platform: string)
    requires Sound(s) && HasLinkInUse(s, platform)
    ensures HasLinkInUse(LearnedFrom(s, key), platform)
  {
    if !Taken(s, key) {
      LearnedLinks(s, key);
      if key.platform == platform {
        assert InUse(LearnedFrom(s, key), platform, s.next);
      } else {
        var id :| id in s.links && InUse(s, platform, id);
        assert InUse(LearnedFrom(s, key), platform, id);
      }
    }
  }

  // ---- what learning does to the links of a platform ----

  /** The new link is in use, the others are as they were or gone, and one that is gone was learned
      and leaves a full number of learned links behind. */
  lemma LearnedLinks(s: Store, key: Key)
    requires Sound(s) && !Taken(s, key)
    ensures var t := LearnedFrom(s, key);
            && s.next in t.links && t.links[s.next] == Link(key, Job, true, false)
            && (forall id :: id in t.links && id != s.next ==> id in s.links && t.links[id] == s.links[id])
            && (forall id :: id in s.links && id !in t.links ==>
                  id in Learned(s, key.platform) && |Learned(t, key.platform)| == LEARNED_LINKS)
            && (|Learned(s, key.platform)| == LEARNED_LINKS ==> |Learned(t, key.platform)| == LEARNED_LINKS)
  {
    LearnedCount(s, key);
    var with := Inserted(s, key, Job);
    assert Above(Learned(with, key.platform), s.next) == {};
    forall id | id in s.links && id !in LearnedFrom(s, key).links ensures id in Excess(with, key.platform) {
    }
  }

  lemma LearnedCount(s: Store, key: Key)
    requires Sound(s) && !Taken(s, key)
    ensures var with, t := Inserted(s, key, Job), LearnedFrom(s, key);
            && Learned(with, key.platform) == Learned(s, key.platform) + {s.next}
            && (Excess(with, key.platform) != {} ==> |Learned(t, key.platform)| == LEARNED_LINKS)
            && (|Learned(s, key.platform)| == LEARNED_LINKS ==> Excess(with, key.platform) != {})
  {
    var with := Inserted(s, key, Job);
    var all, before := Learned(with, key.platform), Learned(s, key.platform);
    assert all == before + {s.next} && s.next !in before;
    assert Learned(LearnedFrom(s, key), key.platform) == all - Excess(with, key.platform);
    if |before| == LEARNED_LINKS {
      FullOverflows(all);
    }
    if Excess(with, key.platform) != {} {
      OneInExcess(all, Excess(with, key.platform));
    }
  }

  lemma FullOverflows(all: set<Id>)
    requires |all| == LEARNED_LINKS + 1
    ensures exists id :: id in all && |Above(all, id)| >= LEARNED_LINKS
  {
    var least := Least(all);
    assert Above(all, least) == all - {least};
  }

  lemma OneInExcess(all: set<Id>, excess: set<Id>)
    requires |all| <= LEARNED_LINKS + 1 && excess != {}
    requires forall id :: id in excess <==> id in all && |Above(all, id)| >= LEARNED_LINKS
    ensures |all - excess| == LEARNED_LINKS
  {
    var d :| d in excess;
    Fewer(Above(all, d), all - {d});
    forall e | e in excess ensures e == d {
      if e < d {
        NoTwoAbove(all, e, d);
      } else if d < e {
        NoTwoAbove(all, d, e);
      }
    }
    assert excess == {d};
  }

  lemma NoTwoAbove(all: set<Id>, a: Id, b: Id)
    requires |all| <= LEARNED_LINKS + 1 && a in all && b in all && a < b
    ensures |Above(all, b)| < LEARNED_LINKS
  {
    Fewer(Above(all, b), all - {a, b});
  }

  // ---- the claim, and the reading before it ----

  /** Whether every run claims its platform with a list that is up to date then. */
  ghost predicate ClaimsUpToDate(r: Runner, steps: seq<Step>)
    decreases |steps|
  {
    steps != [] ==>
      && (steps[0].Claim? && steps[0].run in r.read ==> UpToDate(r.store, r.read[steps[0].run]))
      && ClaimsUpToDate(Taking(r, steps[0]), steps[1..])
  }

  /** An address in use by a link that was not learned. */
  predicate OwnInUse(s: Store, platform: string, url: string) {
    exists id :: id in s.links && InUse(s, platform, id) && s.links[id].key.url == url && s.links[id].origin != Job
  }

  /** An address newer learned links have taken the place of. */
  predicate Displaced(s: Store, platform: string, url: string) {
    !Taken(s, Key(platform, url)) && |Learned(s, platform)| == LEARNED_LINKS
  }

  /** An address of a claimed run's list is in use still, unless it was learned and displaced. */
  ghost predicate Held(s: Store, run: Run, learned: set<string>, url: string) {
    if url in learned then UrlInUse(s, run.platform, url) || Displaced(s, run.platform, url)
    else OwnInUse(s, run.platform, url)
  }

  /** A learned link was there at the claim, or is in use and not on the list. */
  predicate Known(s: Store, run: Run, learned: set<string>, id: Id) {
    id in s.links && (s.links[id].key.url in learned || (InUse(s, run.platform, id) && s.links[id].key.url !in run.urls))
  }

  /** What is left of a list that was up to date at its claim, `learned` the addresses that had been
      learned for the platform then. */
  ghost predicate Guarded(s: Store, run: Run, learned: set<string>) {
    && |learned| <= LEARNED_LINKS
    && (forall url :: url in run.urls ==> Held(s, run, learned, url))
    && (forall id :: id in Learned(s, run.platform) ==> Known(s, run, learned, id))
  }

  ghost predicate Protected(s: Store, run: Run) {
    exists learned: set<string> :: Guarded(s, run, learned)
  }

  /** Claimed runs are of different platforms, all marked as running, and protected. */
  ghost predicate ClaimsHold(r: Runner) {
    && Sound(r.store)
    && r.claimed <= r.read.Keys
    && (forall k :: k in r.claimed ==> r.read[k].platform in r.running && Protected(r.store, r.read[k]))
    && (forall j, k :: j in r.claimed && k in r.claimed && r.read[j].platform == r.read[k].platform ==> j == k)
  }

  function Urls(s: Store, ids: set<Id>): set<string>
    requires forall id :: id in ids ==> id in s.links
  {
    set id | id in ids :: s.links[id].key.url
  }

  lemma {:induction false} UrlsSmaller(s: Store, ids: set<Id>)
    requires forall id :: id in ids ==> id in s.links
    ensures |Urls(s, ids)| <= |ids|
    decreases |ids|
  {
    if ids != {} {
      var id :| id in ids;
      UrlsSmaller(s, ids - {id});
      var rest := Urls(s, ids - {id});
      assert Urls(s, ids) == rest + {s.links[id].key.url};
    }
  }

  /** Links of one platform have different addresses. */
  lemma {:induction false} UrlsAsMany(s: Store, platform: string, ids: set<Id>)
    requires DistinctKeys(s.links) && forall id :: id in ids ==> id in s.links && s.links[id].key.platform == platform
    ensures |Urls(s, ids)| == |ids|
    decreases |ids|
  {
    if ids != {} {
      var id :| id in ids;
      var rest := ids - {id};
      UrlsAsMany(s, platform, rest);
      assert Urls(s, ids) == Urls(s, rest) + {s.links[id].key.url};
      forall other | other in rest ensures s.links[other].key.url != s.links[id].key.url {
        assert s.links[other].key != s.links[id].key;
      }
    }
  }

  /** A list that is up to date is guarded by what has been learned so far. */
  lemma ClaimGuards(s: Store, run: Run)
    requires Sound(s) && UpToDate(s, run)
    ensures Protected(s, run)
  {
    var learned := Urls(s, Learned(s, run.platform));
    UrlsSmaller(s, Learned(s, run.platform));
    forall url | url in run.urls ensures Held(s, run, learned, url) {
      var id :| id in s.links && InUse(s, run.platform, id) && s.links[id].key.url == url;
      assert s.links[id].origin == Job ==> id in Learned(s, run.platform);
    }
    assert Guarded(s, run, learned);
  }

  /** Nothing about the links of a platform differs. */
  ghost predicate SameLinks(s: Store, t: Store, platform: string) {
    forall id :: (id in s.links && s.links[id].key.platform == platform) ||
                 (id in t.links && t.links[id].key.platform == platform) ==>
                   id in s.links && id in t.links && s.links[id] == t.links[id]
  }

  lemma ElsewhereGuards(s: Store, t: Store, run: Run)
    requires SameLinks(s, t, run.platform) && Protected(s, run)
    ensures Protected(t, run)
  {
    var learned: set<string> :| Guarded(s, run, learned);
    assert Learned(t, run.platform) == Learned(s, run.platform);
    forall url | url in run.urls ensures Held(t, run, learned, url) {
      SameHeld(s, t, run, learned, url);
    }
    forall id | id in Learned(t, run.platform) ensures Known(t, run, learned, id) {
      assert Known(s, run, learned, id);
    }
    assert Guarded(t, run, learned);
  }

  lemma SameHeld(s: Store, t: Store, run: Run, learned: set<string>, url: string)
    requires SameLinks(s, t, run.platform) && Held(s, run, learned, url)
    ensures Held(t, run, learned, url)
  {
    assert Learned(t, run.platform) == Learned(s, run.platform);
    if url !in learned {
      var id :| id in s.links && InUse(s, run.platform, id) && s.links[id].key.url == url && s.links[id].origin != Job;
      assert InUse(t, run.platform, id);
    } else if UrlInUse(s, run.platform, url) {
      var id :| id in s.links && InUse(s, run.platform, id) && s.links[id].key.url == url;
      assert InUse(t, run.platform, id);
    } else {
      forall id | id in t.links ensures t.links[id].key != Key(run.platform, url) {
        assert id in s.links ==> s.links[id].key != Key(run.platform, url);
      }
    }
  }

  /** Learning a link does not undo the protection of a claimed run. */
  lemma LearnGuards(s: Store, key: Key, run: Run)
    requires Sound(s) && Protected(s, run)
    ensures Protected(LearnedFrom(s, key), run)
  {
    var t := LearnedFrom(s, key);
    if !Taken(s, key) {
      LearnedLinks(s, key);
      if key.platform != run.platform {
        ElsewhereGuards(s, t, run);
      } else {
        var learned: set<string> :| Guarded(s, run, learned);
        forall url | url in run.urls ensures Held(t, run, learned, url) {
          LearnHolds(s, key, run, learned, url);
        }
        forall id | id in Learned(t, run.platform) ensures Known(t, run, learned, id) {
          LearnKnows(s, key, run, learned, id);
        }
        assert Guarded(t, run, learned);
      }
    }
  }

  lemma LearnHolds(s: Store, key: Key, run: Run, learned: set<string>, url: string)
    requires Sound(s) && !Taken(s, key) && key.platform == run.platform && Held(s, run, learned, url)
    ensures Held(LearnedFrom(s, key), run, learned, url)
  {
    var t := LearnedFrom(s, key);
    LearnedLinks(s, key);
    if url !in learned {
      var id :| id in s.links && InUse(s, run.platform, id) && s.links[id].key.url == url && s.links[id].origin != Job;
      assert id in t.links && InUse(t, run.platform, id);
    } else if key.url == url {
      assert InUse(t, run.platform, s.next);
    } else if UrlInUse(s, run.platform, url) {
      var id :| id in s.links && InUse(s, run.platform, id) && s.links[id].key.url == url;
      if id in t.links {
        assert InUse(t, run.platform, id);
      } else {
        NotTakenAgain(s, t, key, run.platform, url, id);
      }
    } else {
      forall id | id in t.links ensures t.links[id].key != Key(run.platform, url) {
        assert id in s.links ==> s.links[id].key != Key(run.platform, url);
      }
    }
  }

  lemma NotTakenAgain(s: Store, t: Store, key: Key, platform: string, url: string, gone: Id)
    requires DistinctKeys(s.links) && gone in s.links && s.links[gone].key == Key(platform, url) && gone !in t.links
    requires forall id :: id in t.links ==> t.links[id].key == key || (id in s.links && t.links[id] == s.links[id])
    requires key != Key(platform, url)
    ensures !Taken(t, Key(platform, url))
  {
    forall id | id in t.links ensures t.links[id].key != Key(platform, url) {
      assert id in s.links && id != gone ==> s.links[id].key != s.links[gone].key;
    }
  }

  lemma LearnKnows(s: Store, key: Key, run: Run, learned: set<string>, id: Id)
    requires Sound(s) && !Taken(s, key) && key.platform == run.platform && Guarded(s, run, learned)
    requires id in Learned(LearnedFrom(s, key), run.platform)
    ensures Known(LearnedFrom(s, key), run, learned, id)
  {
    LearnedLinks(s, key);
    if id != s.next {
      assert id in Learned(s, run.platform) && Known(s, run, learned, id);
    } else if key.url in run.urls {
      assert Held(s, run, learned, key.url);
    }
  }

  /** Nor does adding one by hand. */
  lemma AddGuards(s: Store, key: Key, run: Run)
    requires Sound(s) && Protected(s, run)
    ensures Protected(Kept(s, Added(s, key)), run)
  {
    if !Taken(s, key) {
      var t := Inserted(s, key, Custom);
      InsertedSound(s, key, Custom);
      if key.platform != run.platform {
        ElsewhereGuards(s, t, run);
      } else {
        var learned: set<string> :| Guarded(s, run, learned);
        forall url | url in run.urls ensures Held(t, run, learned, url) {
          AddHolds(s, key, run, learned, url);
        }
        assert Learned(t, run.platform) == Learned(s, run.platform);
        forall id | id in Learned(t, run.platform) ensures Known(t, run, learned, id) {
          assert Known(s, run, learned, id);
        }
        assert Guarded(t, run, learned);
      }
    }
  }

  lemma AddHolds(s: Store, key: Key, run: Run, learned: set<string>, url: string)
    requires Sound(s) && !Taken(s, key) && key.platform == run.platform && Held(s, run, learned, url)
    ensures Held(Inserted(s, key, Custom), run, learned, url)
  {
    var t := Inserted(s, key, Custom);
    InsertedSound(s, key, Custom);
    assert Learned(t, run.platform) == Learned(s, run.platform);
    if url !in learned {
      var id :| id in s.links && InUse(s, run.platform, id) && s.links[id].key.url == url && s.links[id].origin != Job;
      assert InUse(t, run.platform, id);
    } else if key.url == url {
      assert InUse(t, run.platform, s.next);
    } else if UrlInUse(s, run.platform, url) {
      var id :| id in s.links && InUse(s, run.platform, id) && s.links[id].key.url == url;
      assert InUse(t, run.platform, id);
    } else {
      forall id | id in t.links ensures t.links[id].key != Key(run.platform, url) {
        assert id in s.links ==> s.links[id].key != Key(run.platform, url);
      }
    }
  }

  /** When the link that resolved has been displaced, some learned link is in use that the run did not
      find dead: as many were learned since as can be, and the list's learned addresses, less
      the one that resolved, are fewer. */
  lemma DisplacedByOthers(s: Store, run: Run, learned: set<string>, outcomes: seq<Tried>, url: string)
    requires Sound(s) && Guarded(s, run, learned) && url in learned && Displaced(s, run.platform, url)
    requires forall dead :: FoundDead(outcomes, dead) ==> dead in run.urls
    ensures exists id :: id in s.links && InUse(s, run.platform, id) && !FoundDead(outcomes, s.links[id].key.url)
  {
    var ids := Learned(s, run.platform);
    if forall id :: id in ids ==> !InUse(s, run.platform, id) || FoundDead(outcomes, s.links[id].key.url) {
      UrlsAsMany(s, run.platform, ids);
      forall other | other in Urls(s, ids) ensures other in learned - {url} {
        var id :| id in ids && s.links[id].key.url == other;
        assert Known(s, run, learned, id);
        assert s.links[id].key == Key(run.platform, other);
      }
      Fewer(Urls(s, ids), learned - {url});
      assert false;
    }
  }

  /** Whatever resolves in a protected run, some link in use was not found dead. */
  lemma SomeNotDead(s: Store, run: Run, verdict: string -> Verdict)
    requires Sound(s) && Protected(s, run) && AnyResolved(TriedUntil(run.urls, verdict))
    ensures exists id :: id in s.links && InUse(s, run.platform, id)
                         && !FoundDead(TriedUntil(run.urls, verdict), s.links[id].key.url)
  {
    var outcomes := TriedUntil(run.urls, verdict);
    var learned: set<string> :| Guarded(s, run, learned);
    TriedOnce(run.urls, verdict);
    var i :| 0 <= i < |outcomes| && outcomes[i].verdict == Resolves;
    var url := outcomes[i].url;
    assert Held(s, run, learned, url);
    if UrlInUse(s, run.platform, url) {
      var id :| id in s.links && InUse(s, run.platform, id) && s.links[id].key.url == url;
      assert !FoundDead(outcomes, url);
    } else {
      assert url in learned;
      DisplacedByOthers(s, run, learned, outcomes, url);
    }
  }

  /** A recorded run changes nothing about the links of other platforms. */
  lemma OtherPlatforms(s: Store, platform: string, outcomes: seq<Tried>, at: int, other: string)
    requires platform != other
    ensures SameLinks(s, Recorded(s, platform, outcomes, true, at), other)
  {
  }

  /** Every step keeps claimed runs protected. */
  lemma ClaimsStay(r: Runner, s: Step)
    requires ClaimsHold(r) && Enabled(r, s)
    requires s.Claim? ==> UpToDate(r.store, r.read[s.run])
    ensures ClaimsHold(Taking(r, s))
  {
    match s
    case Read(_, _, _) =>
    case Claim(k) =>
      ClaimGuards(r.store, r.read[k]);
    case Record(k, verdict, at) =>
      var outcomes := TriedUntil(r.read[k].urls, verdict);
      RecordedSound(r.store, r.read[k].platform, outcomes, true, at);
      forall j | j in r.claimed - {k} ensures Protected(Taking(r, s).store, r.read[j]) {
        OtherPlatforms(r.store, r.read[k].platform, outcomes, at, r.read[j].platform);
        ElsewhereGuards(r.store, Taking(r, s).store, r.read[j]);
      }
    case Learn(key) =>
      LearnedSound(r.store, key);
      forall j | j in r.claimed ensures Protected(Taking(r, s).store, r.read[j]) {
        LearnGuards(r.store, key, r.read[j]);
      }
    case Add(key) =>
      OperationsSound(r.store, Adding(key));
      forall j | j in r.claimed ensures Protected(Taking(r, s).store, r.read[j]) {
        AddGuards(r.store, key, r.read[j]);
      }
  }

  /** While claimed runs are protected no step costs a platform its last link. */
  lemma StepKeepsOne(r: Runner, s: Step, platform: string)
    requires ClaimsHold(r) && Enabled(r, s) && HasLinkInUse(r.store, platform)
    ensures HasLinkInUse(Taking(r, s).store, platform)
  {
    StepKeepsExactly(r, s, platform);
    if s.Record? && r.read[s.run].platform == platform && AnyResolved(TriedUntil(r.read[s.run].urls, s.verdict)) {
      SomeNotDead(r.store, r.read[s.run], s.verdict);
    }
  }

  /** Check runs never leave a platform without a link in use, however many there are, however they
      interleave and whatever is learned and added meanwhile, as long as each has a list that is
      up to date when it claims its platform. */
  lemma {:induction false} RunsKeepOne(r: Runner, steps: seq<Step>, platform: string)
    requires ClaimsHold(r) && Trace(r, steps) && ClaimsUpToDate(r, steps) && HasLinkInUse(r.store, platform)
    ensures HasLinkInUse(TakingAll(r, steps).store, platform)
    decreases |steps|
  {
    if steps != [] {
      StepKeepsOne(r, steps[0], platform);
      ClaimsStay(r, steps[0]);
      RunsKeepOne(Taking(r, steps[0]), steps[1..], platform);
    }
  }

  /** What a claim with an up-to-date list protects, until the run is recorded: every address of the
      list is in use, or was learned and has been displaced by as many newer ones as are kept. */
  lemma {:induction false} ClaimedRunsKeepOne(r: Runner, steps: seq<Step>, k: nat, url: string)
    requires ClaimsHold(r) && Trace(r, steps) && ClaimsUpToDate(r, steps)
    requires var end := TakingAll(r, steps); k in end.claimed && k in end.read && url in end.read[k].urls
    ensures var end := TakingAll(r, steps);
            UrlInUse(end.store, end.read[k].platform, url) || Displaced(end.store, end.read[k].platform, url)
    decreases |steps|
  {
    if steps == [] {
      var learned: set<string> :| Guarded(r.store, r.read[k], learned);
      assert Held(r.store, r.read[k], learned, url);
    } else {
      ClaimsStay(r, steps[0]);
      ClaimedRunsKeepOne(Taking(r, steps[0]), steps[1..], k, url);
    }
  }

  function VerdictsOf(a: Verdict, b: Verdict): string -> Verdict {
    url => if url == "a" then a else b
  }

  lemma TriedTwo(x: string, y: string, verdict: string -> Verdict)
    requires verdict(x) != Resolves && verdict(y) == Resolves
    ensures TriedUntil([x, y], verdict) == [Tried(x, verdict(x)), Tried(y, Resolves)]
  {
    assert [x, y][1..] == [y];
  }

  lemma TraceStep(r: Runner, s: Step, rest: seq<Step>)
    requires Enabled(r, s) && Trace(Taking(r, s), rest)
    ensures Trace(r, [s] + rest) && TakingAll(r, [s] + rest) == TakingAll(Taking(r, s), rest)
  {
    assert ([s] + rest)[1..] == rest;
  }

  /** Both links of a platform, with what is stored about them. */
  function Pair(aOn: bool, bOn: bool, passes: map<Key, int>): Store {
    Store(map[0 := Link(Key("p", "a"), Builtin, aOn, false), 1 := Link(Key("p", "b"), Builtin, bOn, false)], passes, 2)
  }

  /** A run that resolves `y` after `x` did not. */
  lemma PairRecorded(aOn: bool, bOn: bool, passes: map<Key, int>, urls: seq<string>, verdict: string -> Verdict, at: int)
    requires urls == ["a", "b"] || urls == ["b", "a"]
    requires verdict(urls[0]) != Resolves && verdict(urls[1]) == Resolves
    ensures Recorded(Pair(aOn, bOn, passes), "p", TriedUntil(urls, verdict), true, at) ==
            Pair(aOn && verdict("a") != Fails, bOn && verdict("b") != Fails, passes[Key("p", urls[1]) := at])
  {
    TriedTwo(urls[0], urls[1], verdict);
    TwoPassed(passes, urls[0], urls[1], verdict, at);
    TwoFound(urls[0], urls[1], verdict);
    PairRetired(aOn, bOn, passes, [Tried(urls[0], verdict(urls[0])), Tried(urls[1], Resolves)], verdict);
  }

  lemma PairRetired(aOn: bool, bOn: bool, passes: map<Key, int>, outcomes: seq<Tried>, verdict: string -> Verdict)
    requires FoundDead(outcomes, "a") <==> verdict("a") == Fails
    requires FoundDead(outcomes, "b") <==> verdict("b") == Fails
    ensures Retired(Pair(aOn, bOn, passes).links, "p", outcomes)
         == Pair(aOn && verdict("a") != Fails, bOn && verdict("b") != Fails, passes).links
  {
  }

  lemma TwoPassed(passes: map<Key, int>, x: string, y: string, verdict: string -> Verdict, at: int)
    requires verdict(x) != Resolves
    ensures Passed(passes, "p", [Tried(x, verdict(x)), Tried(y, Resolves)], at) == passes[Key("p", y) := at]
  {
    var outcomes := [Tried(x, verdict(x)), Tried(y, Resolves)];
    assert outcomes[..1] == [outcomes[0]] && outcomes[..1][..0] == [];
    assert Passed(passes, "p", outcomes[..1], at) == passes;
  }

  lemma TwoFound(x: string, y: string, verdict: string -> Verdict)
    requires verdict(x) != Resolves
    ensures var outcomes := [Tried(x, verdict(x)), Tried(y, Resolves)];
            AnyResolved(outcomes) && forall url :: FoundDead(outcomes, url) <==> url == x && verdict(url) == Fails
  {
    var outcomes := [Tried(x, verdict(x)), Tried(y, Resolves)];
    assert outcomes[1].verdict == Resolves;
    forall url ensures FoundDead(outcomes, url) <==> url == x && verdict(url) == Fails {
      if url == x && verdict(url) == Fails {
        assert outcomes[0] == Tried(url, Fails);
      }
    }
  }

  const NO_PASSES: map<Key, int> := map[]
  const B_PASSED: map<Key, int> := map[][Key("p", "b") := 1]

  lemma PairList(passes: map<Key, int>, x: Id, y: Id)
    requires (x == 0 && y == 1) || (x == 1 && y == 0)
    requires TriedBefore(Pair(true, true, passes), x, y)
    ensures RunList(Pair(true, true, passes), "p", if x == 0 then AB else BA)
  {
    var s := Pair(true, true, passes);
    var ids: seq<Id> := [x, y];
    assert x in ids && y in ids;
    assert InUse(s, "p", 0) && InUse(s, "p", 1);
    assert ListedBy(s, "p", if x == 0 then AB else BA, ids);
  }

  lemma PairLists()
    ensures RunList(Pair(true, true, NO_PASSES), "p", AB) && RunList(Pair(true, true, B_PASSED), "p", BA)
  {
    assert TriedBefore(Pair(true, true, NO_PASSES), 0, 1);
    PairList(NO_PASSES, 0, 1);
    assert TriedBefore(Pair(true, true, B_PASSED), 1, 0);
    PairList(B_PASSED, 1, 0);
  }

  lemma {:induction false} TraceTogether(r: Runner, xs: seq<Step>, ys: seq<Step>)
    requires Trace(r, xs) && Trace(TakingAll(r, xs), ys)
    ensures Trace(r, xs + ys) && TakingAll(r, xs + ys) == TakingAll(TakingAll(r, xs), ys)
    decreases |xs|
  {
    if xs == [] {
      assert xs + ys == ys;
    } else {
      assert (xs + ys)[0] == xs[0] && (xs + ys)[1..] == xs[1..] + ys;
      TraceTogether(Taking(r, xs[0]), xs[1..], ys);
    }
  }

  const AB := ["a", "b"]
  const BA := ["b", "a"]

  /** One run claimed and recorded. */
  lemma RunOut(r: Runner, k: nat, verdict: string -> Verdict, at: int)
    requires k in r.read && k !in r.claimed && r.read[k].platform !in r.running
    ensures var steps := [Claim(k), Record(k, verdict, at)];
            && Trace(r, steps)
            && TakingAll(r, steps) ==
               Runner(Recorded(r.store, r.read[k].platform, TriedUntil(r.read[k].urls, verdict), true, at),
                      r.running, r.read - {k}, r.claimed)
  {
    var claimed := Taking(r, Claim(k));
    TraceStep(claimed, Record(k, verdict, at), []);
    TraceStep(r, Claim(k), [Record(k, verdict, at)]);
    assert [Claim(k)] + [Record(k, verdict, at)] == [Claim(k), Record(k, verdict, at)];
    assert [Record(k, verdict, at)] + [] == [Record(k, verdict, at)];
    assert r.running + {r.read[k].platform} - {r.read[k].platform} == r.running;
    assert r.claimed + {k} - {k} == r.claimed;
  }

  lemma ReadIn(r: Runner, k: nat, platform: string, urls: seq<string>)
    requires k !in r.read && urls != [] && RunList(r.store, platform, urls)
    ensures Trace(r, [Read(k, platform, urls)])
    ensures TakingAll(r, [Read(k, platform, urls)]) == r.(read := r.read[k := Run(platform, urls)])
  {
    TraceStep(r, Read(k, platform, urls), []);
    assert [Read(k, platform, urls)] + [] == [Read(k, platform, urls)];
  }

  function Waiting(store: Store, read: map<nat, Run>): Runner {
    Runner(store, {}, read, {})
  }

  /** Whether the runner can get from one state to another by reading, claiming and recording. */
  ghost predicate Reaches(r: Runner, end: Runner) {
    exists steps :: Trace(r, steps) && TakingAll(r, steps) == end
  }

  lemma ReachesOn(r: Runner, mid: Runner, end: Runner)
    requires Reaches(r, mid) && Reaches(mid, end)
    ensures Reaches(r, end)
  {
    var xs :| Trace(r, xs) && TakingAll(r, xs) == mid;
    var ys :| Trace(mid, ys) && TakingAll(mid, ys) == end;
    TraceTogether(r, xs, ys);
    assert Trace(r, xs + ys) && TakingAll(r, xs + ys) == end;
  }

  lemma ReachesByReading(store: Store, read: map<nat, Run>, k: nat, urls: seq<string>)
    requires k !in read && urls != [] && RunList(store, "p", urls)
    ensures Reaches(Waiting(store, read), Waiting(store, read[k := Run("p", urls)]))
  {
    var steps := [Read(k, "p", urls)];
    ReadIn(Waiting(store, read), k, "p", urls);
    assert Trace(Waiting(store, read), steps);
  }

  lemma ReachesByRunning(aOn: bool, bOn: bool, passes: map<Key, int>, read: map<nat, Run>, k: nat, urls: seq<string>,
                         verdict: string -> Verdict, at: int)
    requires urls == AB || urls == BA
    requires verdict(urls[0]) != Resolves && verdict(urls[1]) == Resolves && k !in read
    ensures Reaches(Waiting(Pair(aOn, bOn, passes), read[k := Run("p", urls)]),
                    Waiting(Pair(aOn && verdict("a") != Fails, bOn && verdict("b") != Fails, passes[Key("p", urls[1]) := at]), read))
  {
    var r := Waiting(Pair(aOn, bOn, passes), read[k := Run("p", urls)]);
    var steps := [Claim(k), Record(k, verdict, at)];
    PairRecorded(aOn, bOn, passes, urls, verdict, at);
    RunOut(r, k, verdict, at);
    assert read[k := Run("p", urls)] - {k} == read;
    assert Trace(r, steps);
  }

  const NOTHING_READ: map<nat, Run> := map[]

  lemma ReadsSwap(read: map<nat, Run>, j: nat, k: nat, x: Run, y: Run)
    requires j != k
    ensures read[j := x][k := y] == read[k := y][j := x]
  {
  }

  /** The links are read before the platform is claimed, so the condition can fail: two starts
      that read their lists at different times, before another run is recorded and after, leave
      both links of a platform off, each found dead by a run the other resolved in. */
  lemma StaleListsDisableAll() returns (passes: map<Key, int>)
    ensures Reaches(Waiting(Pair(true, true, NO_PASSES), NOTHING_READ), Waiting(Pair(false, false, passes), NOTHING_READ))
    ensures HasLinkInUse(Pair(true, true, NO_PASSES), "p") && !HasLinkInUse(Pair(false, false, passes), "p")
  {
    passes := B_PASSED[Key("p", "b") := 2][Key("p", "a") := 3];
    var r0 := Waiting(Pair(true, true, NO_PASSES), NOTHING_READ);
    var r3 := Waiting(Pair(true, true, B_PASSED), NOTHING_READ[1 := Run("p", AB)]);
    assert InUse(r0.store, "p", 0);
    assert Reaches(r0, r3) by {
      OneStale();
    }
    assert Reaches(r3, Waiting(Pair(false, false, passes), NOTHING_READ)) by {
      TwoClash();
    }
    ReachesOn(r0, r3, Waiting(Pair(false, false, passes), NOTHING_READ));
  }

  /** Two starts read the same list. */
  lemma ReadTwice(store: Store, urls: seq<string>)
    requires urls != [] && RunList(store, "p", urls)
    ensures Reaches(Waiting(store, NOTHING_READ), Waiting(store, NOTHING_READ[1 := Run("p", urls)][0 := Run("p", urls)]))
  {
    var one := NOTHING_READ[1 := Run("p", urls)];
    ReachesByReading(store, NOTHING_READ, 1, urls);
    ReachesByReading(store, one, 0, urls);
    ReachesOn(Waiting(store, NOTHING_READ), Waiting(store, one), Waiting(store, one[0 := Run("p", urls)]));
  }

  lemma BothRead()
    ensures var both := Pair(true, true, NO_PASSES);
            Reaches(Waiting(both, NOTHING_READ), Waiting(both, NOTHING_READ[1 := Run("p", AB)][0 := Run("p", AB)]))
  {
    PairLists();
    ReadTwice(Pair(true, true, NO_PASSES), AB);
  }

  /** A run is recorded after another has read its list. */
  lemma OneStale()
    ensures Reaches(Waiting(Pair(true, true, NO_PASSES), NOTHING_READ),
                    Waiting(Pair(true, true, B_PASSED), NOTHING_READ[1 := Run("p", AB)]))
  {
    var both := Pair(true, true, NO_PASSES);
    var one := NOTHING_READ[1 := Run("p", AB)];
    BothRead();
    ReachesByRunning(true, true, NO_PASSES, one, 0, AB, VerdictsOf(WantsLogin, Resolves), 1);
    ReachesOn(Waiting(both, NOTHING_READ), Waiting(both, one[0 := Run("p", AB)]),
              Waiting(Pair(true, true, B_PASSED), one));
  }

  /** Each of the next two runs finds the link dead that the other resolves. */
  lemma TwoClash()
    ensures Reaches(Waiting(Pair(true, true, B_PASSED), NOTHING_READ[1 := Run("p", AB)]),
                    Waiting(Pair(false, false, B_PASSED[Key("p", "b") := 2][Key("p", "a") := 3]), NOTHING_READ))
  {
    var first := Waiting(Pair(true, true, B_PASSED), NOTHING_READ[1 := Run("p", AB)]);
    var late := NOTHING_READ[2 := Run("p", BA)];
    var passes := B_PASSED[Key("p", "b") := 2];
    PairLists();
    ReachesByReading(Pair(true, true, B_PASSED), NOTHING_READ[1 := Run("p", AB)], 2, BA);
    ReadsSwap(NOTHING_READ, 1, 2, Run("p", AB), Run("p", BA));
    ReachesByRunning(true, true, B_PASSED, late, 1, AB, VerdictsOf(Fails, Resolves), 2);
    ReachesOn(first, Waiting(Pair(true, true, B_PASSED), late[1 := Run("p", AB)]), Waiting(Pair(false, true, passes), late));
    ReachesByRunning(false, true, passes, NOTHING_READ, 2, BA, VerdictsOf(Resolves, Fails), 3);
    ReachesOn(first, Waiting(Pair(false, true, passes), late),
              Waiting(Pair(false, false, passes[Key("p", "a") := 3]), NOTHING_READ));
  }
}
