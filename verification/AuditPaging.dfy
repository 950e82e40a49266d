/** Listing the audit log page by page: newest first, each page's cursor the id of its last entry,
    while entries are being added. */
module AuditPaging {
  import opened Json

  datatype Entry = Entry(id: nat, at: int, actor: Option<string>, action: string, kind: string, target: Option<string>)

  /** The log as it is written: ids grow with time. */
  type Log = seq<Entry>

  ghost predicate Ordered(log: Log) {
    forall i, j :: 0 <= i < j < |log| ==> log[i].id < log[j].id
  }

  datatype Filter = Filter(
    actor: Option<string>,
    action: Option<string>,
    kind: Option<string>,
    target: Option<string>,
    since: Option<int>,
    until: Option<int>,
    limit: Option<nat>)

  const DEFAULT_LIMIT: nat := 50
  const MAX_LIMIT: nat := 500

  function EffectiveLimit(f: Filter): (n: nat)
    ensures 1 <= n <= 500
    ensures f.limit.None? ==> n == 50
    ensures f.limit.Some? && 1 <= f.limit.value <= 500 ==> n == f.limit.value
    ensures f.limit.Some? && f.limit.value > 500 ==> n == 500
  {
    var asked := if f.limit.Some? then f.limit.value else DEFAULT_LIMIT;
    if asked < 1 then 1 else if asked > MAX_LIMIT then MAX_LIMIT else asked
  }

  predicate Matches(f: Filter, e: Entry) {
    && (f.actor.Some? ==> e.actor == f.actor)
    && (f.action.Some? ==> e.action == f.action.value)
    && (f.kind.Some? ==> e.kind == f.kind.value)
    && (f.target.Some? ==> e.target == f.target)
    && (f.since.Some? ==> e.at >= f.since.value)
    && (f.until.Some? ==> e.at <= f.until.value)
  }

  predicate Selected(f: Filter, before: Option<nat>, e: Entry) {
    Matches(f, e) && (before.Some? ==> e.id < before.value)
  }

  /** The entries a filter selects, newest first. */
  function Newest(log: Log, f: Filter, before: Option<nat>): seq<Entry>
    decreases |log|
  {
    if log == [] then []
    else
      var last := log[|log| - 1];
      (if Selected(f, before, last) then [last] else []) + Newest(log[..|log| - 1], f, before)
  }

  datatype Page = Page(entries: seq<Entry>, next: Option<nat>)

  /** One page: as many entries as the limit allows, and a cursor when there are more. */
  function PageOf(log: Log, f: Filter, before: Option<nat>): Page {
    Cut(Newest(log, f, before), EffectiveLimit(f))
  }

  /** Reads from the newest entry down until one more than the limit is found, and drops that one. */
  method List(log: Log, f: Filter, before: Option<nat>) returns (page: Page)
    ensures page == PageOf(log, f, before)
  {
    var limit := EffectiveLimit(f);
    var entries: seq<Entry> := [];
    var n := |log|;
    ghost var all := Newest(log, f, before);
    ghost var rest := all;
    assert log[..n] == log;
    while n > 0 && |entries| <= limit
      invariant 0 <= n <= |log| && |entries| <= limit + 1
      invariant rest == Newest(log[..n], f, before) && all == entries + rest
    {
      n := n - 1;
      NewestStep(log, n, f, before, entries);
      rest := Newest(log[..n], f, before);
      if Selected(f, before, log[n]) {
        entries := entries + [log[n]];
      }
    }
    CutSame(entries, rest, limit);
    return Cut(entries, limit);
  }

  lemma CutSame(found: seq<Entry>, more: seq<Entry>, limit: nat)
    requires limit > 0 && (|found| > limit || more == [])
    ensures Cut(found, limit) == Cut(found + more, limit)
  {
    if |found| > limit {
      assert (found + more)[..limit] == found[..limit];
    } else {
      assert found + more == found;
    }
  }

  /** The entry beyond the limit only says that there is another page. */
  function Cut(found: seq<Entry>, limit: nat): Page
    requires limit > 0
  {
    if |found| > limit then Page(found[..limit], Some(found[limit - 1].id)) else Page(found, None)
  }

  lemma NewestStep(log: Log, n: nat, f: Filter, before: Option<nat>, found: seq<Entry>)
    requires n < |log|
    ensures found + Newest(log[..n + 1], f, before) ==
            (if Selected(f, before, log[n]) then found + [log[n]] else found) + Newest(log[..n], f, before)
  {
    var rest := Newest(log[..n], f, before);
    assert log[..n + 1][..n] == log[..n];
    if Selected(f, before, log[n]) {
      assert found + ([log[n]] + rest) == found + [log[n]] + rest;
    }
  }

  /** A page is full exactly when there is that much to show, and names another exactly when there
      is more. */
  lemma PageIsFull(log: Log, f: Filter, before: Option<nat>)
    ensures var page, all, limit := PageOf(log, f, before), Newest(log, f, before), EffectiveLimit(f);
            && page.entries <= all
            && |page.entries| == (if |all| < limit then |all| else limit)
            && (page.next.Some? <==> |all| > limit)
            && (page.next.Some? ==> page.next.value == all[limit - 1].id)
  {
  }

  // ---- the filter as it is put to the database ----

  /** One condition of the query. */
  datatype Clause =
    | ActorIs(id: string)
    | ActionIs(name: string)
    | KindIs(name: string)
    | TargetIs(id: string)
    | NotBefore(time: int)
    | NotAfter(time: int)
    | Below(cursor: nat)

  predicate Holds(c: Clause, e: Entry) {
    match c
    case ActorIs(id) => e.actor == Some(id)
    case ActionIs(name) => e.action == name
    case KindIs(name) => e.kind == name
    case TargetIs(id) => e.target == Some(id)
    case NotBefore(time) => time <= e.at
    case NotAfter(time) => e.at <= time
    case Below(cursor) => e.id < cursor
  }

  predicate AllHold(clauses: seq<Clause>, e: Entry) {
    forall i :: 0 <= i < |clauses| ==> Holds(clauses[i], e)
  }

  lemma OneMoreHolds(clauses: seq<Clause>, c: Clause)
    ensures forall e :: AllHold(clauses + [c], e) <==> AllHold(clauses, e) && Holds(c, e)
  {
    forall e ensures AllHold(clauses + [c], e) <==> AllHold(clauses, e) && Holds(c, e) {
      if AllHold(clauses + [c], e) {
        assert (clauses + [c])[|clauses|] == c;
        forall i | 0 <= i < |clauses| ensures Holds(clauses[i], e) {
          assert (clauses + [c])[i] == clauses[i];
        }
      }
    }
  }

  /** The conditions put to the database select exactly what the filter means. */
  method Clauses(f: Filter, before: Option<nat>) returns (clauses: seq<Clause>)
    ensures forall e :: AllHold(clauses, e) <==> Selected(f, before, e)
  {
    clauses := [];
    if f.actor.Some? {
      OneMoreHolds(clauses, ActorIs(f.actor.value));
      clauses := clauses + [ActorIs(f.actor.value)];
    }
    if f.action.Some? {
      OneMoreHolds(clauses, ActionIs(f.action.value));
      clauses := clauses + [ActionIs(f.action.value)];
    }
    if f.kind.Some? {
      OneMoreHolds(clauses, KindIs(f.kind.value));
      clauses := clauses + [KindIs(f.kind.value)];
    }
    if f.target.Some? {
      OneMoreHolds(clauses, TargetIs(f.target.value));
      clauses := clauses + [TargetIs(f.target.value)];
    }
    if f.since.Some? {
      OneMoreHolds(clauses, NotBefore(f.since.value));
      clauses := clauses + [NotBefore(f.since.value)];
    }
    if f.until.Some? {
      OneMoreHolds(clauses, NotAfter(f.until.value));
      clauses := clauses + [NotAfter(f.until.value)];
    }
    if before.Some? {
      OneMoreHolds(clauses, Below(before.value));
      clauses := clauses + [Below(before.value)];
    }
  }

  // ---- what is selected ----

  /** Everything selected is there, once, newest first, and nothing else is. */
  lemma {:induction false} NewestIsExact(log: Log, f: Filter, before: Option<nat>)
    requires Ordered(log)
    ensures forall e :: e in Newest(log, f, before) <==> e in log && Selected(f, before, e)
    ensures forall i, j :: 0 <= i < j < |Newest(log, f, before)| ==>
              Newest(log, f, before)[i].id > Newest(log, f, before)[j].id
    decreases |log|
  {
    if log != [] {
      var n := |log| - 1;
      NewestIsExact(log[..n], f, before);
      assert log == log[..n] + [log[n]];
      forall e | e in log[..n] ensures e.id < log[n].id {
      }
    }
  }

  /** Entries added after the cursor was taken are not seen through it. */
  lemma {:induction false} LaterUnseen(log: Log, more: Log, f: Filter, cursor: nat)
    requires Ordered(log + more)
    requires forall e :: e in more ==> e.id >= cursor
    ensures Newest(log + more, f, Some(cursor)) == Newest(log, f, Some(cursor))
    decreases |more|
  {
    if more == [] {
      assert log + more == log;
    } else {
      var n := |more| - 1;
      assert (log + more)[..|log + more| - 1] == log + more[..n];
      assert (log + more)[|log + more| - 1] == more[n] && more[n] in more;
      LaterUnseen(log, more[..n], f, cursor);
    }
  }

  /** What is selected from the entries before one is older than it. */
  lemma {:induction false} SelectedAreOlder(log: Log, f: Filter, before: Option<nat>, k: nat)
    requires Ordered(log) && log != [] && k < |Newest(log[..|log| - 1], f, before)|
    ensures Newest(log[..|log| - 1], f, before)[k].id < log[|log| - 1].id
    decreases |log|
  {
    var n := |log| - 1;
    var earlier := log[..n];
    assert earlier[n - 1] == log[n - 1] && log[n - 1].id < log[n].id;
    var here := if Selected(f, before, earlier[n - 1]) then 1 else 0;
    if k >= here {
      SelectedAreOlder(earlier, f, before, k - here);
    }
  }

  lemma Shifted<T>(head: seq<T>, rest: seq<T>, k: nat)
    requires |head| <= k < |head| + |rest|
    ensures (head + rest)[k] == rest[k - |head|] && (head + rest)[k + 1..] == rest[k - |head| + 1..]
  {
  }

  /** What a cursor selects is what follows the entry it names. */
  lemma {:induction false} CursorContinues(log: Log, f: Filter, before: Option<nat>, k: nat)
    requires Ordered(log) && k < |Newest(log, f, before)|
    ensures Newest(log, f, Some(Newest(log, f, before)[k].id)) == Newest(log, f, before)[k + 1..]
    decreases |log|
  {
    var n := |log| - 1;
    var all, rest := Newest(log, f, before), Newest(log[..n], f, before);
    var here := if Selected(f, before, log[n]) then 1 else 0;
    if here == 1 && k == 0 {
      CutBefore(log[..n], f, before, log[n].id);
    } else {
      CursorContinues(log[..n], f, before, k - here);
      SelectedAreOlder(log, f, before, k - here);
      Shifted(if here == 1 then [log[n]] else [], rest, k);
      NotNewer(log, f, all[k].id);
    }
  }

  lemma NotNewer(log: Log, f: Filter, cursor: nat)
    requires log != [] && log[|log| - 1].id >= cursor
    ensures Newest(log, f, Some(cursor)) == Newest(log[..|log| - 1], f, Some(cursor))
  {
  }

  /** A cursor above everything, and below the bound already there, changes nothing. */
  lemma {:induction false} CutBefore(log: Log, f: Filter, before: Option<nat>, cursor: nat)
    requires forall i :: 0 <= i < |log| ==> log[i].id < cursor
    requires before.Some? ==> cursor < before.value
    ensures Newest(log, f, Some(cursor)) == Newest(log, f, before)
    decreases |log|
  {
    if log != [] {
      CutBefore(log[..|log| - 1], f, before, cursor);
    }
  }

  // ---- following the cursor ----

  /** A reading: each page taken from the log as it stood then, from where the one before left
      off. The log only grows. */
  datatype Reading =
    | Last(log: Log)
    | More(log: Log, rest: Reading)

  ghost predicate Follows(reading: Reading, f: Filter, before: Option<nat>) {
    && Ordered(reading.log)
    && (reading.More? ==>
          && PageOf(reading.log, f, before).next.Some?
          && reading.log <= reading.rest.log
          && Follows(reading.rest, f, PageOf(reading.log, f, before).next))
  }

  /** The pages read, one after the other. */
  function Pages(reading: Reading, f: Filter, before: Option<nat>): seq<Page> {
    var page := PageOf(reading.log, f, before);
    if reading.Last? then [page] else [page] + Pages(reading.rest, f, page.next)
  }

  function Shown(pages: seq<Page>): seq<Entry> {
    if pages == [] then [] else pages[0].entries + Shown(pages[1..])
  }

  /** The next page continues where this one ends, whatever was added in between. */
  lemma NextPage(log: Log, later: Log, f: Filter, before: Option<nat>)
    requires Ordered(log) && Ordered(later) && log <= later && PageOf(log, f, before).next.Some?
    ensures Newest(later, f, PageOf(log, f, before).next) == Newest(log, f, before)[EffectiveLimit(f)..]
  {
    var limit := EffectiveLimit(f);
    var all := Newest(log, f, before);
    var cursor := all[limit - 1].id;
    var more := later[|log|..];
    assert later == log + more;
    NewestIsExact(log, f, before);
    assert all[limit - 1] in all && all[limit - 1] in log;
    var i :| 0 <= i < |log| && log[i] == all[limit - 1];
    forall e | e in more ensures e.id >= cursor {
      var j :| 0 <= j < |more| && more[j] == e;
      assert later[i] == log[i] && later[|log| + j] == more[j];
    }
    LaterUnseen(log, more, f, cursor);
    CursorContinues(log, f, before, limit - 1);
  }

  /** Paging is exact: following the cursor to the page without one shows every entry selected when
      the reading began, newest first, each once, whatever the limit and whatever was added
      meanwhile; stopping earlier shows the newest of them, a full page each time. */
  lemma {:induction false} PagesAreExact(reading: Reading, f: Filter, before: Option<nat>)
    requires Follows(reading, f, before)
    ensures var pages := Pages(reading, f, before);
            var all := Newest(reading.log, f, before);
            && |pages| > 0
            && (pages[|pages| - 1].next.None? ==> Shown(pages) == all)
            && (pages[|pages| - 1].next.Some? ==> |pages| <= |Shown(pages)| < |all| && Shown(pages) <= all)
  {
    ShownFirst(reading, f, before);
    if reading.More? {
      var cursor := PageOf(reading.log, f, before).next;
      PagesAreExact(reading.rest, f, cursor);
      NextPage(reading.log, reading.rest.log, f, before);
      Continued(Newest(reading.log, f, before), EffectiveLimit(f), Shown(Pages(reading.rest, f, cursor)));
    }
  }

  lemma ShownFirst(reading: Reading, f: Filter, before: Option<nat>)
    ensures var page, pages := PageOf(reading.log, f, before), Pages(reading, f, before);
            var rest := if reading.Last? then [] else Pages(reading.rest, f, page.next);
            && |pages| == 1 + |rest|
            && pages[|pages| - 1] == (if rest == [] then page else rest[|rest| - 1])
            && Shown(pages) == page.entries + Shown(rest)
    ensures reading.More? ==> |Pages(reading.rest, f, PageOf(reading.log, f, before).next)| > 0
  {
    var page, pages := PageOf(reading.log, f, before), Pages(reading, f, before);
    assert pages[1..] == if reading.Last? then [] else Pages(reading.rest, f, page.next);
  }

  lemma Continued<T>(all: seq<T>, n: nat, shown: seq<T>)
    requires n <= |all| && shown <= all[n..]
    ensures all[..n] + shown <= all
    ensures shown == all[n..] ==> all[..n] + shown == all
  {
    assert all == all[..n] + all[n..];
  }

  /** Following the cursor ends: a reading has at most one page more than entries were selected when
      it began. */
  lemma ReadingEnds(reading: Reading, f: Filter, before: Option<nat>)
    requires Follows(reading, f, before)
    ensures |Pages(reading, f, before)| <= |Newest(reading.log, f, before)| + 1
    ensures Pages(reading, f, before)[|Pages(reading, f, before)| - 1].next.Some? ==>
              |Pages(reading, f, before)| < |Newest(reading.log, f, before)|
  {
    PagesAreExact(reading, f, before);
    if reading.More? {
      ReadingEnds(reading.rest, f, PageOf(reading.log, f, before).next);
      NextPage(reading.log, reading.rest.log, f, before);
    }
  }
}
