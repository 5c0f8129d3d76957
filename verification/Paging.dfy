/**
  The journal in pages: events newest first, cut after the cursor, at most `limit` at a time, with
  the id of the last one as the cursor of the next call.
*/
module Paging {
  import opened Common

  type Id = nat
  datatype Severity = Info | Warning | Error | Critical
  datatype Scope = All | Important | Errors | Changes
  datatype Event = Event(id: Id, at: int, category: string, change: bool, important: bool, severity: Severity)
  datatype Query = Query(scope: Scope, categories: set<string>, found: Event -> bool, limit: Option<int>)
  datatype Page = Page(events: seq<Event>, total: nat, next: Option<Id>)

  /** Earlier in the list: newer, or of the same time with a greater id. */
  predicate Before(x: Event, y: Event) {
    x.at > y.at || (x.at == y.at && x.id > y.id)
  }

  predicate Ordered(log: seq<Event>) {
    forall i, j :: 0 <= i < j < |log| ==> Before(log[i], log[j])
  }

  predicate UniqueIds(log: seq<Event>) {
    forall i, j :: 0 <= i < j < |log| ==> log[i].id != log[j].id
  }

  predicate Wanted(e: Event, q: Query) {
    && (q.categories == {} || e.category in q.categories)
    && (q.scope == Important ==> e.important || e.severity == Warning || e.severity == Error || e.severity == Critical)
    && (q.scope == Errors ==> e.severity == Error || e.severity == Critical)
    && (q.scope == Changes ==> e.change)
    && q.found(e)
  }

  function Filter(log: seq<Event>, q: Query): seq<Event> {
    if log == [] then [] else (if Wanted(log[0], q) then [log[0]] else []) + Filter(log[1..], q)
  }

  function FindIndex(s: seq<Event>, id: Id): (k: int)
    ensures -1 <= k < |s|
    ensures k >= 0 ==> s[k].id == id && forall i :: 0 <= i < k ==> s[i].id != id
    ensures k < 0 ==> forall i :: 0 <= i < |s| ==> s[i].id != id
  {
    if s == [] then -1
    else if s[0].id == id then 0
    else
      var k := FindIndex(s[1..], id);
      if k < 0 then -1 else k + 1
  }

  /** The limit asked for, brought into 1..100; 50 when none is asked for. */
  function Limit(q: Query): (n: nat)
    ensures q.limit.None? ==> n == 50
    ensures q.limit.Some? ==> n == if q.limit.value < 1 then 1 else if q.limit.value > 100 then 100 else q.limit.value
  {
    Max(1, Min(100, if q.limit.Some? then q.limit.value else 50))
  }

  /** The wanted events behind the one with the given id; all of them when there is none such. */
  function Available(searched: seq<Event>, before: Option<Id>): seq<Event> {
    var beforeIndex := if before.Some? then FindIndex(searched, before.value) else -1;
    if beforeIndex >= 0 then searched[beforeIndex + 1..] else searched
  }

  function List(log: seq<Event>, q: Query, before: Option<Id>): Page {
    var searched := Filter(log, q);
    FirstPage(Available(searched, before), |searched|, Limit(q))
  }

  function FirstPage(available: seq<Event>, total: nat, limit: nat): Page
    requires limit > 0
  {
    var events := available[..Min(limit, |available|)];
    Page(events, total, if |available| > limit then Some(events[|events| - 1].id) else None)
  }

  // ---------- lists in order ----------

  lemma {:induction false} FilterHas(log: seq<Event>, q: Query, e: Event)
    ensures e in Filter(log, q) <==> e in log && Wanted(e, q)
  {
    if log != [] {
      FilterHas(log[1..], q, e);
      assert e in log <==> e == log[0] || e in log[1..];
    }
  }

  lemma {:induction false} FilterOrdered(log: seq<Event>, q: Query)
    requires Ordered(log)
    ensures Ordered(Filter(log, q))
  {
    if log != [] {
      FilterOrdered(log[1..], q);
      var rest := Filter(log[1..], q);
      forall i | 0 <= i < |rest| ensures Before(log[0], rest[i]) {
        FilterHas(log[1..], q, rest[i]);
      }
    }
  }

  /** The rows of a table in the order of the query are one list only. */
  lemma {:induction false} OrderIsUnique(a: seq<Event>, b: seq<Event>)
    requires Ordered(a) && Ordered(b) && forall e :: e in a <==> e in b
    ensures a == b
  {
    var first := if b == [] then None else Some(b[0]);
    assert first.Some? ==> first.value in b;
    if a != [] {
      assert a[0] in b && b != [] && b[0] in a;
      assert a[0] == b[0];
      forall e ensures e in a[1..] <==> e in b[1..] {
        assert e in a <==> e == a[0] || e in a[1..];
        assert e in b <==> e == b[0] || e in b[1..];
      }
      OrderIsUnique(a[1..], b[1..]);
      assert a == [a[0]] + a[1..] && b == [b[0]] + b[1..];
    }
  }

  lemma {:induction false} PartIsShorter(a: seq<Event>, b: seq<Event>)
    requires Ordered(a) && Ordered(b) && forall e :: e in a ==> e in b
    ensures |a| <= |b|
  {
    if a != [] {
      assert a[0] in b;
      var i :| 0 <= i < |b| && b[i] == a[0];
      forall e | e in a[1..] ensures e in b[i + 1..] {
        assert e in b;
        var k :| 0 <= k < |b| && b[k] == e;
        assert Before(a[0], e) && k > i;
        assert b[i + 1..][k - i - 1] == e;
      }
      PartIsShorter(a[1..], b[i + 1..]);
    }
  }

  lemma JoinOrdered(a: seq<Event>, b: seq<Event>)
    requires Ordered(a) && Ordered(b) && (a != [] ==> forall e :: e in b ==> Before(a[|a| - 1], e))
    ensures Ordered(a + b)
  {
    var all := a + b;
    forall i, j | 0 <= i < j < |all| ensures Before(all[i], all[j]) {
      if i < |a| <= j { assert all[j] in b; }
    }
  }

  // ---------- following the cursor ----------

  /** The pages one gets by calling again with `next` as long as there is one, and as long as there are lists. */
  function Follow(logs: seq<seq<Event>>, q: Query, before: Option<Id>): (pages: seq<Page>)
    requires logs != []
    ensures pages != [] && |pages| <= |logs|
    decreases |logs|
  {
    var page := List(logs[0], q, before);
    if page.next.None? || |logs| == 1 then [page] else [page] + Follow(logs[1..], q, page.next)
  }

  function Visited(pages: seq<Page>): seq<Event> {
    if pages == [] then [] else pages[0].events + Visited(pages[1..])
  }

  function LastPage(pages: seq<Page>): Page
    requires pages != []
  {
    pages[|pages| - 1]
  }

  /** The lists of a table that events are added to between the calls, wherever in the order they land. */
  ghost predicate Growing(logs: seq<seq<Event>>) {
    && (forall k :: 0 <= k < |logs| ==> Ordered(logs[k]) && UniqueIds(logs[k]))
    && (forall k :: 0 < k < |logs| ==> Kept(logs[k - 1], logs[k]))
  }

  predicate Kept(a: seq<Event>, b: seq<Event>) {
    forall e :: e in a ==> e in b
  }

  function IdOf(cursor: Option<Event>): Option<Id> {
    if cursor.Some? then Some(cursor.value.id) else None
  }

  /** The event comes after the cursor. */
  predicate Past(cursor: Option<Event>, e: Event) {
    cursor.None? || Before(cursor.value, e)
  }

  lemma FindsCursor(f: seq<Event>, k: nat)
    requires UniqueIds(f) && k < |f|
    ensures FindIndex(f, f[k].id) == k
  {
  }

  lemma {:induction false} FilterUnique(log: seq<Event>, q: Query)
    requires UniqueIds(log)
    ensures UniqueIds(Filter(log, q))
  {
    if log != [] {
      FilterUnique(log[1..], q);
      var rest := Filter(log[1..], q);
      forall i | 0 <= i < |rest| ensures rest[i].id != log[0].id {
        FilterHas(log[1..], q, rest[i]);
      }
    }
  }

  lemma AfterCursor(f: seq<Event>, k: nat)
    requires Ordered(f) && k < |f|
    ensures Ordered(f[k + 1..]) && forall e :: e in f[k + 1..] <==> e in f && Before(f[k], e)
  {
    var left := f[k + 1..];
    forall e | e in f && Before(f[k], e) ensures e in left {
      var i :| 0 <= i < |f| && f[i] == e;
      assert left[i - k - 1] == e;
    }
    forall e | e in left ensures e in f && Before(f[k], e) {
      var i :| 0 <= i < |left| && left[i] == e;
      assert f[i + k + 1] == e;
    }
  }

  /** What is left past the cursor. */
  lemma Left(f: seq<Event>, cursor: Option<Event>) returns (left: seq<Event>)
    requires Ordered(f) && UniqueIds(f) && (cursor.Some? ==> cursor.value in f)
    ensures Ordered(left) && forall e :: e in left <==> e in f && Past(cursor, e)
    ensures left == Available(f, IdOf(cursor))
  {
    left := f;
    if cursor.Some? {
      var k :| 0 <= k < |f| && f[k] == cursor.value;
      FindsCursor(f, k);
      AfterCursor(f, k);
      left := f[k + 1..];
    }
  }

  /** A page holds the first wanted events past the cursor, the limit or all that are left. */
  lemma PageTakes(log: seq<Event>, q: Query, cursor: Option<Event>) returns (left: seq<Event>)
    requires Ordered(log) && UniqueIds(log) && (cursor.Some? ==> cursor.value in Filter(log, q))
    ensures Ordered(left) && forall e :: e in left <==> e in Filter(log, q) && Past(cursor, e)
    ensures Takes(List(log, q, IdOf(cursor)), left, Limit(q))
  {
    FilterOrdered(log, q);
    FilterUnique(log, q);
    left := Left(Filter(log, q), cursor);
    FirstPageTakes(left, |Filter(log, q)|, Limit(q));
  }

  lemma FirstPageTakes(left: seq<Event>, total: nat, n: nat)
    requires n > 0
    ensures Takes(FirstPage(left, total, n), left, n)
  {
  }

  predicate Takes(page: Page, left: seq<Event>, n: nat) {
    && n > 0 && page.events == left[..Min(n, |left|)]
    && page.next == if |left| <= n then None else Some(left[n - 1].id)
  }

  /** An event of the list stands behind all those visited. */
  ghost predicate More(f: seq<Event>, visited: seq<Event>) {
    exists x :: x in f && forall e :: e in visited ==> Before(e, x)
  }

  /**
    What following the cursor visits, from what is wanted at the first call and at the last: in
    order, past the cursor, all there was when it ends, and full pages until then.
  */
  ghost predicate Visits(first: seq<Event>, last: seq<Event>, n: nat, calls: nat, cursor: Option<Event>, pages: seq<Page>)
    requires pages != []
  {
    var v := Visited(pages);
    && Ordered(v)
    && (forall e :: e in v ==> Past(cursor, e) && e in last)
    && (LastPage(pages).next.None? ==> forall e :: e in first && Past(cursor, e) ==> e in v)
    && (LastPage(pages).next.Some? ==> |pages| == calls && |v| == calls * n && More(last, v))
  }

  lemma LastVisits(first: seq<Event>, n: nat, calls: nat, cursor: Option<Event>, page: Page, left: seq<Event>)
    requires Ordered(left) && (forall e :: e in left <==> e in first && Past(cursor, e))
    requires Takes(page, left, n) && (page.next.None? || calls == 1)
    ensures Visits(first, first, n, calls, cursor, [page])
  {
    assert Visited([page]) == page.events + Visited([]) == page.events;
    if page.next.Some? {
      var x := left[n];
      assert x in left && forall e :: e in page.events ==> Before(e, x);
    } else {
      assert page.events == left;
    }
  }

  /** Nothing is lost between a page and the next. */
  lemma NothingBetween(left: seq<Event>, n: nat, v: seq<Event>, e: Event)
    requires Ordered(left) && 0 < n <= |left| && e in left && (Before(left[n - 1], e) ==> e in v)
    ensures e in left[..n] + v
  {
    var i :| 0 <= i < |left| && left[i] == e;
    if i < n { assert (left[..n] + v)[i] == e; }
  }

  lemma MoreVisits(first: seq<Event>, second: seq<Event>, last: seq<Event>, n: nat, calls: nat,
                   cursor: Option<Event>, page: Page, left: seq<Event>, rest: seq<Page>)
    requires Kept(first, second) && Kept(first, last) && calls > 1
    requires Ordered(left) && (forall e :: e in left <==> e in first && Past(cursor, e)) && Takes(page, left, n) && n < |left|
    requires rest != [] && Visits(second, last, n, calls - 1, Some(left[n - 1]), rest)
    ensures Visits(first, last, n, calls, cursor, [page] + rest)
  {
    var pages, v, c := [page] + rest, Visited(rest), left[n - 1];
    assert pages[1..] == rest && Visited(pages) == page.events + v && LastPage(pages) == LastPage(rest);
    assert c in left;
    JoinOrdered(page.events, v);
    forall e | e in page.events + v ensures Past(cursor, e) && e in last { assert e in left || e in v; }
    if LastPage(pages).next.None? {
      forall e | e in first && Past(cursor, e) ensures e in page.events + v { NothingBetween(left, n, v, e); }
    } else {
      FullPages(v, n, calls);
      MoreBehind(page.events, v, last);
    }
  }

  lemma FullPages(v: seq<Event>, n: nat, calls: nat)
    requires calls > 1 && n > 0 && |v| == (calls - 1) * n
    ensures v != [] && n + |v| == calls * n
  {
  }

  /** Whatever stands behind a nonempty rest stands behind what comes before it. */
  lemma MoreBehind(a: seq<Event>, b: seq<Event>, last: seq<Event>)
    requires Ordered(a + b) && b != [] && More(last, b)
    ensures More(last, a + b)
  {
    var x :| x in last && forall e :: e in b ==> Before(e, x);
    var all := a + b;
    assert b[0] in b;
    forall e | e in all ensures Before(e, x) {
      var i :| 0 <= i < |all| && all[i] == e;
      if i < |a| { assert Before(all[i], all[|a|]); }
    }
  }

  lemma {:induction false} StaysListed(logs: seq<seq<Event>>, q: Query, k: nat)
    requires Growing(logs) && k < |logs|
    ensures Kept(Filter(logs[0], q), Filter(logs[k], q))
    decreases k
  {
    if k > 0 {
      StaysListed(logs, q, k - 1);
      forall e | e in Filter(logs[k - 1], q) ensures e in Filter(logs[k], q) {
        FilterHas(logs[k - 1], q, e);
        FilterHas(logs[k], q, e);
      }
    }
  }

  ghost predicate FollowOk(logs: seq<seq<Event>>, q: Query, cursor: Option<Event>, pages: seq<Page>)
    requires logs != [] && pages != [] && |pages| <= |logs|
  {
    Visits(Filter(logs[0], q), Filter(logs[|pages| - 1], q), Limit(q), |logs|, cursor, pages)
  }

  lemma RestVisits(logs: seq<seq<Event>>, q: Query, cursor: Option<Event>, rest: seq<Page>)
    requires |logs| > 1 && 0 < |rest| < |logs| && FollowOk(logs[1..], q, cursor, rest)
    ensures Visits(Filter(logs[1], q), Filter(logs[|rest|], q), Limit(q), |logs| - 1, cursor, rest)
  {
    assert logs[1..][0] == logs[1] && logs[1..][|rest| - 1] == logs[|rest|];
  }

  lemma FollowOne(logs: seq<seq<Event>>, q: Query, cursor: Option<Event>, page: Page, left: seq<Event>, rest: seq<Page>)
    requires |logs| > 1 && Growing(logs) && rest != [] && |rest| < |logs|
    requires Ordered(left) && (forall e :: e in left <==> e in Filter(logs[0], q) && Past(cursor, e)) && Takes(page, left, Limit(q))
    requires Limit(q) < |left| && FollowOk(logs[1..], q, Some(left[Limit(q) - 1]), rest)
    ensures FollowOk(logs, q, cursor, [page] + rest)
  {
    StaysListed(logs, q, 1);
    StaysListed(logs, q, |rest|);
    RestVisits(logs, q, Some(left[Limit(q) - 1]), rest);
    MoreVisits(Filter(logs[0], q), Filter(logs[1], q), Filter(logs[|rest|], q), Limit(q), |logs|, cursor, page, left, rest);
  }

  lemma {:induction false} FollowVisits(logs: seq<seq<Event>>, q: Query, cursor: Option<Event>)
    requires logs != [] && Growing(logs) && (cursor.Some? ==> cursor.value in Filter(logs[0], q))
    ensures FollowOk(logs, q, cursor, Follow(logs, q, IdOf(cursor)))
    decreases |logs|
  {
    var page := List(logs[0], q, IdOf(cursor));
    var left := PageTakes(logs[0], q, cursor);
    if page.next.None? || |logs| == 1 {
      LastVisits(Filter(logs[0], q), Limit(q), |logs|, cursor, page, left);
    } else {
      var c := left[Limit(q) - 1];
      assert c in left;
      StaysListed(logs, q, 1);
      FollowVisits(logs[1..], q, Some(c));
      FollowOne(logs, q, cursor, page, left, Follow(logs[1..], q, page.next));
    }
  }

  // ---------- what a reader of the journal gets ----------

  /** The visited events that are in a list. */
  function Among(visited: seq<Event>, s: seq<Event>): (r: seq<Event>)
    ensures forall e :: e in r <==> e in visited && e in s
  {
    if visited == [] then [] else (if visited[0] in s then [visited[0]] else []) + Among(visited[1..], s)
  }

  lemma {:induction false} AmongOrdered(visited: seq<Event>, s: seq<Event>)
    requires Ordered(visited)
    ensures Ordered(Among(visited, s))
  {
    if visited != [] {
      AmongOrdered(visited[1..], s);
      var rest := Among(visited[1..], s);
      forall i | 0 <= i < |rest| ensures Before(visited[0], rest[i]) { assert rest[i] in visited[1..]; }
    }
  }

  /** The events of a list from the given one on. */
  function From(s: seq<Event>, head: Event): (r: seq<Event>)
    ensures forall e :: e in r <==> e in s && !Before(e, head)
  {
    if s == [] then [] else (if Before(s[0], head) then [] else [s[0]]) + From(s[1..], head)
  }

  lemma {:induction false} FromOrdered(s: seq<Event>, head: Event)
    requires Ordered(s)
    ensures Ordered(From(s, head))
  {
    if s != [] {
      FromOrdered(s[1..], head);
      var rest := From(s[1..], head);
      forall i | 0 <= i < |rest| ensures Before(s[0], rest[i]) { assert rest[i] in s[1..]; }
    }
  }

  lemma VisitedFrom(first: seq<Event>, v: seq<Event>, e: Event)
    requires v != [] && first != [] && v[0] == first[0] && Ordered(v) && e in v
    ensures !Before(e, first[0])
  {
  }

  /** What is visited starts at the head of the first list. */
  lemma StartsAtHead(logs: seq<seq<Event>>, q: Query)
    requires logs != [] && Growing(logs) && Filter(logs[0], q) != []
    ensures var v := Visited(Follow(logs, q, None)); v != [] && v[0] == Filter(logs[0], q)[0]
  {
    var pages := Follow(logs, q, None);
    assert pages[0] == List(logs[0], q, None);
    assert Visited(pages) == pages[0].events + Visited(pages[1..]);
  }

  /** Pages that are not the last call's are bounded by what stands from the head of the first list on. */
  lemma UnfinishedIsMore(last: seq<Event>, v: seq<Event>, head: Event)
    requires Ordered(last) && Ordered(v) && v != [] && v[0] == head && (forall e :: e in v ==> e in last) && More(last, v)
    ensures |From(last, head)| > |v|
  {
    var x :| x in last && forall e :: e in v ==> Before(e, x);
    assert head in v;
    JoinOrdered(v, [x]);
    FromOrdered(last, head);
    forall e | e in v + [x] ensures e in From(last, head) {
      assert e in v || e == x;
    }
    PartIsShorter(v + [x], From(last, head));
  }

  lemma AllVisited(wanted: seq<Event>, v: seq<Event>)
    requires Ordered(wanted) && Ordered(v) && forall e :: e in wanted ==> e in v
    ensures Among(v, wanted) == wanted
  {
    AmongOrdered(v, wanted);
    OrderIsUnique(Among(v, wanted), wanted);
  }

  /** While there is a next, every call has brought a full page of the last list. */
  lemma Unfinished(logs: seq<seq<Event>>, q: Query, pages: seq<Page>)
    requires logs != [] && 0 < |pages| <= |logs| && FollowOk(logs, q, None, pages) && LastPage(pages).next.Some?
    ensures var v, last := Visited(pages), Filter(logs[|logs| - 1], q);
            && |v| == |logs| * Limit(q) && Ordered(v) && (forall e :: e in v ==> e in last) && More(last, v)
  {
  }

  /** There is no next as soon as the calls have room for the events from the head of the first list on. */
  lemma FollowingEnds(logs: seq<seq<Event>>, q: Query)
    requires logs != [] && Growing(logs)
    requires var wanted := Filter(logs[0], q);
             wanted == [] || |logs| * Limit(q) >= |From(Filter(logs[|logs| - 1], q), wanted[0])|
    ensures LastPage(Follow(logs, q, None)).next.None?
  {
    FollowVisits(logs, q, None);
    var pages, wanted := Follow(logs, q, None), Filter(logs[0], q);
    if LastPage(pages).next.Some? && wanted != [] {
      Unfinished(logs, q, pages);
      StartsAtHead(logs, q);
      FilterOrdered(logs[|logs| - 1], q);
      UnfinishedIsMore(Filter(logs[|logs| - 1], q), Visited(pages), wanted[0]);
      assert false;
    }
  }

  /**
    Following `next` from the first page, with events arriving between the calls wherever they land
    in the order. What is visited is in order, so nothing twice, and wanted. When there is no next,
    the events wanted at the first call have all been visited, in their order.
  */
  lemma FollowingVisitsOnce(logs: seq<seq<Event>>, q: Query)
    requires logs != [] && Growing(logs)
    ensures var pages := Follow(logs, q, None);
            && Ordered(Visited(pages)) && Kept(Visited(pages), Filter(logs[|pages| - 1], q))
            && (LastPage(pages).next.None? ==> Among(Visited(pages), Filter(logs[0], q)) == Filter(logs[0], q))
  {
    FollowVisits(logs, q, None);
    if LastPage(Follow(logs, q, None)).next.None? {
      FilterOrdered(logs[0], q);
      AllVisited(Filter(logs[0], q), Visited(Follow(logs, q, None)));
    }
  }

  /** When only events newer than all others arrive, what is visited is exactly what was wanted at the first call. */
  lemma NewerEventsDoNotShow(logs: seq<seq<Event>>, q: Query)
    requires logs != [] && Growing(logs) && LastPage(Follow(logs, q, None)).next.None?
    requires forall k, e :: 0 <= k < |logs| && e in logs[k] ==> e in logs[0] || forall o :: o in logs[0] ==> Before(e, o)
    ensures Visited(Follow(logs, q, None)) == Filter(logs[0], q)
  {
    FollowVisits(logs, q, None);
    var v, wanted := Visited(Follow(logs, q, None)), Filter(logs[0], q);
    FilterOrdered(logs[0], q);
    if wanted != [] {
      StartsAtHead(logs, q);
      FilterHas(logs[0], q, wanted[0]);
    }
    forall e | e in v ensures e in wanted {
      FilterHas(logs[|Follow(logs, q, None)| - 1], q, e);
      FilterHas(logs[0], q, e);
      if wanted != [] { VisitedFrom(wanted, v, e); }
    }
    OrderIsUnique(v, wanted);
  }

  lemma {:induction false} PagesAreShort(logs: seq<seq<Event>>, q: Query, before: Option<Id>, i: nat)
    requires logs != [] && i < |Follow(logs, q, before)|
    ensures |Follow(logs, q, before)[i].events| <= Limit(q)
    ensures i < |Follow(logs, q, before)| - 1 ==> |Follow(logs, q, before)[i].events| == Limit(q)
    decreases |logs|
  {
    var page := List(logs[0], q, before);
    PageIsShort(logs[0], q, before);
    if i > 0 {
      PagesAreShort(logs[1..], q, page.next, i - 1);
      assert Follow(logs, q, before)[i] == Follow(logs[1..], q, page.next)[i - 1];
    } else {
      assert Follow(logs, q, before)[0] == page;
    }
  }

  lemma PageIsShort(log: seq<Event>, q: Query, before: Option<Id>)
    ensures var page := List(log, q, before); |page.events| <= Limit(q) && (page.next.Some? ==> |page.events| == Limit(q))
  {
    FirstPageTakes(Available(Filter(log, q), before), |Filter(log, q)|, Limit(q));
  }

  // ---------- what a page shows ----------

  /** What a query asks for, scope by scope. */
  predicate AskedFor(e: Event, q: Query) {
    && (q.categories != {} ==> e.category in q.categories) && q.found(e)
    && match q.scope
       case All => true
       case Important => e.important || e.severity != Info
       case Errors => e.severity == Error || e.severity == Critical
       case Changes => e.change
  }

  lemma {:induction false} FilterCounts(log: seq<Event>, q: Query)
    ensures |Filter(log, q)| == |set i | 0 <= i < |log| && AskedFor(log[i], q)|
  {
    if log != [] {
      var n := |log| - 1;
      FilterCounts(log[..n], q);
      FilterMore(log, q);
      CountMore(log, q);
    }
  }

  lemma {:induction false} FilterMore(log: seq<Event>, q: Query)
    requires log != []
    ensures Filter(log, q) == Filter(log[..|log| - 1], q) + if AskedFor(log[|log| - 1], q) then [log[|log| - 1]] else []
  {
    if |log| > 1 {
      FilterMore(log[1..], q);
      assert log[1..][..|log| - 2] == log[..|log| - 1][1..];
    }
  }

  lemma CountMore(log: seq<Event>, q: Query)
    requires log != []
    ensures var n := |log| - 1;
            |set i | 0 <= i < |log| && AskedFor(log[i], q)|
              == |set i | 0 <= i < n && AskedFor(log[..n][i], q)| + if AskedFor(log[n], q) then 1 else 0
  {
    var n := |log| - 1;
    var all, before := set i | 0 <= i < |log| && AskedFor(log[i], q), set i | 0 <= i < n && AskedFor(log[..n][i], q);
    assert all == if AskedFor(log[n], q) then before + {n} else before;
  }

  lemma PageIsWanted(log: seq<Event>, q: Query, before: Option<Id>)
    ensures forall e :: e in List(log, q, before).events ==> e in Filter(log, q)
  {
  }

  /** A page shows events of the log the query asks for, newest first, and says how many of them there are in all. */
  lemma PageShows(log: seq<Event>, q: Query, before: Option<Id>)
    requires Ordered(log)
    ensures var page := List(log, q, before);
            && page.total == |set i | 0 <= i < |log| && AskedFor(log[i], q)|
            && (forall e :: e in page.events ==> e in log && AskedFor(e, q))
            && forall i, j :: 0 <= i < j < |page.events| ==>
                 page.events[i].at > page.events[j].at || (page.events[i].at == page.events[j].at && page.events[i].id > page.events[j].id)
  {
    FilterCounts(log, q);
    FilterOrdered(log, q);
    PageIsWanted(log, q, before);
    forall e | e in List(log, q, before).events ensures e in log && AskedFor(e, q) { FilterHas(log, q, e); }
    ShownIsPart(Filter(log, q), before, Limit(q));
  }

  lemma ShownIsPart(f: seq<Event>, before: Option<Id>, n: nat)
    requires Ordered(f) && n > 0
    ensures Ordered(FirstPage(Available(f, before), |f|, n).events)
  {
    var available := Available(f, before);
    assert exists k :: 0 <= k <= |f| && available == f[k..] by {
      assert f == f[0..];
    }
  }

  /** Whoever follows `next` sees the events newest first. */
  lemma VisitedNewestFirst(logs: seq<seq<Event>>, q: Query, i: nat, j: nat)
    requires logs != [] && Growing(logs) && i < j < |Visited(Follow(logs, q, None))|
    ensures var v := Visited(Follow(logs, q, None)); v[i].at > v[j].at || (v[i].at == v[j].at && v[i].id > v[j].id)
  {
    FollowingVisitsOnce(logs, q);
  }
}
