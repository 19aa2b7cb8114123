/**
 * The `/new_crm_objects` listing route: the query-parameter defaults, the
 * three page queries with one `(page, page_size)`, and the post-processing
 * that sorts each list in place by a record field and then keeps the records
 * whose printed form contains the filter, case-insensitively.
 */
module Integration {
  import opened Wrappers
  import opened Types
  import opened Strings
  import opened Cache
  import opened PageCache
  import opened ContactService
  import opened TicketService

  /** The query parameters as given (already converted to numbers where the route calls `int`). */
  datatype QueryArgs = QueryArgs(page: Option<int>, pageSize: Option<int>, sortBy: Option<string>, filterBy: Option<string>)

  datatype Query = Query(page: int, pageSize: int, sortBy: string, filterBy: string)

  /** The defaults: page 1, page size 10, sorted by "id", no filter. */
  function ParseQuery(args: QueryArgs): (q: Query)
    ensures args.page.None? ==> q.page == 1
    ensures args.pageSize.None? ==> q.pageSize == 10
    ensures args.sortBy.None? ==> q.sortBy == "id"
    ensures args.filterBy.None? ==> q.filterBy == ""
    ensures args.page.Some? ==> q.page == args.page.value
    ensures args.pageSize.Some? ==> q.pageSize == args.pageSize.value
    ensures args.sortBy.Some? ==> q.sortBy == args.sortBy.value
    ensures args.filterBy.Some? ==> q.filterBy == args.filterBy.value
  {
    Query(args.page.GetOr(1), args.pageSize.GetOr(10), args.sortBy.GetOr("id"), args.filterBy.GetOr(""))
  }

  // ---- Sort keys ----

  /** `x.get(field)`: the field's value, or None (JSON null) when the record lacks it. */
  function KeyOf(x: Record, field: string): Json {
    PropOrNull(x.fields, field)
  }

  /**
   * Python's `a < b` does not raise on two sort keys: both strings or both
   * numbers. None, a list or two values of different types raise TypeError.
   */
  predicate Comparable(a: Json, b: Json) {
    (a.JStr? && b.JStr?) || (a.JNum? && b.JNum?)
  }

  /** Python's `a < b` on two comparable keys: code-point order on strings, numeric order on numbers. */
  predicate KeyLess(a: Json, b: Json) {
    if a.JStr? && b.JStr? then Less(a.s, b.s)
    else if a.JNum? && b.JNum? then a.n < b.n
    else false
  }

  lemma KeyLessAsymmetric(a: Json, b: Json)
    requires KeyLess(a, b)
    ensures !KeyLess(b, a)
  {
    if a.JStr? {
      LessAsymmetric(a.s, b.s);
    }
  }

  /** `x.get(field) <= y.get(field)` evaluates to True. */
  predicate KeyAtMost(x: Record, y: Record, field: string) {
    Comparable(KeyOf(x, field), KeyOf(y, field)) && !KeyLess(KeyOf(y, field), KeyOf(x, field))
  }

  lemma KeyAtMostTransitive(x: Record, y: Record, z: Record, field: string)
    requires KeyAtMost(x, y, field) && KeyAtMost(y, z, field)
    ensures KeyAtMost(x, z, field)
  {
    var a, b, c := KeyOf(x, field), KeyOf(y, field), KeyOf(z, field);
    if a.JStr? {
      AtMostTransitive(a.s, b.s, c.s);
    }
  }

  /** Every key of `xs` is a string (`str`) or every key is a number (`!str`). */
  predicate KeysOfKind(xs: seq<Record>, field: string, str: bool) {
    forall i :: 0 <= i < |xs| ==> (if str then KeyOf(xs[i], field).JStr? else KeyOf(xs[i], field).JNum?)
  }

  // ---- Sorting by a field ----

  /**
   * `list.sort(key=lambda x: x.get(field))` succeeds exactly when every two
   * keys can be compared. With two records or more every record takes part in
   * a comparison, and the sorted order needs a comparison between the two
   * kinds whenever strings and numbers are mixed.
   */
  predicate Sortable(xs: seq<Record>, field: string)
    ensures Sortable(xs, field) <==>
              forall i, j :: 0 <= i < |xs| && 0 <= j < |xs| && i != j ==>
                Comparable(KeyOf(xs[i], field), KeyOf(xs[j], field))
  {
    PairwiseComparableKeysOfOneKind(xs, field);
    |xs| < 2 || KeysOfKind(xs, field, true) || KeysOfKind(xs, field, false)
  }

  /** Keys that can be compared two by two are all strings or all numbers, like the first one. */
  lemma PairwiseComparableKeysOfOneKind(xs: seq<Record>, field: string)
    ensures 2 <= |xs| && (forall i, j :: 0 <= i < |xs| && 0 <= j < |xs| && i != j ==>
                            Comparable(KeyOf(xs[i], field), KeyOf(xs[j], field))) ==>
              KeysOfKind(xs, field, KeyOf(xs[0], field).JStr?)
  {
    if 2 <= |xs| && forall i, j :: 0 <= i < |xs| && 0 <= j < |xs| && i != j ==>
                                 Comparable(KeyOf(xs[i], field), KeyOf(xs[j], field)) {
      forall i | 0 <= i < |xs|
        ensures if KeyOf(xs[0], field).JStr? then KeyOf(xs[i], field).JStr? else KeyOf(xs[i], field).JNum?
      {
        var other := if i == 0 then 1 else i;
        assert Comparable(KeyOf(xs[0], field), KeyOf(xs[other], field));
      }
    }
  }

  ghost predicate SortedBy(xs: seq<Record>, field: string) {
    forall i, j :: 0 <= i < j < |xs| ==> KeyAtMost(xs[i], xs[j], field)
  }

  ghost predicate AdjacentSorted(xs: seq<Record>, field: string) {
    forall k :: 0 < k < |xs| ==> KeyAtMost(xs[k - 1], xs[k], field)
  }

  lemma {:induction false} AdjacentSortedIsSorted(xs: seq<Record>, field: string)
    requires AdjacentSorted(xs, field)
    ensures SortedBy(xs, field)
  {
    if |xs| > 1 {
      var tail := xs[1..];
      assert AdjacentSorted(tail, field) by {
        forall k | 0 < k < |tail| ensures KeyAtMost(tail[k - 1], tail[k], field) {
          assert tail[k - 1] == xs[k] && tail[k] == xs[k + 1];
        }
      }
      AdjacentSortedIsSorted(tail, field);
      forall i, j | 0 <= i < j < |xs| ensures KeyAtMost(xs[i], xs[j], field) {
        if 0 < i {
          assert xs[i] == tail[i - 1] && xs[j] == tail[j - 1];
        } else if 1 < j {
          assert KeyAtMost(xs[0], xs[1], field);
          assert xs[1] == tail[0] && xs[j] == tail[j - 1];
          KeyAtMostTransitive(xs[0], xs[1], xs[j], field);
        }
      }
    }
  }

  /** Exchanges `a[i - 1]` and `a[i]`. */
  method SwapDown(a: array<Record>, i: int)
    requires 0 < i < a.Length
    modifies a
    ensures a[..] == old(a[..])[i - 1 := old(a[i])][i := old(a[i - 1])]
    ensures multiset(a[..]) == multiset(old(a[..]))
  {
    a[i - 1], a[i] := a[i], a[i - 1];
  }

  /**
   * One step of the sort: moves `a[i]` down past every larger key, so that the
   * first `i + 1` records are ordered.
   */
  method InsertStep(a: array<Record>, i: int, field: string, str: bool)
    requires 1 <= i < a.Length
    requires KeysOfKind(a[..], field, str)
    requires AdjacentSorted(a[..i], field)
    modifies a
    ensures KeysOfKind(a[..], field, str)
    ensures AdjacentSorted(a[..i + 1], field)
    ensures multiset(a[..]) == multiset(old(a[..]))
  {
    var j := i;
    while 0 < j && KeyLess(KeyOf(a[j], field), KeyOf(a[j - 1], field))
      invariant 0 <= j <= i
      invariant KeysOfKind(a[..], field, str)
      invariant forall k :: 0 < k <= i && k != j ==> KeyAtMost(a[k - 1], a[k], field)
      invariant 0 < j < i ==> KeyAtMost(a[j - 1], a[j + 1], field)
      invariant multiset(a[..]) == multiset(old(a[..]))
    {
      KeyLessAsymmetric(KeyOf(a[j], field), KeyOf(a[j - 1], field));
      SwapDown(a, j);
      j := j - 1;
    }
  }

  /**
   * The in-place sort: on success `a` is ordered by the field and holds the
   * same records; on failure it is left as it was.
   */
  method SortByField(a: array<Record>, field: string) returns (ok: bool)
    modifies a
    ensures ok <==> Sortable(old(a[..]), field)
    ensures ok ==> SortedBy(a[..], field)
    ensures multiset(a[..]) == multiset(old(a[..]))
    ensures !ok ==> a[..] == old(a[..])
  {
    if a.Length < 2 {
      return true;
    }
    var str := KeyOf(a[0], field).JStr?;
    if !KeysOfKind(a[..], field, str) {
      return false;
    }
    var i := 1;
    while i < a.Length
      invariant 1 <= i <= a.Length
      invariant KeysOfKind(a[..], field, str)
      invariant AdjacentSorted(a[..i], field)
      invariant multiset(a[..]) == multiset(old(a[..]))
    {
      InsertStep(a, i, field, str);
      i := i + 1;
    }
    assert a[..] == a[..a.Length];
    AdjacentSortedIsSorted(a[..], field);
    ok := true;
  }

  // ---- Filtering ----

  /** `filter_by.lower() in str(x).lower()`. */
  predicate Matches(x: Record, filterBy: string) {
    Contains(Lower(x.text), Lower(filterBy))
  }

  /** The list comprehension keeping the matching records. */
  function Filter(xs: seq<Record>, filterBy: string): (r: seq<Record>)
    ensures |r| <= |xs|
    ensures forall x :: x in r ==> x in xs && Matches(x, filterBy)
  {
    if xs == [] then []
    else (if Matches(xs[0], filterBy) then [xs[0]] else []) + Filter(xs[1..], filterBy)
  }

  /** Filtering distributes over concatenation, so the kept records stay in their relative order. */
  lemma {:induction false} FilterAppend(xs: seq<Record>, ys: seq<Record>, filterBy: string)
    ensures Filter(xs + ys, filterBy) == Filter(xs, filterBy) + Filter(ys, filterBy)
  {
    if xs == [] {
      assert xs + ys == ys;
    } else {
      assert (xs + ys)[1..] == xs[1..] + ys;
      FilterAppend(xs[1..], ys, filterBy);
    }
  }

  /** A record is kept exactly when it is in the list and matches. */
  lemma {:induction false} FilterMembers(xs: seq<Record>, filterBy: string, x: Record)
    ensures x in Filter(xs, filterBy) <==> x in xs && Matches(x, filterBy)
  {
    if xs != [] {
      FilterMembers(xs[1..], filterBy, x);
      assert xs == [xs[0]] + xs[1..];
    }
  }

  /** Each matching record is kept as often as it occurs; the others are dropped. */
  lemma {:induction false} FilterCounts(xs: seq<Record>, filterBy: string, x: Record)
    ensures multiset(Filter(xs, filterBy))[x] == if Matches(x, filterBy) then multiset(xs)[x] else 0
  {
    if xs != [] {
      FilterCounts(xs[1..], filterBy, x);
      assert xs == [xs[0]] + xs[1..];
    }
  }

  /** Filtering a permutation gives a permutation of the filtered list. */
  lemma FilterOfPermutation(xs: seq<Record>, ys: seq<Record>, filterBy: string)
    requires multiset(xs) == multiset(ys)
    ensures multiset(Filter(xs, filterBy)) == multiset(Filter(ys, filterBy))
  {
    forall x ensures multiset(Filter(xs, filterBy))[x] == multiset(Filter(ys, filterBy))[x] {
      FilterCounts(xs, filterBy, x);
      FilterCounts(ys, filterBy, x);
    }
  }

  /** Filtering a sorted list gives a sorted list. */
  lemma {:induction false} FilterKeepsSorted(xs: seq<Record>, filterBy: string, field: string)
    requires SortedBy(xs, field)
    ensures SortedBy(Filter(xs, filterBy), field)
  {
    if xs != [] {
      var tail := xs[1..];
      assert SortedBy(tail, field) by {
        forall i, j | 0 <= i < j < |tail| ensures KeyAtMost(tail[i], tail[j], field) {
          assert tail[i] == xs[i + 1] && tail[j] == xs[j + 1];
        }
      }
      FilterKeepsSorted(tail, filterBy, field);
      if Matches(xs[0], filterBy) {
        var rest := Filter(tail, filterBy);
        forall y | y in rest ensures KeyAtMost(xs[0], y, field) {
          FilterMembers(tail, filterBy, y);
          var j :| 0 <= j < |tail| && tail[j] == y;
          assert xs[j + 1] == y;
        }
        assert Filter(xs, filterBy) == [xs[0]] + rest;
      }
    }
  }

  /** The empty filter keeps every record. */
  lemma {:induction false} EmptyFilterKeepsAll(xs: seq<Record>)
    ensures Filter(xs, "") == xs
  {
    if xs != [] {
      EmptyIsContained(Lower(xs[0].text));
      assert Lower("") == "";
      EmptyFilterKeepsAll(xs[1..]);
    }
  }

  // ---- Post-processing one list ----

  /** The records the filter step keeps: all of them when the filter is empty. */
  function Selected(xs: seq<Record>, filterBy: string): seq<Record> {
    if filterBy == "" then xs else Filter(xs, filterBy)
  }

  /**
   * `out` is `served` after the route's sort and filter: the kept records, as
   * a permutation ordered by the sort field when there is one, in their
   * served order otherwise.
   */
  ghost predicate PostProcessed(out: seq<Record>, served: seq<Record>, q: Query) {
    && multiset(out) == multiset(Selected(served, q.filterBy))
    && (q.sortBy != "" ==> SortedBy(out, q.sortBy))
    && (q.sortBy == "" ==> out == Selected(served, q.filterBy))
  }

  /** Sorting (when `sort_by` is set) and then filtering (when `filter_by` is set) one list. */
  method PostProcess(xs: seq<Record>, q: Query) returns (r: Result<seq<Record>, Error>)
    ensures r.Failure? <==> q.sortBy != "" && !Sortable(xs, q.sortBy)
    ensures r.Failure? ==> r.error.TypeError?
    ensures r.Success? ==> PostProcessed(r.value, xs, q)
    ensures r.Success? && q.filterBy != "" ==> forall x :: x in r.value ==> Matches(x, q.filterBy)
  {
    var a := new Record[|xs|](i requires 0 <= i < |xs| => xs[i]);
    assert a[..] == xs;
    if q.sortBy != "" {
      var ok := SortByField(a, q.sortBy);
      if !ok {
        return Failure(TypeError("'<' not supported between the sort keys"));
      }
    }
    var sorted := a[..];
    var out := sorted;
    if q.filterBy != "" {
      out := Filter(sorted, q.filterBy);
      FilterOfPermutation(sorted, xs, q.filterBy);
      if q.sortBy != "" {
        FilterKeepsSorted(sorted, q.filterBy, q.sortBy);
      }
      forall x | x in out ensures Matches(x, q.filterBy) {
        FilterMembers(sorted, q.filterBy, x);
      }
    }
    r := Success(out);
  }

  // ---- The route ----

  datatype CrmObjects = CrmObjects(contacts: seq<Record>, deals: seq<Record>, tickets: seq<Record>)

  /** The route's answer: 200 with the three lists, or 400 for a ValueError. */
  datatype RouteReply = Ok(objects: CrmObjects) | BadRequest(error: Error)

  /**
   * `get_recent_deals(page, page_size)` run against the shared store at time
   * `now`: its answer and the store it leaves (its module is not part of this
   * model).
   */
  type DealListing = (Store, int, int, int) -> (Result<seq<Record>, Error>, Store)

  /** The route's `except ValueError`: a 400 answer; any other error escapes the route. */
  function Catch(e: Error): (r: Result<RouteReply, Error>)
    ensures r.Success? <==> e.ValueError?
    ensures r.Success? ==> r.value == BadRequest(e)
    ensures r.Failure? ==> r.error == e
  {
    if e.ValueError? then Success(BadRequest(e)) else Failure(e)
  }

  /** The success answer when all three lists can be sorted. */
  ghost predicate ListedAs(objects: CrmObjects, contacts: seq<Record>, deals: seq<Record>, tickets: seq<Record>, q: Query) {
    && PostProcessed(objects.contacts, contacts, q)
    && PostProcessed(objects.deals, deals, q)
    && PostProcessed(objects.tickets, tickets, q)
  }

  /**
   * `get_new_crm_objects`: contacts, deals and tickets are listed with the
   * same page and page size, then each list is sorted and filtered.
   */
  method GetNewCrmObjects(store: RedisClient, args: QueryArgs, contactsApi: Backend, deals: DealListing,
                          ticketsApi: Backend, now: int)
    returns (r: Result<RouteReply, Error>)
    modifies store
    ensures var q := ParseQuery(args);
            var c := Serve(old(store.entries), "contacts", q.page, q.pageSize, contactsApi, now);
            c.result.Failure? ==> r == Catch(c.result.error) && store.entries == c.store
    ensures var q := ParseQuery(args);
            var c := Serve(old(store.entries), "contacts", q.page, q.pageSize, contactsApi, now);
            var d := deals(c.store, q.page, q.pageSize, now);
            c.result.Success? && d.0.Failure? ==> r == Catch(d.0.error) && store.entries == d.1
    ensures var q := ParseQuery(args);
            var c := Serve(old(store.entries), "contacts", q.page, q.pageSize, contactsApi, now);
            var d := deals(c.store, q.page, q.pageSize, now);
            var t := Serve(d.1, "tickets", q.page, q.pageSize, ticketsApi, now);
            c.result.Success? && d.0.Success? ==>
              && store.entries == t.store
              && (t.result.Failure? ==> r == Catch(t.result.error))
              && (t.result.Success? ==>
                    var sortable := q.sortBy == "" || (Sortable(c.result.value, q.sortBy) && Sortable(d.0.value, q.sortBy)
                                                       && Sortable(t.result.value, q.sortBy));
                    && (r.Failure? <==> !sortable)
                    && (r.Failure? ==> r.error.TypeError?)
                    && (r.Success? ==> r.value.Ok? && ListedAs(r.value.objects, c.result.value, d.0.value, t.result.value, q)))
  {
    var q := ParseQuery(args);
    var contacts, _ := GetRecentContacts(store, q.page, q.pageSize, contactsApi, now);
    if contacts.Failure? {
      return Catch(contacts.error);
    }
    var (dealList, afterDeals) := deals(store.entries, q.page, q.pageSize, now);
    store.entries := afterDeals;
    if dealList.Failure? {
      return Catch(dealList.error);
    }
    var tickets, _ := GetRecentTickets(store, q.page, q.pageSize, ticketsApi, now);
    if tickets.Failure? {
      return Catch(tickets.error);
    }
    var c := PostProcess(contacts.value, q);
    if c.Failure? {
      return Failure(c.error);
    }
    var d := PostProcess(dealList.value, q);
    if d.Failure? {
      return Failure(d.error);
    }
    var t := PostProcess(tickets.value, q);
    if t.Failure? {
      return Failure(t.error);
    }
    r := Success(Ok(CrmObjects(c.value, d.value, t.value)));
  }
}
