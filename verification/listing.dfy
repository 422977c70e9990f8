/**
 * The paginated listing of spreadsheets (`Dashboard` in client/src/App.jsx).
 *
 * The component's state is the record `Listing`; every user action, React
 * effect and settled request is an `Event`, and `Step` says what each does to
 * the state and which requests it sends. A request is two events: the start,
 * which sets `loading` and yields the `Call`, and `FetchSettled`, which carries
 * the server's answer or the failure. The class `Dashboard` holds the same
 * fields as mutable state; each of its methods is proved to perform one of
 * these transitions.
 */
module Listing {
  import opened Domain

  const DefaultPageSize := 12

  datatype Listing = Listing(
    loading: bool,
    sheets: seq<Sheet>,
    query: string,
    page: int,
    pageSize: int,
    total: int)
  {
    /** Pages are numbered from 1 and hold at least one item. */
    predicate Valid()
    {
      page >= 1 && pageSize >= 1
    }

    /**
     * `filtered`: the server applies the query, so the client filters
     * nothing and the tiles shown are exactly the page's items.
     */
    function Filtered(): (shown: seq<Sheet>)
      ensures shown == sheets
    {
      sheets
    }

    /** The Prev button is disabled on page 1; on a valid page it is enabled exactly when there is a page before. */
    predicate PrevEnabled()
      ensures Valid() ==> (PrevEnabled() <==> page > 1)
    {
      page != 1
    }

    /** The Next button is disabled when nothing is shown; otherwise it is enabled, whatever `total` says. */
    predicate NextEnabled()
      ensures NextEnabled() <==> sheets != []
    {
      |Filtered()| != 0
    }
  }

  /** The state when the dashboard mounts. */
  const Initial := Listing(true, [], "", 1, DefaultPageSize, 0)

  /** The optional named arguments of `fetchSheets`; a missing one defaults to the current state. */
  datatype FetchArgs = FetchArgs(pageArg: Option<int>, pageSizeArg: Option<int>, queryArg: Option<string>)

  const NoArgs := FetchArgs(None, None, None)

  /** The listing request `fetchSheets(args)` sends from state `s`. */
  function RequestFor(s: Listing, args: FetchArgs): (c: Call)
    ensures c.ListSheets?
    ensures c.page == (if args.pageArg.Some? then args.pageArg.value else s.page)
    ensures c.pageSize == (if args.pageSizeArg.Some? then args.pageSizeArg.value else s.pageSize)
    ensures c.query == (if args.queryArg.Some? then args.queryArg.value else s.query)
    ensures args == NoArgs ==> c == ListSheets(s.page, s.pageSize, s.query)
  {
    ListSheets(args.pageArg.GetOr(s.page), args.pageSizeArg.GetOr(s.pageSize), args.queryArg.GetOr(s.query))
  }

  /** A listing request starts: `loading` is raised and nothing else changes. */
  function BeginFetch(s: Listing): (t: Listing)
    ensures t.loading
    ensures t.(loading := s.loading) == s
  {
    s.(loading := true)
  }

  /**
   * A listing request settles. On success the page's items and the total are
   * replaced by the response's; on failure both are emptied, exactly as for a
   * response with no items. `loading` ends false either way.
   */
  function SettleFetch(s: Listing, r: Response<ListPage>): (t: Listing)
    ensures !t.loading
    ensures r.Ok? ==> t.sheets == r.data.items && t.total == r.data.total
    ensures r.Failed? ==> t.sheets == [] && t.total == 0
    ensures t.query == s.query && t.page == s.page && t.pageSize == s.pageSize
  {
    match r
    case Ok(data) => s.(sheets := data.items, total := data.total, loading := false)
    case Failed => s.(sheets := [], total := 0, loading := false)
  }

  /** The search box's onChange: only `query` changes. */
  function TypeQuery(s: Listing, q: string): (t: Listing)
    ensures t.query == q
    ensures t.(query := s.query) == s
  {
    s.(query := q)
  }

  /**
   * The effect on [query, pageSize]: a request for page 1 with the current
   * query and page size starts, then `page` is set to 1.
   */
  function ResetToFirstPage(s: Listing): (step: (Listing, Call))
    ensures step.0.page == 1 && step.0.loading
    ensures step.0.(page := s.page, loading := s.loading) == s
    ensures step.1 == ListSheets(1, s.pageSize, s.query)
  {
    var call := RequestFor(s, FetchArgs(Some(1), Some(s.pageSize), Some(s.query)));
    (BeginFetch(s).(page := 1), call)
  }

  /** A Prev click: `page := max(1, page - 1)`, unless the button is disabled. */
  function PrevPage(s: Listing): (t: Listing)
    ensures t.page >= 1 || t == s
    ensures s.page > 1 ==> t.page == s.page - 1
    ensures !s.PrevEnabled() ==> t == s
    ensures t.(page := s.page) == s
  {
    if s.PrevEnabled() then s.(page := Max(1, s.page - 1)) else s
  }

  /** A Next click: `page := page + 1`, unless nothing is shown and the button is disabled. */
  function NextPage(s: Listing): (t: Listing)
    ensures s.NextEnabled() ==> t.page == s.page + 1
    ensures !s.NextEnabled() ==> t == s
    ensures t.(page := s.page) == s
  {
    if s.NextEnabled() then s.(page := s.page + 1) else s
  }

  function Max(a: int, b: int): int
  {
    if a >= b then a else b
  }

  /** What can happen to the dashboard, one event at a time. */
  datatype Event =
    | QueryTyped(q: string)                                // the search box changes
    | QueryOrPageSizeEffect                                // effect with deps [query, pageSize]
    | PageEffect                                           // effect with deps [page]
    | RefreshAllClicked                                    // "Refresh all": fetchSheets()
    | PrevClicked
    | NextClicked
    | RefreshPreviewSettled(sheetId: string, posted: bool) // refreshPreview(id) after its POST
    | FetchSettled(response: Response<ListPage>)           // a listing request completes

  /**
   * The state after `e`, and the requests `e` sends, in order. No event
   * changes the page size, and every listing request carries the current
   * query and page size.
   */
  function Step(s: Listing, e: Event): (step: (Listing, seq<Call>))
    ensures step.0.pageSize == s.pageSize
    ensures forall c :: c in step.1 && c.ListSheets? ==> c.pageSize == s.pageSize && c.query == s.query
    ensures |step.1| <= 2
  {
    match e
    case QueryTyped(q) => (TypeQuery(s, q), [])
    case QueryOrPageSizeEffect => var reset := ResetToFirstPage(s); (reset.0, [reset.1])
    case PageEffect => (BeginFetch(s), [RequestFor(s, FetchArgs(Some(s.page), None, None))])
    case RefreshAllClicked => (BeginFetch(s), [RequestFor(s, NoArgs)])
    case PrevClicked => (PrevPage(s), [])
    case NextClicked => (NextPage(s), [])
    case RefreshPreviewSettled(id, posted) =>
      if posted then (BeginFetch(s), [RefreshPreview(id), RequestFor(s, NoArgs)])
      else (s, [RefreshPreview(id)])
    case FetchSettled(r) => (SettleFetch(s, r), [])
  }

  /**
   * The state after a sequence of events, and every request they send, in
   * order. The page size never changes, so every listing request asks for
   * pages of the initial size.
   */
  function Run(s: Listing, events: seq<Event>): (run: (Listing, seq<Call>))
    ensures run.0.pageSize == s.pageSize
    ensures forall c :: c in run.1 && c.ListSheets? ==> c.pageSize == s.pageSize
    ensures |run.1| <= 2 * |events|
    decreases |events|
  {
    if events == [] then (s, [])
    else
      var step := Step(s, events[0]);
      var rest := Run(step.0, events[1..]);
      (rest.0, step.1 + rest.1)
  }

  /** A listing request never asks for page 0 or below, nor for empty pages. */
  predicate WellFormed(c: Call)
  {
    c.ListSheets? ==> c.page >= 1 && c.pageSize >= 1
  }

  /** One event keeps `page >= 1` and `pageSize >= 1`, and sends only well-formed requests. */
  lemma StepKeepsValid(s: Listing, e: Event)
    requires s.Valid()
    ensures Step(s, e).0.Valid()
    ensures forall c :: c in Step(s, e).1 ==> WellFormed(c)
  {
  }

  /** Any sequence of events keeps the listing valid and sends only well-formed requests. */
  lemma {:induction false} RunKeepsValid(s: Listing, events: seq<Event>)
    requires s.Valid()
    ensures Run(s, events).0.Valid()
    ensures forall c :: c in Run(s, events).1 ==> WellFormed(c)
    decreases |events|
  {
    if events != [] {
      StepKeepsValid(s, events[0]);
      RunKeepsValid(Step(s, events[0]).0, events[1..]);
    }
  }

  /** Running `e` and then `rest` is running `[e] + rest`. */
  lemma RunCons(s: Listing, e: Event, rest: seq<Event>)
    ensures var step := Step(s, e);
      Run(s, [e] + rest) == (Run(step.0, rest).0, step.1 + Run(step.0, rest).1)
  {
    assert ([e] + rest)[0] == e && ([e] + rest)[1..] == rest;
  }

  /**
   * The events React runs after a query is typed: the `[query, pageSize]`
   * effect, and the `[page]` effect too when the reset moved the page.
   */
  function QueryEffects(s: Listing): seq<Event>
  {
    if s.page != 1 then [QueryOrPageSizeEffect, PageEffect] else [QueryOrPageSizeEffect]
  }

  /** From page 1, the query's effect runs alone and its request is answered once. */
  lemma NewQueryFromFirstPage(s: Listing, q: string, page: ListPage)
    requires s.page == 1
    ensures Run(s, [QueryTyped(q), QueryOrPageSizeEffect, FetchSettled(Ok(page))])
      == (s.(query := q, sheets := page.items, total := page.total, loading := false), [ListSheets(1, s.pageSize, q)])
  {
    var c := ListSheets(1, s.pageSize, q);
    var answer := FetchSettled(Ok(page));
    var s1 := TypeQuery(s, q);
    var s2 := ResetToFirstPage(s1).0;
    var s3 := SettleFetch(s2, Ok(page));
    var none: seq<Call> := [];
    RunCons(s2, answer, []);
    assert [answer] + [] == [answer] && none + none == none;
    assert Run(s2, [answer]) == (s3, none);
    RunCons(s1, QueryOrPageSizeEffect, [answer]);
    assert [QueryOrPageSizeEffect] + [answer] == [QueryOrPageSizeEffect, answer];
    assert Step(s1, QueryOrPageSizeEffect) == (s2, [c]) && [c] + none == [c];
    assert Run(s1, [QueryOrPageSizeEffect, answer]) == (s3, [c]);
    RunCons(s, QueryTyped(q), [QueryOrPageSizeEffect, answer]);
    assert [QueryTyped(q)] + [QueryOrPageSizeEffect, answer] == [QueryTyped(q), QueryOrPageSizeEffect, answer];
    assert Step(s, QueryTyped(q)) == (s1, none) && none + [c] == [c];
    assert s3 == s.(query := q, sheets := page.items, total := page.total, loading := false);
  }

  /**
   * From any other page, the reset moves the page, so the `[page]` effect runs
   * too and repeats the request; each request is answered.
   */
  lemma NewQueryFromLaterPage(s: Listing, q: string, page: ListPage)
    requires s.page != 1
    ensures var c := ListSheets(1, s.pageSize, q);
      var answer := FetchSettled(Ok(page));
      Run(s, [QueryTyped(q), QueryOrPageSizeEffect, PageEffect, answer, answer])
      == (s.(query := q, page := 1, sheets := page.items, total := page.total, loading := false), [c, c])
  {
    var c := ListSheets(1, s.pageSize, q);
    var answer := FetchSettled(Ok(page));
    var s1 := TypeQuery(s, q);
    var s2 := ResetToFirstPage(s1).0;
    var s2b := BeginFetch(s2);
    var s3 := SettleFetch(s2, Ok(page));
    var none: seq<Call> := [];
    assert SettleFetch(s2b, Ok(page)) == s3 && SettleFetch(s3, Ok(page)) == s3;
    RunCons(s3, answer, []);
    assert [answer] + [] == [answer] && none + none == none;
    RunCons(s2b, answer, [answer]);
    assert [answer] + [answer] == [answer, answer];
    assert Run(s2b, [answer, answer]) == (s3, none);
    RunCons(s2, PageEffect, [answer, answer]);
    assert [PageEffect] + [answer, answer] == [PageEffect, answer, answer];
    assert Step(s2, PageEffect) == (s2b, [c]) && [c] + none == [c];
    assert Run(s2, [PageEffect, answer, answer]) == (s3, [c]);
    RunCons(s1, QueryOrPageSizeEffect, [PageEffect, answer, answer]);
    assert [QueryOrPageSizeEffect] + [PageEffect, answer, answer] == [QueryOrPageSizeEffect, PageEffect, answer, answer];
    assert Step(s1, QueryOrPageSizeEffect) == (s2, [c]) && [c] + [c] == [c, c];
    assert Run(s1, [QueryOrPageSizeEffect, PageEffect, answer, answer]) == (s3, [c, c]);
    RunCons(s, QueryTyped(q), [QueryOrPageSizeEffect, PageEffect, answer, answer]);
    assert [QueryTyped(q)] + [QueryOrPageSizeEffect, PageEffect, answer, answer]
        == [QueryTyped(q), QueryOrPageSizeEffect, PageEffect, answer, answer];
    assert Step(s, QueryTyped(q)) == (s1, none) && none + [c, c] == [c, c];
    assert s3 == s.(query := q, page := 1, sheets := page.items, total := page.total, loading := false);
  }

  /**
   * Typing a new query, the effects React then runs and a successful answer
   * to each request: page 1 of the new query is requested, once from page 1
   * and twice from any other page, and the state shows exactly that answer.
   */
  lemma NewQueryCycle(s: Listing, q: string, page: ListPage)
    requires q != s.query
    ensures var c := ListSheets(1, s.pageSize, q);
      var answers := if s.page != 1 then [FetchSettled(Ok(page)), FetchSettled(Ok(page))] else [FetchSettled(Ok(page))];
      var (t, calls) := Run(s, [QueryTyped(q)] + QueryEffects(s) + answers);
      && calls == (if s.page != 1 then [c, c] else [c])
      && t == s.(query := q, page := 1, sheets := page.items, total := page.total, loading := false)
  {
    var answer := FetchSettled(Ok(page));
    if s.page != 1 {
      NewQueryFromLaterPage(s, q, page);
      assert [QueryTyped(q)] + QueryEffects(s) + [answer, answer]
          == [QueryTyped(q), QueryOrPageSizeEffect, PageEffect, answer, answer];
    } else {
      NewQueryFromFirstPage(s, q, page);
      assert [QueryTyped(q)] + QueryEffects(s) + [answer] == [QueryTyped(q), QueryOrPageSizeEffect, answer];
      assert s.(page := 1) == s;
    }
  }

  /**
   * On mount React runs both effects, so the first render sends the request
   * for page 1 of the empty query twice.
   */
  lemma MountRequestsFirstPageTwice()
    ensures var c := ListSheets(1, DefaultPageSize, "");
      Run(Initial, [QueryOrPageSizeEffect, PageEffect]) == (Initial, [c, c])
  {
    var c := ListSheets(1, DefaultPageSize, "");
    var none: seq<Call> := [];
    RunCons(Initial, PageEffect, []);
    assert [PageEffect] + [] == [PageEffect];
    assert Run(Initial, [PageEffect]) == (Initial, [c] + none);
    RunCons(Initial, QueryOrPageSizeEffect, [PageEffect]);
    assert [QueryOrPageSizeEffect] + [PageEffect] == [QueryOrPageSizeEffect, PageEffect];
    assert [c] + none == [c] && [c] + [c] == [c, c];
  }

  /**
   * Replace, not merge: after a successful fetch the items and total are the
   * response's, whatever the state showed before.
   */
  lemma SettleReplaces(s1: Listing, s2: Listing, page: ListPage)
    ensures SettleFetch(s1, Ok(page)).sheets == SettleFetch(s2, Ok(page)).sheets == page.items
    ensures SettleFetch(s1, Ok(page)).total == SettleFetch(s2, Ok(page)).total == page.total
  {
  }

  /** A failed fetch leaves the same state as a server answer with no items and total 0. */
  lemma FailureLooksEmpty(s: Listing)
    ensures SettleFetch(s, Failed) == SettleFetch(s, Ok(ListPage([], 0)))
  {
  }

  /** The page effect requests the current page whatever the total is: no clamping. */
  lemma PageEffectIgnoresTotal(s: Listing, total: int)
    ensures Step(s.(total := total), PageEffect).1 == Step(s, PageEffect).1 == [ListSheets(s.page, s.pageSize, s.query)]
  {
  }

  /**
   * When the reset changes the page, the page effect fires as well and sends
   * the same request a second time.
   */
  lemma ResetThenPageEffectRepeats(s: Listing)
    ensures var (t, first) := Step(s, QueryOrPageSizeEffect);
      Step(t, PageEffect).1 == first == [ListSheets(1, s.pageSize, s.query)]
  {
  }

  /**
   * Refreshing a preview re-requests the current page only after the POST
   * succeeds; a failed POST changes nothing and sends no listing request.
   */
  lemma RefreshPreviewOutcomes(s: Listing, id: string)
    ensures Step(s, RefreshPreviewSettled(id, true)).1
      == [RefreshPreview(id), ListSheets(s.page, s.pageSize, s.query)]
    ensures Step(s, RefreshPreviewSettled(id, false)) == (s, [RefreshPreview(id)])
  {
  }

  /** The dashboard's state, updated in place as the component's setters do. */
  class Dashboard {
    var loading: bool
    var sheets: seq<Sheet>
    var query: string
    var page: int
    var pageSize: int
    var total: int

    function State(): Listing
      reads this
    {
      Listing(loading, sheets, query, page, pageSize, total)
    }

    predicate Valid()
      reads this
    {
      State().Valid()
    }

    constructor ()
      ensures Valid() && State() == Initial
    {
      loading, sheets, query := true, [], "";
      page, pageSize, total := 1, DefaultPageSize, 0;
    }

    /** The synchronous part of `fetchSheets(args)`: raise `loading` and send the request. */
    method FetchSheets(args: FetchArgs) returns (call: Call)
      requires Valid()
      modifies this
      ensures Valid()
      ensures call == RequestFor(old(State()), args)
      ensures State() == BeginFetch(old(State()))
    {
      call := ListSheets(args.pageArg.GetOr(page), args.pageSizeArg.GetOr(pageSize), args.queryArg.GetOr(query));
      loading := true;
    }

    /** The rest of `fetchSheets`, once the request has settled. */
    method FetchSettled(r: Response<ListPage>)
      requires Valid()
      modifies this
      ensures Valid()
      ensures (State(), []) == Step(old(State()), Event.FetchSettled(r))
    {
      match r {
        case Ok(data) =>
          sheets := data.items;
          total := data.total;
        case Failed =>
          sheets := [];
          total := 0;
      }
      loading := false;
    }

    /** The search box's onChange; `effectDue` says whether the [query, pageSize] effect fires. */
    method TypeQuery(q: string) returns (effectDue: bool)
      requires Valid()
      modifies this
      ensures Valid()
      ensures effectDue == (q != old(query))
      ensures (State(), []) == Step(old(State()), QueryTyped(q))
    {
      effectDue := q != query;
      query := q;
    }

    /** The [query, pageSize] effect; `pageEffectDue` says whether it changed `page`. */
    method QueryOrPageSizeEffect() returns (call: Call, pageEffectDue: bool)
      requires Valid()
      modifies this
      ensures Valid()
      ensures pageEffectDue == (old(page) != 1)
      ensures (State(), [call]) == Step(old(State()), Event.QueryOrPageSizeEffect)
    {
      call := FetchSheets(FetchArgs(Some(1), Some(pageSize), Some(query)));
      pageEffectDue := page != 1;
      page := 1;
    }

    /** The [page] effect: fetch the current page with the current query and page size. */
    method PageEffect() returns (call: Call)
      requires Valid()
      modifies this
      ensures Valid()
      ensures (State(), [call]) == Step(old(State()), Event.PageEffect)
    {
      call := FetchSheets(FetchArgs(Some(page), None, None));
    }

    /** The "Refresh all" button. */
    method RefreshAll() returns (call: Call)
      requires Valid()
      modifies this
      ensures Valid()
      ensures (State(), [call]) == Step(old(State()), RefreshAllClicked)
    {
      call := FetchSheets(NoArgs);
    }

    /** A click on Prev, which does nothing while the button is disabled. */
    method Prev() returns (pageEffectDue: bool)
      requires Valid()
      modifies this
      ensures Valid()
      ensures pageEffectDue == (page != old(page))
      ensures (State(), []) == Step(old(State()), PrevClicked)
    {
      pageEffectDue := false;
      if page != 1 {
        var p := Max(1, page - 1);
        pageEffectDue := p != page;
        page := p;
      }
    }

    /** A click on Next, which does nothing while the button is disabled. */
    method Next() returns (pageEffectDue: bool)
      requires Valid()
      modifies this
      ensures Valid()
      ensures pageEffectDue == (page != old(page))
      ensures (State(), []) == Step(old(State()), NextClicked)
    {
      pageEffectDue := false;
      if |sheets| != 0 {
        page := page + 1;
        pageEffectDue := true;
      }
    }

    /**
     * `refreshPreview(id)` once its POST has settled: on success the current
     * page is fetched again; on failure the error is only logged.
     */
    method RefreshPreview(id: string, posted: bool) returns (calls: seq<Call>)
      requires Valid()
      modifies this
      ensures Valid()
      ensures (State(), calls) == Step(old(State()), RefreshPreviewSettled(id, posted))
    {
      calls := [Call.RefreshPreview(id)];
      if posted {
        var call := FetchSheets(NoArgs);
        calls := calls + [call];
      }
      assert calls == Step(old(State()), RefreshPreviewSettled(id, posted)).1;
    }
  }
}
