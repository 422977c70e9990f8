/**
 * The detail page of one spreadsheet (client/src/SheetDetail.jsx): it loads
 * the inner sheets of the spreadsheet named in the route, filters them by a
 * case-insensitive search on the title, and shows exactly one of a spinner,
 * the error, "No inner sheets", "No results" or the list, in that order of
 * precedence.
 */
module Detail {
  import opened Domain
  import opened Text
  import opened Links

  const LoadFailedMessage := "Failed to load inner sheets"

  datatype DetailState = DetailState(id: string, loading: bool, tabs: seq<Tab>, error: string, query: string)

  /** The state when the page mounts for spreadsheet `id`. */
  function Mounted(id: string): DetailState
  {
    DetailState(id, true, [], "", "")
  }

  /**
   * `load` up to its await: `loading` is raised and the error cleared before
   * the tabs of the current spreadsheet are requested.
   */
  function BeginLoad(s: DetailState): (step: (DetailState, Call))
    ensures step.0.loading && step.0.error == ""
    ensures step.0.(loading := s.loading, error := s.error) == s
    ensures step.1 == ListTabs(s.id)
  {
    (s.(loading := true, error := ""), ListTabs(s.id))
  }

  /**
   * The rest of `load`: on success the tabs are the response's items (or
   * none when they are missing) and the error is left alone; on failure the
   * tabs are emptied and the error is set. `loading` ends false either way.
   */
  function SettleLoad(s: DetailState, r: Response<TabsBody>): (t: DetailState)
    ensures !t.loading
    ensures r.Ok? ==> t.tabs == TabsOrEmpty(r) && t.error == s.error
    ensures r.Failed? ==> t.tabs == [] && t.error == LoadFailedMessage
    ensures t.id == s.id && t.query == s.query
  {
    match r
    case Ok(body) => s.(tabs := body.items.GetOr([]), loading := false)
    case Failed => s.(error := LoadFailedMessage, tabs := [], loading := false)
  }

  /**
   * On mount the `[id]` effect runs `load`: the page, already loading with no
   * error, requests the tabs of the route's spreadsheet and is otherwise unchanged.
   */
  lemma MountLoads(id: string)
    ensures BeginLoad(Mounted(id)) == (Mounted(id), ListTabs(id))
  {
  }

  /** A whole `load`: the error shown afterwards is the outcome of this load alone. */
  lemma LoadCycle(s: DetailState, r: Response<TabsBody>)
    ensures var t := SettleLoad(BeginLoad(s).0, r);
      && !t.loading
      && (r.Ok? ==> t.error == "" && t.tabs == TabsOrEmpty(r))
      && (r.Failed? ==> t.error == LoadFailedMessage && t.tabs == [])
  {
  }

  // ---------------------------------------------------------------- search

  /** `t.title || ''`. */
  function TitleText(t: Tab): string
  {
    t.title.GetOr("")
  }

  /** Whether a tab's lower-cased title includes the (already lower-cased) query `q`. */
  predicate Matches(t: Tab, q: string)
  {
    Contains(Lower(TitleText(t)), q)
  }

  /** `a` is `b` with some elements left out, the rest in their original order. */
  ghost predicate IsSubsequence<T>(a: seq<T>, b: seq<T>)
    decreases |b|
  {
    if a == [] then true
    else if b == [] then false
    else (a[0] == b[0] && IsSubsequence(a[1..], b[1..])) || IsSubsequence(a, b[1..])
  }

  /**
   * `tabs.filter(t => (t.title || '').toLowerCase().includes(q))`: the tabs
   * whose title matches, in their original order, each as often as in `tabs`.
   */
  function FilterTabs(tabs: seq<Tab>, q: string): (r: seq<Tab>)
    ensures IsSubsequence(r, tabs)
    ensures forall t :: multiset(r)[t] == if Matches(t, q) then multiset(tabs)[t] else 0
  {
    if tabs == [] then []
    else
      var rest := FilterTabs(tabs[1..], q);
      assert tabs == [tabs[0]] + tabs[1..];
      if Matches(tabs[0], q) then [tabs[0]] + rest else rest
  }

  /** `filteredTabs`: every tab for an empty query, otherwise the case-insensitive matches. */
  function FilteredTabs(tabs: seq<Tab>, query: string): (r: seq<Tab>)
    ensures IsSubsequence(r, tabs)
    ensures query == "" ==> r == tabs
    ensures forall t :: t in r <==> t in tabs && (query == "" || Matches(t, Lower(query)))
    ensures forall t :: multiset(r)[t] == if query == "" || Matches(t, Lower(query)) then multiset(tabs)[t] else 0
  {
    if query == "" then
      SubsequenceOfItself(tabs);
      tabs
    else
      var r := FilterTabs(tabs, Lower(query));
      assert forall t :: t in r <==> multiset(r)[t] > 0;
      r
  }

  lemma {:induction false} SubsequenceOfItself<T>(s: seq<T>)
    ensures IsSubsequence(s, s)
    decreases |s|
  {
    if s != [] {
      SubsequenceOfItself(s[1..]);
    }
  }

  /** A subsequence is never longer than the sequence it is taken from. */
  lemma {:induction false} SubsequenceNoLonger<T>(a: seq<T>, b: seq<T>)
    requires IsSubsequence(a, b)
    ensures |a| <= |b|
    decreases |b|
  {
    if a != [] {
      if a[0] == b[0] && IsSubsequence(a[1..], b[1..]) {
        SubsequenceNoLonger(a[1..], b[1..]);
      } else {
        SubsequenceNoLonger(a, b[1..]);
      }
    }
  }

  /** The filter never shows more tabs than were loaded. */
  lemma FilteredNoLonger(tabs: seq<Tab>, query: string)
    ensures |FilteredTabs(tabs, query)| <= |tabs|
  {
    SubsequenceNoLonger(FilteredTabs(tabs, query), tabs);
  }

  /**
   * Filtering with the empty query would keep every tab anyway, so the
   * early `return tabs` for an empty query changes nothing.
   */
  lemma {:induction false} FilterWithEmptyQuery(tabs: seq<Tab>)
    ensures FilterTabs(tabs, "") == tabs
  {
    if tabs != [] {
      ContainsEmpty(Lower(TitleText(tabs[0])));
      FilterWithEmptyQuery(tabs[1..]);
    }
  }

  /** A tab without a title matches no non-empty query. */
  lemma UntitledNeverMatches(t: Tab, query: string)
    requires t.title.None? && query != ""
    ensures t !in FilteredTabs([t], query)
  {
    EmptyContainsOnlyEmpty(Lower(query));
  }

  /** The search ignores the case of the query. */
  lemma SearchIgnoresQueryCase(tabs: seq<Tab>, q1: string, q2: string)
    requires Lower(q1) == Lower(q2)
    ensures FilteredTabs(tabs, q1) == FilteredTabs(tabs, q2)
  {
    assert |q1| == |Lower(q1)| == |q2|;
  }

  // ---------------------------------------------------------------- display

  /** What the page shows under the search box. */
  datatype DetailView =
    | Spinner
    | ErrorText(message: string)
    | NoInnerSheets
    | NoResults(query: string)
    | TabCards(tabs: seq<Tab>)

  /** The order of precedence: loading, then error, then no tabs, then no matches, then the list. */
  function View(s: DetailState): (v: DetailView)
    ensures v.Spinner? <==> s.loading
    ensures v.ErrorText? <==> !s.loading && s.error != ""
    ensures v.ErrorText? ==> v.message == s.error
    ensures v.NoInnerSheets? <==> !s.loading && s.error == "" && s.tabs == []
    ensures v.NoResults? <==> !s.loading && s.error == "" && s.tabs != [] && FilteredTabs(s.tabs, s.query) == []
    ensures v.NoResults? ==> v.query == s.query
    ensures v.TabCards? ==> v.tabs == FilteredTabs(s.tabs, s.query) && v.tabs != []
  {
    if s.loading then Spinner
    else if s.error != "" then ErrorText(s.error)
    else if |s.tabs| == 0 then NoInnerSheets
    else
      var shown := FilteredTabs(s.tabs, s.query);
      if |shown| == 0 then NoResults(s.query) else TabCards(shown)
  }

  /** With an empty search box, "No results" is never shown. */
  lemma EmptyQueryNeverNoResults(s: DetailState)
    requires s.query == ""
    ensures !View(s).NoResults?
  {
  }

  /** A failed load shows its error message, whatever the page showed before. */
  lemma FailedLoadShowsError(s: DetailState)
    ensures View(SettleLoad(BeginLoad(s).0, Failed)) == ErrorText(LoadFailedMessage)
  {
  }

  /** A successful load never shows an error, even after an earlier failure. */
  lemma SuccessfulLoadShowsNoError(s: DetailState, body: TabsBody)
    ensures !View(SettleLoad(BeginLoad(s).0, Ok(body))).ErrorText?
  {
  }

  /** The page's state, updated in place as the component's setters do. */
  class SheetDetail {
    var id: string
    var loading: bool
    var tabs: seq<Tab>
    var error: string
    var query: string

    function State(): DetailState
      reads this
    {
      DetailState(id, loading, tabs, error, query)
    }

    constructor (id: string)
      ensures State() == Mounted(id)
    {
      this.id := id;
      loading, tabs, error, query := true, [], "", "";
    }

    /** The "Open spreadsheet" link. */
    function OpenLink(): (u: string)
      reads this
      ensures SheetIdOf(u) == Some(id)
    {
      OpenUrlRoundTrip(id);
      OpenUrl(id)
    }

    /** The "Open tab" link of one listed tab. */
    function TabLink(t: Tab): (u: string)
      reads this
      ensures DecodeTabUrl(u) == Some((id, t.gid))
    {
      TabUrlRoundTrip(id, t.gid);
      TabUrl(id, t.gid)
    }

    /** `load` up to its await; run by the [id] effect and by the Refresh button alike. */
    method Load() returns (call: Call)
      modifies this
      ensures (State(), call) == BeginLoad(old(State()))
    {
      loading := true;
      error := "";
      call := ListTabs(id);
    }

    /** The rest of `load`, once the tabs request has settled. */
    method LoadSettled(r: Response<TabsBody>)
      modifies this
      ensures State() == SettleLoad(old(State()), r)
    {
      match r {
        case Ok(body) => tabs := body.items.GetOr([]);
        case Failed =>
          error := LoadFailedMessage;
          tabs := [];
      }
      loading := false;
    }

    /** The route parameter changes; `effectDue` says whether the [id] effect reloads. */
    method ChangeId(newId: string) returns (effectDue: bool)
      modifies this
      ensures effectDue == (newId != old(id))
      ensures State() == old(State()).(id := newId)
    {
      effectDue := newId != id;
      id := newId;
    }

    /** The search box's onChange. */
    method TypeQuery(q: string)
      modifies this
      ensures State() == old(State()).(query := q)
    {
      query := q;
    }
  }
}
