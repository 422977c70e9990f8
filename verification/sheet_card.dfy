/**
 * One tile of the listing (`SheetCard` in client/src/App.jsx): its owners
 * line, its links, and the expander that loads the spreadsheet's inner
 * sheets. There is no cache: every opening of the expander requests the tabs
 * again, and closing it only flips `expanded`.
 *
 * Opening is two events: `Toggle` raises `tabsLoading` and sends the request;
 * `SettleExpand` stores the answer, lowers `tabsLoading` and only then flips
 * `expanded`, as the handler's final `setExpanded` runs after the await.
 */
module Card {
  import opened Domain
  import opened Text
  import opened Links

  const NoOwners := "—"
  const OwnerSeparator := ", "

  /** The owners line: `owners?.join(', ') || '—'`. */
  function OwnersLabel(owners: Option<seq<string>>): (line: string)
    ensures line != ""
    ensures owners.Some? && Join(owners.value, OwnerSeparator) != "" ==> line == Join(owners.value, OwnerSeparator)
    ensures owners.None? || Join(owners.value, OwnerSeparator) == "" ==> line == NoOwners
  {
    match owners
    case None => NoOwners
    case Some(names) =>
      var joined := Join(names, OwnerSeparator);
      if joined == "" then NoOwners else joined
  }

  /** Whether the owners line lists names rather than the placeholder. */
  predicate ListsOwners(owners: Option<seq<string>>)
  {
    owners.Some? && (|owners.value| >= 2 || (|owners.value| == 1 && owners.value[0] != ""))
  }

  /**
   * The placeholder appears exactly for a missing list, an empty list, or a
   * single empty name; otherwise the names are shown joined.
   */
  lemma OwnersLabelCases(owners: Option<seq<string>>)
    ensures ListsOwners(owners) ==> OwnersLabel(owners) == Join(owners.value, OwnerSeparator)
    ensures !ListsOwners(owners) ==> OwnersLabel(owners) == NoOwners
  {
    if owners.Some? {
      JoinEmptyIff(owners.value, OwnerSeparator);
    }
  }

  datatype CardState = CardState(expanded: bool, tabs: seq<Tab>, tabsLoading: bool)
  {
    /** Tabs are only ever loading on the way from collapsed to expanded. */
    predicate Valid()
    {
      tabsLoading ==> !expanded
    }
  }

  const Collapsed := CardState(false, [], false)

  /**
   * `toggleExpand` up to its await: when collapsed, the tabs of `sheetId` are
   * requested and `tabsLoading` is raised; when expanded, the card collapses
   * and nothing is requested. The tabs already loaded are kept either way.
   */
  function Toggle(sheetId: string, c: CardState): (step: (CardState, seq<Call>))
    ensures step.1 != [] <==> !c.expanded
    ensures step.1 != [] ==> step.1 == [ListTabs(sheetId)]
    ensures !step.0.expanded && step.0.tabs == c.tabs
    ensures step.0.tabsLoading == (c.tabsLoading || !c.expanded)
    ensures c.Valid() ==> step.0.Valid()
  {
    if !c.expanded then (c.(tabsLoading := true), [ListTabs(sheetId)])
    else (c.(expanded := false), [])
  }

  /**
   * The rest of `toggleExpand` once the tabs request has settled: the tabs
   * are the response's items, or empty when they are missing or the request
   * failed; loading ends; `expanded` flips.
   */
  function SettleExpand(c: CardState, r: Response<TabsBody>): (t: CardState)
    ensures t.tabs == TabsOrEmpty(r)
    ensures !t.tabsLoading
    ensures t.expanded == !c.expanded
    ensures t.Valid()
  {
    CardState(!c.expanded, TabsOrEmpty(r), false)
  }

  /** Opening a collapsed card: one request, and the card ends open showing its answer. */
  lemma OpenCycle(sheetId: string, c: CardState, r: Response<TabsBody>)
    requires c.Valid() && !c.expanded
    ensures var (opening, calls) := Toggle(sheetId, c);
      && calls == [ListTabs(sheetId)]
      && opening.tabsLoading
      && SettleExpand(opening, r) == CardState(true, TabsOrEmpty(r), false)
  {
  }

  /** No cache: an open card, closed and opened again, requests its tabs again. */
  lemma ReopenRefetches(sheetId: string, c: CardState)
    requires c.Valid() && c.expanded
    ensures Toggle(sheetId, c).1 == []
    ensures Toggle(sheetId, Toggle(sheetId, c).0).1 == [ListTabs(sheetId)]
  {
  }

  /** The tile's state, updated in place as the component's setters do. */
  class SheetCard {
    const sheet: Sheet
    var expanded: bool
    var tabs: seq<Tab>
    var tabsLoading: bool

    function State(): CardState
      reads this
    {
      CardState(expanded, tabs, tabsLoading)
    }

    predicate Valid()
      reads this
    {
      State().Valid()
    }

    constructor (sheet: Sheet)
      ensures this.sheet == sheet
      ensures Valid() && State() == Collapsed
    {
      this.sheet := sheet;
      expanded, tabs, tabsLoading := false, [], false;
    }

    /** The "Open" link. */
    function OpenLink(): (u: string)
      ensures SheetIdOf(u) == Some(sheet.id)
    {
      OpenUrlRoundTrip(sheet.id);
      OpenUrl(sheet.id)
    }

    /** The "Open tab" link of one of the loaded tabs. */
    function TabLink(t: Tab): (u: string)
      ensures DecodeTabUrl(u) == Some((sheet.id, t.gid))
    {
      TabUrlRoundTrip(sheet.id, t.gid);
      TabUrl(sheet.id, t.gid)
    }

    /** `toggleExpand` up to its await. */
    method ToggleExpand() returns (calls: seq<Call>)
      requires Valid()
      modifies this
      ensures Valid()
      ensures (State(), calls) == Toggle(sheet.id, old(State()))
    {
      if !expanded {
        tabsLoading := true;
        calls := [ListTabs(sheet.id)];
      } else {
        expanded := !expanded;
        calls := [];
      }
    }

    /** `toggleExpand` after the tabs request has settled. */
    method ExpandSettled(r: Response<TabsBody>)
      requires Valid() && tabsLoading
      modifies this
      ensures Valid()
      ensures State() == SettleExpand(old(State()), r)
    {
      match r {
        case Ok(body) => tabs := body.items.GetOr([]);
        case Failed => tabs := [];
      }
      tabsLoading := false;
      expanded := !expanded;
    }
  }
}
