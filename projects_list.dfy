/** The paginated project list: what the Previous/Next buttons do to the page
    number, which page links are drawn, what a search does to the page, and
    what is shown before the query has answered. */
module ProjectsList {
  import opened Common

  /** At most this many numbered links are drawn. */
  const MaxLinks := 5

  function Max(a: int, b: int): int { if a >= b then a else b }
  function Min(a: int, b: int): int { if a <= b then a else b }

  datatype Project = Project(id: string, name: string, updatedAt: int)

  /** One answer of the paged query: the projects of the page and the page count. */
  datatype ProjectsPage = ProjectsPage(items: seq<Project>, totalPages: nat)

  /** The search box's text and the current page; the page starts at 1. */
  datatype ListState = ListState(query: string, page: int)

  function InitialState(): (s: ListState)
    ensures s.query == "" && s.page == 1
  {
    ListState("", 1)
  }

  // ---------------------------------------------------------------------------
  // what is shown while there is no answer

  /** The items shown: none while the query has no data. */
  function ShownItems(data: Option<ProjectsPage>): (r: seq<Project>)
    ensures data.None? ==> r == []
    ensures data.Some? ==> r == data.value.items
  {
    match data
    case None => []
    case Some(p) => p.items
  }

  /** The page count used by the pager: 1 while the query has no data. */
  function ShownTotalPages(data: Option<ProjectsPage>): (r: nat)
    ensures data.None? ==> r == 1
    ensures data.Some? ==> r == data.value.totalPages
  {
    match data
    case None => 1
    case Some(p) => p.totalPages
  }

  /** The text shown when the page has no projects. */
  function EmptyListText(query: string): (r: string)
    ensures query == "" ==> r == "No projects found."
    ensures query != "" ==> r == "No projects found for \"" + query + "\"."
  {
    "No projects found" + (if query != "" then " for \"" + query + "\"" else "") + "."
  }

  // ---------------------------------------------------------------------------
  // Previous / Next

  /** The page after clicking Previous. */
  function Previous(page: int): (r: int)
    ensures r >= 1
    ensures page > 1 ==> r == page - 1
    ensures page <= 1 ==> r == 1
  {
    Max(1, page - 1)
  }

  /** Previous is drawn disabled on the first page: for a page of at least 1,
      exactly when clicking it would not move. */
  predicate PreviousDisabled(page: int): (r: bool)
    ensures page >= 1 ==> (r <==> Previous(page) == page)
  {
    page <= 1
  }

  /** The page after clicking Next. */
  function Next(page: int, totalPages: nat): (r: int)
    ensures r <= totalPages
    ensures page < totalPages ==> r == page + 1
    ensures page >= totalPages ==> r == totalPages
  {
    Min(totalPages, page + 1)
  }

  /** Next is drawn disabled on the last page: for a page within the count,
      exactly when clicking it would not move. */
  predicate NextDisabled(page: int, totalPages: nat): (r: bool)
    ensures page <= totalPages ==> (r <==> Next(page, totalPages) == page)
  {
    page >= totalPages
  }

  /** On the first page Previous leaves the page where it is. */
  lemma PreviousAtFirstPage(page: int)
    requires page == 1
    ensures PreviousDisabled(page) && Previous(page) == page
  {
  }

  /** On the last page Next leaves the page where it is. */
  lemma NextAtLastPage(page: int, totalPages: nat)
    requires page == totalPages
    ensures NextDisabled(page, totalPages) && Next(page, totalPages) == page
  {
  }

  /** From a page in range, both buttons land on a page in range. */
  lemma StepsStayInRange(page: int, totalPages: nat)
    requires 1 <= page <= totalPages
    ensures 1 <= Previous(page) <= totalPages
    ensures 1 <= Next(page, totalPages) <= totalPages
  {
  }

  /** An enabled button moves by exactly one page, and the other button undoes it. */
  lemma EnabledStepsUndo(page: int, totalPages: nat)
    ensures !PreviousDisabled(page) && page <= totalPages ==>
      Previous(page) == page - 1 && Next(Previous(page), totalPages) == page
    ensures !NextDisabled(page, totalPages) && page >= 1 ==>
      Next(page, totalPages) == page + 1 && Previous(Next(page, totalPages)) == page
  {
  }

  /** With a page count of 0 (no projects at all) Next moves to page 0. */
  lemma NextWithNoPages(page: int)
    requires page >= 0
    ensures NextDisabled(page, 0) && Next(page, 0) == 0
  {
  }

  // ---------------------------------------------------------------------------
  // the numbered links

  datatype PageLink = PageLink(number: int, active: bool)

  /** The number of link slots: the page count, but no more than five. */
  function Slots(totalPages: nat): nat
  {
    Min(totalPages, MaxLinks)
  }

  /** The number on the first slot. */
  function WindowStart(page: int, totalPages: nat): int
  {
    Max(1, Min(page - 2, totalPages - 4))
  }

  /** The links of slots `i` and up; a slot whose number is past the page count draws nothing. */
  function LinksFrom(page: int, totalPages: nat, i: nat): seq<PageLink>
    decreases Slots(totalPages) - i
  {
    if i >= Slots(totalPages) then []
    else
      var n := i + WindowStart(page, totalPages);
      (if n > totalPages then [] else [PageLink(n, n == page)]) + LinksFrom(page, totalPages, i + 1)
  }

  /** The numbered links drawn between Previous and Next: as many as the page
      count allows up to five, each an existing page, active exactly when it is
      the current page. */
  function PageWindow(page: int, totalPages: nat): (r: seq<PageLink>)
    ensures |r| == Min(totalPages, MaxLinks)
    ensures forall k :: 0 <= k < |r| ==> 1 <= r[k].number <= totalPages && (r[k].active <==> r[k].number == page)
  {
    LinksFromShape(page, totalPages, 0);
    LastSlotInRange(page, totalPages);
    LinksFrom(page, totalPages, 0)
  }

  /** The last slot's number never exceeds the page count. */
  lemma LastSlotInRange(page: int, totalPages: nat)
    ensures WindowStart(page, totalPages) >= 1
    ensures WindowStart(page, totalPages) + Slots(totalPages) - 1 <= totalPages
  {
  }

  lemma {:induction false} LinksFromShape(page: int, totalPages: nat, i: nat)
    requires i <= Slots(totalPages)
    ensures var w := LinksFrom(page, totalPages, i);
      && |w| == Slots(totalPages) - i
      && forall k :: 0 <= k < |w| ==>
           w[k] == PageLink(WindowStart(page, totalPages) + i + k, WindowStart(page, totalPages) + i + k == page)
    decreases Slots(totalPages) - i
  {
    if i < Slots(totalPages) {
      LastSlotInRange(page, totalPages);
      LinksFromShape(page, totalPages, i + 1);
    }
  }

  /** The window is the run of consecutive numbers from `WindowStart`, one per slot:
      the guard against numbers past the page count never drops a link, and the
      link whose number is the current page is the active one. */
  lemma PageWindowShape(page: int, totalPages: nat)
    ensures var w := PageWindow(page, totalPages);
      && |w| == Min(totalPages, MaxLinks)
      && forall k :: 0 <= k < |w| ==>
           w[k] == PageLink(WindowStart(page, totalPages) + k, WindowStart(page, totalPages) + k == page)
  {
    LinksFromShape(page, totalPages, 0);
  }

  /** The number of active links in a window. */
  function ActiveCount(w: seq<PageLink>): nat
  {
    if |w| == 0 then 0 else (if w[0].active then 1 else 0) + ActiveCount(w[1..])
  }

  lemma {:induction false} ActiveCountOfRun(w: seq<PageLink>, start: int, page: int)
    requires forall k :: 0 <= k < |w| ==> w[k] == PageLink(start + k, start + k == page)
    ensures ActiveCount(w) == if start <= page < start + |w| then 1 else 0
  {
    if |w| > 0 {
      ActiveCountOfRun(w[1..], start + 1, page);
    }
  }

  /** For a page in range, the window holds that page and exactly one link is active. */
  lemma PageWindowHasPage(page: int, totalPages: nat)
    requires 1 <= page <= totalPages
    ensures var w := PageWindow(page, totalPages);
      && (exists k :: 0 <= k < |w| && w[k].number == page && w[k].active)
      && ActiveCount(w) == 1
  {
    var w := PageWindow(page, totalPages);
    var start := WindowStart(page, totalPages);
    PageWindowShape(page, totalPages);
    assert start <= page < start + |w|;
    assert w[page - start].number == page;
    ActiveCountOfRun(w, start, page);
  }

  /** Away from the ends the current page sits in the middle of five links. */
  lemma PageWindowCentred(page: int, totalPages: nat)
    requires 3 <= page <= totalPages - 2
    ensures var w := PageWindow(page, totalPages);
      |w| == 5 && w[2] == PageLink(page, true)
  {
    PageWindowShape(page, totalPages);
  }

  /** With no data the pager shows the single link 1. */
  lemma NoDataWindow(page: int)
    ensures PageWindow(page, ShownTotalPages(None)) == [PageLink(1, page == 1)]
  {
    PageWindowShape(page, 1);
  }

  // ---------------------------------------------------------------------------
  // user actions

  /** Submitting the search form goes back to the first page and keeps the text. */
  function SubmitSearch(s: ListState): (r: ListState)
    ensures r.page == 1 && r.query == s.query
  {
    s.(page := 1)
  }

  /** Typing in the search box changes the text only; the page is kept. */
  function TypeQuery(s: ListState, text: string): (r: ListState)
    ensures r.query == text && r.page == s.page
  {
    s.(query := text)
  }

  function ClickPrevious(s: ListState): (r: ListState)
    ensures r == ListState(s.query, Previous(s.page))
  {
    s.(page := Previous(s.page))
  }

  function ClickNext(s: ListState, totalPages: nat): (r: ListState)
    ensures r == ListState(s.query, Next(s.page, totalPages))
  {
    s.(page := Next(s.page, totalPages))
  }

  function ClickPageLink(s: ListState, link: PageLink): (r: ListState)
    ensures r == ListState(s.query, link.number)
  {
    s.(page := link.number)
  }

  /** After a search the first link is the active one, whatever page was shown before. */
  lemma SearchActivatesFirstLink(s: ListState, text: string, totalPages: nat)
    requires totalPages >= 1
    ensures var r := SubmitSearch(TypeQuery(s, text));
      && r == ListState(text, 1)
      && PageWindow(r.page, totalPages)[0] == PageLink(1, true)
      && ActiveCount(PageWindow(r.page, totalPages)) == 1
  {
    PageWindowHasPage(1, totalPages);
    PageWindowShape(1, totalPages);
  }

  /** Clicking any drawn link keeps the page in range and makes that link the active one. */
  lemma ClickedLinkBecomesActive(s: ListState, totalPages: nat, k: nat)
    requires k < |PageWindow(s.page, totalPages)|
    ensures var link := PageWindow(s.page, totalPages)[k];
      var r := ClickPageLink(s, link);
      && 1 <= r.page <= totalPages
      && (exists j :: 0 <= j < |PageWindow(r.page, totalPages)| && PageWindow(r.page, totalPages)[j] == PageLink(link.number, true))
  {
    var link := PageWindow(s.page, totalPages)[k];
    var w := PageWindow(link.number, totalPages);
    PageWindowHasPage(link.number, totalPages);
    PageWindowShape(link.number, totalPages);
    var j :| 0 <= j < |w| && w[j].number == link.number && w[j].active;
    assert w[j] == PageLink(link.number, true);
  }
}
