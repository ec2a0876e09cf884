/**
 * The task list page: its filter record, the two ways of changing it, and the
 * pagination controls drawn from the server's pagination record.
 */
module TaskList {
  import opened Wrappers

  datatype Filters = Filters(search: string, minBudget: string, maxBudget: string, status: string, page: int)

  /** The text filters the page's inputs change. */
  datatype FilterKey = Search | MinBudget | MaxBudget | Status

  const InitialFilters := Filters("", "", "", "", 1)

  /** `handleFilterChange(key, value)`: sets that key and goes back to the first page. */
  function SetFilter(f: Filters, key: FilterKey, value: string): (g: Filters)
    ensures g.page == 1
    ensures g.search == (if key == Search then value else f.search)
    ensures g.minBudget == (if key == MinBudget then value else f.minBudget)
    ensures g.maxBudget == (if key == MaxBudget then value else f.maxBudget)
    ensures g.status == (if key == Status then value else f.status)
  {
    match key
    case Search => f.(search := value, page := 1)
    case MinBudget => f.(minBudget := value, page := 1)
    case MaxBudget => f.(maxBudget := value, page := 1)
    case Status => f.(status := value, page := 1)
  }

  /** `handlePageChange(page)`: only the page changes. */
  function SetPage(f: Filters, page: int): (g: Filters)
    ensures g.page == page
    ensures g.(page := f.page) == f
  {
    f.(page := page)
  }

  /** Changing a filter after moving to another page still starts again from the first page. */
  lemma FilterResetsPage(f: Filters, page: int, key: FilterKey, value: string)
    ensures SetFilter(SetPage(f, page), key, value) == SetFilter(f, key, value)
  {
  }

  /** The server's pagination record; `totalPages` may be missing. */
  datatype Pagination = Pagination(page: int, totalPages: Option<int>)

  datatype PageButton = PageButton(page: int, current: bool)

  datatype Controls = Controls(
    previousDisabled: bool, previousTarget: int,
    buttons: seq<PageButton>,
    nextDisabled: bool, nextTarget: int)

  /** `Array.from({ length: n }, (_, i) => i + 1)`, each button marked when it is the current page. */
  function PageButtons(n: nat, current: int): (bs: seq<PageButton>)
    ensures |bs| == n
    ensures forall k :: 0 <= k < n ==> bs[k] == PageButton(k + 1, k + 1 == current)
  {
    if n == 0 then [] else PageButtons(n - 1, current) + [PageButton(n, n == current)]
  }

  /** The controls, drawn only when there is more than one page. */
  function Render(p: Pagination): (c: Option<Controls>)
    ensures c.Some? <==> p.totalPages.Some? && p.totalPages.value > 1
    ensures c.Some? ==>
      c.value.buttons == PageButtons(p.totalPages.value, p.page) &&
      (c.value.previousDisabled <==> p.page == 1) && c.value.previousTarget == p.page - 1 &&
      (c.value.nextDisabled <==> p.page == p.totalPages.value) && c.value.nextTarget == p.page + 1
  {
    if p.totalPages.Some? && p.totalPages.value > 1 then
      var total := p.totalPages.value;
      Some(Controls(p.page == 1, p.page - 1, PageButtons(total, p.page), p.page == total, p.page + 1))
    else None
  }

  /**
   * On a page within range, exactly one button is highlighted, it is the
   * current page's, and the enabled arrows only lead to pages within range.
   */
  lemma ControlsStayInRange(p: Pagination)
    requires p.totalPages.Some? && 1 <= p.page <= p.totalPages.value && p.totalPages.value > 1
    ensures var c := Render(p).value;
      (forall k :: 0 <= k < |c.buttons| ==> (c.buttons[k].current <==> k == p.page - 1)) &&
      (!c.previousDisabled ==> 1 <= c.previousTarget <= p.totalPages.value) &&
      (!c.nextDisabled ==> 1 <= c.nextTarget <= p.totalPages.value)
  {
  }
}
