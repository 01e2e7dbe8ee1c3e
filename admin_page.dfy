/** The admin view: a read-only, paginated, filterable and searchable list of
    every user's todos, shown only to a user whose role is ADMIN. */
module AdminPage {
  import opened Wrappers
  import opened Text
  import opened Json
  import opened Wire
  import opened TodoModel
  import opened AuthStore

  /** The page size: `useState(10)` without a setter. */
  const Rows: nat := 10
  const AdminRole := "ADMIN"
  const AccessDeniedMessage := "Akses ditolak. Anda bukan admin."

  /** The `content` of a list response. */
  datatype PageContent = PageContent(entries: seq<Todo>, total: nat)

  const SearchPrefix := "{\"item\":"

  /** `JSON.stringify({ item: term })`: the key, the term as a string literal
      and the closing brace. */
  function SearchFilter(term: string): (r: string)
    ensures |r| > |SearchPrefix| + 2
    ensures r[..|SearchPrefix|] == SearchPrefix && r[|r| - 1] == '}'
    ensures r[|SearchPrefix|..|r| - 1] == Quote(term)
  {
    SearchPrefix + Quote(term) + "}"
  }

  /** The server reads the search term back from the parameter unchanged,
      whatever characters it holds. */
  lemma SearchFilterRoundTrip(term: string)
    ensures |SearchFilter(term)| > |SearchPrefix|
    ensures DecodeString(SearchFilter(term)[|SearchPrefix|..]) == Some((term, "}"))
  {
    assert SearchFilter(term)[|SearchPrefix|..] == Quote(term) + "}";
    QuoteRoundTrip(term, "}");
  }

  lemma RowsText()
    ensures DecimalString(Rows) == "10"
  {
  }

  lemma ParamNamesDistinct()
    ensures "page" != "rows" && "page" != "filters" && "page" != "search"
    ensures "rows" != "filters" && "rows" != "search" && "filters" != "search"
  {
    assert "page"[0] != "rows"[0];
  }

  /** The values one name has in a list made of the page, the rows and at
      most one `filters` and one `search` parameter. */
  lemma ListParamValues(pageText: string, filters: seq<(string, string)>, searches: seq<(string, string)>, key: string)
    requires |filters| <= 1 && (filters != [] ==> filters[0].0 == "filters")
    requires |searches| <= 1 && (searches != [] ==> searches[0].0 == "search")
    ensures ParamValues([("page", pageText), ("rows", "10")] + filters + searches, key)
      == (if key == "page" then [pageText] else [])
        + (if key == "rows" then ["10"] else [])
        + (if filters != [] && key == "filters" then [filters[0].1] else [])
        + (if searches != [] && key == "search" then [searches[0].1] else [])
  {
    ParamValuesSplit(("page", pageText), ("rows", "10"), filters, searches, key);
    ParamValuesSingle("page", pageText, key);
    ParamValuesSingle("rows", "10", key);
    ParamValuesOptional(filters, "filters", key);
    ParamValuesOptional(searches, "search", key);
  }

  /** Such a list holds no name besides the four. */
  lemma ListParamNames(pageText: string, filters: seq<(string, string)>, searches: seq<(string, string)>)
    requires |filters| <= 1 && (filters != [] ==> filters[0].0 == "filters")
    requires |searches| <= 1 && (searches != [] ==> searches[0].0 == "search")
    ensures var r := [("page", pageText), ("rows", "10")] + filters + searches;
      forall k :: 0 <= k < |r| ==> r[k].0 == "page" || r[k].0 == "rows" || r[k].0 == "filters" || r[k].0 == "search"
  {
    var r := [("page", pageText), ("rows", "10")] + filters + searches;
    forall k | 0 <= k < |r|
      ensures r[k].0 == "page" || r[k].0 == "rows" || r[k].0 == "filters" || r[k].0 == "search"
    {
      if k >= 2 + |filters| {
        assert r[k] == searches[k - 2 - |filters|];
      } else if k >= 2 {
        assert r[k] == filters[k - 2];
      }
    }
  }

  /** Where each name's values sit in such a list, and that it holds no other name. */
  lemma ListParamsShape(pageText: string, filters: seq<(string, string)>, searches: seq<(string, string)>)
    requires |filters| <= 1 && (filters != [] ==> filters[0].0 == "filters")
    requires |searches| <= 1 && (searches != [] ==> searches[0].0 == "search")
    ensures var r := [("page", pageText), ("rows", "10")] + filters + searches;
      && ParamValues(r, "page") == [pageText]
      && ParamValues(r, "rows") == ["10"]
      && ParamValues(r, "filters") == (if filters == [] then [] else [filters[0].1])
      && ParamValues(r, "search") == (if searches == [] then [] else [searches[0].1])
      && forall k :: 0 <= k < |r| ==> r[k].0 == "page" || r[k].0 == "rows" || r[k].0 == "filters" || r[k].0 == "search"
  {
    ListParamNames(pageText, filters, searches);
    ParamNamesDistinct();
    ListParamValues(pageText, filters, searches, "page");
    ListParamValues(pageText, filters, searches, "rows");
    ListParamValues(pageText, filters, searches, "filters");
    ListParamValues(pageText, filters, searches, "search");
  }

  /** The list parameters: always one `page` and one `rows=10`; one `filters`
      exactly when the status is not "all", holding `isDone: status == done`;
      one `search` exactly when the term is not empty; nothing else. */
  function ListParams(page: nat, filter: StatusFilter, search: string): (r: seq<(string, string)>)
    ensures ParamValues(r, "page") == [DecimalString(page)]
    ensures ParamValues(r, "rows") == ["10"]
    ensures ParamValues(r, "filters") == if filter == All then [] else [IsDoneFilter(filter == Done)]
    ensures ParamValues(r, "search") == if search == [] then [] else [SearchFilter(search)]
    ensures forall k :: 0 <= k < |r| ==> r[k].0 == "page" || r[k].0 == "rows" || r[k].0 == "filters" || r[k].0 == "search"
  {
    var filters := if filter != All then [("filters", IsDoneFilter(filter == Done))] else [];
    var searches := if search != [] then [("search", SearchFilter(search))] else [];
    ListParamsShape(DecimalString(page), filters, searches);
    [("page", DecimalString(page)), ("rows", "10")] + filters + searches
  }

  /** `Math.ceil(data?.total / rows) || 1`: the number of pages needed for
      `total` entries, and 1 when there is no response or no entry. */
  function TotalPages(data: Option<PageContent>): (r: nat)
    ensures r >= 1
    ensures data.None? || data.value.total == 0 ==> r == 1
    ensures data.Some? && data.value.total > 0 ==> (r - 1) * Rows < data.value.total <= r * Rows
  {
    match data
    case None => 1
    case Some(c) =>
      var pages := (c.total + Rows - 1) / Rows;
      if pages == 0 then 1 else pages
  }

  /** `data?.entries || []`. */
  function DisplayedTodos(data: Option<PageContent>): (r: seq<Todo>)
    ensures data.None? ==> r == []
    ensures data.Some? ==> r == data.value.entries
  {
    match data
    case None => []
    case Some(c) => c.entries
  }

  /** The previous-page click: `Math.max(page - 1, 1)`. */
  function PrevPage(page: int): (r: int)
    ensures r >= 1
    ensures r == if page > 1 then page - 1 else 1
  {
    if page - 1 > 1 then page - 1 else 1
  }

  /** The next-page click: `Math.min(page + 1, totalPages)`. */
  function NextPage(page: int, totalPages: int): (r: int)
    ensures r <= totalPages
    ensures r == if page < totalPages then page + 1 else totalPages
  {
    if page + 1 < totalPages then page + 1 else totalPages
  }

  /** Paging from a page inside [1, totalPages] stays inside it, and the
      disabled button of a boundary page would not move. */
  lemma PagingStaysInRange(page: int, totalPages: int)
    requires 1 <= page <= totalPages
    ensures 1 <= PrevPage(page) <= totalPages && 1 <= NextPage(page, totalPages) <= totalPages
    ensures page == 1 ==> PrevPage(page) == page
    ensures page == totalPages ==> NextPage(page, totalPages) == page
  {
  }

  /** The page is not reset when the filter or the search term changes, so it
      can lie beyond the new last page; "next" then jumps back to that last page. */
  lemma NextFromBeyondLastPage(page: int, totalPages: int)
    requires 1 <= totalPages < page
    ensures NextPage(page, totalPages) == totalPages < page
  {
  }

  /** The gate effect redirects exactly when the view runs in a browser, a user
      is signed in and that user is not an admin. */
  function Redirects(isClient: bool, user: Option<User>): (r: bool)
    ensures r ==> isClient && user.Some?
    ensures isClient && user.Some? ==> (r <==> user.value.role != "ADMIN")
  {
    isClient && user.Some? && user.value.role != AdminRole
  }

  /** The query's `enabled`: in a browser, with an admin signed in. */
  function FetchEnabled(isClient: bool, user: Option<User>): (r: bool)
    ensures r ==> isClient && user.Some?
    ensures isClient && user.Some? ==> (r <==> user.value.role == "ADMIN")
  {
    isClient && user.Some? && user.value.role == AdminRole
  }

  /** Never both a redirect and a fetch; with no user, neither. */
  lemma GateExclusive(isClient: bool, user: Option<User>)
    ensures !(Redirects(isClient, user) && FetchEnabled(isClient, user))
    ensures user.None? ==> !Redirects(isClient, user) && !FetchEnabled(isClient, user)
    ensures !isClient ==> !Redirects(isClient, user) && !FetchEnabled(isClient, user)
  {
  }

  /** The view's state apart from its effect log. */
  datatype AdminState = AdminState(page: int, filter: StatusFilter, searchTerm: string, isClient: bool, data: Option<PageContent>)

  class AdminView {
    var page: int
    var filter: StatusFilter
    var searchTerm: string
    var isClient: bool
    /** The content of the last list response. */
    var data: Option<PageContent>
    var effects: seq<Effect>

    ghost predicate Valid()
      reads this
    {
      page >= 1
    }

    function State(): AdminState
      reads this
    {
      AdminState(page, filter, searchTerm, isClient, data)
    }

    constructor ()
      ensures Valid()
      ensures State() == AdminState(1, All, "", false, None) && effects == []
    {
      page, filter, searchTerm, isClient, data, effects := 1, All, "", false, None, [];
    }

    /** The mount effect: from now on the view knows it runs in a browser. */
    method Mount()
      modifies this
      ensures State() == old(State()).(isClient := true) && effects == old(effects)
    {
      isClient := true;
    }

    /** The gate effect, run whenever the user or `isClient` changes. */
    method RunGate(store: SessionStore)
      modifies this
      ensures State() == old(State())
      ensures effects == old(effects)
        + if Redirects(isClient, store.user) then [Toast(Failure, AccessDeniedMessage), Navigate("/todo")] else []
    {
      var user := store.user;
      if isClient && user.Some? && user.value.role != AdminRole {
        effects := effects + [Toast(Failure, AccessDeniedMessage), Navigate("/todo")];
      }
    }

    /** `queryFn`'s parameters, built by appending one after the other. */
    method BuildListParams() returns (params: seq<(string, string)>)
      requires Valid()
      ensures params == ListParams(page, filter, searchTerm)
    {
      var base := [("page", DecimalString(page)), ("rows", "10")];
      params := [];
      params := params + [("page", DecimalString(page))];
      RowsText();
      params := params + [("rows", DecimalString(Rows))];
      assert params == base;
      var filters := [];
      if filter != All {
        var isDone := IsDoneFilter(filter == Done);
        params := params + [("filters", isDone)];
        filters := [("filters", isDone)];
      }
      assert params == base + filters;
      var searches := [];
      if searchTerm != [] {
        var search := SearchFilter(searchTerm);
        params := params + [("search", search)];
        searches := [("search", search)];
      }
      assert params == base + filters + searches;
    }

    /** The list query runs only while it is enabled. */
    method Fetch(store: SessionStore) returns (issued: bool)
      requires Valid()
      modifies this
      ensures issued <==> FetchEnabled(isClient, store.user)
      ensures State() == old(State())
      ensures effects == old(effects)
        + if issued then [Request(Authenticated, Get, "/todos", Query(ListParams(page, filter, searchTerm)))] else []
    {
      issued := FetchEnabled(isClient, store.user);
      if issued {
        var params := BuildListParams();
        var request := Request(Authenticated, Get, "/todos", Query(params));
        assert request == Request(Authenticated, Get, "/todos", Query(ListParams(page, filter, searchTerm)));
        effects := effects + [request];
      }
    }

    /** A list response (or its absence) replaces the content. */
    method ReceivePage(content: Option<PageContent>)
      modifies this
      ensures State() == old(State()).(data := content) && effects == old(effects)
    {
      data := content;
    }

    /** The status select: the page is left as it is. */
    method SetFilter(f: StatusFilter)
      modifies this
      ensures State() == old(State()).(filter := f) && effects == old(effects)
    {
      filter := f;
    }

    /** The search box: the page is left as it is. */
    method SetSearchTerm(term: string)
      modifies this
      ensures State() == old(State()).(searchTerm := term) && effects == old(effects)
    {
      searchTerm := term;
    }

    function CurrentTotalPages(): (r: nat)
      reads this
      ensures r >= 1
    {
      TotalPages(data)
    }

    /** The previous button is disabled on page 1: exactly where a click
        would leave the page where it is. */
    function PrevDisabled(): (r: bool)
      reads this
      ensures r <==> PrevPage(page) == page
    {
      page == 1
    }

    /** The next button is disabled on the last page: exactly where a click
        would leave the page where it is. */
    function NextDisabled(): (r: bool)
      reads this
      ensures r <==> NextPage(page, CurrentTotalPages()) == page
    {
      page == CurrentTotalPages()
    }

    /** The previous-page click: one page back, never below 1. A click on
        page 1, where the button is disabled, would change nothing. */
    method GoToPreviousPage()
      requires Valid()
      modifies this
      ensures Valid()
      ensures State() == old(State()).(page := PrevPage(old(page))) && effects == old(effects)
      ensures old(PrevDisabled()) ==> page == old(page)
      ensures old(page) <= CurrentTotalPages() ==> page <= CurrentTotalPages()
    {
      page := if page - 1 > 1 then page - 1 else 1;
    }

    /** The next-page click: one page on, never beyond the last page. A click
        on the last page, where the button is disabled, would change nothing. */
    method GoToNextPage()
      requires Valid()
      modifies this
      ensures Valid()
      ensures State() == old(State()).(page := NextPage(old(page), CurrentTotalPages())) && effects == old(effects)
      ensures page <= CurrentTotalPages()
      ensures old(NextDisabled()) ==> page == old(page)
    {
      var totalPages := CurrentTotalPages();
      page := if page + 1 < totalPages then page + 1 else totalPages;
    }
  }
}
