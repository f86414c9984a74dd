/** The admin member list of src/admin/pages/UserList.tsx: the search and
    status filter state, the request `loadUsers` builds from it, and what
    the page shows once the request settles. */
module UserList {
  import opened Wrappers
  import opened AdminApi
  import opened QuizApi

  datatype AdminUser = AdminUser(id: int, email: string, name: string, status: string, role: string,
                                 provider: string, planName: Option<string>, createdAt: string)

  /** `PageResponse<AdminUserResponse>`. */
  datatype PageResponse = PageResponse(content: seq<AdminUser>, totalElements: int, totalPages: int, number: int,
                                       size: int, first: bool, last: bool)

  /** `AdminUserSearchParams` as `loadUsers` fills it: the optional keyword
      and status are absent unless set. */
  datatype SearchParams = SearchParams(page: int, size: int, sort: string, keyword: Option<string>,
                                       status: Option<string>)

  const DefaultError := "회원 목록 조회 실패"

  /** The request for a page number, search term and status filter: the
      backend counts pages from 0, ten rows a page, newest first; the
      keyword only for a non-empty term, the status only for a filter other
      than "all". */
  function RequestFor(currentPage: int, searchTerm: string, statusFilter: string): (p: SearchParams)
    ensures p.page == currentPage - 1 && p.size == 10 && p.sort == "createdAt,desc"
    ensures p.keyword.Some? <==> searchTerm != ""
    ensures p.keyword.Some? ==> p.keyword.value == searchTerm
    ensures p.status.Some? <==> statusFilter != "all"
    ensures p.status.Some? ==> p.status.value == statusFilter
  {
    SearchParams(currentPage - 1, 10, "createdAt,desc", if searchTerm != "" then Some(searchTerm) else None,
                 if statusFilter != "all" then Some(statusFilter) else None)
  }

  /** The error text shown for an unsuccessful result. */
  function LoadError(result: Envelope<PageResponse>): (message: string)
    ensures result.error.Some? ==> message == result.error.value.message
    ensures result.error.None? ==> message == DefaultError
  {
    if result.error.Some? then result.error.value.message else DefaultError
  }

  /** A request that fails is reported with the server's message, the
      error's own, or `fetchUsers`'s default: the page's own fallback text
      shows only for an envelope the server sent without an error. */
  lemma FailedRequestMessage(outcome: Result<Body<PageResponse>, CaughtError>)
    requires outcome.Err?
    ensures var m := LoadError(Fetch(outcome, UsersDefault));
            m == outcome.error.serverMessage.GetOr(outcome.error.message.GetOr(UsersDefault))
    ensures LoadError(Fetch(outcome, UsersDefault)) == DefaultError ==>
              outcome.error.serverMessage == Some(DefaultError) || outcome.error.message == Some(DefaultError)
  {
    var e := outcome.error;
    if e.serverMessage.None? && e.message.None? {
      assert UsersDefault[8] != DefaultError[8];
    }
  }

  /** A falsy bare reply, such as `null`, is wrapped as a success without
      data, so the page shows its own default text. */
  lemma EmptyReplyShowsDefault()
    ensures var result := Fetch(Ok(Bare(None)), UsersDefault);
            result.success && result.data.None? && LoadError(result) == DefaultError
  {
  }

  class UserListPage {
    var users: seq<AdminUser>
    var loading: bool
    var error: Option<string>
    var searchTerm: string
    var statusFilter: string
    var currentPage: int
    var totalPages: int
    var totalElements: int

    constructor ()
      ensures users == [] && loading && error == None
      ensures searchTerm == "" && statusFilter == "all" && currentPage == 1 && totalPages == 1 && totalElements == 0
    {
      users := [];
      loading := true;
      error := None;
      searchTerm := "";
      statusFilter := "all";
      currentPage := 1;
      totalPages := 1;
      totalElements := 0;
    }

    /** `handleSearchChange`: a new term starts again from the first page. */
    method HandleSearchChange(value: string)
      modifies this
      ensures searchTerm == value && currentPage == 1
      ensures RequestFor(currentPage, searchTerm, statusFilter).page == 0
      ensures statusFilter == old(statusFilter) && users == old(users) && loading == old(loading)
      ensures error == old(error) && totalPages == old(totalPages) && totalElements == old(totalElements)
    {
      searchTerm := value;
      currentPage := 1;
    }

    /** `handleStatusChange`: a new filter starts again from the first page. */
    method HandleStatusChange(value: string)
      modifies this
      ensures statusFilter == value && currentPage == 1
      ensures RequestFor(currentPage, searchTerm, statusFilter).page == 0
      ensures searchTerm == old(searchTerm) && users == old(users) && loading == old(loading)
      ensures error == old(error) && totalPages == old(totalPages) && totalElements == old(totalElements)
    {
      statusFilter := value;
      currentPage := 1;
    }

    /** The table's page buttons set the page directly. */
    method SetPage(page: int)
      modifies this
      ensures currentPage == page
      ensures searchTerm == old(searchTerm) && statusFilter == old(statusFilter) && users == old(users)
      ensures loading == old(loading) && error == old(error) && totalPages == old(totalPages)
      ensures totalElements == old(totalElements)
    {
      currentPage := page;
    }

    /** `loadUsers`: builds the request from the current page, term and
      filter (returned here), then shows the rows and totals of a
      successful result, or the error text of any other. */
    method LoadUsers(outcome: Result<Body<PageResponse>, CaughtError>) returns (params: SearchParams)
      modifies this
      ensures params == RequestFor(old(currentPage), old(searchTerm), old(statusFilter))
      ensures !loading
      ensures var result := Fetch(outcome, UsersDefault);
              result.success && result.data.Some? ==>
                users == result.data.value.content && totalPages == result.data.value.totalPages &&
                totalElements == result.data.value.totalElements && error == None
      ensures var result := Fetch(outcome, UsersDefault);
              !(result.success && result.data.Some?) ==>
                users == old(users) && totalPages == old(totalPages) && totalElements == old(totalElements) &&
                error == Some(LoadError(result))
      ensures searchTerm == old(searchTerm) && statusFilter == old(statusFilter) && currentPage == old(currentPage)
    {
      loading := true;
      error := None;
      params := SearchParams(currentPage - 1, 10, "createdAt,desc", None, None);
      if searchTerm != "" {
        params := params.(keyword := Some(searchTerm));
      }
      if statusFilter != "all" {
        params := params.(status := Some(statusFilter));
      }
      var result := Fetch(outcome, UsersDefault);
      if result.success && result.data.Some? {
        users := result.data.value.content;
        totalPages := result.data.value.totalPages;
        totalElements := result.data.value.totalElements;
      } else {
        error := Some(if result.error.Some? then result.error.value.message else DefaultError);
      }
      loading := false;
    }
  }
}
