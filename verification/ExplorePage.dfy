/**
  The explore page: a paged list of users. A fetch replaces the list and recomputes the page
  count from the response's `total` and `limit`; a failed fetch keeps what was shown.
 */
module ExplorePage {
  import opened Js
  import opened Http

  const UsersPathPrefix := "/users?page="

  datatype LatestTweet = LatestTweet(content: string, createdAt: string)

  datatype UserExplore = UserExplore(
    id: string,
    name: string,
    username: string,
    imageUrl: Option<string>,
    followersCount: int,
    isFollowing: bool,
    latestTweet: Option<LatestTweet>)

  /** `response.data`: one page of users and the paging metadata. */
  datatype UsersPage = UsersPage(data: seq<UserExplore>, total: nat, limit: nat)

  /** `Math.ceil(total / limit)`: enough pages of `limit` users to hold `total`, and one fewer would not do. */
  function TotalPages(total: nat, limit: nat): (n: nat)
    requires limit > 0
    ensures n * limit >= total
    ensures n > 0 ==> (n - 1) * limit < total
  {
    var n := (total + limit - 1) / limit;
    assert n * limit + (total + limit - 1) % limit == total + limit - 1;
    n
  }

  /** The page count is the least number of pages that holds every user. */
  lemma TotalPagesIsLeast(total: nat, limit: nat, m: nat)
    requires limit > 0
    requires m * limit >= total
    ensures TotalPages(total, limit) <= m
  {
    var n := TotalPages(total, limit);
    if m < n {
      assert m <= n - 1;
      assert m * limit <= (n - 1) * limit by {
        MultiplyMonotone(m, n - 1, limit);
      }
    }
  }

  lemma MultiplyMonotone(a: nat, b: nat, c: nat)
    requires a <= b
    ensures a * c <= b * c
  {
  }

  /** 25 users at 10 per page take 3 pages. */
  lemma TwentyFiveByTen()
    ensures TotalPages(25, 10) == 3
  {
  }

  /** The list request for a page; the page number can be read back from the query. */
  function UsersPath(page: nat): (path: string)
    ensures UsersPathPrefix <= path
    ensures var digits := path[|UsersPathPrefix|..];
            (forall i :: 0 <= i < |digits| ==> '0' <= digits[i] <= '9') && DigitsValue(digits) == page
  {
    DecimalValue(page);
    assert (UsersPathPrefix + Decimal(page))[|UsersPathPrefix|..] == Decimal(page);
    UsersPathPrefix + Decimal(page)
  }

  class ExploreView {
    var users: seq<UserExplore>
    var loading: bool
    var page: nat
    var totalPages: nat

    /** Page 1, no pages known, no users, loading. */
    constructor ()
      ensures page == 1 && totalPages == 0 && users == [] && loading
    {
      users := [];
      loading := true;
      page := 1;
      totalPages := 0;
    }

    /** `fetchUsers` up to its `await`: loading starts and the current page is requested. */
    method FetchUsers() returns (request: Request)
      modifies this
      ensures loading && users == old(users) && page == old(page) && totalPages == old(totalPages)
      ensures request == Request(Get, UsersPath(page), NoBody)
    {
      loading := true;
      request := Request(Get, UsersPath(page), NoBody);
    }

    /**
      The continuation: on success the list is replaced wholesale and the page count recomputed;
      on failure both are kept. Loading ends either way.
     */
    method UsersFetched(outcome: Outcome<UsersPage>)
      requires outcome.Success? ==> outcome.data.limit > 0
      modifies this
      ensures !loading && page == old(page)
      ensures outcome.Success? ==>
        users == outcome.data.data && totalPages == TotalPages(outcome.data.total, outcome.data.limit)
      ensures outcome.Failure? ==> users == old(users) && totalPages == old(totalPages)
    {
      if outcome.Success? {
        users := outcome.data.data;
        var total, limit := outcome.data.total, outcome.data.limit;
        var calculatedPages := TotalPages(total, limit);
        totalPages := calculatedPages;
      }
      loading := false;
    }

    /** `handlePageChange`: the chosen page becomes current, and so the next request asks for it. */
    method HandlePageChange(value: nat)
      modifies this
      ensures page == value
      ensures users == old(users) && totalPages == old(totalPages) && loading == old(loading)
    {
      page := value;
    }

    /** The pagination control appears only when there is more than one page. */
    function ShowPagination(): (shown: bool)
      reads this
      ensures shown <==> totalPages >= 2
    {
      totalPages > 1
    }
  }
}
