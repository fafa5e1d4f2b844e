/**
  The home feed: fetched when the page mounts and again after a tweet is posted. A failed fetch
  empties the feed; a logged-out visitor gets no fetch at all.
 */
module HomePage {
  import opened Js
  import opened Http
  import opened Types

  const FeedPath := "/tweets"

  class HomeFeed {
    var tweets: seq<Tweet>
    var loading: bool

    constructor ()
      ensures tweets == [] && loading
    {
      tweets := [];
      loading := true;
    }

    /** The spinner shows only on the first load: no tweets yet and a fetch under way. */
    function IsInitialLoad(): (b: bool)
      reads this
      ensures b <==> loading && tweets == []
    {
      |tweets| == 0 && loading
    }

    /** The empty-feed message shows exactly when no fetch is under way and there are no tweets; never beside the spinner. */
    function ShowEmptyFeed(): (b: bool)
      reads this
      ensures b <==> !loading && tweets == []
      ensures b ==> !IsInitialLoad()
    {
      !loading && |tweets| == 0
    }

    /**
      `fetchFeed` up to its `await`: a logged-out visitor only stops the spinner, with the feed
      left as it is; otherwise loading starts and the feed is requested.
     */
    method FetchFeed(isLoggedIn: bool) returns (request: Option<Request>)
      modifies this
      ensures tweets == old(tweets)
      ensures !isLoggedIn ==> request == None && !loading
      ensures isLoggedIn ==> request == Some(Request(Get, FeedPath, NoBody)) && loading
    {
      if !isLoggedIn {
        loading := false;
        return None;
      }
      loading := true;
      request := Some(Request(Get, FeedPath, NoBody));
    }

    /** The continuation: on success the feed is the response's list, on failure it is emptied. Loading ends either way. */
    method FeedFetched(outcome: Outcome<seq<Tweet>>)
      modifies this
      ensures !loading
      ensures outcome.Success? ==> tweets == outcome.data
      ensures outcome.Failure? ==> tweets == []
    {
      if outcome.Success? {
        tweets := outcome.data;
      } else {
        tweets := [];
      }
      loading := false;
    }

    /** `handleTweetPosted`: one more fetch, the same as on mount. */
    method HandleTweetPosted(isLoggedIn: bool) returns (request: Option<Request>)
      modifies this
      ensures tweets == old(tweets)
      ensures isLoggedIn ==> request == Some(Request(Get, FeedPath, NoBody)) && loading
      ensures !isLoggedIn ==> request == None && !loading
    {
      request := FetchFeed(isLoggedIn);
    }
  }
}
