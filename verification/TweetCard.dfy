/**
  The tweet card's like button: an optimistic toggle of `isLikedByMe` and `likesCount`,
  one POST or DELETE to the tweet's like resource, and on failure a reset of the card to its
  current `tweet` prop. The displayed tweet is state seeded from the prop at mount; a later
  prop does not replace it, but it is what a failure resets to.
 */
module TweetCard {
  import opened Js
  import opened Http
  import opened Types

  function LikePath(tweetId: string): string {
    "/tweets/" + tweetId + "/like"
  }

  /**
    The optimistic update: the flag flips and the counter follows it by one, up on a like and
    down on an unlike. No other field of the tweet changes.
   */
  function Optimistic(t: Tweet): (r: Tweet)
    ensures r.isLikedByMe == !t.isLikedByMe
    ensures r.isLikedByMe ==> r.likesCount == t.likesCount + 1
    ensures !r.isLikedByMe ==> r.likesCount == t.likesCount - 1
    ensures r.(isLikedByMe := t.isLikedByMe, likesCount := t.likesCount) == t
  {
    var isLiking := !t.isLikedByMe;
    t.(isLikedByMe := isLiking, likesCount := t.likesCount + (if isLiking then 1 else -1))
  }

  /** The one request a toggle sends: POST to like, DELETE to unlike, always at the tweet's like path. */
  function LikeRequest(t: Tweet): (req: Request)
    ensures req.path == LikePath(t.id) && req.body == NoBody
    ensures req.verb == Post <==> Optimistic(t).isLikedByMe
    ensures req.verb == Delete <==> !Optimistic(t).isLikedByMe
  {
    if !t.isLikedByMe then Request(Post, LikePath(t.id), NoBody) else Request(Delete, LikePath(t.id), NoBody)
  }

  /** Two toggles in a row give back the original flag and count. */
  lemma ToggleTwiceRestores(t: Tweet)
    ensures Optimistic(Optimistic(t)) == t
  {
  }

  /** The state a settled toggle leaves: the optimistic tweet on success, the current prop on failure. */
  function Settle(prop: Tweet, optimistic: Tweet, outcome: Outcome<()>): (r: Tweet)
    ensures outcome.Success? ==> r == optimistic
    ensures outcome.Failure? ==> r == prop
  {
    if outcome.Success? then optimistic else prop
  }

  /**
    The rollback returns to the prop, not to the state just before the click: with the prop
    unchanged since mount, after a like that succeeded, an unlike that fails shows the tweet
    unliked again, with the mounted count.
   */
  lemma RollbackForgetsEarlierSuccess(mounted: Tweet, e: Thrown)
    requires !mounted.isLikedByMe
    ensures var liked := Settle(mounted, Optimistic(mounted), Success(()));
            var failedUnlike := Settle(mounted, Optimistic(liked), Failure(e));
            && liked.isLikedByMe
            && LikeRequest(liked).verb == Delete
            && failedUnlike == mounted
            && failedUnlike != liked
  {
  }

  const LoginRequiredMessage := "Você precisa estar logado para curtir um tweet."
  const LikeFailedMessage := "Não foi possível realizar a ação. Tente novamente."

  class TweetCardView {
    /** The current `tweet` prop (named `initialTweet` inside the component). */
    var initialTweet: Tweet
    /** The displayed tweet: state seeded from the prop at mount. */
    var tweet: Tweet
    /** The prop the pending click's handler closed over: what its failure resets to. */
    var rollbackTo: Tweet

    constructor (initial: Tweet)
      ensures initialTweet == initial && tweet == initial && rollbackTo == initial
    {
      initialTweet := initial;
      tweet := initial;
      rollbackTo := initial;
    }

    /** A re-render with a new `tweet` prop: the prop changes, the displayed state does not. */
    method ReceiveProps(t: Tweet)
      modifies this
      ensures initialTweet == t && tweet == old(tweet) && rollbackTo == old(rollbackTo)
    {
      initialTweet := t;
    }

    /**
      `handleLikeToggle` up to its `await`: a logged-out viewer gets an alert and nothing else;
      otherwise the optimistic tweet is shown at once and the request is issued, and the
      handler keeps the prop of the render it belongs to.
     */
    method HandleLikeToggle(isLoggedIn: bool) returns (request: Option<Request>, effects: seq<Effect>)
      modifies this
      ensures initialTweet == old(initialTweet)
      ensures !isLoggedIn ==>
        request == None && tweet == old(tweet) && rollbackTo == old(rollbackTo) && effects == [Alert(LoginRequiredMessage)]
      ensures isLoggedIn ==>
        && request == Some(LikeRequest(old(tweet))) && tweet == Optimistic(old(tweet))
        && rollbackTo == initialTweet && effects == []
    {
      if !isLoggedIn {
        return None, [Alert(LoginRequiredMessage)];
      }
      effects := [];
      rollbackTo := initialTweet;
      var isLiking := !tweet.isLikedByMe;
      var newLikesCount := tweet.likesCount + (if isLiking then 1 else -1);
      var url := LikePath(tweet.id);
      tweet := tweet.(isLikedByMe := isLiking, likesCount := newLikesCount);
      if isLiking {
        request := Some(Request(Post, url, NoBody));
      } else {
        request := Some(Request(Delete, url, NoBody));
      }
    }

    /**
      The continuation once the request settles: keep the optimistic tweet, or reset on failure
      to the prop of the render in which the click happened.
     */
    method LikeSettled(outcome: Outcome<()>) returns (effects: seq<Effect>)
      modifies this
      ensures initialTweet == old(initialTweet) && rollbackTo == old(rollbackTo)
      ensures tweet == Settle(rollbackTo, old(tweet), outcome)
      ensures outcome.Success? ==> effects == []
      ensures outcome.Failure? ==> effects == [Alert(LikeFailedMessage)]
    {
      if outcome.Failure? {
        tweet := rollbackTo;
        effects := [Alert(LikeFailedMessage)];
      } else {
        effects := [];
      }
    }
  }

  /** A whole click by a logged-in viewer, from the mounted tweet: the toggle is kept exactly on success. */
  method ClickOnce(mounted: Tweet, outcome: Outcome<()>) returns (card: TweetCardView, request: Option<Request>)
    ensures request == Some(LikeRequest(mounted))
    ensures outcome.Success? ==> card.tweet == Optimistic(mounted)
    ensures outcome.Failure? ==> card.tweet == mounted
  {
    card := new TweetCardView(mounted);
    var alerts;
    request, alerts := card.HandleLikeToggle(true);
    var _ := card.LikeSettled(outcome);
  }

  /**
    A card whose parent re-renders it with a refreshed tweet (the feed refetched after a post)
    keeps showing the tweet it was mounted with; a like that then fails shows the refreshed one.
   */
  method RefetchThenFailedLike(mounted: Tweet, refreshed: Tweet, e: Thrown)
    returns (shownAfterRefetch: Tweet, shownAfterFailure: Tweet)
    ensures shownAfterRefetch == mounted
    ensures shownAfterFailure == refreshed
  {
    var card := new TweetCardView(mounted);
    card.ReceiveProps(refreshed);
    shownAfterRefetch := card.tweet;
    var request, alerts := card.HandleLikeToggle(true);
    var _ := card.LikeSettled(Failure(e));
    shownAfterFailure := card.tweet;
  }

  /**
    A prop that arrives while the like request is in flight does not change what a failure
    resets to: the handler resets to the prop of the render in which the click happened.
   */
  method PropsChangeDuringRequest(mounted: Tweet, refreshed: Tweet, e: Thrown) returns (shownAfterFailure: Tweet)
    ensures shownAfterFailure == mounted
  {
    var card := new TweetCardView(mounted);
    var request, alerts := card.HandleLikeToggle(true);
    card.ReceiveProps(refreshed);
    var _ := card.LikeSettled(Failure(e));
    shownAfterFailure := card.tweet;
  }
}
