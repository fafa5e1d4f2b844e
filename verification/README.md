# Growtwitter client — a verified model of its handlers

Growtwitter is a browser client for a small social network: users log in, post short texts,
like and reply to them, browse a feed, an explore list and profile pages. All persistence and
business rules live behind a REST API; the client's own logic is the state each handler leaves
behind once its request has settled. This project models that logic in Dafny:

- the session store (`auth` slice) with its reducers `login`, `logout`, `updateUserInfo` and the
  invariant that the session is logged in exactly when it holds a token;
- the HTTP wrapper's interceptors: the bearer header and the forced logout on a 401;
- the authenticated layout's guard, logout handler and feed key;
- the optimistic like toggle on a tweet card, with its rollback;
- the tweet composer (280-character cap), the reply composer and the profile editor;
- the login and registration forms: required fields, request bodies, error-message precedence;
- the explore, home and profile pages' fetch rules, and the mobile menu's path/tab mapping.

Each component is a class whose fields are its `useState` hooks. Every request is an input:
an async handler is split at its `await` into `HandleX` (what happens before the request, and
the request it sends) and `XSettled(outcome)` (the `try`/`catch`/`finally` continuation, given
`Success(data)` or `Failure(error)`). The callbacks to the parent, the navigation and the
dialogs that a handler triggers are returned as a list of `Http.Effect`s, in the order they
happen. A re-render that changes a component's props is a method of its own
(`TweetCardView.ReceiveProps`, `ProfileView.Rerender`). Pure computations (trim, ceiling
division, error-message choice, endpoints, tab mapping) are functions with their own contracts.

Modules: `Js` (JavaScript string semantics used by the handlers), `Http` (requests, outcomes,
thrown errors, effects), `Types` (tweet and user), then one module per source file:
`AuthSlice`, `Api`, `PrivateRoute`, `TweetCard`, `TweetCreationModal`, `ReplyModal`,
`EditProfileModal`, `LoginPage`, `RegisterPage`, `ExplorePage`, `HomePage`, `ProfilePage`,
`MobileMenu`.

Some behaviour of the code worth knowing:

- A failed like resets the card to the `tweet` prop of the render in which the click happened,
  not to the state just before the click (`TweetCard.RollbackForgetsEarlierSuccess`,
  `TweetCard.PropsChangeDuringRequest`). The displayed tweet is seeded from the prop only at
  mount, so after the feed is refetched a card keeps showing the old tweet until a like fails
  (`TweetCard.RefetchThenFailedLike`).
- The follow button only logs, and a reply does not update any count on the card.
- The route table in `src/App.tsx` mounts neither the guard nor the registration page. The
  guard is modelled on its own, and nothing here claims that the pages are guarded.

## Model

| member | source | states |
|---|---|---|
| `Js.OrNull` | src/store/slices/authSlice.ts:40 | `x \|\| null` is null exactly for a missing or empty string, and otherwise the string itself |
| `Js.OrEmpty` | src/components/EditProfileModal.tsx:49-50 | `x \|\| ''` is non-empty exactly when `x \|\| null` is not null, and then equals it |
| `Js.TrimStart` | src/components/TweetCreationModal.tsx:54 | trimming the front leaves the longest suffix that starts with a non-space; everything cut is white space |
| `Js.TrimEnd` | src/components/TweetCreationModal.tsx:54 | trimming the back leaves the longest prefix that ends with a non-space; everything cut is white space |
| `Js.BlankIffAllSpace` | src/components/TweetCreationModal.tsx:54 | `!s.trim()` holds exactly when every character of `s` is white space |
| `Js.TrimIsUnique` | src/components/EditProfileModal.tsx:71 | any slice left by cutting white space only, and with no white space at either end, is `Trim(s)`: the trimmed text is determined |
| `Js.TrimmedOrAbsent` | src/components/EditProfileModal.tsx:71 | `s.trim() \|\| null` is absent exactly when `s` is all white space, and otherwise the trimmed text |
| `Js.Trim` | src/components/TweetCreationModal.tsx:54 | `s.trim()` is a slice of `s` with no white space at either end, and everything cut before and after it is white space |
| `Js.Contains` | src/components/MobileMenu.tsx:20 | `s.includes(sub)` holds exactly when `sub` occurs in `s` at some index |
| `Js.ContainsPrefix` | src/components/MobileMenu.tsx:20 | `includes` finds any prefix of a string in it |
| `Js.Utf16Length` | src/components/TweetCreationModal.tsx:115 | `.length` counts UTF-16 units: one for a code point up to U+FFFF, two above; equal to the number of code points exactly when none is above U+FFFF; zero only for '' |
| `Js.Utf16LengthAppend` | src/components/TweetCreationModal.tsx:115 | `.length` of a concatenation is the sum of the lengths, so with the one-character case it counts every code point |
| `Js.Digit` | src/pages/ExplorePage.tsx:41 | a digit below ten renders as the matching decimal character |
| `Js.Decimal` | src/pages/ExplorePage.tsx:41 | a number in a template literal renders as a non-empty string of digits without leading zero |
| `Js.DecimalValue` | src/pages/ExplorePage.tsx:41 | the rendered digits read back as the number |
| `Http.ServerMessage` | src/pages/LoginPage.tsx:61 | `err.response?.data?.message`: present only for an HTTP error with a response whose message is non-empty, and then exactly that message |
| `Http.FormErrorMessage` | src/pages/LoginPage.tsx:59-68 | error precedence: HTTP error → server message else fallback; other `Error` → its message; anything else → generic text |
| `AuthSlice.Reduce` | src/store/slices/authSlice.ts:33-57 | `login` logs in with the payload's token and username; `logout` leaves no token and no username; `updateUserInfo` sets name and image and keeps the session; each keeps the invariant |
| `AuthSlice.InitialStateLoggedOut` | src/store/slices/authSlice.ts:12-19 | the initial session is logged out, with no token, and satisfies the invariant |
| `AuthSlice.LoginOverwrites` | src/store/slices/authSlice.ts:33-41 | after `login` the session is logged in with the payload's token, id, username, name; image null iff missing or empty; the prior session is irrelevant |
| `AuthSlice.LogoutResets` | src/store/slices/authSlice.ts:43-50 | `logout` yields the initial state from any state, so it is idempotent |
| `AuthSlice.UpdateUserInfoFrame` | src/store/slices/authSlice.ts:51-57 | `updateUserInfo` sets name and image and changes no other field |
| `AuthSlice.ReduceKeepsConsistent` | src/store/slices/authSlice.ts:36-57 | each reducer preserves "logged in iff a token is held" |
| `AuthSlice.ReplayKeepsConsistent` | src/store/slices/authSlice.ts:29-58 | any sequence of dispatched actions preserves the invariant (by induction) |
| `AuthSlice.ReachableConsistent` | src/store/slices/authSlice.ts:12-19 | every session reachable from the initial state satisfies the invariant |
| `AuthSlice.AuthStore.constructor` | src/store/slices/authSlice.ts:12-19 | the store starts in the initial state |
| `AuthSlice.AuthStore.Login` | src/store/slices/authSlice.ts:33-42 | the fields become the `login` reducer's result, and the invariant holds |
| `AuthSlice.AuthStore.Logout` | src/store/slices/authSlice.ts:43-50 | the fields become the initial state |
| `AuthSlice.AuthStore.UpdateUserInfo` | src/store/slices/authSlice.ts:51-57 | the fields become the `updateUserInfo` result; the invariant is kept |
| `Api.BearerHeader` | src/services/api.ts:19-22 | a header is produced exactly for a non-empty stored token, and the token can be read back from it |
| `Api.BearerToken` | src/services/api.ts:21 | a bearer value is the prefix `Bearer ` followed by the token read out of it |
| `Api.InterceptRequest` | src/services/api.ts:18-25 | sets `Authorization` to the bearer value when the stored token is non-empty, else leaves the headers unchanged; returns the same config |
| `Api.InterceptRequestError` | src/services/api.ts:26-28 | a request-side error is rejected again as the same error |
| `Api.InterceptResponse` | src/services/api.ts:32 | a successful response passes through unchanged |
| `Http.IsUnauthorized` | src/services/api.ts:34 | only an HTTP error whose response has status 401; plain errors, non-errors and errors without a response never are |
| `Api.Interceptors.constructor` | src/services/api.ts:11 | no store is registered before setup |
| `Api.Interceptors.Setup` | src/services/api.ts:13-15 | `setupAxiosInterceptors` registers the store |
| `Api.Interceptors.OnResponseError` | src/services/api.ts:33-43 | a 401 with a registered store logs the session out; any other error, or no store, leaves it untouched; every error is rejected again unchanged |
| `Api.UnauthorizedAfterSetup` | src/services/api.ts:34-40 | after setup, a 401 leaves the session logged out with a null token, and the error is still rejected |
| `PrivateRoute.Guard` | src/components/PrivateRoute.tsx:19-21 | an anonymous session gets only a redirect to /login; a logged-in one gets the layout keyed by `feedKey` |
| `PrivateRoute.GuardOnlyReadsLoginFlag` | src/components/PrivateRoute.tsx:12-21 | the guard's decision depends on `isLoggedIn` alone |
| `PrivateRoute.GuardAdmitsTokenHolders` | src/components/PrivateRoute.tsx:19-21 | under the store invariant, the guard admits exactly the sessions holding a token |
| `PrivateRoute.PrivateRouteView.constructor` | src/components/PrivateRoute.tsx:17 | `feedKey` starts at 0 |
| `PrivateRoute.PrivateRouteView.HandleLogout` | src/components/PrivateRoute.tsx:23-26 | dispatches `logout` (session back to initial, so the guard redirects), then one navigation to /login |
| `PrivateRoute.PrivateRouteView.HandleNewTweetPosted` | src/components/PrivateRoute.tsx:28-30 | each posted tweet increments `feedKey` by exactly one |
| `TweetCard.Optimistic` | src/components/TweetCard.tsx:32-39 | the flag flips, the count moves +1 on a like and −1 on an unlike, no other field changes |
| `TweetCard.LikeRequest` | src/components/TweetCard.tsx:41-47 | one request to `/tweets/{id}/like`: POST when the new flag is true, DELETE when false |
| `TweetCard.ToggleTwiceRestores` | src/components/TweetCard.tsx:32-39 | two toggles restore the original flag and count |
| `TweetCard.Settle` | src/components/TweetCard.tsx:41-53 | success keeps the optimistic tweet; failure gives the given prop |
| `TweetCard.RollbackForgetsEarlierSuccess` | src/components/TweetCard.tsx:20-53 | with an unchanged prop, after a successful like, a failed unlike shows the mounted (unliked) tweet, not the state before the click |
| `TweetCard.TweetCardView.constructor` | src/components/TweetCard.tsx:19-22 | the card starts showing the tweet it was mounted with, which is also its prop and its reset target |
| `TweetCard.TweetCardView.ReceiveProps` | src/components/TweetCard.tsx:19-22 | a new `tweet` prop replaces the prop only; `useState` keeps the displayed tweet, and a pending click keeps its reset target |
| `TweetCard.TweetCardView.HandleLikeToggle` | src/components/TweetCard.tsx:25-47 | logged out: an alert, no change and no request; logged in: the optimistic tweet is shown before any response, and its one request is sent; the handler keeps the current prop as its reset target |
| `TweetCard.TweetCardView.LikeSettled` | src/components/TweetCard.tsx:48-53 | on success the optimistic state stays; on failure the card shows the prop of the render in which the click happened, with the failure alert |
| `TweetCard.PropsChangeDuringRequest` | src/components/TweetCard.tsx:25-53 | a prop arriving while the request is in flight does not change what a failure resets to |
| `TweetCard.ClickOnce` | src/components/TweetCard.tsx:25-53 | a whole click from the mounted tweet keeps the toggle exactly when the request succeeds |
| `TweetCard.RefetchThenFailedLike` | src/components/TweetCard.tsx:19-53 | after a re-render with a refreshed prop the card still shows the mounted tweet; a failed like then shows the refreshed one |
| `TweetCreationModal.Composer.constructor` | src/components/TweetCreationModal.tsx:36-38 | empty content, not loading, no error |
| `TweetCreationModal.Composer.OnChange` | src/components/TweetCreationModal.tsx:113-118 | an edit within 280 units replaces the content; a longer one is dropped; the cap always holds |
| `TweetCreationModal.Composer.CharsRemaining` | src/components/TweetCreationModal.tsx:73-74 | the counter is 280 minus the length, always within 0..280 |
| `TweetCreationModal.Composer.CanPost` | src/components/TweetCreationModal.tsx:159 | the button is enabled iff not loading and some character is not white space |
| `TweetCreationModal.Composer.HandlePost` | src/components/TweetCreationModal.tsx:53-60 | blank content: no request, no change; otherwise loading with the error cleared, content posted as typed |
| `TweetCreationModal.Composer.PostSettled` | src/components/TweetCreationModal.tsx:59-71 | success empties the content, then `onTweetPosted`, then `onClose`; failure sets the error and keeps the content; loading ends |
| `ReplyModal.ReplyComposer.constructor` | src/components/ReplyModal.tsx:31-32 | empty content, not loading |
| `ReplyModal.ReplyComposer.OnChange` | src/components/ReplyModal.tsx:108 | the content becomes the typed text |
| `ReplyModal.ReplyComposer.CanReply` | src/components/ReplyModal.tsx:135 | the button is enabled iff some character is not white space and not loading |
| `ReplyModal.ReplyComposer.HandleReply` | src/components/ReplyModal.tsx:38-43 | blank content: no request; otherwise loading, content posted as typed to `/tweets/{tweetId}/comments` |
| `ReplyModal.ReplyComposer.ReplySettled` | src/components/ReplyModal.tsx:42-54 | success clears the content, then `onReplySuccess`, then `onClose`; failure keeps the content and runs neither; loading ends |
| `EditProfileModal.SaveErrorMessage` | src/components/EditProfileModal.tsx:98-101 | the dialog shows the server's message when present and non-empty, else the fixed default |
| `EditProfileModal.PlainErrorsGetDefault` | src/components/EditProfileModal.tsx:98-101 | a non-HTTP error always gets the fixed default |
| `EditProfileModal.Editor.constructor` | src/components/EditProfileModal.tsx:43-45 | empty fields, not loading |
| `EditProfileModal.Editor.OnOpenChange` | src/components/EditProfileModal.tsx:47-52 | opening resets both fields from the props, null or empty becoming ''; closed changes nothing |
| `EditProfileModal.Editor.OnNameChange` | src/components/EditProfileModal.tsx:191 | the name becomes the typed text |
| `EditProfileModal.Editor.OnImageUrlChange` | src/components/EditProfileModal.tsx:206 | the image URL becomes the typed text |
| `EditProfileModal.Editor.CanSave` | src/components/EditProfileModal.tsx:154 | save is enabled iff not loading and the name has a non-space character |
| `EditProfileModal.Editor.HandleSave` | src/components/EditProfileModal.tsx:54-72 | blank name: a warning and no request; otherwise loading, name sent as typed and image trimmed or null |
| `EditProfileModal.Editor.SaveSettled` | src/components/EditProfileModal.tsx:67-113 | success puts the server's name and image in the store and in `onSuccess`, then closes; failure shows the chosen message and leaves the store; loading ends |
| `LoginPage.Redirect` | src/pages/LoginPage.tsx:33-35 | a logged-in visitor is redirected to / instead of seeing the form |
| `LoginPage.PayloadOf` | src/pages/LoginPage.tsx:52-55 | `login` receives token, id, username, name and image from the response |
| `LoginPage.LoginErrorMessage` | src/pages/LoginPage.tsx:58-68 | HTTP errors show the server message when there is one, else the credentials hint; other `Error`s their message; anything else a generic text |
| `LoginPage.LoginForm.constructor` | src/pages/LoginPage.tsx:28-31 | empty fields, not loading, no error |
| `LoginPage.LoginForm.OnUsernameChange` | src/pages/LoginPage.tsx:173 | the username becomes the typed text |
| `LoginPage.LoginForm.OnPasswordChange` | src/pages/LoginPage.tsx:187 | the password becomes the typed text |
| `LoginPage.LoginForm.CanSubmit` | src/pages/LoginPage.tsx:216 | submit is enabled iff not loading and both fields are non-empty |
| `LoginPage.LoginForm.HandleSubmit` | src/pages/LoginPage.tsx:37-50 | the error is cleared first; an empty field sets the required-fields error and sends nothing; otherwise loading and the credentials are posted |
| `LoginPage.LoginForm.SubmitSettled` | src/pages/LoginPage.tsx:48-71 | success logs the store in with the response's session and navigates to /; failure sets the chosen message, leaves the store and does not navigate; loading ends |
| `RegisterPage.RegisterPayload` | src/pages/registerPage.tsx:52-57 | name, username, password as typed; image trimmed, or omitted when blank |
| `RegisterPage.RegisterErrorMessage` | src/pages/registerPage.tsx:64-74 | HTTP errors show the server message when there is one, else the duplicate-user hint; other `Error`s their message; anything else a generic text |
| `RegisterPage.RegisterForm.constructor` | src/pages/registerPage.tsx:24-31 | empty fields, not loading, no error, notice closed |
| `RegisterPage.RegisterForm.OnNameChange` | src/pages/registerPage.tsx:136 | the name becomes the typed text |
| `RegisterPage.RegisterForm.OnUsernameChange` | src/pages/registerPage.tsx:149 | the username becomes the typed text |
| `RegisterPage.RegisterForm.OnPasswordChange` | src/pages/registerPage.tsx:163 | the password becomes the typed text |
| `RegisterPage.RegisterForm.OnImageUrlChange` | src/pages/registerPage.tsx:174 | the image URL becomes the typed text |
| `RegisterPage.RegisterForm.HandleClose` | src/pages/registerPage.tsx:33-38 | a click away keeps the notice; any other reason closes it; the form fields, loading and error are untouched |
| `RegisterPage.RegisterForm.CanSubmit` | src/pages/registerPage.tsx:202 | submit is enabled iff not loading and name, username, password are non-empty |
| `RegisterPage.RegisterForm.HandleSubmit` | src/pages/registerPage.tsx:40-59 | the error is cleared first; an empty required field sets the required-fields error and sends nothing; otherwise loading and the account is posted |
| `RegisterPage.RegisterForm.SubmitSettled` | src/pages/registerPage.tsx:59-77 | success opens the notice and schedules navigation to /login; failure sets the chosen message; loading ends |
| `ExplorePage.TotalPages` | src/pages/ExplorePage.tsx:45-47 | the page count holds all users and one fewer page would not |
| `ExplorePage.TotalPagesIsLeast` | src/pages/ExplorePage.tsx:46 | the page count is the least n with n·limit ≥ total |
| `ExplorePage.TwentyFiveByTen` | src/pages/ExplorePage.tsx:46 | 25 users at 10 per page make 3 pages |
| `ExplorePage.UsersPath` | src/pages/ExplorePage.tsx:41 | the list request carries the page number, readable back from the query |
| `ExplorePage.ExploreView.constructor` | src/pages/ExplorePage.tsx:30-33 | page 1, zero pages, no users, loading |
| `ExplorePage.ExploreView.FetchUsers` | src/pages/ExplorePage.tsx:38-41 | loading starts and the current page is requested |
| `ExplorePage.ExploreView.UsersFetched` | src/pages/ExplorePage.tsx:42-52 | success replaces the list wholesale and recomputes the page count; failure keeps both; loading ends |
| `ExplorePage.ExploreView.HandlePageChange` | src/pages/ExplorePage.tsx:63-66 | the chosen page becomes current, so the next fetch requests it |
| `ExplorePage.ExploreView.ShowPagination` | src/pages/ExplorePage.tsx:227 | pagination shows only with more than one page |
| `HomePage.HomeFeed.constructor` | src/pages/HomePage.tsx:18-19 | no tweets, loading |
| `HomePage.HomeFeed.IsInitialLoad` | src/pages/HomePage.tsx:24 | the first-load spinner shows iff no tweets are loaded and loading |
| `HomePage.HomeFeed.ShowEmptyFeed` | src/pages/HomePage.tsx:100 | the empty-feed message shows iff not loading and no tweets, never with the spinner |
| `HomePage.HomeFeed.FetchFeed` | src/pages/HomePage.tsx:26-35 | logged out: no request, loading off, tweets kept; logged in: loading and the feed requested |
| `HomePage.HomeFeed.FeedFetched` | src/pages/HomePage.tsx:34-43 | success replaces the tweets with the response's; failure empties them; loading ends |
| `HomePage.HomeFeed.HandleTweetPosted` | src/pages/HomePage.tsx:47-52 | a posted tweet triggers exactly one new fetch |
| `ProfilePage.Unwrap` | src/pages/ProfilePage.tsx:48 | the profile is `data.user` when present, otherwise `data` |
| `ProfilePage.IsOwnProfile` | src/pages/ProfilePage.tsx:38 | the route names the logged-in user; a null session username matches no route |
| `ProfilePage.ProfileEndpoint` | src/pages/ProfilePage.tsx:38-46 | `/users/me` for one's own profile, `/users/{username}` otherwise |
| `ProfilePage.EndpointOfUserNamedMe` | src/pages/ProfilePage.tsx:46 | a user named `me` gets the viewer's own endpoint |
| `ProfilePage.ProfileView.constructor` | src/pages/ProfilePage.tsx:29-36 | the first render's route and session usernames; no profile, loading, no error |
| `ProfilePage.ProfileView.FetchProfile` | src/pages/ProfilePage.tsx:41-47 | each fetch starts loading with the error cleared, keeps the profile shown, and asks the endpoint for the current route and session |
| `ProfilePage.ProfileView.Rerender` | src/pages/ProfilePage.tsx:29-59 | a re-render refetches exactly when `username` or `isOwnProfile` changed, at the new endpoint; otherwise loading and error stay; the shown profile stays either way |
| `ProfilePage.ProfileView.ProfileFetched` | src/pages/ProfilePage.tsx:45-55 | success stores the unwrapped profile; failure clears it and sets the not-found message; loading ends |
| `ProfilePage.ProfileView.HandleFollowToggle` | src/pages/ProfilePage.tsx:61-64 | changes no state; logs the profile's username when one is loaded, else returns at once |
| `ProfilePage.ProfileView.HeaderName` | src/pages/ProfilePage.tsx:202 | the profile's name when loaded and non-empty, else the route username |
| `ProfilePage.ProfileView.HeaderTweetsCount` | src/pages/ProfilePage.tsx:205 | the profile's tweet count, or 0 when absent |
| `MobileMenu.CurrentTab` | src/components/MobileMenu.tsx:17-22 | '/' → 0, '/explore' → 1, other paths containing '/profile' → 2, every other path → 0; never 3 |
| `MobileMenu.TabAction` | src/components/MobileMenu.tsx:32-37 | tab 0 navigates to '/', 1 to '/explore', 2 to the viewer's profile path; 3 only logs out; other values do nothing |
| `MobileMenu.ProfilePath` | src/components/MobileMenu.tsx:35 | `/profile/` followed by the session username, or by the text `null` when there is none |
| `MobileMenu.TabRoundTrip` | src/components/MobileMenu.tsx:17-37 | navigating by tab 0, 1 or 2 lands on a path highlighted as that tab, for any username |

## Left out

- Rendering, styling, themes, animations, the theme switcher, the sidebar and trends lists: presentation without state to verify.
- Transport: every `api.*` call is an outcome parameter; base URL and axios internals are not modelled.
- Persistence: the token the request interceptor reads from browser storage is an independent input; the persisted copy of the session is not modelled.
- Concurrency: one request settles at a time; overlapping requests (a double click on like, a profile refetch racing an earlier one) are not modelled.
- Timers, `console` logging, `window.scrollTo` and the date formatting on a tweet card; a scheduled navigation is recorded as an effect, not run.
- Alerts and dialogs are recorded only as the text they show (`Alert` effects).
- A response whose shape differs from the documented one (for example a login response without `user`, which would throw inside the `try`) is not modelled: each successful outcome carries a well-formed value.
- `ExplorePage.ExploreView.UsersFetched`: requires `limit > 0` in a successful response; with `limit = 0` the source computes `Infinity` or `NaN` pages, which integer division cannot express.
- `ExplorePage.ExploreView.HandlePageChange`: takes a natural page number, as the pagination control only offers pages from 1 up.
- Numbers are unbounded integers. JavaScript's doubles lose precision above 2^53, and `${n}` switches to exponent form from 10^21; no count, page or total here comes near either.
- Strings are sequences of Unicode code points; only `.length` is modelled in UTF-16 units.
