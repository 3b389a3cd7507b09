# FarCreds: a verified model of its client logic and proxy routes

FarCreds is a small Farcaster profile viewer. Three API routes forward requests to
the upstream social-graph API at `https://client.farcaster.xyz/v2/`. Three client
components add the rest: the home page, which loads and shows the signed-in user;
the explore page, with debounced user search and followers/following tabs; and a
bottom navigation bar. This project models the decision logic of those six files in
Dafny and proves what they promise.

Modules, one per source file, plus the shared pieces:

- `UserRoute`, `SearchRoute`, `FollowersRoute` (`user_route.dfy`, `search_route.dfy`,
  `followers_route.dfy`). Each route handler is a pure function. It takes the query
  parameters and `fetch`, the outcome of fetching a URL and parsing its body, and
  returns an `Exchange`: the upstream URL it requested (if any) and its reply (200
  with a body, or 400/500 with a fixed message).
- `Navigation` (`navigation.dfy`): hiding the bar on profile pages, prefix matching
  of the active item, and the fixed items.
- `Debounce` (`debounce.dfy`): the `debounce` wrapper. It is a class whose field
  `pending` stands for the closure's timer and whose `invoked` field logs the
  invocations of the wrapped function. A pure `Step`/`Run` semantics over call and
  expiry events is proved equal to what the class does.
- `Explore` (`explore.dfy`): the explore page as a class over its state variables. It
  also holds the pure search panel, users panel, tab endpoint and initials.
- `Home` (`home.dfy`): the home page as a class whose state is tied to pure
  transition functions. It also holds the profile field derivation and the render
  precedence.
- `Strings`, `Http`, `Wrappers`: JavaScript string operations (`trim`, `split`,
  `join`, `startsWith`, ASCII `toLowerCase`, integer to decimal), the fetch/response
  shapes, and `Option`.

Each asynchronous handler is split at its `await` into two events. One method runs
the part before the `await` and returns the request it issues. A second method
applies the reply when it arrives. The pages apply every reply they receive, with no
check that it belongs to the latest request. The model keeps that: it does not claim
that the last query wins.

The code, not a redesign, is what is modelled. A failed search empties the result
list, so the search panel says "No users found", exactly as for a search that matched
nobody. A malformed upstream envelope is passed through unchanged. The routes return
an upstream body with status 200 whatever the upstream status was, because
`response.ok` is never read there. There are no generation counters and no separate
error state in the search flow.

## Model

| member | source | states |
|---|---|---|
| `SearchRoute.Get` | app/api/search/route.ts:3-26 | Missing or empty `q` gives 400 "Search term is required" and no upstream request. Otherwise the request goes to the search-summary URL; an upstream that threw gives 500 "Failed to fetch search results", and a parsed body is returned unchanged with 200 |
| `SearchRoute.TermOfUpstreamUrl` | app/api/search/route.ts:16 | The upstream URL is the fixed prefix, then `q` verbatim, then `&maxChannels=0&maxUsers=5&addFollowersYouKnowContext=false`; the term is recovered from it |
| `SearchRoute.NoUpstreamCallWithoutTerm` | app/api/search/route.ts:7-12 | Without a term the reply is the same whatever the upstream would do |
| `SearchRoute.OkRepliesPassThrough` | app/api/search/route.ts:18-19 | A 200 reply implies a non-empty term and carries exactly the upstream body for that term's URL |
| `FollowersRoute.Get` | app/api/followers/route.ts:3-23 | Missing or empty `fid` gives 400 "FID is required" and no request. Otherwise the request goes to the followers URL; a throw gives 500 "Failed to fetch following" (sic), and a parsed body is returned unchanged |
| `FollowersRoute.FidOfUpstreamUrl` | app/api/followers/route.ts:13 | The upstream URL is the followers prefix, then `fid`, then `&limit=100`; the fid is recovered from it |
| `FollowersRoute.NoUpstreamCallWithoutFid` | app/api/followers/route.ts:7-9 | Without a fid the reply does not depend on the upstream |
| `UserRoute.Get` | app/api/user/route.ts:3-29 | Both `fid` and `username` missing or empty give 400 "FID or username is required" and no request. A non-empty `fid` selects the `user?fid=` URL even when a username is given; otherwise the `user-by-username?username=` URL is used. Success returns the body's `result` field; a throw gives 500 "Failed to fetch user" |
| `UserRoute.UrlsRoundTrip` | app/api/user/route.ts:17-19 | The fid and the username are recovered from the URLs built for them |
| `UserRoute.UrlKindsDiffer` | app/api/user/route.ts:17-19 | A by-fid URL never equals a by-username URL |
| `UserRoute.NoUpstreamCallWithoutParams` | app/api/user/route.ts:8-13 | Without either parameter the reply does not depend on the upstream |
| `UserRoute.UpstreamUrlIdentifiesParameter` | app/api/user/route.ts:16-19 | The requested URL alone tells which parameter was used and gives back its value |
| `Navigation.IsActive` | components/navigation.tsx:28-32 | "/" is active exactly on pathname "/"; any other item is active exactly when the pathname starts with its path; a null pathname activates nothing |
| `Navigation.Render` | components/navigation.tsx:18-69 | Nothing is rendered on a pathname starting with "/profile/"; otherwise the three items, in order, each with its `isActive` flag |
| `Navigation.ActiveIndexIsTheActiveItem` | components/navigation.tsx:28-38 | An item is active exactly when it is the single index chosen by: "/" itself, else a "/explore" prefix, else a "/settings" prefix |
| `Navigation.AtMostOneActive` | components/navigation.tsx:28-38 | With the fixed items, no pathname activates two different items |
| `Navigation.ExploreSubpathsActivateExplore` | components/navigation.tsx:29-36 | Every path "/explore…" (for example "/explore/x") activates Explore and neither Home nor Settings |
| `Navigation.PrefixWithoutSegmentBoundary` | components/navigation.tsx:30 | The test has no segment boundary: "/explorer" activates Explore too |
| `Navigation.HiddenOnProfilePages` | components/navigation.tsx:18-20 | Every "/profile/…" path renders no bar |
| `Debounce.Step` | app/explore/page.tsx:110-113 | A call never invokes the wrapped function and leaves exactly its own arguments pending. An expiry disarms the timer and invokes the function once when a timer was armed, otherwise not at all |
| `Debounce.CallsKeepOnlyLast` | app/explore/page.tsx:110-112 | After any non-empty burst of calls with no expiry in between, exactly one timer is pending, with the last call's arguments, and nothing was invoked |
| `Debounce.NCallsThenExpiry` | app/explore/page.tsx:110-113 | N calls followed by one expiry produce exactly one invocation, with the Nth call's arguments |
| `Debounce.InvocationsOnlyOnExpiry` | app/explore/page.tsx:110-113 | Over any event sequence the invocation log only grows, by at most one entry per expiry. Each new entry is the argument of some call in the sequence or of the timer armed before it |
| `Debounce.Debouncer.constructor` | app/explore/page.tsx:109 | A new wrapper has no timer and no invocations |
| `Debounce.Debouncer.Call` | app/explore/page.tsx:110-112 | Clearing and re-arming the timer follows `Step` on a call |
| `Debounce.Debouncer.Expire` | app/explore/page.tsx:112 | The expiry returns the armed arguments and follows `Step` on an expiry |
| `Explore.SearchPanelFor` | app/explore/page.tsx:191-229 | "Searching..." exactly while loading. Otherwise "No users found" exactly for a non-blank query with no results, the result list exactly for a non-blank query with results, and nothing exactly for a blank query |
| `Explore.SearchResultsOf` | app/explore/page.tsx:90-96 | Results are non-empty only when the body has `result.users`, and then equal it. A throw, a body without `result` (an error body, say) or without `users` gives [] |
| `Explore.Endpoint` | app/explore/page.tsx:149 | Tab "followers" uses `/api/followers`; every other tab uses `/api/following` |
| `Explore.ListAfter` | app/explore/page.tsx:151-159 | A throw or a body without `result` (the access throws inside the try) keeps the list. A body with `result` replaces it with its users, or with [] when `users` is missing |
| `Explore.UsersPanelFor` | app/explore/page.tsx:269-315 | "Loading..." exactly while loading. An empty list for the active tab (line 173) shows "No {tab} found" with a fid and "Loading user context..." without one; otherwise the active tab's non-empty list |
| `Explore.FirstCharsOfSplit` | app/explore/page.tsx:210-213 | The first characters of `split(" ")`'s pieces equal the reference `WordStarts`, also for the pieces after the first |
| `Explore.InitialsAreWordStarts` | app/explore/page.tsx:210-213 | The initials are exactly the non-space characters at the start of the name or after a space, in order. Empty words contribute nothing; the initials hold no space and are no longer than the name |
| `Explore.ExplorePage.constructor` | app/explore/page.tsx:64-72 | The initial state values of the page, and a fresh debouncer with nothing pending |
| `Explore.ExplorePage.SearchInput` | app/explore/page.tsx:185-188 | Typing sets the query and calls the debounced search. Only the query and the debouncer change, so nothing is searched synchronously |
| `Explore.ExplorePage.Search` | app/explore/page.tsx:84-91 | A blank (whitespace-only) query sets results to [], issues no request and leaves the loading flag untouched. Any other query sets loading and requests that query, results unchanged |
| `Explore.ExplorePage.SearchTimerExpires` | app/explore/page.tsx:82-114 | Expiry of the debounce timer runs the search handler once on the pending query, and does nothing when no timer is pending |
| `Explore.ExplorePage.SearchReply` | app/explore/page.tsx:90-99 | Whatever the outcome, loading becomes false and results become `SearchResultsOf(reply)`; nothing else changes |
| `Explore.ExplorePage.FetchData` | app/explore/page.tsx:144-150 | Without a fid (missing or 0) nothing happens. Otherwise loading starts and the tab's endpoint is requested with `?fid=` and the fid in decimal |
| `Explore.ExplorePage.DataReply` | app/explore/page.tsx:151-162 | Only the list of the requested tab may change, as `ListAfter` says; the other list is untouched and loading ends |
| `Explore.ExplorePage.ContextReady` | app/explore/page.tsx:116-130 | The context's fid is stored and the active tab is loaded when it is present |
| `Explore.ExplorePage.SelectTab` | app/explore/page.tsx:165-167 | The tab is set. Its data is requested only when the tab changed and a fid is present |
| `Explore.ExplorePage.SelectSearchResult` | app/explore/page.tsx:201-204 | Choosing a result clears the query and navigates to `/profile/{fid}` |
| `Explore.ReadByPage` | app/explore/page.tsx:91-92 | `response.ok` is not read. A 200 body is read as it is; an error reply reads as a body without `result` |
| `Explore.SearchThroughRoute` | app/explore/page.tsx:91-96 | Through /api/search, a non-blank query yields the upstream's users, or [] when the upstream threw. A failure then shows "No users found" |
| `Explore.FollowersThroughRoute` | app/explore/page.tsx:150-159 | Through /api/followers, an upstream failure leaves the followers list unchanged; a success updates it as the upstream body says |
| `Home.UserProfile` | app/page.tsx:122-128 | The name is `displayName` or "Unknown User". The handle is "@" + `username` or "@unknown". The avatar is `pfp.url` or the fixed image. `verified` holds exactly for a lower-cased level of "pro". The bio is the bio text or "". Name and avatar are never empty and the handle always starts with "@" |
| `Home.ProIsCaseInsensitive` | app/page.tsx:126 | `verified` holds exactly for "pro" spelled in any letter case, and never for a missing level |
| `Home.ProfileWithoutUser` | app/page.tsx:122-128 | With no user every field takes its fallback and `verified` is false |
| `Home.UnknownHandleSources` | app/page.tsx:124 | The handle "@unknown" comes from a missing or empty username, or from the username "unknown" |
| `Home.UserRequest` | app/page.tsx:98-104 | A request is issued exactly when the fid is present and not 0, and it is `/api/user?fid=` with the fid in decimal |
| `Home.FetchUserStarted` | app/page.tsx:98-101 | Without a fid the state is unchanged. Otherwise loading starts and the error is cleared |
| `Home.FetchUserFinished` | app/page.tsx:103-115 | Loading always ends. A non-ok response sets "Failed to fetch user data" and keeps the user. A thrown value sets its message (or "An error occurred") and keeps the user. A parsed body sets `user` to its `user` field and keeps the error |
| `Home.ScreenFor` | app/page.tsx:162-246 | The skeleton exactly while loading, then the error view exactly for a non-empty error, then the profile derived from the user |
| `Home.ReplyOf` | app/page.tsx:104-108 | A route's 200 reply is ok with its body. Any error status is not ok |
| `Home.LoadThroughRoute` | app/page.tsx:96-119 | One load through /api/user: the skeleton shows while the request is out. Then an upstream failure shows "Failed to fetch user data" and keeps the user; a success shows the profile of the returned record |
| `Home.HomePage.constructor` | app/page.tsx:81-84 | The initial state: no fid, no user, not loading, no error |
| `Home.HomePage.FetchUser` | app/page.tsx:97-104 | Follows `FetchUserStarted` and issues `UserRequest` |
| `Home.HomePage.UserReplyArrived` | app/page.tsx:103-115 | The try/catch/finally after the `await` follows `FetchUserFinished` |
| `Home.HomePage.ContextReady` | app/page.tsx:86-119 | Storing a new fid runs `fetchUser`; the same fid again changes nothing |
| `Strings.TrimEmptyIffBlank` | app/explore/page.tsx:84 | `query.trim()` is empty exactly when every character is JavaScript whitespace |
| `Strings.Split` | app/explore/page.tsx:211 | `split(" ")` yields at least one piece and no piece contains the separator |
| `Strings.JoinSplit` | app/explore/page.tsx:211 | Joining the pieces of a split with the separator gives back the string |
| `Strings.LowerAscii` | app/page.tsx:126 | Lower-casing keeps the length and maps each character separately |
| `Strings.DecimalRoundTrip` | app/explore/page.tsx:150 | The decimal text of a fid reads back as the same number |
| `Strings.IntToDecimalInjective` | app/page.tsx:104 | Distinct integers render as distinct decimal strings |
| `Home.UserUrlInjective` | app/page.tsx:104 | Different fids give different `/api/user?fid=` request URLs |
| `Explore.DataUrlInjective` | app/explore/page.tsx:149-150 | On one tab, different fids give different `?fid=` request URLs |

## Left out

- Network I/O and JSON parsing: `fetch` and `response.json()` are inputs. Their outcome is a `Fetch` value (threw, or a parsed body), or in the home page a `Reply` (rejected, or a response with its `ok` flag and parsed body).
- The Farcaster frame SDK (`sdk.actions.ready`, `sdk.context`): the fid it yields is a method parameter (`ContextReady`).
- Wall-clock time in `debounce`: the 300 ms delay is not modelled; timer expiry is an explicit event.
- Ordering of overlapping replies: replies are applied in whatever order the caller delivers them. Interleaving of awaits is concurrency and is not modelled.
- React hooks, JSX, class strings, styles, the `ProBadge` SVG and the skeleton markup.
- `fetchCurrentUser` (app/explore/page.tsx:132-142) and the follower/following counts in the tab labels: they only feed presentation.
- `encodeURIComponent` on the client and URL decoding in `searchParams.get`: the search method returns the raw term, and the routes receive decoded parameter values.
- The `/api/following` route is not modelled; the following tab is modelled only as the URL it requests and the list it keeps.
- The `console.error` logging in the catch blocks (app/explore/page.tsx:95, 159; app/page.tsx:112) is dropped: it has no effect on the state.
- `UserRoute.Get`: a user envelope without a `result` field is not modelled. What `NextResponse.json(undefined)` does then depends on the runtime.
- The mock `linkedAccounts` data, the settings page, the layouts, the client provider and the dark-mode hook: static data or markup.
- `Strings.LowerAscii`: `toLowerCase` is modelled for ASCII letters only; Unicode case mapping is left out.
- Strings are sequences of Unicode characters, not UTF-16 code units, so `n[0]` in the initials takes the first character rather than the first code unit.
- `Strings.IntToDecimal`: JavaScript prints very large numbers (1e21 and above) in exponent form; fids are modelled as integers in plain decimal.
