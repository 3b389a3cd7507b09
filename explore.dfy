/**
 * The explore page (app/explore/page.tsx): search-as-you-type through a debounced
 * handler, the followers/following tabs, and what the page shows for each state.
 *
 * Every asynchronous handler is split at its `await`: one method runs the part
 * before it and returns the request it issues, another applies the reply. Replies
 * are applied as they arrive, with no check that they belong to the latest request,
 * exactly as the page does.
 */
module Explore {
  import opened Wrappers
  import opened Strings
  import opened Http
  import Debounce
  import SearchRoute
  import FollowersRoute

  // ---------------------------------------------------------------- search panel

  /** What the search box's list shows. */
  datatype SearchPanel<U> = Searching | NoUsersFound | SearchResults(users: seq<U>) | NoPanel

  /** The list under the search box, by precedence: loading, then no results, then results. */
  function SearchPanelFor<U>(searchLoading: bool, searchQuery: string, searchResults: seq<U>): (p: SearchPanel<U>)
    ensures p.Searching? <==> searchLoading
    ensures p.NoUsersFound? <==> !searchLoading && !IsBlank(searchQuery) && |searchResults| == 0
    ensures p.SearchResults? <==> !searchLoading && !IsBlank(searchQuery) && |searchResults| > 0
    ensures p.SearchResults? ==> p.users == searchResults
    ensures p.NoPanel? <==> !searchLoading && IsBlank(searchQuery)
  {
    TrimEmptyIffBlank(searchQuery);
    if searchLoading then Searching
    else if Trim(searchQuery) != "" && |searchResults| == 0 then NoUsersFound
    else if Trim(searchQuery) != "" then SearchResults(searchResults)
    else NoPanel
  }

  /**
   * `data.result.users || []` inside the search handler's try/catch: the users of a
   * well-formed body, and [] for a fetch that threw or a body without `result` (the
   * access throws and the catch sets []) or without `users`.
   */
  function SearchResultsOf<U>(reply: Fetch<UsersEnvelope<U>>): (users: seq<U>)
    ensures |users| > 0 ==> reply.Fetched? && reply.body.result.Some? && reply.body.result.value.users == Some(users)
    ensures reply.Fetched? && reply.body.result.Some? && reply.body.result.value.users.Some? ==>
      users == reply.body.result.value.users.value
  {
    match reply
    case Threw => []
    case Fetched(data) =>
      match data.result
      case None => []
      case Some(result) => result.users.GetOr([])
  }

  // ---------------------------------------------------------------- tabs

  /** The endpoint a tab loads: the followers route for "followers", the following route for anything else. */
  function Endpoint(tab: string): (endpoint: string)
    ensures endpoint == "/api/followers" <==> tab == "followers"
    ensures endpoint == "/api/following" <==> tab != "followers"
  {
    if tab == "followers" then "/api/followers" else "/api/following"
  }

  /** The request `fetchData(tab)` issues for the signed-in fid. */
  function DataUrl(tab: string, fid: int): string {
    Endpoint(tab) + "?fid=" + IntToDecimal(fid)
  }

  /** On one tab, different fids request different URLs: the URL determines the fid. */
  lemma DataUrlInjective(tab: string, m: int, n: int)
    requires DataUrl(tab, m) == DataUrl(tab, n)
    ensures m == n
  {
    var prefix := Endpoint(tab) + "?fid=";
    assert DataUrl(tab, m)[|prefix|..] == IntToDecimal(m);
    assert DataUrl(tab, n)[|prefix|..] == IntToDecimal(n);
    IntToDecimalInjective(m, n);
  }

  /**
   * The list a tab keeps after a reply to its request: unchanged when the fetch threw
   * or the body has no `result` (the access throws inside the try), the users when
   * present, [] when `result` has no `users`.
   */
  function ListAfter<U>(current: seq<U>, reply: Fetch<UsersEnvelope<U>>): (list: seq<U>)
    ensures reply.Threw? ==> list == current
    ensures reply.Fetched? && reply.body.result.None? ==> list == current
    ensures reply.Fetched? && reply.body.result.Some? ==> list == reply.body.result.value.users.GetOr([])
  {
    match reply
    case Threw => current
    case Fetched(data) =>
      match data.result
      case None => current
      case Some(result) => result.users.GetOr([])
  }

  /** What the area under the tabs shows. */
  datatype UsersPanel<U> = LoadingUsers | NoUsers(message: string) | UserCards(users: seq<U>)

  /** The users area: loading first, then an empty-list message, then the active tab's cards. */
  function UsersPanelFor<U>(loading: bool, tab: string, fid: Option<int>, followers: seq<U>, following: seq<U>): (p: UsersPanel<U>)
    ensures p.LoadingUsers? <==> loading
    ensures p.UserCards? ==> |p.users| > 0 && p.users == (if tab == "followers" then followers else following)
    ensures p.NoUsers? <==> !loading && |if tab == "followers" then followers else following| == 0
    ensures p.NoUsers? && FidPresent(fid) ==> p.message == "No " + tab + " found"
    ensures p.NoUsers? && !FidPresent(fid) ==> p.message == "Loading user context..."
  {
    var currentUsers := if tab == "followers" then followers else following;
    if loading then LoadingUsers
    else if |currentUsers| == 0 then
      NoUsers(if FidPresent(fid) then "No " + tab + " found" else "Loading user context...")
    else UserCards(currentUsers)
  }

  // ---------------------------------------------------------------- initials

  /** `words.map(n => n[0]).join("")`: `n[0]` of an empty word is undefined, which joins as "". */
  function FirstChars(words: seq<string>): string
    decreases |words|
  {
    if words == [] then ""
    else (if words[0] == "" then "" else [words[0][0]]) + FirstChars(words[1..])
  }

  /** The avatar fallback: `displayName.split(" ").map(n => n[0]).join("")`. */
  function Initials(displayName: string): string {
    FirstChars(Split(displayName, ' '))
  }

  /**
   * Reference definition of initials, character by character: every non-space character
   * that starts the string (when `atWordStart`) or follows a space.
   */
  function WordStarts(s: string, atWordStart: bool): string
    decreases |s|
  {
    if s == [] then ""
    else (if s[0] != ' ' && atWordStart then [s[0]] else "") + WordStarts(s[1..], s[0] == ' ')
  }

  lemma {:induction false} FirstCharsOfSplit(s: string)
    ensures FirstChars(Split(s, ' ')) == WordStarts(s, true)
    ensures FirstChars(Split(s, ' ')[1..]) == WordStarts(s, false)
    decreases |s|
  {
    if s != [] {
      var rest := Split(s[1..], ' ');
      FirstCharsOfSplit(s[1..]);
      if s[0] == ' ' {
        assert Split(s, ' ') == [""] + rest;
        assert ([""] + rest)[1..] == rest;
      } else {
        var parts := [[s[0]] + rest[0]] + rest[1..];
        assert Split(s, ' ') == parts;
        assert parts[1..] == rest[1..];
        assert FirstChars(parts) == [s[0]] + FirstChars(rest[1..]);
      }
    }
  }

  /**
   * The initials are the first characters of the space-separated words, in order;
   * the empty words that repeated, leading or trailing spaces make contribute nothing.
   */
  lemma InitialsAreWordStarts(displayName: string)
    ensures Initials(displayName) == WordStarts(displayName, true)
    ensures ' ' !in Initials(displayName)
    ensures |Initials(displayName)| <= |displayName|
  {
    FirstCharsOfSplit(displayName);
    WordStartsShape(displayName, true);
  }

  lemma {:induction false} WordStartsShape(s: string, atWordStart: bool)
    ensures ' ' !in WordStarts(s, atWordStart)
    ensures |WordStarts(s, atWordStart)| <= |s|
    decreases |s|
  {
    if s != [] {
      WordStartsShape(s[1..], s[0] == ' ');
    }
  }

  // ---------------------------------------------------------------- the page

  /** The page's state variables, and the debounced search wrapper it keeps for its lifetime. */
  class ExplorePage<U> {
    var activeExploreTab: string
    /** `ctx?.user?.fid` once the frame context has arrived. */
    var fid: Option<int>
    var followers: seq<U>
    var following: seq<U>
    var loading: bool
    var searchQuery: string
    var searchResults: seq<U>
    var searchLoading: bool
    const debouncer: Debounce.Debouncer<string>

    constructor ()
      ensures activeExploreTab == "followers" && fid.None?
      ensures followers == [] && following == [] && !loading
      ensures searchQuery == "" && searchResults == [] && !searchLoading
      ensures fresh(debouncer) && debouncer.State() == Debounce.Timer(None, [])
    {
      activeExploreTab := "followers";
      fid := None;
      followers := [];
      following := [];
      loading := false;
      searchQuery := "";
      searchResults := [];
      searchLoading := false;
      debouncer := new Debounce.Debouncer();
    }

    /** The search box changed: record the text and call the debounced search with it; nothing is searched yet. */
    method SearchInput(value: string)
      modifies this`searchQuery, debouncer
      ensures searchQuery == value
      ensures debouncer.State() == Debounce.Step(old(debouncer.State()), Debounce.Called(value))
    {
      searchQuery := value;
      debouncer.Call(value);
    }

    /**
     * The search handler up to its `await`: a blank query empties the results and issues
     * nothing (the loading flag is left as it is); any other query sets the loading flag
     * and returns the term it sends to /api/search (URI-encoded on the wire).
     */
    method Search(query: string) returns (request: Option<string>)
      modifies this`searchResults, this`searchLoading
      ensures IsBlank(query) ==> request.None? && searchResults == [] && searchLoading == old(searchLoading)
      ensures !IsBlank(query) ==> request == Some(query) && searchLoading && searchResults == old(searchResults)
    {
      TrimEmptyIffBlank(query);
      if Trim(query) == "" {
        searchResults := [];
        return None;
      }
      searchLoading := true;
      request := Some(query);
    }

    /** The debounce timer expires: the pending query, if any, is searched. */
    method SearchTimerExpires() returns (request: Option<string>)
      modifies this`searchResults, this`searchLoading, debouncer
      ensures debouncer.State() == Debounce.Step(old(debouncer.State()), Debounce.Expired)
      ensures old(debouncer.pending).None? ==>
        request.None? && searchResults == old(searchResults) && searchLoading == old(searchLoading)
      ensures old(debouncer.pending).Some? && IsBlank(old(debouncer.pending).value) ==>
        request.None? && searchResults == [] && searchLoading == old(searchLoading)
      ensures old(debouncer.pending).Some? && !IsBlank(old(debouncer.pending).value) ==>
        request == old(debouncer.pending) && searchLoading && searchResults == old(searchResults)
    {
      var fired := debouncer.Expire();
      if fired.Some? {
        request := Search(fired.value);
      } else {
        request := None;
      }
    }

    /** A search reply arrives: results as `SearchResultsOf` says, and loading ends whatever happened. */
    method SearchReply(reply: Fetch<UsersEnvelope<U>>)
      modifies this`searchResults, this`searchLoading
      ensures searchResults == SearchResultsOf(reply)
      ensures !searchLoading
    {
      searchResults := SearchResultsOf(reply);
      searchLoading := false;
    }

    /** `fetchData(tab)` up to its `await`: nothing without a fid; else loading starts and the tab's endpoint is requested. */
    method FetchData(tab: string) returns (request: Option<string>)
      modifies this`loading
      ensures !FidPresent(fid) ==> request.None? && loading == old(loading)
      ensures FidPresent(fid) ==> request == Some(DataUrl(tab, fid.value)) && loading
    {
      if !FidPresent(fid) {
        return None;
      }
      loading := true;
      request := Some(DataUrl(tab, fid.value));
    }

    /** A reply to `fetchData(tab)` arrives: only the tab's own list may change, and loading ends. */
    method DataReply(tab: string, reply: Fetch<UsersEnvelope<U>>)
      modifies this`followers, this`following, this`loading
      ensures tab == "followers" ==> followers == ListAfter(old(followers), reply) && following == old(following)
      ensures tab != "followers" ==> following == ListAfter(old(following), reply) && followers == old(followers)
      ensures !loading
    {
      if tab == "followers" {
        followers := ListAfter(followers, reply);
      } else {
        following := ListAfter(following, reply);
      }
      loading := false;
    }

    /** The frame context arrives; the effect on `[ctx, activeExploreTab]` then loads the active tab. */
    method ContextReady(contextFid: Option<int>) returns (request: Option<string>)
      modifies this`fid, this`loading
      ensures fid == contextFid
      ensures !FidPresent(contextFid) ==> request.None? && loading == old(loading)
      ensures FidPresent(contextFid) ==> request == Some(DataUrl(activeExploreTab, contextFid.value)) && loading
    {
      fid := contextFid;
      request := FetchData(activeExploreTab);
    }

    /** A tab button is pressed; the effect re-runs only when the tab actually changes. */
    method SelectTab(tab: string) returns (request: Option<string>)
      modifies this`activeExploreTab, this`loading
      ensures activeExploreTab == tab
      ensures tab == old(activeExploreTab) || !FidPresent(fid) ==> request.None? && loading == old(loading)
      ensures tab != old(activeExploreTab) && FidPresent(fid) ==> request == Some(DataUrl(tab, fid.value)) && loading
    {
      if tab == activeExploreTab {
        return None;
      }
      activeExploreTab := tab;
      request := FetchData(tab);
    }

    /**
     * A search result is chosen: the query is cleared without calling the debounced
     * search, and the page navigates to the user's profile path.
     */
    method SelectSearchResult(userFid: int) returns (route: string)
      modifies this`searchQuery
      ensures searchQuery == "" && route == "/profile/" + IntToDecimal(userFid)
    {
      route := "/profile/" + IntToDecimal(userFid);
      searchQuery := "";
    }

    /** The search box's list for the current state. */
    function SearchPanel(): SearchPanel<U>
      reads this
    {
      SearchPanelFor(searchLoading, searchQuery, searchResults)
    }
  }

  // ---------------------------------------------------------------- end to end

  /**
   * The body the page reads from a /api/search reply. The page never checks
   * `response.ok`: an `{ error }` body parses like any other and has no `result`.
   */
  function ReadByPage<U>(response: Response<UsersEnvelope<U>>): (reply: Fetch<UsersEnvelope<U>>)
    ensures response.JsonError? ==> reply == Fetched(UsersEnvelope(None))
    ensures response.Json? ==> reply == Fetched(response.body)
  {
    match response
    case Json(body) => Fetched(body)
    case JsonError(_, _) => Fetched(UsersEnvelope(None))
  }

  /**
   * A search for a non-blank query through /api/search: the results are the upstream's
   * users, or [] whenever the upstream threw or answered without `result.users`. A
   * failure therefore looks exactly like a search that matched nobody.
   */
  lemma SearchThroughRoute<U>(query: string, fetch: string -> Fetch<UsersEnvelope<U>>)
    requires !IsBlank(query)
    ensures var results := SearchResultsOf(ReadByPage(SearchRoute.Get(Some(query), fetch).response));
      var upstream := fetch(SearchRoute.UpstreamUrl(query));
      (upstream.Threw? ==> results == []) &&
      (upstream.Fetched? ==> results == SearchResultsOf(upstream)) &&
      (upstream.Threw? ==> SearchPanelFor(false, query, results).NoUsersFound?)
  {
    assert query != "";
  }

  /**
   * Loading the followers tab through /api/followers: the route receives the fid as
   * decimal text; an upstream failure becomes a 500 whose body has no `result`, which
   * leaves the list as it was, unlike a failed search, which empties the results.
   */
  lemma FollowersThroughRoute<U>(fid: int, current: seq<U>, fetch: string -> Fetch<UsersEnvelope<U>>)
    requires fid != 0
    ensures var x := FollowersRoute.Get(Some(IntToDecimal(fid)), fetch);
      var upstream := fetch(FollowersRoute.UpstreamUrl(IntToDecimal(fid)));
      x.upstream == Some(FollowersRoute.UpstreamUrl(IntToDecimal(fid))) &&
      (upstream.Threw? ==> ListAfter(current, ReadByPage(x.response)) == current) &&
      (upstream.Fetched? ==> ListAfter(current, ReadByPage(x.response)) == ListAfter(current, upstream))
  {
  }
}
