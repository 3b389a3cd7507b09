/**
 * GET /api/user (app/api/user/route.ts): needs a `fid` or a `username`, fetches
 * the matching upstream user endpoint and replies with the body's `result` field.
 */
module UserRoute {
  import opened Wrappers
  import opened Strings
  import opened Http

  const MissingParams := "FID or username is required"
  const UpstreamFailed := "Failed to fetch user"

  const ByFidPrefix := ApiBase + "user?fid="
  const ByUsernamePrefix := ApiBase + "user-by-username?username="

  /** The upstream user envelope `{ result }`. */
  datatype UserEnvelope<R> = UserEnvelope(result: R)

  function ByFidUrl(fid: string): string {
    ByFidPrefix + fid
  }

  function ByUsernameUrl(username: string): string {
    ByUsernamePrefix + username
  }

  /** The fid a by-fid URL carries. */
  function FidOf(url: string): Option<string> {
    Between(url, ByFidPrefix, "")
  }

  /** The username a by-username URL carries. */
  function UsernameOf(url: string): Option<string> {
    Between(url, ByUsernamePrefix, "")
  }

  lemma UrlsRoundTrip(fid: string, username: string)
    ensures FidOf(ByFidUrl(fid)) == Some(fid)
    ensures UsernameOf(ByUsernameUrl(username)) == Some(username)
  {
    BetweenConcat(ByFidPrefix, fid, "");
    assert ByFidPrefix + fid + "" == ByFidUrl(fid);
    BetweenConcat(ByUsernamePrefix, username, "");
    assert ByUsernamePrefix + username + "" == ByUsernameUrl(username);
  }

  /** A by-fid URL is never a by-username URL: the two differ right after ".../v2/user". */
  lemma UrlKindsDiffer(fid: string, username: string)
    ensures ByFidUrl(fid) != ByUsernameUrl(username)
  {
    var k := |ApiBase| + 4;
    assert ByFidUrl(fid)[k] == '?';
    assert ByUsernameUrl(username)[k] == '-';
  }

  /**
   * The route handler; `fid` and `username` are the values of `searchParams.get`.
   * A fid wins over a username when both are given.
   */
  function Get<R>(fid: Option<string>, username: Option<string>, fetch: string -> Fetch<UserEnvelope<R>>): (x: Exchange<R>)
    ensures x.upstream.None? <==> !Truthy(fid) && !Truthy(username)
    ensures !Truthy(fid) && !Truthy(username) ==> x.response == JsonError(400, MissingParams)
    ensures Truthy(fid) ==> x.upstream == Some(ByFidUrl(fid.value))
    ensures !Truthy(fid) && Truthy(username) ==> x.upstream == Some(ByUsernameUrl(username.value))
    ensures x.upstream.Some? ==>
      match fetch(x.upstream.value)
      case Threw => x.response == JsonError(500, UpstreamFailed)
      case Fetched(data) => x.response == Json(data.result)
  {
    if !Truthy(fid) && !Truthy(username) then Exchange(None, JsonError(400, MissingParams))
    else
      var url := if Truthy(fid) then ByFidUrl(fid.value) else ByUsernameUrl(username.value);
      match fetch(url)
      case Threw => Exchange(Some(url), JsonError(500, UpstreamFailed))
      case Fetched(data) => Exchange(Some(url), Json(data.result))
  }

  /** Without either parameter the reply does not depend on the upstream at all. */
  lemma NoUpstreamCallWithoutParams<R>(fid: Option<string>, username: Option<string>,
                                        f: string -> Fetch<UserEnvelope<R>>, g: string -> Fetch<UserEnvelope<R>>)
    requires !Truthy(fid) && !Truthy(username)
    ensures Get(fid, username, f) == Get(fid, username, g)
  {
  }

  /** Which parameter was used can be read back from the upstream URL alone. */
  lemma UpstreamUrlIdentifiesParameter<R>(fid: Option<string>, username: Option<string>,
                                           fetch: string -> Fetch<UserEnvelope<R>>)
    requires Truthy(fid) || Truthy(username)
    ensures var url := Get(fid, username, fetch).upstream.value;
      (Truthy(fid) ==> FidOf(url) == fid && UsernameOf(url).None?) &&
      (!Truthy(fid) ==> UsernameOf(url) == username && FidOf(url).None?)
  {
    var url := Get(fid, username, fetch).upstream.value;
    if Truthy(fid) {
      UrlsRoundTrip(fid.value, "");
      if UsernameOf(url).Some? {
        assert url == ByUsernameUrl(UsernameOf(url).value);
        UrlKindsDiffer(fid.value, UsernameOf(url).value);
      }
    } else {
      UrlsRoundTrip("", username.value);
      if FidOf(url).Some? {
        assert url == ByFidUrl(FidOf(url).value);
        UrlKindsDiffer(FidOf(url).value, username.value);
      }
    }
  }
}
