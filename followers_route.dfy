/**
 * GET /api/followers (app/api/followers/route.ts): checks the `fid` parameter,
 * forwards it to the upstream followers endpoint and hands the parsed body back.
 */
module FollowersRoute {
  import opened Wrappers
  import opened Strings
  import opened Http

  const MissingFid := "FID is required"
  /** The route's 500 message; it says "following" although this is the followers route. */
  const UpstreamFailed := "Failed to fetch following"

  const UrlPrefix := ApiBase + "followers?fid="
  const UrlSuffix := "&limit=100"

  /** The upstream URL for a fid parameter, inserted as it is. */
  function UpstreamUrl(fid: string): string {
    UrlPrefix + fid + UrlSuffix
  }

  /** The fid an upstream followers URL carries. */
  function FidOf(url: string): Option<string> {
    Between(url, UrlPrefix, UrlSuffix)
  }

  lemma FidOfUpstreamUrl(fid: string)
    ensures FidOf(UpstreamUrl(fid)) == Some(fid)
    ensures StartsWith(UpstreamUrl(fid), UrlPrefix) && EndsWith(UpstreamUrl(fid), UrlSuffix)
  {
    BetweenConcat(UrlPrefix, fid, UrlSuffix);
  }

  /** The route handler; `fid` is `searchParams.get("fid")`. */
  function Get<B>(fid: Option<string>, fetch: string -> Fetch<B>): (x: Exchange<B>)
    ensures x.upstream.None? <==> !Truthy(fid)
    ensures !Truthy(fid) ==> x.response == JsonError(400, MissingFid)
    ensures Truthy(fid) ==> x.upstream == Some(UpstreamUrl(fid.value))
    ensures Truthy(fid) ==>
      match fetch(UpstreamUrl(fid.value))
      case Threw => x.response == JsonError(500, UpstreamFailed)
      case Fetched(data) => x.response == Json(data)
  {
    if !Truthy(fid) then Exchange(None, JsonError(400, MissingFid))
    else
      var url := UpstreamUrl(fid.value);
      match fetch(url)
      case Threw => Exchange(Some(url), JsonError(500, UpstreamFailed))
      case Fetched(data) => Exchange(Some(url), Json(data))
  }

  /** Without a fid the reply does not depend on the upstream at all. */
  lemma NoUpstreamCallWithoutFid<B>(fid: Option<string>, f: string -> Fetch<B>, g: string -> Fetch<B>)
    requires !Truthy(fid)
    ensures Get(fid, f) == Get(fid, g)
  {
  }
}
