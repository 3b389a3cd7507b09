/**
 * GET /api/search (app/api/search/route.ts): checks the `q` parameter, forwards
 * it to the upstream search-summary endpoint and hands the parsed body back.
 */
module SearchRoute {
  import opened Wrappers
  import opened Strings
  import opened Http

  const MissingTerm := "Search term is required"
  const UpstreamFailed := "Failed to fetch search results"

  const UrlPrefix := ApiBase + "search-summary?q="
  const UrlSuffix := "&maxChannels=0&maxUsers=5&addFollowersYouKnowContext=false"

  /** The upstream URL for a search term, which is inserted as it is, without re-encoding. */
  function UpstreamUrl(q: string): string {
    UrlPrefix + q + UrlSuffix
  }

  /** The search term an upstream search URL carries. */
  function TermOf(url: string): Option<string> {
    Between(url, UrlPrefix, UrlSuffix)
  }

  /** The term is recovered from the URL built for it, so distinct terms give distinct URLs. */
  lemma TermOfUpstreamUrl(q: string)
    ensures TermOf(UpstreamUrl(q)) == Some(q)
    ensures StartsWith(UpstreamUrl(q), UrlPrefix) && EndsWith(UpstreamUrl(q), UrlSuffix)
  {
    BetweenConcat(UrlPrefix, q, UrlSuffix);
  }

  /**
   * The route handler. `q` is `searchParams.get("q")` and `fetch` gives the outcome
   * of fetching a URL and parsing its body.
   */
  function Get<B>(q: Option<string>, fetch: string -> Fetch<B>): (x: Exchange<B>)
    ensures x.upstream.None? <==> !Truthy(q)
    ensures !Truthy(q) ==> x.response == JsonError(400, MissingTerm)
    ensures Truthy(q) ==> x.upstream == Some(UpstreamUrl(q.value))
    ensures Truthy(q) ==>
      match fetch(UpstreamUrl(q.value))
      case Threw => x.response == JsonError(500, UpstreamFailed)
      case Fetched(data) => x.response == Json(data)
  {
    if !Truthy(q) then Exchange(None, JsonError(400, MissingTerm))
    else
      var url := UpstreamUrl(q.value);
      match fetch(url)
      case Threw => Exchange(Some(url), JsonError(500, UpstreamFailed))
      case Fetched(data) => Exchange(Some(url), Json(data))
  }

  /** Without a term the reply does not depend on the upstream at all. */
  lemma NoUpstreamCallWithoutTerm<B>(q: Option<string>, f: string -> Fetch<B>, g: string -> Fetch<B>)
    requires !Truthy(q)
    ensures Get(q, f) == Get(q, g)
  {
  }

  /** A reply of status 200 always carries the upstream body of the URL built for `q`. */
  lemma OkRepliesPassThrough<B>(q: Option<string>, fetch: string -> Fetch<B>)
    requires Get(q, fetch).response.Json?
    ensures q.Some? && q.value != ""
    ensures fetch(UpstreamUrl(q.value)) == Fetched(Get(q, fetch).response.body)
  {
  }
}
