/**
 * The shapes shared by the three proxy routes and the pages that call them:
 * the outcome of a fetch, a route's reply, and the users envelope of the
 * upstream social-graph API.
 */
module Http {
  import opened Wrappers

  /**
   * `await fetch(url)` followed by `await response.json()`: either one of the two
   * threw (network failure, unparsable body), or the body parsed to a value.
   * The HTTP status is not part of it: the code modelled with it never reads it.
   */
  datatype Fetch<B> = Threw | Fetched(body: B)

  /** A reply built with `NextResponse.json`: status 200 with a body, or an error status with `{ error }`. */
  datatype Response<B> = Json(body: B) | JsonError(status: int, error: string)

  /** What a route did: the upstream URL it requested (None: no upstream call) and its reply. */
  datatype Exchange<B> = Exchange(upstream: Option<string>, response: Response<B>)

  /** A string that is present and not empty, i.e. truthy (`searchParams.get(name)`, `user?.username`, `error`). */
  predicate Truthy(s: Option<string>) {
    s.Some? && s.value != ""
  }

  /** A fid that is present and not 0, i.e. truthy: `!ctx?.user?.fid` and `!fid` fail for a missing fid and for 0. */
  predicate FidPresent(fid: Option<int>) {
    fid.Some? && fid.value != 0
  }

  /** Base URL of the upstream social-graph API. */
  const ApiBase := "https://client.farcaster.xyz/v2/"

  /**
   * The `{ result: { users } }` envelope of the search and followers endpoints.
   * Either level may be missing from a body of another shape, such as an `{ error }` body.
   */
  datatype UsersEnvelope<U> = UsersEnvelope(result: Option<UsersResult<U>>)
  datatype UsersResult<U> = UsersResult(users: Option<seq<U>>)
}
