/**
 * The home page (app/page.tsx): loads the signed-in user through /api/user, derives
 * the profile fields with fixed fallbacks, and renders a skeleton, an error view or
 * the profile.
 */
module Home {
  import opened Wrappers
  import opened Strings
  import opened Http
  import UserRoute

  // ---------------------------------------------------------------- the user record

  /** The parts of an upstream user record the page reads; every level may be missing. */
  datatype User = User(displayName: Option<string>, username: Option<string>, pfp: Option<Pfp>, profile: Option<Profile>)
  datatype Pfp = Pfp(url: Option<string>)
  datatype Profile = Profile(bio: Option<Bio>, accountLevel: Option<string>)
  datatype Bio = Bio(text: Option<string>)

  /** The fields the profile section shows. */
  datatype ProfileFields = ProfileFields(name: string, handle: string, avatar: string, verified: bool, bio: string)

  const UnknownName := "Unknown User"
  const UnknownHandle := "@unknown"
  const FallbackAvatar := "https://imagedelivery.net/BXluQx4ige9GuW0Ia56BHw/31c292df-7624-448c-679e-acfa14b89d00/original"

  /** `s || fallback`. */
  function OrElse(s: Option<string>, fallback: string): string {
    if Truthy(s) then s.value else fallback
  }

  // The optional chains `user?.…` the profile fields are read through.
  function DisplayNameOf(user: Option<User>): Option<string> {
    if user.Some? then user.value.displayName else None
  }

  function UsernameOf(user: Option<User>): Option<string> {
    if user.Some? then user.value.username else None
  }

  function AvatarUrlOf(user: Option<User>): Option<string> {
    if user.Some? && user.value.pfp.Some? then user.value.pfp.value.url else None
  }

  function AccountLevelOf(user: Option<User>): Option<string> {
    if user.Some? && user.value.profile.Some? then user.value.profile.value.accountLevel else None
  }

  function BioTextOf(user: Option<User>): Option<string> {
    if user.Some? && user.value.profile.Some? && user.value.profile.value.bio.Some? then
      user.value.profile.value.bio.value.text
    else None
  }

  /** `accountLevel?.toLowerCase() === "pro"`, false when the level is missing. */
  predicate IsPro(accountLevel: Option<string>) {
    accountLevel.Some? && LowerAscii(accountLevel.value) == "pro"
  }

  /** An account level counts as pro exactly when it spells "pro" in any mix of letter cases. */
  lemma ProIsCaseInsensitive(level: string)
    ensures IsPro(Some(level)) <==>
      |level| == 3 && (level[0] == 'p' || level[0] == 'P') && (level[1] == 'r' || level[1] == 'R')
      && (level[2] == 'o' || level[2] == 'O')
  {
    var lower := LowerAscii(level);
    if |level| == 3 {
      assert lower == [LowerChar(level[0]), LowerChar(level[1]), LowerChar(level[2])];
    }
  }

  /** The `userProfile` object: each field falls back to a fixed value when the user's is missing or empty. */
  function UserProfile(user: Option<User>): (p: ProfileFields)
    ensures p.name == OrElse(DisplayNameOf(user), UnknownName)
    ensures p.handle == (if Truthy(UsernameOf(user)) then "@" + UsernameOf(user).value else UnknownHandle)
    ensures p.avatar == OrElse(AvatarUrlOf(user), FallbackAvatar)
    ensures p.verified <==> IsPro(AccountLevelOf(user))
    ensures p.bio == OrElse(BioTextOf(user), "")
    ensures p.name != "" && p.avatar != ""
    ensures |p.handle| >= 2 && p.handle[0] == '@'
  {
    ProfileFields(
      OrElse(DisplayNameOf(user), UnknownName),
      if Truthy(UsernameOf(user)) then "@" + UsernameOf(user).value else UnknownHandle,
      OrElse(AvatarUrlOf(user), FallbackAvatar),
      IsPro(AccountLevelOf(user)),
      OrElse(BioTextOf(user), ""))
  }

  /** Without a user record every field is its fallback. */
  lemma ProfileWithoutUser()
    ensures UserProfile(None) == ProfileFields(UnknownName, UnknownHandle, FallbackAvatar, false, "")
  {
  }

  /** The handle "@unknown" comes from the fallback, or from the username "unknown" itself. */
  lemma UnknownHandleSources(user: Option<User>)
    requires UserProfile(user).handle == UnknownHandle
    ensures !Truthy(UsernameOf(user)) || UsernameOf(user) == Some("unknown")
  {
    if Truthy(UsernameOf(user)) {
      var u := UsernameOf(user).value;
      assert "@" + u == "@unknown";
      assert u == ("@" + u)[1..];
    }
  }

  // ---------------------------------------------------------------- loading the user

  /** The page's state variables. */
  datatype HomeState = HomeState(fid: Option<int>, user: Option<User>, loading: bool, error: Option<string>)

  /** A value thrown inside `fetchUser`: an `Error` with a message, or anything else. */
  datatype Thrown = ErrorObject(message: string) | OtherValue

  /** `response.json()`: a parsed body or what it threw. */
  datatype Parsed<B> = Parsed(value: B) | Unparsable(thrown: Thrown)

  /** What `fetch` gave: a rejection, or a response with its `ok` flag and its parsed body. */
  datatype Reply<B> = Rejected(thrown: Thrown) | Received(ok: bool, body: Parsed<B>)

  /** The /api/user body the page reads `user` from. */
  datatype UserReply = UserReply(user: Option<User>)

  const FetchFailed := "Failed to fetch user data"
  const OtherFailure := "An error occurred"

  /** `err instanceof Error ? err.message : 'An error occurred'`. */
  function Message(thrown: Thrown): string {
    match thrown
    case ErrorObject(m) => m
    case OtherValue => OtherFailure
  }

  function UserUrl(fid: int): string {
    "/api/user?fid=" + IntToDecimal(fid)
  }

  /** Different fids request different /api/user URLs: the URL determines the fid. */
  lemma UserUrlInjective(m: int, n: int)
    requires UserUrl(m) == UserUrl(n)
    ensures m == n
  {
    var prefix := "/api/user?fid=";
    assert UserUrl(m)[|prefix|..] == IntToDecimal(m);
    assert UserUrl(n)[|prefix|..] == IntToDecimal(n);
    IntToDecimalInjective(m, n);
  }

  /** The request `fetchUser` issues: none without a fid. */
  function UserRequest(s: HomeState): (request: Option<string>)
    ensures request.Some? <==> FidPresent(s.fid)
    ensures request.Some? ==> request.value == UserUrl(s.fid.value)
  {
    if FidPresent(s.fid) then Some(UserUrl(s.fid.value)) else None
  }

  /** `fetchUser` up to its `await`: nothing without a fid, else loading starts and the error is cleared. */
  function FetchUserStarted(s: HomeState): (t: HomeState)
    ensures !FidPresent(s.fid) ==> t == s
    ensures FidPresent(s.fid) ==> t == s.(loading := true, error := None)
  {
    if !FidPresent(s.fid) then s else s.(loading := true, error := None)
  }

  /**
   * `fetchUser` after its `await`: a non-ok response is an error with a fixed message, a
   * thrown value sets its message, a parsed body sets `user` to its `user` field; the
   * `finally` always ends loading. The fid never changes.
   */
  function FetchUserFinished(s: HomeState, reply: Reply<UserReply>): (t: HomeState)
    ensures !t.loading && t.fid == s.fid
    ensures reply.Received? && !reply.ok ==> t.error == Some(FetchFailed) && t.user == s.user
    ensures reply.Rejected? ==> t.error == Some(Message(reply.thrown)) && t.user == s.user
    ensures reply.Received? && reply.ok && reply.body.Unparsable? ==>
      t.error == Some(Message(reply.body.thrown)) && t.user == s.user
    ensures reply.Received? && reply.ok && reply.body.Parsed? ==>
      t.user == reply.body.value.user && t.error == s.error
  {
    var afterTry :=
      match reply
      case Rejected(thrown) => s.(error := Some(Message(thrown)))
      case Received(ok, body) =>
        if !ok then s.(error := Some(FetchFailed))
        else match body
          case Unparsable(thrown) => s.(error := Some(Message(thrown)))
          case Parsed(data) => s.(user := data.user);
    afterTry.(loading := false)
  }

  // ---------------------------------------------------------------- rendering

  datatype Screen = Skeleton | ErrorScreen(message: string) | ProfileScreen(profile: ProfileFields)

  /** The screen, by precedence: the skeleton while loading, then a non-empty error, then the profile. */
  function ScreenFor(s: HomeState): (screen: Screen)
    ensures screen.Skeleton? <==> s.loading
    ensures screen.ErrorScreen? <==> !s.loading && Truthy(s.error)
    ensures screen.ErrorScreen? ==> screen.message == s.error.value
    ensures screen.ProfileScreen? <==> !s.loading && !Truthy(s.error)
    ensures screen.ProfileScreen? ==> screen.profile == UserProfile(s.user)
  {
    if s.loading then Skeleton
    else if Truthy(s.error) then ErrorScreen(s.error.value)
    else ProfileScreen(UserProfile(s.user))
  }

  // ---------------------------------------------------------------- the page

  class HomePage {
    var fid: Option<int>
    var user: Option<User>
    var loading: bool
    var error: Option<string>

    function State(): HomeState
      reads this
    {
      HomeState(fid, user, loading, error)
    }

    constructor ()
      ensures State() == HomeState(None, None, false, None)
    {
      fid := None;
      user := None;
      loading := false;
      error := None;
    }

    /** `fetchUser` up to its `await`. */
    method FetchUser() returns (request: Option<string>)
      modifies this
      ensures request == UserRequest(old(State()))
      ensures State() == FetchUserStarted(old(State()))
    {
      if fid.None? || fid.value == 0 {
        return None;
      }
      loading := true;
      error := None;
      request := Some(UserUrl(fid.value));
    }

    /** The reply to `fetchUser`'s request arrives: the try/catch/finally after the `await`. */
    method UserReplyArrived(reply: Reply<UserReply>)
      modifies this
      ensures State() == FetchUserFinished(old(State()), reply)
    {
      match reply {
        case Rejected(thrown) =>
          error := Some(Message(thrown));
        case Received(ok, body) =>
          if !ok {
            error := Some(FetchFailed);
          } else {
            match body {
              case Unparsable(thrown) => error := Some(Message(thrown));
              case Parsed(data) => user := data.user;
            }
          }
      }
      loading := false;
    }

    /** The frame context gives the fid; the effect on `[fid]` runs `fetchUser` when it changed. */
    method ContextReady(contextFid: int) returns (request: Option<string>)
      modifies this
      ensures old(fid) == Some(contextFid) ==> request.None? && State() == old(State())
      ensures old(fid) != Some(contextFid) ==>
        var withFid := old(State()).(fid := Some(contextFid));
        request == UserRequest(withFid) && State() == FetchUserStarted(withFid)
    {
      if fid == Some(contextFid) {
        return None;
      }
      fid := Some(contextFid);
      request := FetchUser();
    }

    function Screen(): Screen
      reads this
    {
      ScreenFor(State())
    }
  }

  // ---------------------------------------------------------------- end to end

  /**
   * How the page sees a /api/user reply: status 200 is ok and its body parses; an error
   * status is not ok (its `{ error }` body is never read).
   */
  function ReplyOf(response: Response<UserReply>): (reply: Reply<UserReply>)
    ensures reply.Received?
    ensures reply.ok <==> response.Json?
    ensures response.Json? ==> reply.body == Parsed(response.body)
  {
    match response
    case Json(body) => Received(true, Parsed(body))
    case JsonError(_, _) => Received(false, Parsed(UserReply(None)))
  }

  /**
   * One load of the signed-in user through /api/user: the skeleton shows while the
   * request is out; then an upstream failure shows the fixed error message and keeps
   * the previous user, and an upstream success shows the profile derived from the
   * record it returned.
   */
  lemma LoadThroughRoute(s: HomeState, fetch: string -> Fetch<UserRoute.UserEnvelope<UserReply>>)
    requires FidPresent(s.fid)
    ensures var started := FetchUserStarted(s);
      var x := UserRoute.Get(Some(IntToDecimal(s.fid.value)), None, fetch);
      var finished := FetchUserFinished(started, ReplyOf(x.response));
      ScreenFor(started) == Skeleton &&
      x.upstream == Some(UserRoute.ByFidUrl(IntToDecimal(s.fid.value))) &&
      (fetch(x.upstream.value).Threw? ==>
        ScreenFor(finished) == ErrorScreen(FetchFailed) && finished.user == s.user) &&
      (fetch(x.upstream.value).Fetched? ==>
        ScreenFor(finished) == ProfileScreen(UserProfile(fetch(x.upstream.value).body.result.user)))
  {
  }
}
