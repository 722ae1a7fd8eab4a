/**
 * The request authentication middleware and the role gate
 * (backend/middleware/auth.js).
 *
 * Token signature checking is not modelled: the tokens that verify are given
 * as a map from token text to the user id their payload names.
 */
module Auth {
  import opened Wrappers

  type UserId = nat

  /** A user's designation as stored on the user record. */
  datatype Designation = Chairman | Dean | Vc | Controller | Other(name: string)

  /** The designation strings the routes compare against. */
  const KnownLabels: seq<string> := ["chairman", "dean", "vc", "controller"]

  /**
   * A designation read from a user record: `Other` never carries one of the
   * four known labels, so comparing two roles here is comparing their strings.
   */
  type Role = d: Designation | d.Other? ==> d.name !in KnownLabels witness Chairman

  /** The string a role is stored as. */
  function Label(r: Role): string
  {
    match r
    case Chairman => "chairman"
    case Dean => "dean"
    case Vc => "vc"
    case Controller => "controller"
    case Other(l) => l
  }

  /** Reads a stored designation string. */
  function ParseRole(s: string): (r: Role)
    ensures Label(r) == s
    ensures r.Other? <==> s !in KnownLabels
  {
    if s == "chairman" then Chairman
    else if s == "dean" then Dean
    else if s == "vc" then Vc
    else if s == "controller" then Controller
    else Other(s)
  }

  /** Two roles are equal exactly when the strings they are stored as are. */
  lemma LabelInjective(r1: Role, r2: Role)
    ensures Label(r1) == Label(r2) <==> r1 == r2
  {
  }

  /** The authenticated caller that the middleware attaches to the request. */
  datatype User = User(id: UserId, designation: Role)

  /** What the role gate does with a request. */
  datatype Gate =
    | Admitted   // passes control on to the route handler
    | NoUser     // 401 Unauthorized
    | WrongRole  // 403 Forbidden

  /** `requireRole(...roles)`: a membership test of the caller's designation. */
  function RequireRole(user: Option<User>, roles: seq<Role>): (g: Gate)
    ensures g == NoUser <==> user.None?
    ensures g == Admitted <==> user.Some? && user.value.designation in roles
    ensures g == WrongRole <==> user.Some? && user.value.designation !in roles
  {
    if user.None? then NoUser
    else if user.value.designation in roles then Admitted
    else WrongRole
  }

  const BearerPrefix: string := "Bearer "

  /**
   * The token carried by an Authorization header: present only when the
   * header starts with "Bearer ", and then the header without those 7
   * characters.
   */
  function BearerToken(header: Option<string>): (token: Option<string>)
    ensures token.Some? <==> header.Some? && BearerPrefix <= header.value
    ensures token.Some? ==> BearerPrefix + token.value == header.value
    ensures token.Some? ==> |token.value| == |header.value| - 7
  {
    if header.Some? && BearerPrefix <= header.value then
      Some(header.value[|BearerPrefix|..])
    else
      None
  }

  /** Building a header from a token and reading it back gives the token. */
  lemma BearerRoundTrip(token: string)
    ensures BearerToken(Some(BearerPrefix + token)) == Some(token)
  {
    assert BearerPrefix <= BearerPrefix + token;
    assert (BearerPrefix + token)[|BearerPrefix|..] == token;
  }

  /** Why the middleware answers 401 Unauthorized. */
  datatype AuthError =
    | MissingBearer  // no header, or one without the "Bearer " prefix
    | InvalidToken   // the token does not verify
    | UserNotFound   // the token verifies but names no stored user

  /**
   * `authMiddleware`: the caller a request is served for. `verified` maps each
   * token that verifies to the user id in its payload; `users` is the user store,
   * keyed by each user's own id.
   */
  function Authenticate(header: Option<string>, verified: map<string, UserId>,
                        users: map<UserId, User>): (r: Result<User, AuthError>)
    requires forall k :: k in users ==> users[k].id == k
    ensures BearerToken(header).None? <==> r == Err(MissingBearer)
    ensures r == Err(InvalidToken) <==>
              BearerToken(header).Some? && BearerToken(header).value !in verified
    ensures r == Err(UserNotFound) <==>
              BearerToken(header).Some? && BearerToken(header).value in verified &&
              verified[BearerToken(header).value] !in users
    ensures r.Ok? ==> exists t :: header == Some(BearerPrefix + t) && t in verified &&
                                  verified[t] in users && r.value == users[verified[t]]
    ensures r.Ok? ==> r.value.id == verified[BearerToken(header).value]
  {
    match BearerToken(header)
    case None => Err(MissingBearer)
    case Some(token) =>
      if token !in verified then Err(InvalidToken)
      else if verified[token] !in users then Err(UserNotFound)
      else Ok(users[verified[token]])
  }
}
