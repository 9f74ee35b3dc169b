/**
 * The frontend's API client (`authService`, `userService` and the request
 * interceptor). The HTTP round trip is not modelled: each operation receives
 * the server's outcome, the response body or the error the request rejected
 * with, as a parameter.
 */
module Transport {
  import opened Wrappers
  import opened Identity

  /** Why a call rejects. `Rejected` is whatever the HTTP client rejected with,
      passed on uninterpreted; `MalformedResponse` stands for the `TypeError`
      raised when a payload field the code dereferences is missing. */
  datatype Error =
    | Rejected(reason: string)
    | MalformedResponse

  /** Body of `/auth/login`, `/auth/register` and `/auth/verify-login-otp`;
      an absent `requireOTP` reads as `false`. */
  datatype AuthResponse = AuthResponse(
    token: Option<string>,
    user: Option<User>,
    requireOTP: bool)

  /** Body `{ user }` of the single-user endpoints. */
  datatype UserEnvelope = UserEnvelope(user: Option<User>)

  /** Body `{ etudiants }` or `{ intervenants }` of the list endpoints. */
  datatype ListEnvelope = ListEnvelope(users: Option<seq<User>>)

  const AuthorizationField := "Authorization"
  const BearerPrefix := "Bearer "

  /** The `localStorage` entry under the key `token`, which holds the bearer token. */
  class TokenStorage {
    var token: Option<string>

    constructor (initial: Option<string>)
      ensures token == initial
    {
      token := initial;
    }

    /** `localStorage.setItem('token', t)` */
    method Set(t: string)
      modifies this
      ensures token == Some(t)
    {
      token := Some(t);
    }

    /** `localStorage.removeItem('token')` */
    method Remove()
      modifies this
      ensures token == None
    {
      token := None;
    }

    /** The request interceptor: the headers an outgoing request carries. */
    function Intercept(headers: map<string, string>): (r: map<string, string>)
      reads this
      ensures Truthy(token) ==> AuthorizationField in r && r[AuthorizationField] == BearerPrefix + token.value
      ensures !Truthy(token) ==> r == headers
      ensures r.Keys == headers.Keys + (if Truthy(token) then {AuthorizationField} else {})
      ensures forall k :: k in headers && k != AuthorizationField ==> r[k] == headers[k]
    {
      if Truthy(token) then headers[AuthorizationField := BearerPrefix + token.value] else headers
    }
  }

  /** Whether a server outcome carries a token that the client stores. */
  predicate CarriesToken(resp: Result<AuthResponse, Error>)
  {
    resp.Success? && Truthy(resp.value.token)
  }

  /** The stored token after `login` or `verifyOTP` received `resp`. */
  function TokenAfterAuth(prior: Option<string>, resp: Result<AuthResponse, Error>): (t: Option<string>)
    ensures CarriesToken(resp) ==> t == resp.value.token
    ensures !CarriesToken(resp) ==> t == prior
  {
    if CarriesToken(resp) then resp.value.token else prior
  }

  /** A token received later replaces whatever an earlier response stored. */
  lemma LaterTokenOverwrites(prior: Option<string>, first: Result<AuthResponse, Error>, second: Result<AuthResponse, Error>)
    requires CarriesToken(second)
    ensures TokenAfterAuth(TokenAfterAuth(prior, first), second) == second.value.token
    ensures Truthy(TokenAfterAuth(prior, second))
  {
  }

  /** `authService.login`: stores the token when the response carries one and
      returns the response (or rethrows the error) unchanged. */
  method Login(storage: TokenStorage, resp: Result<AuthResponse, Error>) returns (r: Result<AuthResponse, Error>)
    modifies storage
    ensures r == resp
    ensures storage.token == TokenAfterAuth(old(storage.token), resp)
  {
    if resp.Success? && Truthy(resp.value.token) {
      storage.Set(resp.value.token.value);
    }
    r := resp;
  }

  /** `authService.verifyOTP`: the same token rule as `Login`. */
  method VerifyOtp(storage: TokenStorage, resp: Result<AuthResponse, Error>) returns (r: Result<AuthResponse, Error>)
    modifies storage
    ensures r == resp
    ensures storage.token == TokenAfterAuth(old(storage.token), resp)
  {
    if resp.Success? && Truthy(resp.value.token) {
      storage.Set(resp.value.token.value);
    }
    r := resp;
  }

  /** `authService.logout`: local only, erases the stored token. */
  method Logout(storage: TokenStorage)
    modifies storage
    ensures storage.token == None
  {
    storage.Remove();
  }

  /** `authService.register`: returns the server's outcome untouched; it has no
      access to the token storage at all. */
  function Register(resp: Result<AuthResponse, Error>): (r: Result<AuthResponse, Error>)
    ensures r == resp
  {
    resp
  }

  /** The shared body of the single-user endpoints: read `response.data.user`
      and patch its identifier. */
  function ReadUser(resp: Result<UserEnvelope, Error>): (r: Result<User, Error>)
    ensures resp.Failure? ==> r == Failure(resp.error)
    ensures resp.Success? && resp.value.user.None? ==> r == Failure(MalformedResponse)
    ensures resp.Success? && resp.value.user.Some? ==> r == Success(Normalize(resp.value.user.value))
    ensures r.Success? ==> IsNormalized(r.value)
  {
    match resp
    case Failure(e) => Failure(e)
    case Success(body) =>
      match body.user
      case None => Failure(MalformedResponse)
      case Some(u) => Success(Normalize(u))
  }

  /** The shared body of the list endpoints: read the array and patch every element. */
  function ReadUsers(resp: Result<ListEnvelope, Error>): (r: Result<seq<User>, Error>)
    ensures resp.Failure? ==> r == Failure(resp.error)
    ensures resp.Success? && resp.value.users.None? ==> r == Failure(MalformedResponse)
    ensures resp.Success? && resp.value.users.Some? ==>
      r.Success? && |r.value| == |resp.value.users.value|
      && forall i :: 0 <= i < |r.value| ==> r.value[i] == Normalize(resp.value.users.value[i])
    ensures r.Success? ==> AllNormalized(r.value)
  {
    match resp
    case Failure(e) => Failure(e)
    case Success(body) =>
      match body.users
      case None => Failure(MalformedResponse)
      case Some(us) => Success(NormalizeAll(us))
  }

  /** `userService.getCurrentUser` (`GET /users/me`). */
  function GetCurrentUser(resp: Result<UserEnvelope, Error>): (r: Result<User, Error>)
    ensures r.Success? <==> resp.Success? && resp.value.user.Some?
    ensures r.Success? ==> r.value == Normalize(resp.value.user.value) && IsNormalized(r.value)
    ensures r.Failure? && resp.Failure? ==> r.error == resp.error
  {
    ReadUser(resp)
  }

  /** `userService.getEtudiantDetails(id)` (`GET /users/etudiants/:id`); `id` only selects the URL. */
  function GetEtudiantDetails(id: string, resp: Result<UserEnvelope, Error>): (r: Result<User, Error>)
    ensures r.Success? <==> resp.Success? && resp.value.user.Some?
    ensures r.Success? ==> r.value == Normalize(resp.value.user.value) && IsNormalized(r.value)
    ensures r.Failure? && resp.Failure? ==> r.error == resp.error
  {
    ReadUser(resp)
  }

  /** `userService.updateUser(id, data)` (`PUT /users/:id`); the request body is the server's concern. */
  function UpdateUser(id: string, data: map<string, string>, resp: Result<UserEnvelope, Error>): (r: Result<User, Error>)
    ensures r.Success? <==> resp.Success? && resp.value.user.Some?
    ensures r.Success? ==> r.value == Normalize(resp.value.user.value) && IsNormalized(r.value)
    ensures r.Failure? && resp.Failure? ==> r.error == resp.error
  {
    ReadUser(resp)
  }

  /** `userService.getAllEtudiants` (`GET /users/etudiants`). */
  function GetAllEtudiants(resp: Result<ListEnvelope, Error>): (r: Result<seq<User>, Error>)
    ensures r.Success? <==> resp.Success? && resp.value.users.Some?
    ensures r.Success? ==> r.value == NormalizeAll(resp.value.users.value) && AllNormalized(r.value)
    ensures r.Failure? && resp.Failure? ==> r.error == resp.error
  {
    ReadUsers(resp)
  }

  /** `userService.getAllIntervenants(otp)` (`POST /users/intervenants/verify-otp`). */
  function GetAllIntervenants(otp: string, resp: Result<ListEnvelope, Error>): (r: Result<seq<User>, Error>)
    ensures r.Success? <==> resp.Success? && resp.value.users.Some?
    ensures r.Success? ==> r.value == NormalizeAll(resp.value.users.value) && AllNormalized(r.value)
    ensures r.Failure? && resp.Failure? ==> r.error == resp.error
  {
    ReadUsers(resp)
  }
}
