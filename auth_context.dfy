/**
 * The authentication session held by `AuthProvider`: the three state cells
 * `user`, `isAuthenticated` and `isLoading`, together with the stored token.
 *
 * Each operation is first given as a function on a `State` value (the
 * specification), then as a method of the class `AuthProvider` that updates
 * the fields step by step and is proved to agree with that function.
 */
module AuthContext {
  import opened Wrappers
  import opened Identity
  import opened Transport

  /** Everything an operation of the session can read or change. */
  datatype State = State(user: Option<User>, isAuthenticated: bool, isLoading: bool, token: Option<string>)

  /** The new state and what the operation resolves (or rejects) with. */
  datatype Reply = Reply(state: State, result: Result<AuthResponse, Error>)

  /** The value the provider exposes to consumers (the cells, without the token). */
  datatype Projection = Projection(user: Option<User>, isAuthenticated: bool, isLoading: bool)

  function Project(s: State): (p: Projection)
    ensures p.user == s.user && p.isAuthenticated == s.isAuthenticated && p.isLoading == s.isLoading
  {
    Projection(s.user, s.isAuthenticated, s.isLoading)
  }

  /** The state when the provider mounts, over whatever token storage already holds. */
  function Initial(token: Option<string>): (s: State)
    ensures s.user == None && !s.isAuthenticated && s.isLoading && s.token == token
  {
    State(None, false, true, token)
  }

  /** What every reachable state satisfies: an authenticated session holds a
      user, and a held user has its identifier patched. */
  predicate Inv(s: State)
  {
    (s.isAuthenticated ==> s.user.Some?)
    && (s.user.Some? ==> IsNormalized(s.user.value))
  }

  /** `checkAuth`, run once at mount with the outcome of `GET /users/me`
      (consulted only when a token is stored). */
  function CheckAuthStep(s: State, me: Result<UserEnvelope, Error>): (t: State)
    ensures !t.isLoading
    ensures !Truthy(s.token) ==> t.user == s.user && t.isAuthenticated == s.isAuthenticated && t.token == s.token
    ensures Truthy(s.token) && me.Success? && me.value.user.Some? ==>
      t.user == Some(Normalize(me.value.user.value)) && t.isAuthenticated && t.token == s.token
    ensures Truthy(s.token) && !(me.Success? && me.value.user.Some?) ==>
      t.user == s.user && t.isAuthenticated == s.isAuthenticated && t.token == None
  {
    if !Truthy(s.token) then s.(isLoading := false)
    else
      match GetCurrentUser(me)
      case Success(u) => s.(user := Some(u), isAuthenticated := true, isLoading := false)
      case Failure(_) => s.(token := None, isLoading := false)
  }

  /** `login`: the token rule of `authService.login`; then, unless a second
      factor is required, the patched user is committed. */
  function LoginStep(s: State, resp: Result<AuthResponse, Error>): (o: Reply)
    ensures o.state.isLoading == s.isLoading
    ensures o.state.token == TokenAfterAuth(s.token, resp)
    ensures resp.Failure? ==> o == Reply(s, resp)
    ensures resp.Success? && resp.value.requireOTP ==>
      o.state.user == s.user && o.state.isAuthenticated == s.isAuthenticated && o.result == resp
    ensures resp.Success? && !resp.value.requireOTP && resp.value.user.Some? ==>
      o.state.user == Some(Normalize(resp.value.user.value)) && o.state.isAuthenticated
      && o.result == Success(resp.value.(user := o.state.user))
    ensures resp.Success? && !resp.value.requireOTP && resp.value.user.None? ==>
      o.state.user == s.user && o.state.isAuthenticated == s.isAuthenticated
      && o.result == Failure(MalformedResponse)
  {
    var stored := s.(token := TokenAfterAuth(s.token, resp));
    match resp
    case Failure(_) => Reply(s, resp)
    case Success(body) =>
      if body.requireOTP then Reply(stored, resp)
      else
        match body.user
        case None => Reply(stored, Failure(MalformedResponse))
        case Some(u) =>
          var nu := Normalize(u);
          Reply(stored.(user := Some(nu), isAuthenticated := true), Success(body.(user := Some(nu))))
  }

  /** `verifyOTP`: the token rule of `authService.verifyOTP`, then the patched
      user is committed. */
  function VerifyOtpStep(s: State, resp: Result<AuthResponse, Error>): (o: Reply)
    ensures o.state.isLoading == s.isLoading
    ensures o.state.token == TokenAfterAuth(s.token, resp)
    ensures resp.Failure? ==> o == Reply(s, resp)
    ensures resp.Success? && resp.value.user.Some? ==>
      o.state.user == Some(Normalize(resp.value.user.value)) && o.state.isAuthenticated
      && o.result == Success(resp.value.(user := o.state.user))
    ensures resp.Success? && resp.value.user.None? ==>
      o.state.user == s.user && o.state.isAuthenticated == s.isAuthenticated
      && o.result == Failure(MalformedResponse)
  {
    var stored := s.(token := TokenAfterAuth(s.token, resp));
    match resp
    case Failure(_) => Reply(s, resp)
    case Success(body) =>
      match body.user
      case None => Reply(stored, Failure(MalformedResponse))
      case Some(u) =>
        var nu := Normalize(u);
        Reply(stored.(user := Some(nu), isAuthenticated := true), Success(body.(user := Some(nu))))
  }

  /** `register`: never authenticates; on success the stored token is erased. */
  function RegisterStep(s: State, resp: Result<AuthResponse, Error>): (o: Reply)
    ensures o.result == resp
    ensures o.state.user == s.user && o.state.isAuthenticated == s.isAuthenticated
    ensures o.state.isLoading == s.isLoading
    ensures o.state.token == if resp.Success? then None else s.token
  {
    match resp
    case Failure(_) => Reply(s, resp)
    case Success(_) => Reply(s.(token := None), Register(resp))
  }

  /** `logout`: signs out from any state; the loading flag is untouched. */
  function LogoutStep(s: State): (t: State)
    ensures t.user == None && !t.isAuthenticated && t.token == None
    ensures t.isLoading == s.isLoading
  {
    s.(user := None, isAuthenticated := false, token := None)
  }

  /** `updateUser`: replaces the held user by the patched argument. */
  function UpdateUserStep(s: State, u: User): (t: State)
    ensures t.user == Some(Normalize(u))
    ensures t == s.(user := t.user)
  {
    s.(user := Some(Normalize(u)))
  }

  /** One operation on the session, with the server outcome it receives. */
  datatype Op =
    | CheckAuthOp(me: Result<UserEnvelope, Error>)
    | LoginOp(resp: Result<AuthResponse, Error>)
    | VerifyOtpOp(resp: Result<AuthResponse, Error>)
    | RegisterOp(resp: Result<AuthResponse, Error>)
    | LogoutOp
    | UpdateUserOp(u: User)

  function Apply(s: State, op: Op): State
  {
    match op
    case CheckAuthOp(me) => CheckAuthStep(s, me)
    case LoginOp(resp) => LoginStep(s, resp).state
    case VerifyOtpOp(resp) => VerifyOtpStep(s, resp).state
    case RegisterOp(resp) => RegisterStep(s, resp).state
    case LogoutOp => LogoutStep(s)
    case UpdateUserOp(u) => UpdateUserStep(s, u)
  }

  /** The operations applied one after another, each as an atomic step. */
  function Run(s: State, ops: seq<Op>): State
    decreases |ops|
  {
    if ops == [] then s else Run(Apply(s, ops[0]), ops[1..])
  }

  /** Every operation preserves the invariant. */
  lemma ApplyPreservesInv(s: State, op: Op)
    requires Inv(s)
    ensures Inv(Apply(s, op))
  {
  }

  lemma InitialSatisfiesInv(token: Option<string>)
    ensures Inv(Initial(token))
  {
  }

  /** Every sequence of operations from a valid state ends in a valid state. */
  lemma {:induction false} RunPreservesInv(s: State, ops: seq<Op>)
    requires Inv(s)
    ensures Inv(Run(s, ops))
    decreases |ops|
  {
    if ops != [] {
      ApplyPreservesInv(s, ops[0]);
      RunPreservesInv(Apply(s, ops[0]), ops[1..]);
    }
  }

  lemma {:induction false} RunAppend(s: State, a: seq<Op>, b: seq<Op>)
    ensures Run(s, a + b) == Run(Run(s, a), b)
    decreases |a|
  {
    if a != [] {
      assert (a + b)[0] == a[0];
      assert (a + b)[1..] == a[1..] + b;
      RunAppend(Apply(s, a[0]), a[1..], b);
    } else {
      assert a + b == b;
    }
  }

  /** Loading ends at the first restoration and never starts again: after a
      run the session is loading iff it was and no `checkAuth` ran. */
  lemma {:induction false} LoadingEndsOnlyAtCheckAuth(s: State, ops: seq<Op>)
    ensures Run(s, ops).isLoading <==> s.isLoading && forall i :: 0 <= i < |ops| ==> !ops[i].CheckAuthOp?
    decreases |ops|
  {
    if ops != [] {
      LoadingEndsOnlyAtCheckAuth(Apply(s, ops[0]), ops[1..]);
      assert forall i :: 1 <= i < |ops| ==> ops[i] == ops[1..][i - 1];
    }
  }

  /** Whatever happened before, a final `logout` leaves no user, no
      authentication and no token, and the loading flag as it was. */
  lemma LogoutClearsAfterAnyRun(s: State, ops: seq<Op>)
    ensures Run(s, ops + [LogoutOp]) == LogoutStep(Run(s, ops))
    ensures Run(s, ops + [LogoutOp]).token == None
    ensures Run(s, ops + [LogoutOp]).user == None && !Run(s, ops + [LogoutOp]).isAuthenticated
  {
    RunAppend(s, ops, [LogoutOp]);
  }

  /** A request the server rejected changes nothing: login, second-factor
      verification and registration commit state only on success. */
  lemma FailedRequestChangesNothing(s: State, op: Op)
    requires op.LoginOp? || op.VerifyOtpOp? || op.RegisterOp?
    requires op.resp.Failure?
    ensures Apply(s, op) == s
  {
  }

  /** The two-step sign-in: a login that asks for a second factor leaves the
      session signed out, and a successful verification then signs in with
      the token it carries. */
  lemma SecondFactorSignIn(s: State, challenge: AuthResponse, answer: AuthResponse)
    requires !s.isAuthenticated
    requires challenge.requireOTP && !Truthy(challenge.token)
    requires Truthy(answer.token) && answer.user.Some?
    ensures LoginStep(s, Success(challenge)).state == s
    ensures !LoginStep(s, Success(challenge)).state.isAuthenticated
    ensures var t := VerifyOtpStep(LoginStep(s, Success(challenge)).state, Success(answer)).state;
      t.isAuthenticated && t.user == Some(Normalize(answer.user.value)) && t.token == answer.token
  {
  }

  /** As written, a direct-login response that carries a token but no user is
      rejected after `authService.login` has already stored the token: the
      session stays signed out while the token is persisted. */
  lemma TokenStoredOnMalformedLogin(s: State, body: AuthResponse)
    requires !s.isAuthenticated
    requires Truthy(body.token) && !body.requireOTP && body.user.None?
    ensures LoginStep(s, Success(body)).result == Failure(MalformedResponse)
    ensures !LoginStep(s, Success(body)).state.isAuthenticated
    ensures LoginStep(s, Success(body)).state.token == body.token
  {
  }

  /** As written, `updateUser` sets a user even on a signed-out session, so a
      held user does not imply authentication. */
  lemma UpdateUserWhileSignedOut(s: State, u: User)
    requires !s.isAuthenticated
    ensures UpdateUserStep(s, u).user.Some? && !UpdateUserStep(s, u).isAuthenticated
  {
  }

  const MissingProviderMessage := "useAuth doit être utilisé dans un AuthProvider"

  /** `useAuth`: the provider's value, or an error when no provider is mounted. */
  function UseAuth(context: Option<Projection>): (r: Result<Projection, string>)
    ensures r.Failure? <==> context.None?
    ensures r.Success? ==> r.value == context.value
    ensures r.Failure? ==> r.error == MissingProviderMessage
  {
    match context
    case None => Failure(MissingProviderMessage)
    case Some(p) => Success(p)
  }

  /** The provider: its three state cells and the token storage it shares
      with the API client. */
  class AuthProvider {
    var user: Option<User>
    var isAuthenticated: bool
    var isLoading: bool
    const storage: TokenStorage

    function Current(): State
      reads this, storage
    {
      State(user, isAuthenticated, isLoading, storage.token)
    }

    ghost predicate Valid()
      reads this, storage
    {
      Inv(Current())
    }

    /** The value consumers obtain through `useAuth`. */
    function Exposed(): (p: Projection)
      reads this, storage
      ensures p == Project(Current())
    {
      Projection(user, isAuthenticated, isLoading)
    }

    constructor (storage: TokenStorage)
      ensures this.storage == storage
      ensures Valid()
      ensures Current() == Initial(storage.token)
    {
      this.storage := storage;
      user := None;
      isAuthenticated := false;
      isLoading := true;
    }

    /** `checkAuth` (inside the mount effect); `me` is the outcome of
        `GET /users/me`, awaited only when a token is stored. */
    method CheckAuth(me: Result<UserEnvelope, Error>)
      requires Valid()
      modifies this, storage
      ensures Valid()
      ensures Current() == CheckAuthStep(old(Current()), me)
    {
      var token := storage.token;
      if Truthy(token) {
        var fetched := GetCurrentUser(me);
        match fetched {
          case Success(u) =>
            user := Some(u);
            isAuthenticated := true;
          case Failure(_) =>
            storage.Remove();
        }
      }
      isLoading := false;
    }

    method Login(resp: Result<AuthResponse, Error>) returns (r: Result<AuthResponse, Error>)
      requires Valid()
      modifies this, storage
      ensures Valid()
      ensures Current() == LoginStep(old(Current()), resp).state
      ensures r == LoginStep(old(Current()), resp).result
    {
      r := Transport.Login(storage, resp);
      if r.Success? && !r.value.requireOTP {
        match r.value.user {
          case None =>
            r := Failure(MalformedResponse);
          case Some(u) =>
            var patched := Normalize(u);
            user := Some(patched);
            isAuthenticated := true;
            r := Success(r.value.(user := Some(patched)));
        }
      }
    }

    method Register(resp: Result<AuthResponse, Error>) returns (r: Result<AuthResponse, Error>)
      requires Valid()
      modifies this, storage
      ensures Valid()
      ensures Current() == RegisterStep(old(Current()), resp).state
      ensures r == RegisterStep(old(Current()), resp).result
    {
      r := Transport.Register(resp);
      if r.Success? {
        storage.Remove();
      }
    }

    method Logout()
      requires Valid()
      modifies this, storage
      ensures Valid()
      ensures Current() == LogoutStep(old(Current()))
    {
      Transport.Logout(storage);
      user := None;
      isAuthenticated := false;
    }

    method VerifyOtp(resp: Result<AuthResponse, Error>) returns (r: Result<AuthResponse, Error>)
      requires Valid()
      modifies this, storage
      ensures Valid()
      ensures Current() == VerifyOtpStep(old(Current()), resp).state
      ensures r == VerifyOtpStep(old(Current()), resp).result
    {
      r := Transport.VerifyOtp(storage, resp);
      if r.Success? {
        match r.value.user {
          case None =>
            r := Failure(MalformedResponse);
          case Some(u) =>
            var patched := Normalize(u);
            user := Some(patched);
            isAuthenticated := true;
            r := Success(r.value.(user := Some(patched)));
        }
      }
    }

    method UpdateUser(updated: User)
      requires Valid()
      modifies this
      ensures Valid()
      ensures Current() == UpdateUserStep(old(Current()), updated)
    {
      user := Some(Normalize(updated));
    }
  }
}
