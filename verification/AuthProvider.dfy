/**
 * `AuthProvider` (src/hooks/useAuth.ts) as an object whose fields are its
 * three state cells and the storage slot it shares with later page loads.
 * Each method performs the source's setter and storage calls in order and is
 * proved to leave exactly the state the matching function of module Session
 * gives; the properties of those functions are proved there.
 */
module Auth {
  import opened Wrappers
  import Api
  import Session

  class AuthProvider {
    var user: Option<Api.User>
    var token: Option<string>
    var isLoading: bool
    /** The value under the key 'authToken' in localStorage. */
    var storage: Option<string>

    function Snapshot(): Session.State
      reads this
    {
      Session.State(user, token, isLoading, storage)
    }

    /** `!!user && !!token`: a user is held and the token is a non-empty string. */
    function IsAuthenticated(): (b: bool)
      reads this
      ensures b <==> user.Some? && token.Some? && token.value != ""
    {
      Session.IsAuthenticated(Snapshot())
    }

    /** A provider mounted on a page whose storage holds `stored`. */
    constructor (stored: Option<string>)
      ensures Snapshot() == Session.Start(stored)
    {
      user := None;
      token := None;
      isLoading := true;
      storage := stored;
    }

    /** The start-up effect up to the point where it awaits `getCurrentUser`. */
    method BeginRestore() returns (request: Option<Api.HttpRequest>)
      modifies this
      ensures Snapshot() == Session.BeginRestore(old(Snapshot()))
      ensures request == Session.RestoreProbe(old(Snapshot()))
    {
      var storedToken := storage;
      if storedToken.Some? && storedToken.value != "" {
        token := storedToken;
        request := Some(Api.Request(Api.GetCurrentUserOp(storedToken.value)));
      } else {
        isLoading := false;
        request := None;
      }
    }

    /** The callback that runs once `getCurrentUser` resolves. */
    method CompleteRestore(reply: Session.Reply<Api.UserData>)
      modifies this
      ensures Snapshot() == Session.CompleteRestore(old(Snapshot()), reply)
    {
      if reply.Threw? {
        return;
      }
      var response := reply.response;
      if response.success && response.data.Some? {
        user := Some(response.data.value.user);
      } else {
        storage := None;
        token := None;
      }
      isLoading := false;
    }

    /** `login(email, password, rememberMe)`. The request it sends carries
        `rememberMe`; the state it leaves does not depend on it. */
    method Login(email: string, password: string, rememberMe: bool,
                 reply: Session.Reply<Api.LoginData>, storageRejects: bool)
      returns (request: Api.HttpRequest, result: Session.Outcome)
      modifies this
      ensures request == Api.Request(Api.LoginOp(Api.LoginRequest(email, password, Some(rememberMe))))
      ensures Snapshot() == Session.Login(old(Snapshot()), reply, storageRejects)
      ensures result == Session.LoginOutcome(reply, storageRejects)
    {
      request := Api.Request(Api.LoginOp(Api.LoginRequest(email, password, Some(rememberMe))));
      if reply.Threw? {
        return request, Session.Outcome(false, Session.UnexpectedError);
      }
      var response := reply.response;
      if response.success && response.data.Some? {
        var authToken := response.data.value.token;
        var userData := response.data.value.user;
        token := Some(authToken);
        user := Some(userData);
        if storageRejects {
          return request, Session.Outcome(false, Session.UnexpectedError);
        }
        storage := Some(authToken);
        result := Session.Outcome(true, response.message);
      } else {
        result := Session.Outcome(false, response.message);
      }
    }

    /** `signup(userData)`: no cell and no storage is touched. */
    method Signup(form: Api.SignupRequest, reply: Session.Reply<Api.UserData>)
      returns (request: Api.HttpRequest, result: Session.Outcome)
      ensures request == Api.Request(Api.SignupOp(form))
      ensures result.success ==> reply.Returned? && reply.response.success
      ensures result == Session.PassThrough(reply)
    {
      request := Api.Request(Api.SignupOp(form));
      match reply
      case Returned(response) =>
        result := Session.Outcome(response.success, response.message);
      case Threw =>
        result := Session.Outcome(false, Session.UnexpectedError);
    }

    /** `logout()`: the remote call only when the token is truthy, then the
        session and the storage slot are cleared. */
    method Logout(reply: Session.Reply<Api.Json>) returns (request: Option<Api.HttpRequest>)
      modifies this
      ensures request == Session.LogoutProbe(old(Snapshot()))
      ensures Snapshot() == Session.Logout(old(Snapshot()), reply)
    {
      request := None;
      if token.Some? && token.value != "" {
        request := Some(Api.Request(Api.LogoutOp(token.value)));
        if reply.Threw? {
          return;
        }
      }
      user := None;
      token := None;
      storage := None;
    }

    /** `forgotPassword(email)`: no cell and no storage is touched. */
    method ForgotPassword(email: string, reply: Session.Reply<Api.Json>)
      returns (request: Api.HttpRequest, result: Session.Outcome)
      ensures request == Api.Request(Api.ForgotPasswordOp(Api.ForgotPasswordRequest(email)))
      ensures result.success ==> reply.Returned? && reply.response.success
      ensures result == Session.PassThrough(reply)
    {
      request := Api.Request(Api.ForgotPasswordOp(Api.ForgotPasswordRequest(email)));
      match reply
      case Returned(response) =>
        result := Session.Outcome(response.success, response.message);
      case Threw =>
        result := Session.Outcome(false, Session.UnexpectedError);
    }
  }

  /** A page load: a provider is mounted on the stored token and its start-up
      effect runs to completion. No call is made without a truthy stored token;
      a rejected validation purges it; the outcome is the one `Session.Reload`
      describes. */
  method PageLoad(stored: Option<string>, reply: Session.Reply<Api.UserData>)
    returns (state: Session.State, request: Option<Api.HttpRequest>)
    ensures request.Some? <==> Session.Truthy(stored)
    ensures Session.Truthy(stored) ==> request.value.headers == map[Api.Authorization := Api.BearerHeader(stored.value)]
    ensures reply.Returned? ==> !state.isLoading
    ensures Session.Truthy(stored) && reply.Returned? && !Session.Accepts(reply)
            ==> state.stored.None? && !Session.IsAuthenticated(state)
    ensures state == Session.Reload(stored, reply)
  {
    var provider := new AuthProvider(stored);
    request := provider.BeginRestore();
    Session.BeginRestoreCases(stored);
    if request.Some? {
      provider.CompleteRestore(reply);
    }
    state := provider.Snapshot();
  }
}
