/**
 * The session store of `AuthProvider` (src/hooks/useAuth.ts) as a state
 * machine over values: three state cells (`user`, `token`, `isLoading`) and
 * the one durable storage slot `localStorage['authToken']`.
 *
 * Each function here gives the state one operation leaves behind; the class
 * in module Auth performs the same operations step by step and is proved to
 * agree with them. Every reply of the gateway is an input: either the
 * envelope the awaited call resolved to, or a rejected call.
 *
 * JavaScript truthiness is kept: the source tests `if (storedToken)`,
 * `if (token)` and `!!token`, which treat the empty string like null.
 */
module Session {
  import opened Wrappers
  import Api

  /** The message every operation reports when its awaited call throws. */
  const UnexpectedError: string := "An unexpected error occurred"

  /** What an awaited gateway call did: resolved to an envelope, or threw. */
  datatype Reply<T> = Returned(response: Api.ApiResponse<T>) | Threw

  /** The `{ success, message }` the store's operations resolve to. */
  datatype Outcome = Outcome(success: bool, message: string)

  /** The store's cells and the storage slot (`stored` is the value under 'authToken'). */
  datatype State = State(user: Option<Api.User>, token: Option<string>, isLoading: bool, stored: Option<string>)

  /** JavaScript truthiness of a `string | null`. */
  predicate Truthy(s: Option<string>) {
    s.Some? && s.value != ""
  }

  /** `const isAuthenticated = !!user && !!token`. */
  predicate IsAuthenticated(s: State) {
    s.user.Some? && Truthy(s.token)
  }

  /** The session is all-or-nothing: a user is never held without a token. */
  predicate Consistent(s: State) {
    s.user.Some? ==> s.token.Some?
  }

  /** Memory follows storage: a token held in memory is the stored one. */
  predicate Synced(s: State) {
    s.token.Some? ==> s.stored == s.token
  }

  /** Storage follows memory: a truthy stored token is the one held in memory.
      A fresh page load breaks this until its start-up effect has run. */
  predicate StoredHeld(s: State) {
    Truthy(s.stored) ==> s.token == s.stored
  }

  /** The state a fresh page load starts in; only storage survives a reload. */
  function Start(stored: Option<string>): (s: State)
    ensures s.user.None? && s.token.None? && s.isLoading && s.stored == stored
    ensures !IsAuthenticated(s) && Consistent(s) && Synced(s)
  {
    State(None, None, true, stored)
  }

  // ---------------------------------------------------------------------
  // Restore on start-up, in two steps

  /** The first half of the start-up effect: read storage; a stored token is
      adopted at once, and without one loading simply ends. */
  function BeginRestore(s: State): State {
    if Truthy(s.stored) then s.(token := s.stored) else s.(isLoading := false)
  }

  /** The `getCurrentUser` request the first half issues, if any. */
  function RestoreProbe(s: State): Option<Api.HttpRequest> {
    if Truthy(s.stored) then Some(Api.Request(Api.GetCurrentUserOp(s.stored.value))) else None
  }

  /** Whether a reply validates the stored token: `response.success && response.data`. */
  predicate Accepts<T>(reply: Reply<T>) {
    reply.Returned? && reply.response.success && reply.response.data.Some?
  }

  /** The second half: the `.then` callback. A rejected call never runs it. */
  function CompleteRestore(s: State, reply: Reply<Api.UserData>): State {
    if reply.Threw? then s
    else if Accepts(reply) then s.(user := Some(reply.response.data.value.user), isLoading := false)
    else s.(stored := None, token := None, isLoading := false)
  }

  /** The whole start-up effect, run on a fresh page load. */
  function Reload(stored: Option<string>, reply: Reply<Api.UserData>): State {
    var begun := BeginRestore(Start(stored));
    if RestoreProbe(Start(stored)).Some? then CompleteRestore(begun, reply) else begun
  }

  // ---------------------------------------------------------------------
  // login, logout, signup, forgotPassword

  /** The state `login` leaves. On an accepted reply the token and user are set
      and then written to storage; when the storage write throws, the cells are
      already set but storage is not. */
  function Login(s: State, reply: Reply<Api.LoginData>, storageRejects: bool): State {
    if Accepts(reply) then
      var d := reply.response.data.value;
      var held := s.(token := Some(d.token), user := Some(d.user));
      if storageRejects then held else held.(stored := Some(d.token))
    else s
  }

  /** What `login` resolves to. */
  function LoginOutcome(reply: Reply<Api.LoginData>, storageRejects: bool): Outcome {
    if reply.Threw? || (Accepts(reply) && storageRejects) then Outcome(false, UnexpectedError)
    else Outcome(Accepts(reply), reply.response.message)
  }

  /** The remote logout `logout` issues: only when the token is truthy. */
  function LogoutProbe(s: State): Option<Api.HttpRequest> {
    if Truthy(s.token) then Some(Api.Request(Api.LogoutOp(s.token.value))) else None
  }

  /** The state `logout` leaves. If the awaited remote call threw, the lines
      after it never run. */
  function Logout(s: State, reply: Reply<Api.Json>): State {
    if Truthy(s.token) && reply.Threw? then s
    else s.(user := None, token := None, stored := None)
  }

  /** What `signup` and `forgotPassword` resolve to: the envelope's flag and
      message, or the fixed message when the call threw. */
  function PassThrough<T>(reply: Reply<T>): Outcome {
    match reply
    case Returned(r) => Outcome(r.success, r.message)
    case Threw => Outcome(false, UnexpectedError)
  }

  // ---------------------------------------------------------------------
  // Properties of single operations

  /** Start-up without a truthy stored token makes no backend call and ends
      loading unauthenticated, storage untouched; with one, the token is held
      before any reply arrives while the user stays absent and loading goes on. */
  lemma BeginRestoreCases(stored: Option<string>)
    ensures !Truthy(stored) ==> (RestoreProbe(Start(stored)).None?
                                 && BeginRestore(Start(stored)) == State(None, None, false, stored))
    ensures Truthy(stored) ==> (RestoreProbe(Start(stored)) == Some(Api.Request(Api.GetCurrentUserOp(stored.value)))
                                && BeginRestore(Start(stored)) == State(None, stored, true, stored)
                                && !IsAuthenticated(BeginRestore(Start(stored))))
    ensures Truthy(stored) ==> (Api.Request(Api.GetCurrentUserOp(stored.value)).headers
                                == map[Api.Authorization := Api.BearerHeader(stored.value)])
  {
  }

  /** A resolved start-up validation always ends loading: an accepted reply
      adopts its user under the stored token, anything else purges the token
      from memory and storage. */
  lemma CompleteRestoreCases(stored: string, reply: Reply<Api.UserData>)
    requires stored != ""
    ensures reply.Returned? ==> !Reload(Some(stored), reply).isLoading
    ensures Accepts(reply) ==> (Reload(Some(stored), reply)
                                == State(Some(reply.response.data.value.user), Some(stored), false, Some(stored)))
    ensures Accepts(reply) ==> IsAuthenticated(Reload(Some(stored), reply))
    ensures reply.Returned? && !Accepts(reply) ==> Reload(Some(stored), reply) == State(None, None, false, None)
    ensures reply.Threw? ==> Reload(Some(stored), reply) == State(None, Some(stored), true, Some(stored))
  {
  }

  /** Purging is idempotent: after a failed validation a second page load finds
      nothing, makes no call and ends unauthenticated in the same state. */
  lemma FailedRestoreIsIdempotent(stored: string, reply: Reply<Api.UserData>, again: Reply<Api.UserData>)
    requires stored != "" && reply.Returned? && !Accepts(reply)
    ensures RestoreProbe(Start(Reload(Some(stored), reply).stored)).None?
    ensures Reload(Reload(Some(stored), reply).stored, again) == Reload(Some(stored), reply)
    ensures !IsAuthenticated(Reload(Some(stored), reply))
  {
  }

  /** `login` changes the state exactly when the reply is accepted, and then the
      cells hold the returned token and user; storage follows unless the write
      threw. It reports success exactly when both the reply and the write
      succeeded, with the backend's message, so a reported failure leaves
      state and storage untouched unless it came from the storage write. */
  lemma LoginCases(s: State, reply: Reply<Api.LoginData>, storageRejects: bool)
    ensures !Accepts(reply) ==> Login(s, reply, storageRejects) == s
    ensures Accepts(reply) ==> Login(s, reply, storageRejects).token == Some(reply.response.data.value.token)
                               && Login(s, reply, storageRejects).user == Some(reply.response.data.value.user)
                               && Login(s, reply, storageRejects).isLoading == s.isLoading
    ensures Accepts(reply) ==> Login(s, reply, storageRejects).stored
                               == (if storageRejects then s.stored else Some(reply.response.data.value.token))
    ensures LoginOutcome(reply, storageRejects).success <==> Accepts(reply) && !storageRejects
    ensures reply.Returned? && !(Accepts(reply) && storageRejects)
            ==> LoginOutcome(reply, storageRejects).message == reply.response.message
    ensures reply.Threw? ==> LoginOutcome(reply, storageRejects) == Outcome(false, UnexpectedError)
    ensures !LoginOutcome(reply, storageRejects).success && !(Accepts(reply) && storageRejects)
            ==> Login(s, reply, storageRejects) == s
    ensures LoginOutcome(reply, storageRejects).success
            ==> Synced(Login(s, reply, storageRejects))
                && (IsAuthenticated(Login(s, reply, storageRejects)) <==> reply.response.data.value.token != "")
  {
  }

  /** Once `logout` has run to the end, which it does whenever no call was due
      or the call resolved (and the gateway's calls always resolve), the session
      and the storage slot are empty whatever the backend answered; the remote
      call is made exactly when the token is truthy, with that token. */
  lemma LogoutClears(s: State, reply: Reply<Api.Json>)
    ensures reply.Returned? || !Truthy(s.token)
            ==> Logout(s, reply) == s.(user := None, token := None, stored := None)
                && !IsAuthenticated(Logout(s, reply))
    ensures reply.Threw? && Truthy(s.token) ==> Logout(s, reply) == s
    ensures LogoutProbe(s).Some? <==> Truthy(s.token)
    ensures Truthy(s.token) ==> LogoutProbe(s).value.url == Api.ApiBaseUrl + "/auth/logout"
                                && LogoutProbe(s).value.headers == map[Api.Authorization := Api.BearerHeader(s.token.value)]
  {
  }

  /** A bearer request from the store never carries an empty token: both
      callers test the token's truthiness first. */
  lemma BearerTokensAreNonEmpty(s: State)
    ensures RestoreProbe(s).Some? ==> RestoreProbe(s).value == Api.Request(Api.GetCurrentUserOp(s.stored.value)) && s.stored.value != ""
    ensures LogoutProbe(s).Some? ==> LogoutProbe(s).value == Api.Request(Api.LogoutOp(s.token.value)) && s.token.value != ""
  {
  }

  /** `signup` and `forgotPassword` report the backend's verdict unchanged and
      invent success only never: a success comes from a resolved envelope. */
  lemma PassThroughCases<T>(reply: Reply<T>)
    ensures PassThrough(reply).success ==> reply.Returned? && reply.response.success
    ensures reply.Returned? ==> PassThrough(reply) == Outcome(reply.response.success, reply.response.message)
    ensures reply.Threw? ==> PassThrough(reply).message == UnexpectedError
  {
  }

  // ---------------------------------------------------------------------
  // Sequences of operations

  /** One atomic operation of the store, with the reply it received. */
  datatype Event =
    | PageLoad(restoreReply: Reply<Api.UserData>)
    | LogIn(loginReply: Reply<Api.LoginData>, storageRejects: bool)
    | LogOut(logoutReply: Reply<Api.Json>)
    | SignUp
    | ForgotPassword

  function Apply(s: State, e: Event): State {
    match e
    case PageLoad(r) => Reload(s.stored, r)
    case LogIn(r, rejects) => Login(s, r, rejects)
    case LogOut(r) => Logout(s, r)
    case SignUp => s
    case ForgotPassword => s
  }

  function Run(s: State, events: seq<Event>): State
    decreases |events|
  {
    if events == [] then s else Run(Apply(s, events[0]), events[1..])
  }

  predicate StorageNeverRejects(events: seq<Event>) {
    forall i :: 0 <= i < |events| ==> !(events[i].LogIn? && events[i].storageRejects)
  }

  /** Every operation keeps a user from being held without a token. */
  lemma ApplyKeepsConsistent(s: State, e: Event)
    requires Consistent(s)
    ensures Consistent(Apply(s, e))
  {
  }

  /** Across any sequence of operations a user is never held without a token. */
  lemma {:induction false} RunKeepsConsistent(s: State, events: seq<Event>)
    requires Consistent(s)
    ensures Consistent(Run(s, events))
    decreases |events|
  {
    if events != [] {
      ApplyKeepsConsistent(s, events[0]);
      RunKeepsConsistent(Apply(s, events[0]), events[1..]);
    }
  }

  /** Every operation but a login whose storage write throws keeps memory and
      storage in agreement. */
  lemma ApplyKeepsSynced(s: State, e: Event)
    requires Synced(s) && !(e.LogIn? && e.storageRejects)
    ensures Synced(Apply(s, e))
  {
  }

  /** Across any sequence of operations whose storage writes succeed, a token
      held in memory is always the stored one. */
  lemma {:induction false} RunKeepsSynced(s: State, events: seq<Event>)
    requires Synced(s) && StorageNeverRejects(events)
    ensures Synced(Run(s, events))
    decreases |events|
  {
    if events != [] {
      ApplyKeepsSynced(s, events[0]);
      assert StorageNeverRejects(events[1..]) by {
        forall i | 0 <= i < |events| - 1
          ensures !(events[1..][i].LogIn? && events[1..][i].storageRejects)
        {
          assert events[1..][i] == events[i + 1];
        }
      }
      RunKeepsSynced(Apply(s, events[0]), events[1..]);
    }
  }

  /** Stored token and held token are the same once start-up has run: a page
      load leaves memory and storage in agreement in both directions,
      whatever state it replaced and whatever its validation returned. */
  lemma PageLoadSyncs(s: State, reply: Reply<Api.UserData>)
    ensures Synced(Apply(s, PageLoad(reply))) && StoredHeld(Apply(s, PageLoad(reply)))
  {
  }

  /** Every operation but a login whose storage write throws keeps a truthy
      stored token held in memory: a logout clears the slot as well. */
  lemma ApplyKeepsStoredHeld(s: State, e: Event)
    requires StoredHeld(s) && !(e.LogIn? && e.storageRejects)
    ensures StoredHeld(Apply(s, e))
  {
  }

  /** Across any sequence of operations whose storage writes succeed, a truthy
      stored token is always the one held in memory. */
  lemma {:induction false} RunKeepsStoredHeld(s: State, events: seq<Event>)
    requires StoredHeld(s) && StorageNeverRejects(events)
    ensures StoredHeld(Run(s, events))
    decreases |events|
  {
    if events != [] {
      ApplyKeepsStoredHeld(s, events[0]);
      assert StorageNeverRejects(events[1..]) by {
        forall i | 0 <= i < |events| - 1
          ensures !(events[1..][i].LogIn? && events[1..][i].storageRejects)
        {
          assert events[1..][i] == events[i + 1];
        }
      }
      RunKeepsStoredHeld(Apply(s, events[0]), events[1..]);
    }
  }

  /** Memory and storage never diverge after start-up: in any run that begins
      with a page load and whose storage writes succeed, the token held in
      memory and a truthy stored token are one and the same, in both directions. */
  lemma {:induction false} BootedRunsStayInSync(s: State, reply: Reply<Api.UserData>, events: seq<Event>)
    requires StorageNeverRejects(events)
    ensures Synced(Run(s, [PageLoad(reply)] + events))
    ensures StoredHeld(Run(s, [PageLoad(reply)] + events))
  {
    var booted := Apply(s, PageLoad(reply));
    assert ([PageLoad(reply)] + events)[1..] == events;
    assert Run(s, [PageLoad(reply)] + events) == Run(booted, events);
    PageLoadSyncs(s, reply);
    RunKeepsSynced(booted, events);
    RunKeepsStoredHeld(booted, events);
  }

  /** The one way memory and storage part: a login whose storage write throws
      leaves the session authenticated in memory but not persisted. */
  lemma RejectedWriteDesyncs(s: State, reply: Reply<Api.LoginData>)
    requires Accepts(reply) && reply.response.data.value.token != ""
    requires s.stored != Some(reply.response.data.value.token)
    ensures IsAuthenticated(Login(s, reply, true)) && !Synced(Login(s, reply, true))
    ensures !LoginOutcome(reply, true).success
  {
  }

  /** Every envelope `makeRequest` can resolve to, over well-formed bodies, is
      a resolved reply: with it `logout` always runs to the end and clears the
      session, and a start-up validation always ends loading. */
  lemma GatewayRepliesComplete(s: State, stored: Option<string>,
                               logoutCall: Api.Transport<Api.Json>, probe: Api.Transport<Api.UserData>)
    ensures Logout(s, Returned(Api.Settle(logoutCall))) == s.(user := None, token := None, stored := None)
    ensures !Reload(stored, Returned(Api.Settle(probe))).isLoading
    ensures Truthy(stored) && !Api.Settle(probe).success
            ==> Reload(stored, Returned(Api.Settle(probe))) == State(None, None, false, None)
  {
  }

  /** Round trip through storage: after a successful login, a fresh page load
      whose validation returns the same user restores the very session the
      login left, and the validation carries the login's token. A login that
      received an empty token is not restored. */
  lemma LoginSurvivesReload(s: State, token: string, user: Api.User, message: string, again: string)
    ensures var after := Login(s, Returned(Api.ApiResponse(true, message, Some(Api.LoginData(token, user)), None)), false);
            var reloaded := Reload(after.stored, Returned(Api.ApiResponse(true, again, Some(Api.UserData(user)), None)));
            && (token != "" ==> reloaded == after.(isLoading := false))
            && (token != "" ==> RestoreProbe(Start(after.stored)) == Some(Api.Request(Api.GetCurrentUserOp(token))))
            && (token == "" ==> reloaded == State(None, None, false, Some("")))
  {
  }
}
