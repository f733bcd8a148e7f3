/** The mobile authentication provider: GitHub sign-in through the OAuth 2.0
    authorization-code flow (section 4.1 of RFC 6749), the session persisted
    in the device key-value store, and the bearer header of the shared HTTP
    client. */
module MobileAuth {

  import opened Wrappers
  import opened TextSearch
  import Http

  const CLIENT_ID := "da3f2f2bf7954b9cc481"
  const SCOPE := "read:user"
  const USER_STORAGE := "@nlwheat:user"
  const TOKEN_STORAGE := "@nlwheat:token"

  datatype User = User(id: string, avatarUrl: string, name: string, login: string)

  /** What the authorization session reports back: its `type`, and the
      redirect's `code` and `error` parameters, each possibly missing. */
  datatype AuthorizationResponse = AuthorizationResponse(kind: Option<string>, code: Option<string>, error: Option<string>)

  /** The body of a successful `POST authenticate`. */
  datatype AuthResponse = AuthResponse(token: string, user: User)

  /** A value in the device store: the serialized user, or plain text (the token). */
  datatype Stored = SerializedUser(user: User) | Text(text: string)

  /** Only this provider writes the two session keys: the user key holds a
      serialized user and the token key holds text. */
  predicate WellTyped(storage: map<string, Stored>) {
    && (USER_STORAGE in storage ==> storage[USER_STORAGE].SerializedUser?)
    && (TOKEN_STORAGE in storage ==> storage[TOKEN_STORAGE].Text?)
  }

  /** JavaScript truthiness of a store read: a serialized user is never the
      empty string; a text value is truthy when it is not empty. */
  predicate IsTruthy(v: Option<Stored>)
    ensures v.None? || v == Some(Text("")) ==> !IsTruthy(v)
    ensures v.Some? && v.value.SerializedUser? ==> IsTruthy(v)
  {
    match v
    case None => false
    case Some(SerializedUser(_)) => true
    case Some(Text(t)) => t != ""
  }

  /** Everything the provider owns: the context's `user` and `isSigningIn`,
      the device store and the client's `Authorization` header. */
  datatype Session = Session(user: Option<User>, isSigningIn: bool, storage: map<string, Stored>, authorization: Option<string>)

  /** The page the authorization session opens. */
  /** It is the GitHub authorize endpoint, whose text holds no `?`, then `?`,
      then a query of exactly two `&`-separated parameters: the client id,
      then the scope. */
  function SignInUrl(): (url: string)
    ensures var endpoint := Http.GITHUB_AUTHORIZE_ENDPOINT;
      && |url| > |endpoint| && url[..|endpoint|] == endpoint && '?' !in endpoint
      && url[|endpoint|] == '?'
      && Split(url[|endpoint| + 1..], "&") == ["client_id=" + CLIENT_ID, "scope=" + SCOPE]
  {
    var url := "https://github.com/login/oauth/authorize?client_id=" + CLIENT_ID + "&scope=" + SCOPE;
    var endpoint := Http.GITHUB_AUTHORIZE_ENDPOINT;
    var clientId, scope := "client_id=" + CLIENT_ID, "scope=" + SCOPE;
    assert url == endpoint + "?" + clientId + "&" + scope;
    assert url[|endpoint| + 1..] == clientId + "&" + scope;
    AbsentFirstChar(clientId, "&");
    AbsentFirstChar(scope, "&");
    SplitAround(clientId, "&", scope);
    Http.EndpointHasNoQuery();
    url
  }

  /** The code is exchanged only when the session reports `success` and the
      redirect does not carry the `access_denied` error (section 4.1.2.1 of RFC 6749). */
  predicate Exchanges(response: Attempt<AuthorizationResponse>)
    ensures Exchanges(response) ==> response.Ok? && response.value.kind == Some("success")
    ensures response.Ok? && response.value.error == Some("access_denied") ==> !Exchanges(response)
  {
    response.Ok? && response.value.kind == Some("success") && response.value.error != Some("access_denied")
  }

  /** `signIn`, given what the authorization session returned (or that it threw),
      the backend's answer to `POST authenticate` for each code, and whether each
      of the two store writes succeeded. */
  function SignInStep(s: Session, response: Attempt<AuthorizationResponse>,
                      authenticate: Option<string> -> Attempt<AuthResponse>,
                      userSaved: bool, tokenSaved: bool): (r: Session)
    ensures !r.isSigningIn
    ensures r.storage - {USER_STORAGE, TOKEN_STORAGE} == s.storage - {USER_STORAGE, TOKEN_STORAGE}
    ensures WellTyped(s.storage) ==> WellTyped(r.storage)
    ensures !Exchanges(response) ==>
      r.user == s.user && r.storage == s.storage && r.authorization == s.authorization
    ensures Exchanges(response) ==>
      match authenticate(response.value.code)
      case Thrown => r.user == s.user && r.storage == s.storage && r.authorization == s.authorization
      case Ok(answer) =>
        && r.authorization == Some(Http.Bearer(answer.token))
        && (userSaved && tokenSaved ==>
              r.user == Some(answer.user) &&
              r.storage == s.storage[USER_STORAGE := SerializedUser(answer.user)][TOKEN_STORAGE := Text(answer.token)])
        && (!(userSaved && tokenSaved) ==> r.user == s.user)
        && (!userSaved ==> r.storage == s.storage)
        && (userSaved && !tokenSaved ==> r.storage == s.storage[USER_STORAGE := SerializedUser(answer.user)])
  {
    var finished := s.(isSigningIn := false);
    if !Exchanges(response) then finished
    else match authenticate(response.value.code)
      case Thrown => finished
      case Ok(answer) =>
        var withHeader := finished.(authorization := Some(Http.Bearer(answer.token)));
        if !userSaved then withHeader
        else
          var withUser := withHeader.(storage := s.storage[USER_STORAGE := SerializedUser(answer.user)]);
          if !tokenSaved then withUser
          else withUser.(storage := withUser.storage[TOKEN_STORAGE := Text(answer.token)], user := Some(answer.user))
  }

  /** `signOut`, given whether each of the two store removals succeeded. */
  function SignOutStep(s: Session, userRemoved: bool, tokenRemoved: bool): (r: Session)
    ensures r.authorization == s.authorization && r.isSigningIn == s.isSigningIn
    ensures r.storage.Keys <= s.storage.Keys
    ensures forall k :: k in r.storage ==> r.storage[k] == s.storage[k]
    ensures userRemoved && tokenRemoved ==>
      r.user == None && USER_STORAGE !in r.storage && TOKEN_STORAGE !in r.storage &&
      r.storage.Keys == s.storage.Keys - {USER_STORAGE, TOKEN_STORAGE}
    ensures !(userRemoved && tokenRemoved) ==> r.user == s.user
    ensures !userRemoved ==> r.storage == s.storage
    ensures userRemoved && !tokenRemoved ==> r.storage == s.storage - {USER_STORAGE}
  {
    if !userRemoved then s
    else if !tokenRemoved then s.(storage := s.storage - {USER_STORAGE})
    else s.(storage := s.storage - {USER_STORAGE, TOKEN_STORAGE}, user := None)
  }

  /** Both session keys are stored and truthy, so a restore signs the user in. */
  predicate HasSession(storage: map<string, Stored>)
    ensures HasSession(storage) ==> USER_STORAGE in storage && TOKEN_STORAGE in storage
    ensures WellTyped(storage) && HasSession(storage) ==> storage[TOKEN_STORAGE].text != ""
  {
    IsTruthy(Lookup(storage, USER_STORAGE)) && IsTruthy(Lookup(storage, TOKEN_STORAGE))
  }

  /** The startup restore, given whether reading the store rejected. */
  function RestoreStep(s: Session, readFails: bool): (r: Session)
    requires WellTyped(s.storage)
    ensures r.storage == s.storage
    ensures readFails ==> r == s
    ensures !readFails ==> !r.isSigningIn
    ensures !readFails && HasSession(s.storage) ==>
      r.user == Some(s.storage[USER_STORAGE].user) &&
      r.authorization == Some(Http.Bearer(s.storage[TOKEN_STORAGE].text))
    ensures !HasSession(s.storage) ==> r.user == s.user && r.authorization == s.authorization
  {
    if readFails then s
    else if HasSession(s.storage) then
      s.(authorization := Some(Http.Bearer(s.storage[TOKEN_STORAGE].text)),
         user := Some(s.storage[USER_STORAGE].user),
         isSigningIn := false)
    else s.(isSigningIn := false)
  }

  /** The provider as it starts on a device whose store holds `storage`. */
  function Launch(storage: map<string, Stored>, header: Option<string>): Session {
    Session(None, true, storage, header)
  }

  /** A completed sign-in survives a restart: restoring from what it stored
      brings back the same user and the same bearer header, unless the
      backend issued an empty token, which the truthiness test rejects. */
  lemma SignInThenRelaunch(s: Session, response: AuthorizationResponse,
                           authenticate: Option<string> -> Attempt<AuthResponse>,
                           header: Option<string>)
    requires WellTyped(s.storage)
    requires Exchanges(Ok(response)) && authenticate(response.code).Ok?
    ensures var answer := authenticate(response.code).value;
      var stored := SignInStep(s, Ok(response), authenticate, true, true).storage;
      RestoreStep(Launch(stored, header), false) ==
        if answer.token != "" then Session(Some(answer.user), false, stored, Some(Http.Bearer(answer.token)))
        else Session(None, false, stored, header)
  {
  }

  /** After a complete sign-out a restart restores nobody and leaves the header alone. */
  lemma SignOutThenRelaunch(s: Session, header: Option<string>)
    requires WellTyped(s.storage)
    ensures var stored := SignOutStep(s, true, true).storage;
      RestoreStep(Launch(stored, header), false) == Session(None, false, stored, header)
  {
  }

  /** When the token write fails after the user write succeeded, a token left
      from an earlier session stays in the store: the next restart pairs the
      new user with the old token. */
  lemma TokenWriteFailureMixesSessions(s: Session, response: AuthorizationResponse,
                                       authenticate: Option<string> -> Attempt<AuthResponse>,
                                       header: Option<string>)
    requires WellTyped(s.storage) && HasSession(s.storage)
    requires Exchanges(Ok(response)) && authenticate(response.code).Ok?
    ensures var answer := authenticate(response.code).value;
      var stored := SignInStep(s, Ok(response), authenticate, true, false).storage;
      RestoreStep(Launch(stored, header), false) ==
        Session(Some(answer.user), false, stored, Some(Http.Bearer(s.storage[TOKEN_STORAGE].text)))
  {
  }

  /** The React provider: its state, the device store and the shared header. */
  class AuthProvider {
    var user: Option<User>
    var isSigningIn: bool
    var storage: map<string, Stored>
    var authorization: Option<string>

    ghost predicate Valid()
      reads this
    {
      WellTyped(storage)
    }

    function Snapshot(): Session
      reads this
    {
      Session(user, isSigningIn, storage, authorization)
    }

    /** Mounting: no user yet, and the loading flag raised until restore ends. */
    constructor (persisted: map<string, Stored>, header: Option<string>)
      requires WellTyped(persisted)
      ensures Valid()
      ensures user == None && isSigningIn
      ensures storage == persisted && authorization == header
    {
      user := None;
      isSigningIn := true;
      storage := persisted;
      authorization := header;
    }

    method SignIn(response: Attempt<AuthorizationResponse>,
                  authenticate: Option<string> -> Attempt<AuthResponse>,
                  userSaved: bool, tokenSaved: bool)
      requires Valid()
      modifies this
      ensures Valid()
      ensures Snapshot() == SignInStep(old(Snapshot()), response, authenticate, userSaved, tokenSaved)
    {
      isSigningIn := true;
      label attempt: {
        // `startAsync` threw: caught below
        if response.Thrown? {
          break attempt;
        }
        var answered := response.value;
        if answered.kind == Some("success") && answered.error != Some("access_denied") {
          var exchanged := authenticate(answered.code);
          if exchanged.Thrown? {
            break attempt;
          }
          var token, signedIn := exchanged.value.token, exchanged.value.user;
          authorization := Some(Http.Bearer(token));
          if !userSaved {
            break attempt;
          }
          storage := storage[USER_STORAGE := SerializedUser(signedIn)];
          if !tokenSaved {
            break attempt;
          }
          storage := storage[TOKEN_STORAGE := Text(token)];
          user := Some(signedIn);
        }
      }
      // finally
      isSigningIn := false;
    }

    method SignOut(userRemoved: bool, tokenRemoved: bool)
      requires Valid()
      modifies this
      ensures Valid()
      ensures Snapshot() == SignOutStep(old(Snapshot()), userRemoved, tokenRemoved)
    {
      label attempt: {
        if !userRemoved {
          break attempt;
        }
        storage := storage - {USER_STORAGE};
        if !tokenRemoved {
          break attempt;
        }
        storage := storage - {TOKEN_STORAGE};
        user := None;
      }
    }

    method Restore(readFails: bool)
      requires Valid()
      modifies this
      ensures Valid()
      ensures Snapshot() == RestoreStep(old(Snapshot()), readFails)
    {
      if readFails {
        // the rejection escapes the effect: the loading flag stays raised
        return;
      }
      var userStorage := Lookup(storage, USER_STORAGE);
      var tokenStorage := Lookup(storage, TOKEN_STORAGE);
      if IsTruthy(userStorage) && IsTruthy(tokenStorage) {
        authorization := Some(Http.Bearer(tokenStorage.value.text));
        user := Some(userStorage.value.user);
      }
      isSigningIn := false;
    }
  }
}
