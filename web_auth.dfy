/** The web authentication context: the GitHub code read from the page URL
    after the OAuth redirect, its exchange for a session token, the token
    persisted in the browser store, and the bearer header of the shared
    HTTP client. */
module WebAuth {

  import opened Wrappers
  import opened TextSearch
  import Http

  const TOKEN_STORAGE := "@dowhile:token"

  /** The text that separates the page address from the GitHub code. */
  const CODE_MARKER := "?code="

  datatype User = User(id: string, name: string, login: string, avatarUrl: string)

  /** The body of a successful `POST authenticate`. */
  datatype AuthResponse = AuthResponse(token: string, user: User)

  /** Everything the context owns: `user`, the browser store, the client's
      `authorization` header and the page address (`window.location.href`). */
  datatype Session = Session(user: Option<User>, storage: map<string, string>, authorization: Option<string>, location: string)

  /** The two names destructured from `url.split('?code=')`. */
  datatype CodeRedirect = CodeRedirect(urlWithoutCode: string, githubCode: string)

  /** The link the page offers for signing in. */
  const SIGN_IN_URL := "https://github.com/login/oauth/authorize?scope=user&client_id=4554cdf9c353c91f2ee7"

  /** The code-extraction effect's test and split of the page address. */
  function ExtractCode(url: string): (r: Option<CodeRedirect>)
    ensures r.None? <==> !Contains(url, CODE_MARKER)
  {
    if Contains(url, CODE_MARKER) then
      SplitSeveral(url, CODE_MARKER);
      var parts := Split(url, CODE_MARKER);
      Some(CodeRedirect(parts[0], parts[1]))
    else
      None
  }

  /** What the extraction yields: the address before the first marker, which
      holds no marker, then the code up to the next marker or the end. */
  lemma ExtractCodeParts(url: string)
    requires Contains(url, CODE_MARKER)
    ensures var cr := ExtractCode(url).value;
      && !Contains(cr.urlWithoutCode, CODE_MARKER)
      && !Contains(cr.githubCode, CODE_MARKER)
      && cr.urlWithoutCode + CODE_MARKER + cr.githubCode <= url
      && (url == cr.urlWithoutCode + CODE_MARKER + cr.githubCode ||
          cr.urlWithoutCode + CODE_MARKER + cr.githubCode + CODE_MARKER <= url)
  {
    SplitSeveral(url, CODE_MARKER);
    SplitPiecesFree(url, CODE_MARKER);
    JoinSplit(url, CODE_MARKER);
    var parts := Split(url, CODE_MARKER);
    JoinStartsWith(parts, CODE_MARKER);
    if |parts| == 2 {
      assert Join(parts[1..], CODE_MARKER) == parts[1];
    }
  }

  /** The marker's first character does not recur inside it, so two markers never overlap. */
  lemma MarkerUnbordered()
    ensures forall k :: 1 <= k < |CODE_MARKER| ==> CODE_MARKER[k] != CODE_MARKER[0]
  {
  }

  /** Extraction inverts the redirect: an address and a code without the
      marker, joined by it, come back apart exactly. */
  lemma ExtractCodeRoundTrip(urlWithoutCode: string, githubCode: string)
    requires !Contains(urlWithoutCode, CODE_MARKER) && !Contains(githubCode, CODE_MARKER)
    ensures ExtractCode(urlWithoutCode + CODE_MARKER + githubCode) == Some(CodeRedirect(urlWithoutCode, githubCode))
  {
    var url := urlWithoutCode + CODE_MARKER + githubCode;
    assert url[|urlWithoutCode|..|urlWithoutCode| + |CODE_MARKER|] == CODE_MARKER;
    assert OccursAt(url, CODE_MARKER, |urlWithoutCode|);
    MarkerUnbordered();
    SplitAround(urlWithoutCode, CODE_MARKER, githubCode);
  }

  /** Only `?code=` separates, so query text after the code, such as
      `&state=...`, stays part of the extracted code: everything after the
      marker that holds no further `?` is taken as the code. */
  lemma QueryTailStaysInCode(urlWithoutCode: string, code: string, more: string)
    requires !Contains(urlWithoutCode, CODE_MARKER)
    requires '?' !in code && '?' !in more
    ensures ExtractCode(urlWithoutCode + CODE_MARKER + code + "&" + more)
      == Some(CodeRedirect(urlWithoutCode, code + "&" + more))
  {
    var tail := code + "&" + more;
    assert '?' !in tail;
    AbsentFirstChar(tail, CODE_MARKER);
    ExtractCodeRoundTrip(urlWithoutCode, tail);
    assert urlWithoutCode + CODE_MARKER + code + "&" + more == urlWithoutCode + CODE_MARKER + tail;
  }

  /** `signIn(githubCode)`, given the backend's answer to `POST authenticate`
      for each code. A rejected request is not caught and changes nothing. */
  function SignInStep(s: Session, githubCode: string, authenticate: string -> Attempt<AuthResponse>): (r: Session)
    ensures r.location == s.location
    ensures authenticate(githubCode).Thrown? ==> r == s
    ensures authenticate(githubCode).Ok? ==>
      var answer := authenticate(githubCode).value;
      && r.storage.Keys == s.storage.Keys + {TOKEN_STORAGE}
      && r.storage[TOKEN_STORAGE] == answer.token
      && (forall k :: k in s.storage && k != TOKEN_STORAGE ==> r.storage[k] == s.storage[k])
      && r.authorization == Some(Http.Bearer(answer.token))
      && r.user == Some(answer.user)
  {
    match authenticate(githubCode)
    case Thrown => s
    case Ok(answer) =>
      s.(storage := s.storage[TOKEN_STORAGE := answer.token],
         authorization := Some(Http.Bearer(answer.token)),
         user := Some(answer.user))
  }

  /** `signOut`: no user and no stored token; the header is left as it was. */
  function SignOutStep(s: Session): (r: Session)
    ensures r.user == None && TOKEN_STORAGE !in r.storage
    ensures r.storage.Keys == s.storage.Keys - {TOKEN_STORAGE}
    ensures forall k :: k in r.storage ==> r.storage[k] == s.storage[k]
    ensures r.authorization == s.authorization && r.location == s.location
  {
    s.(user := None, storage := s.storage - {TOKEN_STORAGE})
  }

  /** The token-restore effect, given the answer to `GET profile`. */
  function RestoreStep(s: Session, profile: Attempt<User>): (r: Session)
    ensures r.storage == s.storage && r.location == s.location
    ensures !IsTruthyText(Lookup(s.storage, TOKEN_STORAGE)) ==> r == s
    ensures IsTruthyText(Lookup(s.storage, TOKEN_STORAGE)) ==>
      && r.authorization == Some(Http.Bearer(s.storage[TOKEN_STORAGE]))
      && r.user == (if profile.Ok? then Some(profile.value) else s.user)
  {
    var token := Lookup(s.storage, TOKEN_STORAGE);
    if IsTruthyText(token) then
      var withHeader := s.(authorization := Some(Http.Bearer(token.value)));
      if profile.Ok? then withHeader.(user := Some(profile.value)) else withHeader
    else s
  }

  /** The code-extraction effect: strip the code from the address, then sign in with it. */
  function RedirectStep(s: Session, authenticate: string -> Attempt<AuthResponse>): (r: Session)
    ensures ExtractCode(s.location).None? ==> r == s
    ensures ExtractCode(s.location).Some? ==>
      var cr := ExtractCode(s.location).value;
      && r == SignInStep(s.(location := cr.urlWithoutCode), cr.githubCode, authenticate)
      && !Contains(r.location, CODE_MARKER)
      && r.location + CODE_MARKER + cr.githubCode <= s.location
  {
    match ExtractCode(s.location)
    case None => s
    case Some(cr) =>
      ExtractCodeParts(s.location);
      SignInStep(s.(location := cr.urlWithoutCode), cr.githubCode, authenticate)
  }

  /** A page opened on `address?code=code` signs in with exactly that code
      and is left showing `address`. */
  lemma RedirectSignsInWithCode(s: Session, urlWithoutCode: string, githubCode: string,
                                authenticate: string -> Attempt<AuthResponse>)
    requires s.location == urlWithoutCode + CODE_MARKER + githubCode
    requires !Contains(urlWithoutCode, CODE_MARKER) && !Contains(githubCode, CODE_MARKER)
    ensures RedirectStep(s, authenticate) == SignInStep(s.(location := urlWithoutCode), githubCode, authenticate)
  {
    ExtractCodeRoundTrip(urlWithoutCode, githubCode);
  }

  /** A sign-in survives a reload: the restore finds the stored token and sets
      the same bearer header (unless the token is empty); the user then comes
      from the profile request, since the user itself is not persisted. */
  lemma SignInThenReload(s: Session, githubCode: string, authenticate: string -> Attempt<AuthResponse>,
                         header: Option<string>, location: string, profile: Attempt<User>)
    requires authenticate(githubCode).Ok?
    ensures var answer := authenticate(githubCode).value;
      var stored := SignInStep(s, githubCode, authenticate).storage;
      var r := RestoreStep(Session(None, stored, header, location), profile);
      && r.authorization == (if answer.token != "" then Some(Http.Bearer(answer.token)) else header)
      && r.user == (if answer.token != "" && profile.Ok? then Some(profile.value) else None)
  {
  }

  /** After sign-out a reload restores nothing. */
  lemma SignOutThenReload(s: Session, header: Option<string>, location: string, profile: Attempt<User>)
    ensures var stored := SignOutStep(s).storage;
      RestoreStep(Session(None, stored, header, location), profile) == Session(None, stored, header, location)
  {
  }

  /** The React context provider, with the browser state it touches. */
  class AuthProvider {
    var user: Option<User>
    var storage: map<string, string>
    var authorization: Option<string>
    var location: string

    function Snapshot(): Session
      reads this
    {
      Session(user, storage, authorization, location)
    }

    /** Mounting: no user yet. */
    constructor (persisted: map<string, string>, header: Option<string>, href: string)
      ensures user == None && storage == persisted && authorization == header && location == href
    {
      user := None;
      storage := persisted;
      authorization := header;
      location := href;
    }

    method SignIn(githubCode: string, authenticate: string -> Attempt<AuthResponse>)
      modifies this
      ensures Snapshot() == SignInStep(old(Snapshot()), githubCode, authenticate)
    {
      var response := authenticate(githubCode);
      if response.Thrown? {
        return;
      }
      var token, signedIn := response.value.token, response.value.user;
      storage := storage[TOKEN_STORAGE := token];
      authorization := Some(Http.Bearer(token));
      user := Some(signedIn);
    }

    method SignOut()
      modifies this
      ensures Snapshot() == SignOutStep(old(Snapshot()))
    {
      user := None;
      storage := storage - {TOKEN_STORAGE};
    }

    method Restore(profile: Attempt<User>)
      modifies this
      ensures Snapshot() == RestoreStep(old(Snapshot()), profile)
    {
      var token := Lookup(storage, TOKEN_STORAGE);
      if IsTruthyText(token) {
        authorization := Some(Http.Bearer(token.value));
        if profile.Ok? {
          user := Some(profile.value);
        }
      }
    }

    method HandleRedirect(authenticate: string -> Attempt<AuthResponse>)
      modifies this
      ensures Snapshot() == RedirectStep(old(Snapshot()), authenticate)
    {
      var url := location;
      var hasGithubCode := Contains(url, CODE_MARKER);
      if hasGithubCode {
        var parts := ExtractCode(url).value;
        location := parts.urlWithoutCode;
        SignIn(parts.githubCode, authenticate);
      }
    }
  }
}
