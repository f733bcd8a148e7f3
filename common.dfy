/** Values shared by the two front-ends: optional values, calls that may throw,
    JavaScript truthiness of a stored string, and the HTTP bearer header. */
module Wrappers {

  /** `null`/`undefined` versus a value. */
  datatype Option<+T> = None | Some(value: T)

  /** The outcome of an awaited call that may reject (or a call that may throw). */
  datatype Attempt<+T> = Ok(value: T) | Thrown

  /** A key-value store read: the value under `k`, or `null`. */
  function Lookup<V>(m: map<string, V>, k: string): (r: Option<V>)
    ensures r.Some? <==> k in m
    ensures r.Some? ==> r.value == m[k]
  {
    if k in m then Some(m[k]) else None
  }

  /** JavaScript truthiness of a `string | null` read from storage:
      `null` and the empty string are falsy, every other string is truthy. */
  predicate IsTruthyText(v: Option<string>)
    ensures IsTruthyText(v) ==> v.Some? && |v.value| > 0
    ensures v == None || v == Some("") ==> !IsTruthyText(v)
  {
    v.Some? && v.value != ""
  }
}

/** The shared HTTP client's `Authorization` header and the GitHub endpoint both
    front-ends send the user to. */
module Http {

  const GITHUB_AUTHORIZE_ENDPOINT := "https://github.com/login/oauth/authorize"

  /** The endpoint carries no query of its own: its text holds no `?`. */
  lemma EndpointHasNoQuery()
    ensures '?' !in GITHUB_AUTHORIZE_ENDPOINT
  {
    var e := GITHUB_AUTHORIZE_ENDPOINT;
    assert e == "https://github.com" + "/login/oauth/authorize";
    assert '?' !in "https://github.com";
    assert '?' !in "/login/oauth/authorize";
  }

  /** The scheme prefix of section 2.1 of RFC 6750 ("Bearer", one space, the token). */
  const BEARER_PREFIX := "Bearer "

  /** The header value both clients write for a session token. */
  function Bearer(token: string): (header: string)
    ensures |header| == |BEARER_PREFIX| + |token|
    ensures header[..|BEARER_PREFIX|] == BEARER_PREFIX
    ensures header[|BEARER_PREFIX|..] == token
  {
    BEARER_PREFIX + token
  }
}
