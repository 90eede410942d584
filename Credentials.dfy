/** Which API key becomes active on start-up. */
module Credentials {
  import opened Types

  /** The value the build puts in place of a missing environment key. */
  function Placeholder(): JsString { Literal("PLACEHOLDER_API_KEY") }

  /** A configured environment key is used when it is non-empty (JavaScript
      truthiness) and not the placeholder. */
  predicate EnvKeyUsable(env: Option<JsString>) {
    env.Some? && env.value != [] && env.value != Placeholder()
  }

  /** A stored key is used when it is present and non-empty. */
  predicate StoredKeyUsable(stored: Option<JsString>) {
    stored.Some? && stored.value != []
  }

  /** The key taken at start-up from the environment value `env` and the
      stored value `stored`; `None` means the key prompt must be shown. */
  function Resolve(env: Option<JsString>, stored: Option<JsString>): (r: Option<JsString>)
    ensures EnvKeyUsable(env) ==> r == env
    ensures !EnvKeyUsable(env) && StoredKeyUsable(stored) ==> r == stored
    ensures r.None? <==> !EnvKeyUsable(env) && !StoredKeyUsable(stored)
    ensures r.Some? ==> r.value != []
  {
    if EnvKeyUsable(env) then env
    else if StoredKeyUsable(stored) then stored
    else None
  }

  /** A key the resolution picks is the placeholder only if it was stored as
      such: the environment's placeholder is never adopted. */
  lemma ResolveNeverAdoptsEnvPlaceholder(stored: Option<JsString>)
    ensures Resolve(Some(Placeholder()), stored) == (if StoredKeyUsable(stored) then stored else None)
  {
  }
}
