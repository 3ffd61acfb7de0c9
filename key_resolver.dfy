/**
 * Resolution of the API key: the `--api-key` flag, then the `PYLON_API_KEY`
 * environment variable, then the stored key of the default workspace. Each
 * level is read for truthiness, so an empty string falls through to the
 * next. The environment and the stored key are parameters here: `env` is
 * the variable's value and `stored` is what `CredentialStore.ApiKey(None)`
 * returns.
 */
module KeyResolver {
  import opened Common
  import opened Errors

  /** The level a key was taken from. */
  datatype KeySource = FlagKey | EnvKey | StoredKey

  /** The first truthy level in precedence order, if any. */
  function SourceOf(flag: Option<string>, env: Option<string>, stored: Option<string>): (s: Option<KeySource>)
    ensures s == Some(FlagKey) <==> Truthy(flag)
    ensures s == Some(EnvKey) <==> !Truthy(flag) && Truthy(env)
    ensures s == Some(StoredKey) <==> !Truthy(flag) && !Truthy(env) && Truthy(stored)
  {
    if Truthy(flag) then Some(FlagKey)
    else if Truthy(env) then Some(EnvKey)
    else if Truthy(stored) then Some(StoredKey)
    else None
  }

  /** `resolveApiKey`. */
  function ResolveApiKey(flag: Option<string>, env: Option<string>, stored: Option<string>): (r: Result<string, PylonError>)
    ensures r.Err? <==> !Truthy(flag) && !Truthy(env) && !Truthy(stored)
    ensures r.Err? ==> r.error == AuthError
    ensures r.Ok? ==> r.value != ""
    ensures r.Ok? ==> Some(r.value) == flag || Some(r.value) == env || Some(r.value) == stored
    ensures r.Ok? ==> match SourceOf(flag, env, stored)
                      case Some(FlagKey) => r.value == flag.value
                      case Some(EnvKey) => r.value == env.value
                      case Some(StoredKey) => r.value == stored.value
                      case None => false
  {
    if Truthy(flag) then Ok(flag.value)
    else if Truthy(env) then Ok(env.value)
    else if Truthy(stored) then Ok(stored.value)
    else Err(AuthError)
  }

  /** A non-empty flag wins whatever the environment and the store hold. */
  lemma FlagWins(key: string, env: Option<string>, stored: Option<string>)
    requires key != ""
    ensures ResolveApiKey(Some(key), env, stored) == Ok(key)
  {
  }

  /** Without a flag, a non-empty environment key comes before the stored key. */
  lemma EnvBeforeStored(flag: Option<string>, key: string, stored: Option<string>)
    requires !Truthy(flag) && key != ""
    ensures ResolveApiKey(flag, Some(key), stored) == Ok(key)
  {
  }

  /** An empty string at any level is treated exactly as an absent one. */
  lemma EmptyFallsThrough(flag: Option<string>, env: Option<string>, stored: Option<string>)
    ensures ResolveApiKey(Some(""), env, stored) == ResolveApiKey(None, env, stored)
    ensures ResolveApiKey(flag, Some(""), stored) == ResolveApiKey(flag, None, stored)
    ensures ResolveApiKey(flag, env, Some("")) == ResolveApiKey(flag, env, None)
  {
  }
}
