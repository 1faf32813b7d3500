/** Visibility preferences: an environment variable parsed as a boolean
    overrides a theme default. */
module Preference {
  import opened Wrappers

  /** The process environment: variable name to value, set variables only. */
  type Env = map<string, string>

  const K8sShowCluster: string := "K8S_SHOW_CLUSTER"
  const K8sShowContext: string := "K8S_SHOW_CONTEXT"
  const K8sShowNamespace: string := "K8S_SHOW_NAMESPACE"
  const K8sShowUser: string := "K8S_SHOW_USER"

  /** The literals Go's `strconv.ParseBool` accepts, by the value they denote. */
  const TrueLiterals: set<string> := {"1", "t", "T", "TRUE", "true", "True"}
  const FalseLiterals: set<string> := {"0", "f", "F", "FALSE", "false", "False"}

  /** `os.Getenv`: the value of a set variable, else the empty string. */
  function Getenv(env: Env, key: string): string
  {
    if key in env then env[key] else ""
  }

  /** `strconv.ParseBool`: None stands for its error. */
  function ParseBool(s: string): (r: Option<bool>)
    ensures r == Some(true) <==> s in TrueLiterals
    ensures r == Some(false) <==> s in FalseLiterals
    ensures r == None <==> s !in TrueLiterals + FalseLiterals
  {
    if s == "1" || s == "t" || s == "T" || s == "TRUE" || s == "true" || s == "True" then Some(true)
    else if s == "0" || s == "f" || s == "F" || s == "FALSE" || s == "false" || s == "False" then Some(false)
    else None
  }

  /** `getPreference(key, fallback)`: a set variable that parses as a
      boolean decides; otherwise the fallback. */
  function GetPreference(env: Env, key: string, fallback: bool): (b: bool)
    ensures key !in env ==> b == fallback
    ensures key in env && ParseBool(env[key]).Some? ==> b == ParseBool(env[key]).value
    ensures key in env && ParseBool(env[key]).None? ==> b == fallback
  {
    if key in env then ParseBool(env[key]).GetOr(fallback) else fallback
  }

  /** The preference in terms of the literals: a set variable holding a
      true literal gives true and one holding a false literal gives false,
      whatever the fallback; an unset variable or any other value gives
      exactly the fallback. */
  lemma GetPreferenceLiterals(env: Env, key: string, fallback: bool)
    ensures key in env && env[key] in TrueLiterals ==> GetPreference(env, key, fallback)
    ensures key in env && env[key] in FalseLiterals ==> !GetPreference(env, key, fallback)
    ensures key !in env || env[key] !in TrueLiterals + FalseLiterals ==> GetPreference(env, key, fallback) == fallback
  {
  }
}
