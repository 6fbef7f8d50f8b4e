/** The process environment, as `os.getenv` reads it. */
module Environment {
  import opened Wrappers

  type Env = map<string, string>

  /** `os.getenv(key)`: the value, or None when the variable is absent. */
  function GetEnv(env: Env, key: string): Option<string> {
    if key in env then Some(env[key]) else None
  }

  /** `os.getenv(key, default)`: the default replaces only an ABSENT variable, not an empty one. */
  function GetEnvOr(env: Env, key: string, default: string): string {
    if key in env then env[key] else default
  }

  /** `if os.getenv(key)`: the variable is present and not the empty string. */
  predicate IsSet(env: Env, key: string) {
    key in env && env[key] != ""
  }
}
