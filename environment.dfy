/** `process.env`: a finite map from variable names to values; a name that is
    not in the map is unset. */
module Environment {
  import opened Wrappers
  import opened Strings

  type Env = map<string, string>

  function Lookup(env: Env, name: string): Option<string> {
    if name in env then Some(env[name]) else None
  }

  /** `!!process.env[name]`: set and non-empty. */
  predicate IsSet(env: Env, name: string) {
    Truthy(Lookup(env, name))
  }

  /** `process.env[name] === value` for a non-empty literal `value`. */
  predicate Equals(env: Env, name: string, value: string) {
    name in env && env[name] == value
  }
}
