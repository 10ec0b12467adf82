/**
 * The test helper that reads a boolean switch from the environment. The
 * process environment is passed in as a map from variable names to values.
 */
module TestUtils {
  import opened Wrappers

  /** `os.environ.get(name)`: the value of an environment variable, if set. */
  function EnvGet(env: map<string, string>, name: string): (r: Option<string>)
    ensures r.Some? <==> name in env
    ensures r.Some? ==> r.value == env[name]
  {
    if name in env then Some(env[name]) else None
  }

  /**
   * `Utils.get_bool_env_setting`: the switch is on exactly when the variable
   * is set to the string `"1"`; an unset variable and every other value,
   * such as `"0"`, `"true"` or `""`, leave it off.
   */
  function GetBoolEnvSetting(env: map<string, string>, name: string): (r: bool)
    ensures r <==> name in env && env[name] == "1"
  {
    EnvGet(env, name) == Some("1")
  }

  /** An unset variable leaves the switch off; setting it turns the switch on exactly for `"1"`. */
  lemma UnsetIsOff(env: map<string, string>, name: string, value: string)
    requires name !in env
    ensures !GetBoolEnvSetting(env, name)
    ensures GetBoolEnvSetting(env[name := value], name) <==> value == "1"
  {
  }

  /** Only the variable asked about matters: changing or removing any other variable does not change the answer. */
  lemma OnlyTheNamedVariableMatters(env: map<string, string>, name: string, other: string, value: string)
    requires other != name
    ensures GetBoolEnvSetting(env[other := value], name) == GetBoolEnvSetting(env, name)
    ensures GetBoolEnvSetting(env - {other}, name) == GetBoolEnvSetting(env, name)
  {
  }
}
