/** The start-up check of the environment. Where the server would log and exit
    with status 1, the model returns the failure. */
module Validation {
  import opened Wrappers
  import opened Strings
  import opened Environment
  import opened Cashfree

  const RequiredEnvVars: seq<string> :=
    ["SUPABASE_URL", "SUPABASE_SERVICE_ROLE_KEY", "CASHFREE_APP_ID", "CASHFREE_SECRET_KEY"]

  /** The variables of `vars` that are unset or empty, in their original order. */
  function Unset(env: Env, vars: seq<string>): (m: seq<string>)
    ensures forall v :: v in m <==> v in vars && !IsSet(env, v)
    ensures |m| <= |vars|
  {
    if |vars| == 0 then []
    else (if IsSet(env, vars[0]) then [] else [vars[0]]) + Unset(env, vars[1..])
  }

  datatype EnvCheck = EnvOk | MissingVars(missing: seq<string>) | EnvFailure(message: string)

  function ValidateEnv(env: Env): (r: EnvCheck)
    ensures r == EnvOk <==>
      && (forall v :: v in RequiredEnvVars ==> IsSet(env, v))
      && (Equals(env, "CASHFREE_ENV", "SANDBOX") || Equals(env, "CASHFREE_ENV", "PRODUCTION"))
      && (Equals(env, "CASHFREE_ENV", "PRODUCTION") ==>
            IsSet(env, "CASHFREE_APP_ID_PROD") && IsSet(env, "CASHFREE_SECRET_KEY_PROD"))
    // the missing variables are reported first, and all of them at once
    ensures r.MissingVars? <==> exists v :: v in RequiredEnvVars && !IsSet(env, v)
    ensures r.MissingVars? ==> |r.missing| > 0 && forall v :: v in r.missing <==> v in RequiredEnvVars && !IsSet(env, v)
  {
    var missing := Unset(env, RequiredEnvVars);
    if |missing| > 0 then
      assert missing[0] in missing;
      MissingVars(missing)
    else if !(Equals(env, "CASHFREE_ENV", "SANDBOX") || Equals(env, "CASHFREE_ENV", "PRODUCTION")) then
      EnvFailure("CASHFREE_ENV must be either TEST or PRODUCTION")
    else if Equals(env, "CASHFREE_ENV", "PRODUCTION")
            && (!IsSet(env, "CASHFREE_APP_ID_PROD") || !IsSet(env, "CASHFREE_SECRET_KEY_PROD")) then
      EnvFailure("Production Cashfree credentials required when CASHFREE_ENV=PRODUCTION")
    else
      EnvOk
  }

  /** An environment that passes the check configures the gateway client, in the
      mode CASHFREE_ENV names. */
  lemma ValidatedEnvConfiguresGateway(env: Env)
    requires ValidateEnv(env) == EnvOk
    ensures NewCashfreeService(env).Success?
    ensures NewCashfreeService(env).value.isProduction <==> Equals(env, "CASHFREE_ENV", "PRODUCTION")
  {
    assert "CASHFREE_APP_ID" in RequiredEnvVars && "CASHFREE_SECRET_KEY" in RequiredEnvVars;
  }

  /** The client is built when its module is loaded, before the check runs, and it
      does not need the check: with CASHFREE_ENV unset and the sandbox keys present
      the client is configured in sandbox mode while the check fails. */
  lemma ClientDoesNotNeedTheCheck()
    ensures var env := map["CASHFREE_APP_ID" := "app", "CASHFREE_SECRET_KEY" := "secret"];
      && NewCashfreeService(env).Success? && !NewCashfreeService(env).value.isProduction
      && ValidateEnv(env).MissingVars?
  {
    var env := map["CASHFREE_APP_ID" := "app", "CASHFREE_SECRET_KEY" := "secret"];
    assert "SUPABASE_URL" in RequiredEnvVars && !IsSet(env, "SUPABASE_URL");
  }
}
