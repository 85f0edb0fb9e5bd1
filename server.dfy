/** The application's own settings: the rate limit on `/api/` and the CORS
    origin check. The middleware libraries themselves are not modelled. */
module Server {
  import opened Wrappers
  import opened Strings
  import opened Environment

  /** Fifteen minutes, in milliseconds. */
  const RateLimitWindowMs: nat := 15 * 60 * 1000
  const DefaultRateLimit: int := 100
  const DefaultOrigin: string := "http://localhost:5173"

  /** `parseInt(API_RATE_LIMIT) || 100`: NaN and 0 are falsy and fall back. */
  function RateLimitMax(setting: Option<string>): (m: int)
    ensures m != 0
    ensures setting.None? ==> m == DefaultRateLimit
    ensures setting.Some? && JsParseInt(setting.value).Some? && JsParseInt(setting.value).value != 0 ==>
      m == JsParseInt(setting.value).value
    ensures setting.Some? && (JsParseInt(setting.value).None? || JsParseInt(setting.value) == Some(0)) ==>
      m == DefaultRateLimit
  {
    if setting.None? then DefaultRateLimit
    else
      var n := JsParseInt(setting.value);
      if n.Some? && n.value != 0 then n.value else DefaultRateLimit
  }

  /** A positive limit written in decimal is read back as itself. */
  lemma RateLimitOfDecimal(n: nat)
    requires n > 0
    ensures RateLimitMax(Some(NatToDecimal(n))) == n
  {
    ParseIntOfDecimal(n);
  }

  /** `ALLOWED_ORIGINS?.split(',') || [default]`: a split array is never falsy, so
      only an unset variable falls back. */
  function AllowedOrigins(setting: Option<string>): (r: seq<string>)
    ensures |r| >= 1
    ensures setting.None? ==> r == [DefaultOrigin]
    ensures setting.Some? ==> Join(r, ',') == setting.value
  {
    if setting.None? then [DefaultOrigin]
    else
      JoinSplit(setting.value, ',');
      Split(setting.value, ',')
  }

  datatype CorsDecision = Allow | Reject(message: string)

  /** The `origin` callback: requests without an origin pass; others must be listed. */
  function CheckOrigin(setting: Option<string>, origin: Option<string>): (d: CorsDecision)
    ensures d == Allow <==> !Truthy(origin) || origin.value in AllowedOrigins(setting)
    ensures d.Reject? ==> d.message == "Not allowed by CORS"
  {
    if !Truthy(origin) then Allow
    else if origin.value in AllowedOrigins(setting) then Allow
    else Reject("Not allowed by CORS")
  }

  /** Configured as the comma-joined list of origins (none containing a comma),
      exactly the listed origins pass, besides requests without an origin. */
  lemma ListedOriginsPass(origins: seq<string>, origin: string)
    requires |origins| >= 1 && origin != ""
    requires forall k :: 0 <= k < |origins| ==> ',' !in origins[k]
    ensures CheckOrigin(Some(Join(origins, ',')), Some(origin)) == Allow <==> origin in origins
  {
    SplitJoin(origins, ',');
    assert AllowedOrigins(Some(Join(origins, ','))) == origins;
  }

  /** An empty ALLOWED_ORIGINS does not fall back to the default: it lists only the
      empty origin, so every request that sends an origin is rejected. */
  lemma EmptySettingRejectsEveryOrigin(origin: string)
    requires origin != ""
    ensures CheckOrigin(Some(""), Some(origin)).Reject?
  {
    assert AllowedOrigins(Some("")) == [""];
  }
}
