/** The `advertisingAccountSchema` validator of src/types/advertising.ts: a zod
    object schema over the form an advertising account is created from. The
    input is an untyped JavaScript value; parsing either fails or yields the
    typed form, with keys the schema does not name dropped. */
module AdvertisingSchema {
  import opened Maybe

  /** The JavaScript values the schema can be handed. An object key whose value
      is `undefined` behaves as a missing key. */
  datatype Value =
    | Undefined
    | Null
    | Str(s: string)
    | Bool(b: bool)
    | Num(n: real)
    | Obj(fields: map<string, Value>)

  /** `v[key]`, with `undefined` for a missing key or a non-object. */
  function Field(v: Value, key: string): Value
  {
    if v.Obj? && key in v.fields then v.fields[key] else Undefined
  }

  // ---------------------------------------------------------------------------
  // Platforms

  datatype Platform =
    | FacebookAds | GoogleAds | GoogleAnalytics | GoogleTagManager | LinkedinAds | TwitterAds
    | TiktokAds | PinterestAds | SnapchatAds | BingAds | TradeDesk | Dv360

  /** The twelve names `z.enum` accepts, in the schema's order. */
  const PlatformNames: seq<string> := [
    "facebook_ads", "google_ads", "google_analytics", "google_tag_manager", "linkedin_ads",
    "twitter_ads", "tiktok_ads", "pinterest_ads", "snapchat_ads", "bing_ads", "trade_desk", "dv360"]

  function PlatformName(p: Platform): (r: string)
    ensures r in PlatformNames
  {
    match p
    case FacebookAds => "facebook_ads"
    case GoogleAds => "google_ads"
    case GoogleAnalytics => "google_analytics"
    case GoogleTagManager => "google_tag_manager"
    case LinkedinAds => "linkedin_ads"
    case TwitterAds => "twitter_ads"
    case TiktokAds => "tiktok_ads"
    case PinterestAds => "pinterest_ads"
    case SnapchatAds => "snapchat_ads"
    case BingAds => "bing_ads"
    case TradeDesk => "trade_desk"
    case Dv360 => "dv360"
  }

  /** `z.enum([...])`: the platform a listed name denotes, and nothing for any
      other string. */
  function PlatformFromName(s: string): (r: Option<Platform>)
    ensures r.Some? <==> s in PlatformNames
    ensures r.Some? ==> PlatformName(r.value) == s
  {
    if s == "facebook_ads" then Some(FacebookAds)
    else if s == "google_ads" then Some(GoogleAds)
    else if s == "google_analytics" then Some(GoogleAnalytics)
    else if s == "google_tag_manager" then Some(GoogleTagManager)
    else if s == "linkedin_ads" then Some(LinkedinAds)
    else if s == "twitter_ads" then Some(TwitterAds)
    else if s == "tiktok_ads" then Some(TiktokAds)
    else if s == "pinterest_ads" then Some(PinterestAds)
    else if s == "snapchat_ads" then Some(SnapchatAds)
    else if s == "bing_ads" then Some(BingAds)
    else if s == "trade_desk" then Some(TradeDesk)
    else if s == "dv360" then Some(Dv360)
    else None
  }

  /** Every platform's name parses back to that platform. */
  lemma PlatformRoundTrip(p: Platform)
    ensures PlatformFromName(PlatformName(p)) == Some(p)
  {
  }

  // ---------------------------------------------------------------------------
  // The typed form

  datatype Credentials = Credentials(
    pixelId: Option<string>, trackingId: Option<string>, containerId: Option<string>,
    conversionId: Option<string>, apiKey: Option<string>, clientId: Option<string>,
    clientSecret: Option<string>)

  datatype Settings = Settings(
    currency: string, timezone: string, autoTagging: Option<bool>,
    enhancedConversions: Option<bool>, crossDomainTracking: Option<bool>)

  /** What a successful parse returns. */
  datatype AccountForm = AccountForm(
    platform: Platform, name: string, accountId: string,
    credentials: Credentials, settings: Settings)

  // ---------------------------------------------------------------------------
  // The acceptance rule, field by field

  predicate IsString(v: Value) { v.Str? }
  predicate IsNonEmptyString(v: Value) { v.Str? && |v.s| >= 1 }
  predicate IsOptionalString(v: Value) { v.Undefined? || v.Str? }
  predicate IsOptionalBool(v: Value) { v.Undefined? || v.Bool? }
  predicate IsPlatform(v: Value) { v.Str? && v.s in PlatformNames }

  const CredentialKeys: seq<string> :=
    ["pixelId", "trackingId", "containerId", "conversionId", "apiKey", "clientId", "clientSecret"]

  /** The credentials object: every one of the seven keys optional. */
  predicate ValidCredentials(v: Value)
  {
    v.Obj? && forall k | k in CredentialKeys :: IsOptionalString(Field(v, k))
  }

  /** The settings object: currency and timezone required, three optional flags. */
  predicate ValidSettings(v: Value)
  {
    v.Obj?
    && IsString(Field(v, "currency")) && IsString(Field(v, "timezone"))
    && IsOptionalBool(Field(v, "autoTagging"))
    && IsOptionalBool(Field(v, "enhancedConversions"))
    && IsOptionalBool(Field(v, "crossDomainTracking"))
  }

  /** Whether the schema accepts `v`. */
  predicate ValidAccount(v: Value)
  {
    v.Obj?
    && IsPlatform(Field(v, "platform"))
    && IsNonEmptyString(Field(v, "name"))
    && IsNonEmptyString(Field(v, "accountId"))
    && ValidCredentials(Field(v, "credentials"))
    && ValidSettings(Field(v, "settings"))
  }

  // ---------------------------------------------------------------------------
  // Parsing

  function OptionalString(v: Value): (r: Option<Option<string>>)
    ensures r.Some? <==> IsOptionalString(v)
  {
    match v
    case Undefined => Some(None)
    case Str(s) => Some(Some(s))
    case _ => None
  }

  function OptionalBool(v: Value): (r: Option<Option<bool>>)
    ensures r.Some? <==> IsOptionalBool(v)
  {
    match v
    case Undefined => Some(None)
    case Bool(b) => Some(Some(b))
    case _ => None
  }

  function ParseCredentials(v: Value): (r: Option<Credentials>)
    ensures r.Some? <==> ValidCredentials(v)
  {
    if !v.Obj? then None
    else
      var pixel := OptionalString(Field(v, "pixelId"));
      var tracking := OptionalString(Field(v, "trackingId"));
      var container := OptionalString(Field(v, "containerId"));
      var conversion := OptionalString(Field(v, "conversionId"));
      var key := OptionalString(Field(v, "apiKey"));
      var client := OptionalString(Field(v, "clientId"));
      var secret := OptionalString(Field(v, "clientSecret"));
      if pixel.Some? && tracking.Some? && container.Some? && conversion.Some?
         && key.Some? && client.Some? && secret.Some?
      then Some(Credentials(pixel.value, tracking.value, container.value, conversion.value,
                            key.value, client.value, secret.value))
      else None
  }

  function ParseSettings(v: Value): (r: Option<Settings>)
    ensures r.Some? <==> ValidSettings(v)
  {
    if !v.Obj? then None
    else
      var currency := Field(v, "currency");
      var timezone := Field(v, "timezone");
      var tagging := OptionalBool(Field(v, "autoTagging"));
      var enhanced := OptionalBool(Field(v, "enhancedConversions"));
      var crossDomain := OptionalBool(Field(v, "crossDomainTracking"));
      if currency.Str? && timezone.Str? && tagging.Some? && enhanced.Some? && crossDomain.Some?
      then Some(Settings(currency.s, timezone.s, tagging.value, enhanced.value, crossDomain.value))
      else None
  }

  /** `advertisingAccountSchema.parse(v)`: the typed form when `v` is accepted,
      nothing (a thrown validation error) otherwise. */
  function Parse(v: Value): (r: Option<AccountForm>)
    ensures r.Some? <==> ValidAccount(v)
    ensures r.Some? ==> PlatformName(r.value.platform) == Field(v, "platform").s
    ensures r.Some? ==> Str(r.value.name) == Field(v, "name") && Str(r.value.accountId) == Field(v, "accountId")
  {
    if !v.Obj? then None
    else
      var platform := Field(v, "platform");
      var name := Field(v, "name");
      var accountId := Field(v, "accountId");
      var credentials := ParseCredentials(Field(v, "credentials"));
      var settings := ParseSettings(Field(v, "settings"));
      if platform.Str? && PlatformFromName(platform.s).Some?
         && IsNonEmptyString(name) && IsNonEmptyString(accountId)
         && credentials.Some? && settings.Some?
      then Some(AccountForm(PlatformFromName(platform.s).value, name.s, accountId.s,
                            credentials.value, settings.value))
      else None
  }

  // ---------------------------------------------------------------------------
  // Encoding a form back into a value

  function OptionalStringValue(o: Option<string>): Value
  {
    match o
    case None => Undefined
    case Some(s) => Str(s)
  }

  function OptionalBoolValue(o: Option<bool>): Value
  {
    match o
    case None => Undefined
    case Some(b) => Bool(b)
  }

  function CredentialsValue(c: Credentials): Value
  {
    Obj(map["pixelId" := OptionalStringValue(c.pixelId),
            "trackingId" := OptionalStringValue(c.trackingId),
            "containerId" := OptionalStringValue(c.containerId),
            "conversionId" := OptionalStringValue(c.conversionId),
            "apiKey" := OptionalStringValue(c.apiKey),
            "clientId" := OptionalStringValue(c.clientId),
            "clientSecret" := OptionalStringValue(c.clientSecret)])
  }

  function SettingsValue(s: Settings): Value
  {
    Obj(map["currency" := Str(s.currency),
            "timezone" := Str(s.timezone),
            "autoTagging" := OptionalBoolValue(s.autoTagging),
            "enhancedConversions" := OptionalBoolValue(s.enhancedConversions),
            "crossDomainTracking" := OptionalBoolValue(s.crossDomainTracking)])
  }

  /** The plain object a typed form stands for. */
  function FormValue(f: AccountForm): Value
  {
    Obj(map["platform" := Str(PlatformName(f.platform)),
            "name" := Str(f.name),
            "accountId" := Str(f.accountId),
            "credentials" := CredentialsValue(f.credentials),
            "settings" := SettingsValue(f.settings)])
  }

  // ---------------------------------------------------------------------------
  // Properties

  /** Credentials always parse back from their encoding. */
  lemma {:induction false} CredentialsRoundTrip(c: Credentials)
    ensures ParseCredentials(CredentialsValue(c)) == Some(c)
  {
    var v := CredentialsValue(c);
    assert Field(v, "pixelId") == OptionalStringValue(c.pixelId);
    assert Field(v, "trackingId") == OptionalStringValue(c.trackingId);
    assert Field(v, "containerId") == OptionalStringValue(c.containerId);
    assert Field(v, "conversionId") == OptionalStringValue(c.conversionId);
    assert Field(v, "apiKey") == OptionalStringValue(c.apiKey);
    assert Field(v, "clientId") == OptionalStringValue(c.clientId);
    assert Field(v, "clientSecret") == OptionalStringValue(c.clientSecret);
  }

  /** Settings always parse back from their encoding. */
  lemma {:induction false} SettingsRoundTrip(s: Settings)
    ensures ParseSettings(SettingsValue(s)) == Some(s)
  {
    var v := SettingsValue(s);
    assert Field(v, "currency") == Str(s.currency);
    assert Field(v, "timezone") == Str(s.timezone);
    assert Field(v, "autoTagging") == OptionalBoolValue(s.autoTagging);
    assert Field(v, "enhancedConversions") == OptionalBoolValue(s.enhancedConversions);
    assert Field(v, "crossDomainTracking") == OptionalBoolValue(s.crossDomainTracking);
  }

  /** A form whose name and account id are non-empty parses back to itself. */
  lemma {:induction false} FormRoundTrip(f: AccountForm)
    requires |f.name| >= 1 && |f.accountId| >= 1
    ensures Parse(FormValue(f)) == Some(f)
  {
    var v := FormValue(f);
    assert Field(v, "platform") == Str(PlatformName(f.platform));
    assert Field(v, "name") == Str(f.name);
    assert Field(v, "accountId") == Str(f.accountId);
    assert Field(v, "credentials") == CredentialsValue(f.credentials);
    assert Field(v, "settings") == SettingsValue(f.settings);
    CredentialsRoundTrip(f.credentials);
    SettingsRoundTrip(f.settings);
    PlatformRoundTrip(f.platform);
  }

  /** A form with an empty name or an empty account id is rejected. */
  lemma {:induction false} EmptyNameRejected(f: AccountForm)
    requires |f.name| == 0 || |f.accountId| == 0
    ensures Parse(FormValue(f)).None?
  {
    var v := FormValue(f);
    assert Field(v, "name") == Str(f.name);
    assert Field(v, "accountId") == Str(f.accountId);
  }

  /** Parsing is idempotent: what a parse yields, encoded again, parses to the
      same form (keys the schema does not name are gone after the first parse). */
  lemma {:induction false} ParseIdempotent(v: Value)
    requires Parse(v).Some?
    ensures Parse(FormValue(Parse(v).value)) == Parse(v)
  {
    var f := Parse(v).value;
    assert Field(v, "name") == Str(f.name) && Field(v, "accountId") == Str(f.accountId);
    FormRoundTrip(f);
  }

  /** A credentials object with none of the seven keys is accepted. */
  lemma EmptyCredentialsAccepted()
    ensures ValidCredentials(Obj(map[]))
    ensures ParseCredentials(Obj(map[])) == Some(Credentials(None, None, None, None, None, None, None))
  {
  }

  /** Settings without a currency, or without a timezone, are rejected. */
  lemma SettingsNeedCurrencyAndTimezone(v: Value)
    requires !Field(v, "currency").Str? || !Field(v, "timezone").Str?
    ensures ParseSettings(v).None?
  {
  }

  /** The object the account modal starts from: no platform chosen (the empty
      string), empty name and account id, every credential the empty string,
      settings USD, UTC and the three flags off. */
  function InitialFormValue(): Value
  {
    Obj(map["platform" := Str(""),
            "name" := Str(""),
            "accountId" := Str(""),
            "credentials" := CredentialsValue(Credentials(Some(""), Some(""), Some(""), Some(""), Some(""), Some(""), Some(""))),
            "settings" := SettingsValue(Settings("USD", "UTC", Some(false), Some(false), Some(false)))])
  }

  /** The modal's starting object is rejected until a platform is picked. */
  lemma InitialFormRejected()
    ensures Parse(InitialFormValue()).None?
  {
    assert Field(InitialFormValue(), "platform") == Str("");
    assert "" !in PlatformNames;
  }
}
