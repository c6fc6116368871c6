/**
 * The request-time decision of the GeoIP filtering policy
 * (GeoIPFilteringPolicy.java): match the geolocation record of the caller
 * against the whitelist rules, and turn the outcome of the lookup into one
 * verdict for the policy chain.
 */
module GeoIPFiltering {
  import opened Wrappers
  import opened Rules

  const GEOIP_FILTERING_UNKNOWN: string := "GEOIP_FILTERING_UNKNOWN"
  const GEOIP_FILTERING_INVALID: string := "GEOIP_FILTERING_INVALID"
  const FORBIDDEN_403: int := 403
  const NOT_ALLOWED: string := "You're not allowed to access this resource"

  /** The JSON body the geolocation service answers with; every key may be missing. */
  datatype GeoRecord = GeoRecord(
    countryIsoCode: Option<string>,  // "country_iso_code"
    countryName: Option<string>,     // "country_name"
    regionName: Option<string>,      // "region_name"
    cityName: Option<string>,        // "city_name"
    timezone: Option<string>,        // "timezone"
    lat: Option<real>,               // "lat"
    lon: Option<real>)               // "lon"

  /** The two accessors of the policy configuration the policy uses. */
  datatype Configuration = Configuration(failOnUnknown: bool, whitelistRules: Option<seq<Rule>>)

  /** The outcome of the asynchronous lookup of the remote address. */
  datatype LookupResult = Failed | Succeeded(body: GeoRecord)

  /** A failure handed to the policy chain: key, HTTP status, message and context. */
  datatype PolicyResult = PolicyResult(key: string, statusCode: int, message: string, parameters: map<string, Option<string>>)

  /** The one effect of the lookup handler: carry on with the chain, or fail with a result. */
  datatype Verdict = DoNext | FailWith(result: PolicyResult)

  /**
   * The great-circle distance in metres, taking its arguments in the source's
   * order (lat1, lat2, lon1, lon2). The floating-point haversine body is not
   * modelled: every operation that needs it takes it as a parameter.
   */
  type Distance = (real, real, real, real) -> real

  /** The rules the matcher reads: the whitelist, or none when it is null. */
  function RulesOf(config: Configuration): seq<Rule>
  {
    if config.whitelistRules.Some? then config.whitelistRules.value else []
  }

  /** Every rule has a non-null type, so the `switch` on it does not throw. */
  predicate AllTyped(rules: seq<Rule>)
    reads rules
  {
    forall i :: 0 <= i < |rules| ==> rules[i].GetType().Some?
  }

  predicate WellTyped(config: Configuration)
    reads RulesOf(config)
  {
    AllTyped(RulesOf(config))
  }

  /** Java's `String.equals(Object)`: false against null. */
  predicate StringEquals(s: string, other: Option<string>)
  {
    other.Some? && other.value == s
  }

  /** A COUNTRY rule: the record's ISO code is present and equal, character for character, to the rule's country. */
  function CompareCountry(geoData: GeoRecord, rule: Rule): (r: bool)
    reads rule
    ensures geoData.countryIsoCode.None? ==> !r
    ensures rule.GetCountry().None? ==> !r
    ensures r <==> geoData.countryIsoCode.Some? && geoData.countryIsoCode == rule.GetCountry()
  {
    geoData.countryIsoCode.Some? && StringEquals(geoData.countryIsoCode.value, rule.GetCountry())
  }

  /** A DISTANCE rule: both coordinates present and the distance strictly below the rule's threshold. */
  function CompareDistance(geoData: GeoRecord, rule: Rule, dist: Distance): (r: bool)
    reads rule
    ensures geoData.lat.None? || geoData.lon.None? ==> !r
    ensures r <==> geoData.lat.Some? && geoData.lon.Some? &&
                   dist(rule.GetLatitude(), geoData.lat.value, rule.GetLongitude(), geoData.lon.value)
                     < rule.GetDistance() as real
  {
    if geoData.lat.None? || geoData.lon.None? then
      false
    else
      var reqLatitude := geoData.lat.value;
      var reqLongitude := geoData.lon.value;
      var d := dist(rule.GetLatitude(), reqLatitude, rule.GetLongitude(), reqLongitude);
      d < rule.GetDistance() as real
  }

  /** The predicate handed to `anyMatch`: dispatch on the rule's type. */
  function RuleMatches(geoData: GeoRecord, rule: Rule, dist: Distance): (r: bool)
    reads rule
    requires rule.GetType().Some?
    ensures r ==> rule.GetType() == Some(COUNTRY) || rule.GetType() == Some(DISTANCE)
    ensures rule.GetType() == Some(COUNTRY) ==> (r <==> CompareCountry(geoData, rule))
    ensures rule.GetType() == Some(DISTANCE) ==> (r <==> CompareDistance(geoData, rule, dist))
  {
    match rule.GetType().value
    case COUNTRY => CompareCountry(geoData, rule)
    case DISTANCE => CompareDistance(geoData, rule, dist)
    case Other(_) => false
  }

  /** `stream().anyMatch(...)`: the rules are tried from the first; the answer is true when one matches. */
  function AnyMatch(geoData: GeoRecord, rules: seq<Rule>, dist: Distance): (r: bool)
    reads rules
    requires AllTyped(rules)
    ensures r <==> exists i :: 0 <= i < |rules| && RuleMatches(geoData, rules[i], dist)
    decreases |rules|
  {
    if rules == [] then
      false
    else
      RuleMatches(geoData, rules[0], dist) || AnyMatch(geoData, rules[1..], dist)
  }

  /** A null whitelist admits every record; otherwise some rule must match. */
  function Compare(geoData: GeoRecord, config: Configuration, dist: Distance): (r: bool)
    reads RulesOf(config)
    requires WellTyped(config)
    ensures config.whitelistRules.None? ==> r
    ensures config.whitelistRules.Some? ==>
              (r <==> exists i :: 0 <= i < |config.whitelistRules.value| &&
                                  RuleMatches(geoData, config.whitelistRules.value[i], dist))
  {
    if config.whitelistRules.Some? then
      AnyMatch(geoData, config.whitelistRules.value, dist)
    else
      true
  }

  /** The failure for an address the lookup could not resolve. */
  function UnknownResult(remoteAddress: string): PolicyResult
  {
    PolicyResult(GEOIP_FILTERING_UNKNOWN, FORBIDDEN_403, NOT_ALLOWED,
                 map["remote_address" := Some(remoteAddress)])
  }

  /** The failure for a resolved record no rule admits; the record's fields are copied as they are, null included. */
  function InvalidResult(remoteAddress: string, geoData: GeoRecord): PolicyResult
  {
    PolicyResult(GEOIP_FILTERING_INVALID, FORBIDDEN_403, NOT_ALLOWED,
                 map["remote_address" := Some(remoteAddress),
                     "country_iso_code" := geoData.countryIsoCode,
                     "country_name" := geoData.countryName,
                     "region_name" := geoData.regionName,
                     "city_name" := geoData.cityName,
                     "timezone" := geoData.timezone])
  }

  /** The handler of the lookup reply: one verdict per lookup outcome. */
  function OnRequest(config: Configuration, remoteAddress: string, message: LookupResult, dist: Distance): (v: Verdict)
    reads RulesOf(config)
    requires message.Succeeded? ==> WellTyped(config)
    ensures message.Failed? && config.failOnUnknown ==> v == FailWith(UnknownResult(remoteAddress))
    ensures message.Failed? && !config.failOnUnknown ==> v == DoNext
    ensures message.Succeeded? ==> (v == DoNext <==> Compare(message.body, config, dist))
    ensures message.Succeeded? && v != DoNext ==> v == FailWith(InvalidResult(remoteAddress, message.body))
  {
    if message.Failed? then
      if config.failOnUnknown then FailWith(UnknownResult(remoteAddress)) else DoNext
    else
      var geoData := message.body;
      var matched := Compare(geoData, config, dist);
      if matched then DoNext else FailWith(InvalidResult(remoteAddress, geoData))
  }
}
