/**
 * Properties of the whitelist matcher and of the verdict the lookup handler
 * gives, stated over all records, rule lists and configurations.
 */
module GeoIPFilteringProperties {
  import opened Wrappers
  import opened Rules
  import opened GeoIPFiltering

  /** A null whitelist admits every resolved request, whatever the record says. */
  lemma NullWhitelistAdmitsEveryone(config: Configuration, remoteAddress: string, geoData: GeoRecord, dist: Distance)
    requires config.whitelistRules.None?
    ensures OnRequest(config, remoteAddress, Succeeded(geoData), dist) == DoNext
  {
  }

  /**
   * A whitelist that is present but empty matches nothing, so every resolved
   * request is rejected as INVALID; only a null whitelist admits everyone.
   */
  lemma EmptyWhitelistRejectsEveryone(config: Configuration, remoteAddress: string, geoData: GeoRecord, dist: Distance)
    requires config.whitelistRules == Some([])
    ensures !Compare(geoData, config, dist)
    ensures OnRequest(config, remoteAddress, Succeeded(geoData), dist) == FailWith(InvalidResult(remoteAddress, geoData))
  {
  }

  /** Matching a concatenation is matching either part. */
  lemma {:induction false} AnyMatchAppend(geoData: GeoRecord, front: seq<Rule>, back: seq<Rule>, dist: Distance)
    requires AllTyped(front) && AllTyped(back)
    ensures AllTyped(front + back)
    ensures AnyMatch(geoData, front + back, dist) == (AnyMatch(geoData, front, dist) || AnyMatch(geoData, back, dist))
    decreases |front|
  {
    if front != [] {
      assert (front + back)[1..] == front[1..] + back;
      AnyMatchAppend(geoData, front[1..], back, dist);
    } else {
      assert front + back == back;
    }
  }

  /** Appending a rule to a whitelist never turns an admission into a rejection. */
  lemma AddingRuleNeverRevokes(rules: seq<Rule>, rule: Rule, failOnUnknown: bool, remoteAddress: string,
                               geoData: GeoRecord, dist: Distance)
    requires AllTyped(rules) && rule.GetType().Some?
    requires OnRequest(Configuration(failOnUnknown, Some(rules)), remoteAddress, Succeeded(geoData), dist) == DoNext
    ensures OnRequest(Configuration(failOnUnknown, Some(rules + [rule])), remoteAddress, Succeeded(geoData), dist) == DoNext
  {
    AnyMatchAppend(geoData, rules, [rule], dist);
  }

  /** The whitelist behaves as a set: reordering the rules does not change the answer. */
  lemma CompareIgnoresOrder(geoData: GeoRecord, rules: seq<Rule>, reordered: seq<Rule>, failOnUnknown: bool, dist: Distance)
    requires AllTyped(rules) && multiset(rules) == multiset(reordered)
    ensures AllTyped(reordered)
    ensures Compare(geoData, Configuration(failOnUnknown, Some(rules)), dist)
            == Compare(geoData, Configuration(failOnUnknown, Some(reordered)), dist)
  {
    forall j | 0 <= j < |reordered|
      ensures exists i :: 0 <= i < |rules| && rules[i] == reordered[j]
    {
      assert reordered[j] in multiset(reordered);
    }
    forall i | 0 <= i < |rules|
      ensures exists j :: 0 <= j < |reordered| && reordered[j] == rules[i]
    {
      assert rules[i] in multiset(rules);
    }
  }

  /** On a resolved record and a present whitelist, the request passes exactly when some rule matches it. */
  lemma AdmittedIffSomeRuleMatches(rules: seq<Rule>, failOnUnknown: bool, remoteAddress: string,
                                   geoData: GeoRecord, dist: Distance)
    requires AllTyped(rules)
    ensures OnRequest(Configuration(failOnUnknown, Some(rules)), remoteAddress, Succeeded(geoData), dist) == DoNext
            <==> exists i :: 0 <= i < |rules| && RuleMatches(geoData, rules[i], dist)
  {
  }

  /** When the lookup fails, the rules are not consulted: failOnUnknown alone decides. */
  lemma FailedLookupIgnoresRules(config: Configuration, remoteAddress: string, dist: Distance)
    ensures OnRequest(config, remoteAddress, Failed, dist) == DoNext <==> !config.failOnUnknown
    ensures OnRequest(config, remoteAddress, Failed, dist)
            == OnRequest(Configuration(config.failOnUnknown, None), remoteAddress, Failed, dist)
  {
  }

  /**
   * Every rejection is a 403 with the fixed message; its key tells a failed
   * lookup (UNKNOWN, context: the remote address only) from an unmatched
   * record (INVALID, context: the address and five fields of the record).
   */
  lemma RejectionShape(config: Configuration, remoteAddress: string, message: LookupResult, dist: Distance)
    requires message.Succeeded? ==> WellTyped(config)
    ensures var v := OnRequest(config, remoteAddress, message, dist);
            v.FailWith? ==>
              && v.result.statusCode == FORBIDDEN_403
              && v.result.message == NOT_ALLOWED
              && (v.result.key == GEOIP_FILTERING_UNKNOWN <==> message.Failed?)
              && (v.result.key == GEOIP_FILTERING_INVALID <==> message.Succeeded?)
              && v.result.parameters["remote_address"] == Some(remoteAddress)
              && v.result.parameters.Keys
                 == if message.Failed? then {"remote_address"}
                    else {"remote_address", "country_iso_code", "country_name", "region_name", "city_name", "timezone"}
  {
  }

  /** The INVALID context copies the record's descriptive fields verbatim, absent ones included. */
  lemma InvalidContextCopiesRecord(config: Configuration, remoteAddress: string, geoData: GeoRecord, dist: Distance)
    requires WellTyped(config)
    ensures var v := OnRequest(config, remoteAddress, Succeeded(geoData), dist);
            v.FailWith? ==>
              && v.result.parameters["country_iso_code"] == geoData.countryIsoCode
              && v.result.parameters["country_name"] == geoData.countryName
              && v.result.parameters["region_name"] == geoData.regionName
              && v.result.parameters["city_name"] == geoData.cityName
              && v.result.parameters["timezone"] == geoData.timezone
  {
  }

  /** A DISTANCE rule does not match a record lying exactly at its threshold. */
  lemma DistanceAtThresholdDoesNotMatch(geoData: GeoRecord, rule: Rule, dist: Distance)
    requires rule.GetType() == Some(DISTANCE) && geoData.lat.Some? && geoData.lon.Some?
    requires dist(rule.GetLatitude(), geoData.lat.value, rule.GetLongitude(), geoData.lon.value) == rule.GetDistance() as real
    ensures !RuleMatches(geoData, rule, dist)
  {
  }

  /**
   * Only the fields of its own kind decide a rule: a COUNTRY rule ignores the
   * coordinates and threshold, a DISTANCE rule ignores the country.
   */
  lemma RuleMatchesIgnoresOtherFields(geoData: GeoRecord, a: Rule, b: Rule, dist: Distance)
    requires a.GetType().Some? && a.GetType() == b.GetType()
    requires a.GetType() == Some(COUNTRY) ==> a.GetCountry() == b.GetCountry()
    requires a.GetType() == Some(DISTANCE) ==>
               a.GetLatitude() == b.GetLatitude() && a.GetLongitude() == b.GetLongitude() &&
               a.GetDistance() == b.GetDistance()
    ensures RuleMatches(geoData, a, dist) == RuleMatches(geoData, b, dist)
  {
  }

  /**
   * A whitelist of one COUNTRY rule for "FR", built through the setters:
   * a French record passes, a German one is rejected as INVALID, and an
   * unresolved address is rejected as UNKNOWN under failOnUnknown.
   */
  method CountryWhitelistScenario(dist: Distance) returns (french: Verdict, german: Verdict, unknown: Verdict)
    ensures french == DoNext
    ensures german.FailWith? && german.result.key == GEOIP_FILTERING_INVALID
    ensures "country_iso_code" in german.result.parameters && german.result.parameters["country_iso_code"] == Some("DE")
    ensures unknown == FailWith(PolicyResult(GEOIP_FILTERING_UNKNOWN, 403, NOT_ALLOWED,
                                             map["remote_address" := Some("203.0.113.5")]))
  {
    var rule := new Rule();
    rule.SetType(Some(COUNTRY));
    rule.SetCountry(Some("FR"));
    var config := Configuration(true, Some([rule]));
    var none := GeoRecord(None, None, None, None, None, None, None);
    french := OnRequest(config, "203.0.113.5", Succeeded(none.(countryIsoCode := Some("FR"))), dist);
    german := OnRequest(config, "203.0.113.5", Succeeded(none.(countryIsoCode := Some("DE"))), dist);
    unknown := OnRequest(config, "203.0.113.5", Failed, dist);
  }
}
