# GeoIP filtering policy: rule matching and verdicts

A Dafny model of the core of the Gravitee GeoIP filtering policy. When a
request arrives, the policy asks a geolocation service about the caller's
remote address. The reply handler then decides:

- the lookup failed: reject with `GEOIP_FILTERING_UNKNOWN` when
  `failOnUnknown` is set, otherwise let the request through;
- the lookup succeeded: let the request through when the record satisfies the
  whitelist, otherwise reject with `GEOIP_FILTERING_INVALID` and a context
  copied from the record.

A record satisfies the whitelist when the whitelist is null, or when at least
one rule matches. A COUNTRY rule matches when the record's
`country_iso_code` is present and equal to the rule's country. A DISTANCE
rule matches when both `lat` and `lon` are present and the haversine
distance from the rule's point is strictly below the rule's threshold in
metres.

Files:

- `wrappers.dfy`: module `Wrappers`, the `Option` type that stands for Java's nullable references.
- `rule.dfy`: module `Rules`, the mutable `Rule` bean as a class with getter functions and setter methods.
- `policy.dfy`: module `GeoIPFiltering`, with the matcher (`CompareCountry`, `CompareDistance`, `RuleMatches`, `AnyMatch`, `Compare`) and the reply handler (`OnRequest`), all as functions.
- `properties.dfy`: module `GeoIPFilteringProperties`, lemmas relating these over all inputs, and one client of the setters.

The code and the policy's design disagree on the empty whitelist. The
design calls an empty or absent rule set "allow unconditionally". In the
code, only a null list short-circuits to `true`
(GeoIPFilteringPolicy.java lines 99 and 115). A present but empty list goes
through `anyMatch`, which yields `false`. The model follows the code:
`EmptyWhitelistRejectsEveryone` proves that an empty list rejects every
resolved request.

The design also describes the rule as a two-variant value. The code has a
mutable bean, and a `switch` with a fall-through `return false`; the model
follows the code here too.

## Model

| member | source | states |
|---|---|---|
| Rules.Rule.constructor | src/main/java/io/gravitee/policy/geoipfiltering/configuration/Rule.java:24-32 | a fresh rule has null type and country, and zero latitude, longitude and distance |
| Rules.Rule.SetType | src/main/java/io/gravitee/policy/geoipfiltering/configuration/Rule.java:34-40 | afterwards `GetType` returns the value passed; the other four getters return what they returned before |
| Rules.Rule.SetCountry | src/main/java/io/gravitee/policy/geoipfiltering/configuration/Rule.java:42-48 | afterwards `GetCountry` returns the value passed, null included; the other getters are unchanged |
| Rules.Rule.SetLatitude | src/main/java/io/gravitee/policy/geoipfiltering/configuration/Rule.java:50-56 | afterwards `GetLatitude` returns the value passed; the other getters are unchanged |
| Rules.Rule.SetLongitude | src/main/java/io/gravitee/policy/geoipfiltering/configuration/Rule.java:58-64 | afterwards `GetLongitude` returns the value passed; the other getters are unchanged |
| Rules.Rule.SetDistance | src/main/java/io/gravitee/policy/geoipfiltering/configuration/Rule.java:66-72 | afterwards `GetDistance` returns the `long` passed; the other getters are unchanged |
| GeoIPFiltering.CompareCountry | src/main/java/io/gravitee/policy/geoipfiltering/GeoIPFilteringPolicy.java:118-122 | matches iff the record's ISO code is present and exactly equal to the rule's country; an absent code or a null rule country never matches |
| GeoIPFiltering.CompareDistance | src/main/java/io/gravitee/policy/geoipfiltering/GeoIPFilteringPolicy.java:124-138 | never matches without both `lat` and `lon`; otherwise matches iff the distance from the rule's point is strictly below the rule's threshold |
| GeoIPFiltering.RuleMatches | src/main/java/io/gravitee/policy/geoipfiltering/GeoIPFilteringPolicy.java:100-111 | a COUNTRY rule matches as `CompareCountry` says, a DISTANCE rule as `CompareDistance` says, and a rule of any other type never matches |
| GeoIPFiltering.AnyMatch | src/main/java/io/gravitee/policy/geoipfiltering/GeoIPFilteringPolicy.java:100-112 | true iff some rule of the list matches the record; false on the empty list |
| GeoIPFiltering.Compare | src/main/java/io/gravitee/policy/geoipfiltering/GeoIPFilteringPolicy.java:98-116 | a null whitelist admits every record; a present one admits exactly the records some rule matches |
| GeoIPFiltering.OnRequest | src/main/java/io/gravitee/policy/geoipfiltering/GeoIPFilteringPolicy.java:59-93 | lookup failure gives the UNKNOWN rejection under `failOnUnknown` and continues otherwise; on success, continue iff `Compare` holds, else the INVALID rejection |
| GeoIPFilteringProperties.NullWhitelistAdmitsEveryone | src/main/java/io/gravitee/policy/geoipfiltering/GeoIPFilteringPolicy.java:98-99 | with a null whitelist every resolved request continues |
| GeoIPFilteringProperties.EmptyWhitelistRejectsEveryone | src/main/java/io/gravitee/policy/geoipfiltering/GeoIPFilteringPolicy.java:99-100 | with a present, empty whitelist nothing matches and every resolved request is rejected as INVALID |
| GeoIPFilteringProperties.AnyMatchAppend | src/main/java/io/gravitee/policy/geoipfiltering/GeoIPFilteringPolicy.java:100-112 | matching a concatenation of rule lists is matching either part |
| GeoIPFilteringProperties.AddingRuleNeverRevokes | src/main/java/io/gravitee/policy/geoipfiltering/GeoIPFilteringPolicy.java:100-112 | appending a rule to a whitelist never turns a continue into a rejection |
| GeoIPFilteringProperties.CompareIgnoresOrder | src/main/java/io/gravitee/policy/geoipfiltering/GeoIPFilteringPolicy.java:100-112 | two whitelists holding the same rules in any order give the same answer |
| GeoIPFilteringProperties.AdmittedIffSomeRuleMatches | src/main/java/io/gravitee/policy/geoipfiltering/GeoIPFilteringPolicy.java:72-79 | with a present whitelist, a resolved request continues iff some rule matches its record |
| GeoIPFilteringProperties.FailedLookupIgnoresRules | src/main/java/io/gravitee/policy/geoipfiltering/GeoIPFilteringPolicy.java:60-71 | on lookup failure the verdict is continue iff `failOnUnknown` is off, whatever the whitelist |
| GeoIPFilteringProperties.RejectionShape | src/main/java/io/gravitee/policy/geoipfiltering/GeoIPFilteringPolicy.java:60-92 | every rejection is a 403 with the fixed message; its key is UNKNOWN iff the lookup failed and INVALID iff it succeeded; the context holds only `remote_address` for UNKNOWN and the address plus five record fields for INVALID |
| GeoIPFilteringProperties.InvalidContextCopiesRecord | src/main/java/io/gravitee/policy/geoipfiltering/GeoIPFilteringPolicy.java:80-91 | the INVALID context carries the record's ISO code, country, region, city and timezone verbatim, absent ones as null |
| GeoIPFilteringProperties.DistanceAtThresholdDoesNotMatch | src/main/java/io/gravitee/policy/geoipfiltering/GeoIPFilteringPolicy.java:135-137 | a DISTANCE rule does not match a record whose distance equals its threshold |
| GeoIPFilteringProperties.RuleMatchesIgnoresOtherFields | src/main/java/io/gravitee/policy/geoipfiltering/GeoIPFilteringPolicy.java:103-137 | a COUNTRY rule is decided by its country alone, a DISTANCE rule by its point and threshold alone |
| GeoIPFilteringProperties.CountryWhitelistScenario | src/main/java/io/gravitee/policy/geoipfiltering/configuration/Rule.java:34-48 | a rule configured through the setters as COUNTRY "FR" admits a French record, rejects a German one as INVALID, and an unresolved address is rejected as UNKNOWN |

## Left out

- The haversine body (GeoIPFilteringPolicy.java lines 140-159) is floating-point trigonometry. Every matcher takes the distance as a function parameter `dist`, called with the source's argument order (rule latitude, record latitude, rule longitude, record longitude). Nothing is assumed about it: no symmetry, no zero at the same point.
- Floating point: latitudes, longitudes and distances are mathematical reals. NaN, infinities and rounding are not modelled. In particular `distance < rule.getDistance()` promotes the `long` to a `double`, which rounds above 2^53; the model compares exactly.
- The event-bus request (lines 55-57) is asynchronous I/O. The lookup outcome is an input `LookupResult` (failed, or succeeded with a record), and the remote address is an input string.
- The gateway API (`PolicyChain`, `PolicyResult`, `Maps`, `HttpStatusCode`) and the JSON accessors are foreign code. They are replaced by the `Verdict` and `PolicyResult` datatypes and by `GeoRecord` with optional fields. A JSON value of the wrong type (a `ClassCastException` in `getString`/`getDouble`) is not modelled.
- GeoIPFilteringPolicyConfiguration.java and RuleType.java are not part of this model. The configuration is reduced to the two accessors used, `isFailOnUnknown` and `getWhitelistRules`. The rule types are the two constants the switch names, plus `Other` for any further constant.
- GeoIPFiltering.RuleMatches: requires a non-null rule type. The source's `switch` throws a `NullPointerException` on a null type; that exception is not modelled. `AnyMatch`, `Compare` and `OnRequest` therefore require every rule of the whitelist to be typed. This is slightly stronger than the source needs, because `anyMatch` stops at the first match and never reaches an untyped rule after it.
- A null reply body is not modelled: a successful lookup always carries a record. With a null body the source's `compareCountry` answers false but `compareDistance` throws.
- Request cancellation while the lookup is pending has no defined behaviour in the source and is not modelled.
