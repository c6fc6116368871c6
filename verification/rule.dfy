/**
 * A whitelist rule as the policy configuration holds it: a mutable bean with
 * five private fields and a getter/setter pair for each (configuration/Rule.java).
 */
module Rules {
  import opened Wrappers

  /**
   * The kinds of rule the filter knows. `COUNTRY` and `DISTANCE` are the two
   * constants the matcher switches on; `Other` stands for any further constant
   * the RuleType enum may declare (RuleType.java is not part of this model).
   */
  datatype RuleType = COUNTRY | DISTANCE | Other(name: string)

  /** Java's 64-bit signed `long`. */
  newtype Long = x: int | -0x8000_0000_0000_0000 <= x < 0x8000_0000_0000_0000

  class Rule {
    /** `null` (None) until `SetType` is called. */
    var ruleType: Option<RuleType>
    /** `null` (None) until `SetCountry` is called. */
    var country: Option<string>
    /** Degrees, a Java `double`. */
    var latitude: real
    /** Degrees, a Java `double`. */
    var longitude: real
    /** Metres, a Java `long`. */
    var distance: Long

    /** Fields without initialisers start at Java's defaults: null for references, zero for numbers. */
    constructor ()
      ensures GetType() == None && GetCountry() == None
      ensures GetLatitude() == 0.0 && GetLongitude() == 0.0 && GetDistance() == 0
    {
      ruleType := None;
      country := None;
      latitude := 0.0;
      longitude := 0.0;
      distance := 0;
    }

    function GetType(): Option<RuleType>
      reads this
    {
      ruleType
    }

    function GetCountry(): Option<string>
      reads this
    {
      country
    }

    function GetLatitude(): real
      reads this
    {
      latitude
    }

    function GetLongitude(): real
      reads this
    {
      longitude
    }

    function GetDistance(): Long
      reads this
    {
      distance
    }

    method SetType(t: Option<RuleType>)
      modifies this
      ensures GetType() == t
      ensures GetCountry() == old(GetCountry())
      ensures GetLatitude() == old(GetLatitude()) && GetLongitude() == old(GetLongitude())
      ensures GetDistance() == old(GetDistance())
    {
      ruleType := t;
    }

    method SetCountry(c: Option<string>)
      modifies this
      ensures GetCountry() == c
      ensures GetType() == old(GetType())
      ensures GetLatitude() == old(GetLatitude()) && GetLongitude() == old(GetLongitude())
      ensures GetDistance() == old(GetDistance())
    {
      country := c;
    }

    method SetLatitude(lat: real)
      modifies this
      ensures GetLatitude() == lat
      ensures GetType() == old(GetType()) && GetCountry() == old(GetCountry())
      ensures GetLongitude() == old(GetLongitude()) && GetDistance() == old(GetDistance())
    {
      latitude := lat;
    }

    method SetLongitude(lon: real)
      modifies this
      ensures GetLongitude() == lon
      ensures GetType() == old(GetType()) && GetCountry() == old(GetCountry())
      ensures GetLatitude() == old(GetLatitude()) && GetDistance() == old(GetDistance())
    {
      longitude := lon;
    }

    method SetDistance(d: Long)
      modifies this
      ensures GetDistance() == d
      ensures GetType() == old(GetType()) && GetCountry() == old(GetCountry())
      ensures GetLatitude() == old(GetLatitude()) && GetLongitude() == old(GetLongitude())
    {
      distance := d;
    }
  }
}
