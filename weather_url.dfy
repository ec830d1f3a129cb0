/** The request URL that the weather fetch issues to the forecast endpoint. */
module WeatherUrl {
  import opened Wrappers
  import opened Decimal

  const Endpoint := "http://api.weatherapi.com/v1/forecast.json"

  /** `dt` is appended only when it is truthy: present and not the empty string. */
  predicate DtGiven(dt: Option<string>) { dt.Some? && dt.value != "" }

  /** `hour` is appended only when it is truthy: present and not 0. */
  predicate HourGiven(hour: Option<int>) { hour.Some? && hour.value != 0 }

  /**
   * The URL as the store concatenates it: key, city and day count always,
   * `aqi=yes`, then `&dt=` and `&hour=` when given. Nothing is percent-encoded.
   */
  function ForecastUrl(key: string, city: string, days: int, dt: Option<string>, hour: Option<int>): (url: string)
    ensures Endpoint + "?key=" + key + "&q=" + city + "&days=" + IntToString(days) + "&aqi=yes" <= url
  {
    var base := Endpoint + "?key=" + key + "&q=" + city + "&days=" + IntToString(days) + "&aqi=yes";
    var withDate := if DtGiven(dt) then base + "&dt=" + dt.value else base;
    if HourGiven(hour) then withDate + "&hour=" + IntToString(hour.value) else withDate
  }

  /** A query parameter: its name and its (unencoded) value. */
  datatype Param = Param(name: string, value: string)

  /** One parameter as it appears in a query: `name=value`. */
  function Field(p: Param): string { p.name + "=" + p.value }

  /** The fields of `ps` joined by `&`, in order. */
  function Query(ps: seq<Param>): string
  {
    if ps == [] then ""
    else if |ps| == 1 then Field(ps[0])
    else Query(ps[..|ps| - 1]) + "&" + Field(ps[|ps| - 1])
  }

  /** The parameters the weather request carries, in the order the store writes them. */
  function ForecastParams(key: string, city: string, days: int, dt: Option<string>, hour: Option<int>): seq<Param>
  {
    FixedParams(key, city, days)
    + (if DtGiven(dt) then [Param("dt", dt.value)] else [])
    + (if HourGiven(hour) then [Param("hour", IntToString(hour.value))] else [])
  }

  function FixedParams(key: string, city: string, days: int): seq<Param>
  {
    [Param("key", key), Param("q", city), Param("days", IntToString(days)), Param("aqi", "yes")]
  }

  /** The value of the first parameter called `name`, if any. */
  function Lookup(ps: seq<Param>, name: string): Option<string>
  {
    if ps == [] then None
    else if ps[0].name == name then Some(ps[0].value)
    else Lookup(ps[1..], name)
  }

  lemma LookupAfterFixed(key: string, city: string, days: int, tail: seq<Param>, name: string)
    requires name != "key" && name != "q" && name != "days" && name != "aqi"
    ensures Lookup(FixedParams(key, city, days) + tail, name) == Lookup(tail, name)
  {
    var ps := FixedParams(key, city, days) + tail;
    assert Lookup(ps, name) == Lookup(ps[1..], name);
    assert Lookup(ps[1..], name) == Lookup(ps[2..], name) by { assert ps[1..][1..] == ps[2..]; }
    assert Lookup(ps[2..], name) == Lookup(ps[3..], name) by { assert ps[2..][1..] == ps[3..]; }
    assert Lookup(ps[3..], name) == Lookup(ps[4..], name) by { assert ps[3..][1..] == ps[4..]; }
    assert ps[4..] == tail;
  }

  /**
   * The request names the city, the day count and `aqi=yes`; it carries `dt` exactly
   * when the date is truthy and `hour` exactly when the hour is truthy, with their values.
   */
  lemma ForecastParamsCarry(key: string, city: string, days: int, dt: Option<string>, hour: Option<int>)
    ensures var ps := ForecastParams(key, city, days, dt, hour);
      && Lookup(ps, "q") == Some(city)
      && Lookup(ps, "days") == Some(IntToString(days))
      && Lookup(ps, "aqi") == Some("yes")
      && Lookup(ps, "dt") == (if DtGiven(dt) then Some(dt.value) else None)
      && Lookup(ps, "hour") == (if HourGiven(hour) then Some(IntToString(hour.value)) else None)
  {
    var fixed := FixedParams(key, city, days);
    var ps := ForecastParams(key, city, days, dt, hour);
    var tail := ps[4..];
    assert ps == fixed + tail;
    assert "days" != "key" && "days" != "q" && "aqi" != "key" && "aqi" != "q" && "aqi"[0] != "days"[0];
    assert Lookup(ps[1..], "days") == Lookup(ps[2..], "days") by { assert ps[1..][1..] == ps[2..]; }
    assert Lookup(ps[1..], "aqi") == Lookup(ps[2..], "aqi") by { assert ps[1..][1..] == ps[2..]; }
    assert Lookup(ps[2..], "aqi") == Lookup(ps[3..], "aqi") by { assert ps[2..][1..] == ps[3..]; }
    assert "dt" != "key" && "dt" != "q" && "dt" != "days" && "dt" != "aqi" && "dt" != "hour";
    assert "hour"[0] != "days"[0];
    assert "hour" != "key" && "hour" != "q" && "hour" != "days" && "hour" != "aqi";
    LookupAfterFixed(key, city, days, tail, "dt");
    LookupAfterFixed(key, city, days, tail, "hour");
    if DtGiven(dt) {
      assert tail[0] == Param("dt", dt.value);
      if HourGiven(hour) {
        assert tail[1..] == [Param("hour", IntToString(hour.value))];
      } else {
        assert tail[1..] == [];
      }
    } else if HourGiven(hour) {
      assert tail == [Param("hour", IntToString(hour.value))];
    } else {
      assert tail == [];
    }
  }

  lemma QueryAppend(prefix: string, ps: seq<Param>, p: Param)
    requires ps != []
    ensures prefix + Query(ps + [p]) == prefix + Query(ps) + "&" + Field(p)
  {
    assert (ps + [p])[..|ps|] == ps;
  }

  /** `u + "&name=" + v`, as the store writes it, is `u` followed by the field `name=v`. */
  lemma AppendField(u: string, lit: string, name: string, v: string)
    requires lit == "&" + name + "="
    ensures u + lit + v == u + "&" + Field(Param(name, v))
  {
  }

  lemma FixedUrl(key: string, city: string, days: int)
    ensures Endpoint + "?key=" + key + "&q=" + city + "&days=" + IntToString(days) + "&aqi=yes"
         == Endpoint + "?" + Query(FixedParams(key, city, days))
  {
    var p0, p1, p2, p3 := Param("key", key), Param("q", city), Param("days", IntToString(days)), Param("aqi", "yes");
    var prefix := Endpoint + "?";
    assert Endpoint + "?key=" + key == prefix + Query([p0]);
    AppendField(prefix + Query([p0]), "&q=", "q", city);
    QueryAppend(prefix, [p0], p1);
    assert [p0] + [p1] == [p0, p1];
    AppendField(prefix + Query([p0, p1]), "&days=", "days", IntToString(days));
    QueryAppend(prefix, [p0, p1], p2);
    assert [p0, p1] + [p2] == [p0, p1, p2];
    assert "&aqi=yes" == "&aqi=" + "yes";
    AppendField(prefix + Query([p0, p1, p2]), "&aqi=", "aqi", "yes");
    QueryAppend(prefix, [p0, p1, p2], p3);
    assert [p0, p1, p2] + [p3] == FixedParams(key, city, days);
  }

  /** The concatenated URL is the endpoint with exactly the parameter list above as its query. */
  lemma ForecastUrlIsQuery(key: string, city: string, days: int, dt: Option<string>, hour: Option<int>)
    ensures ForecastUrl(key, city, days, dt, hour) == Endpoint + "?" + Query(ForecastParams(key, city, days, dt, hour))
  {
    var prefix := Endpoint + "?";
    var fixed := FixedParams(key, city, days);
    FixedUrl(key, city, days);
    var withDate := if DtGiven(dt) then fixed + [Param("dt", dt.value)] else fixed;
    if DtGiven(dt) {
      AppendField(prefix + Query(fixed), "&dt=", "dt", dt.value);
      QueryAppend(prefix, fixed, Param("dt", dt.value));
    }
    if HourGiven(hour) {
      AppendField(prefix + Query(withDate), "&hour=", "hour", IntToString(hour.value));
      QueryAppend(prefix, withDate, Param("hour", IntToString(hour.value)));
      assert ForecastParams(key, city, days, dt, hour) == withDate + [Param("hour", IntToString(hour.value))];
    } else {
      assert ForecastParams(key, city, days, dt, hour) == withDate;
    }
  }

  /** Hour 0 is falsy, so asking for midnight gives the same URL as not asking for an hour. */
  lemma HourZeroOmitted(key: string, city: string, days: int, dt: Option<string>)
    ensures ForecastUrl(key, city, days, dt, Some(0)) == ForecastUrl(key, city, days, dt, None)
  {
  }

  /** An empty date string is falsy and is omitted like a missing one. */
  lemma EmptyDateOmitted(key: string, city: string, days: int, hour: Option<int>)
    ensures ForecastUrl(key, city, days, Some(""), hour) == ForecastUrl(key, city, days, None, hour)
  {
  }
}
