/** The market-data resource: the bar-chart request. */
module MarketData {
  import opened Wrappers
  import opened Text
  import opened Enums
  import opened BaseClient
  import opened ApiClient

  /** A calendar date and time of day, as a `datetime` holds it (time zone not considered). */
  datatype DateTime = DateTime(year: int, month: int, day: int, hour: int, minute: int, second: int)

  predicate InRange(d: DateTime)
  {
    && 1 <= d.year <= 9999 && 1 <= d.month <= 12 && 1 <= d.day <= 31
    && 0 <= d.hour < 24 && 0 <= d.minute < 60 && 0 <= d.second < 60
  }

  type BarDate = d: DateTime | InRange(d) witness DateTime(1970, 1, 1, 0, 0, 0)

  /** `strftime("%Y-%m-%dT%H:%M:%SZ")`: fixed-width zero-padded fields. */
  function FormatBarDate(d: BarDate): (s: string)
    ensures |s| == 20
    ensures s[4] == '-' && s[7] == '-' && s[10] == 'T' && s[13] == ':' && s[16] == ':' && s[19] == 'Z'
  {
    ZeroPad(d.year, 4) + "-" + ZeroPad(d.month, 2) + "-" + ZeroPad(d.day, 2)
      + "T" + ZeroPad(d.hour, 2) + ":" + ZeroPad(d.minute, 2) + ":" + ZeroPad(d.second, 2) + "Z"
  }

  /** A field of decimal digits, read as a number; anything else is `None`. */
  function ReadField(f: string): Option<nat>
  {
    if AllDigits(f) then Some(DecimalValue(f)) else None
  }

  /** A zero-padded number reads back as itself when it fits its width. */
  lemma ReadZeroPad(n: nat, width: nat)
    requires n < Pow10(width)
    ensures ReadField(ZeroPad(n, width)) == Some(n)
  {
    ZeroPadValue(n, width);
  }

  /** Reads a `YYYY-MM-DDTHH:MM:SSZ` timestamp back. */
  function ParseBarDate(s: string): Option<DateTime>
  {
    if |s| == 20 && s[4] == '-' && s[7] == '-' && s[10] == 'T' && s[13] == ':' && s[16] == ':' && s[19] == 'Z'
       && ReadField(s[0..4]).Some? && ReadField(s[5..7]).Some? && ReadField(s[8..10]).Some?
       && ReadField(s[11..13]).Some? && ReadField(s[14..16]).Some? && ReadField(s[17..19]).Some?
    then
      Some(DateTime(ReadField(s[0..4]).value, ReadField(s[5..7]).value, ReadField(s[8..10]).value,
                    ReadField(s[11..13]).value, ReadField(s[14..16]).value, ReadField(s[17..19]).value))
    else None
  }

  lemma PrefixOf(s: string, p: string, x: string)
    requires |p| + |x| <= |s| && s[..|p| + |x|] == p + x
    ensures s[..|p|] == p
  {
    assert s[..|p|] == (p + x)[..|p|];
  }

  lemma SliceOf(s: string, p: string, f: string)
    requires |p| + |f| <= |s| && s[..|p| + |f|] == p + f
    ensures s[|p|..|p| + |f|] == f
  {
    assert s[|p|..|p| + |f|] == (p + f)[|p|..];
  }

  /** Where the six fields sit in a `YYYY-MM-DDTHH:MM:SSZ` layout. */
  lemma FieldPositions(y: string, mo: string, da: string, h: string, mi: string, se: string)
    requires |y| == 4 && |mo| == 2 && |da| == 2 && |h| == 2 && |mi| == 2 && |se| == 2
    ensures var s := y + "-" + mo + "-" + da + "T" + h + ":" + mi + ":" + se + "Z";
            && s[0..4] == y && s[5..7] == mo && s[8..10] == da
            && s[11..13] == h && s[14..16] == mi && s[17..19] == se
  {
    var s := y + "-" + mo + "-" + da + "T" + h + ":" + mi + ":" + se + "Z";
    // the prefixes of the layout, one piece longer each
    var p2 := y + "-";
    var p3 := p2 + mo;
    var p4 := p3 + "-";
    var p5 := p4 + da;
    var p6 := p5 + "T";
    var p7 := p6 + h;
    var p8 := p7 + ":";
    var p9 := p8 + mi;
    var p10 := p9 + ":";
    var p11 := p10 + se;
    assert s[..|p11| + 1] == p11 + "Z";
    PrefixOf(s, p11, "Z");
    SliceOf(s, p10, se);
    PrefixOf(s, p10, se);
    PrefixOf(s, p9, ":");
    SliceOf(s, p8, mi);
    PrefixOf(s, p8, mi);
    PrefixOf(s, p7, ":");
    SliceOf(s, p6, h);
    PrefixOf(s, p6, h);
    PrefixOf(s, p5, "T");
    SliceOf(s, p4, da);
    PrefixOf(s, p4, da);
    PrefixOf(s, p3, "-");
    SliceOf(s, p2, mo);
    PrefixOf(s, p2, mo);
    PrefixOf(s, y, "-");
  }

  /** Each fixed-width field of the timestamp reads back as the date's component. */
  lemma TimestampFields(d: BarDate)
    ensures var s := FormatBarDate(d);
            && ReadField(s[0..4]) == Some(d.year) && ReadField(s[5..7]) == Some(d.month)
            && ReadField(s[8..10]) == Some(d.day) && ReadField(s[11..13]) == Some(d.hour)
            && ReadField(s[14..16]) == Some(d.minute) && ReadField(s[17..19]) == Some(d.second)
  {
    FieldPositions(ZeroPad(d.year, 4), ZeroPad(d.month, 2), ZeroPad(d.day, 2),
                   ZeroPad(d.hour, 2), ZeroPad(d.minute, 2), ZeroPad(d.second, 2));
    assert Pow10(4) == 10000 && Pow10(2) == 100;
    ReadZeroPad(d.year, 4);
    ReadZeroPad(d.month, 2);
    ReadZeroPad(d.day, 2);
    ReadZeroPad(d.hour, 2);
    ReadZeroPad(d.minute, 2);
    ReadZeroPad(d.second, 2);
  }

  /** The formatted timestamp determines the date: parsing it gives the date back. */
  lemma FormatBarDateRoundTrip(d: BarDate)
    ensures ParseBarDate(FormatBarDate(d)) == Some(d)
  {
    TimestampFields(d);
  }

  /** An optional date, formatted when present. */
  function FormatOptional(d: Option<BarDate>): (r: Option<string>)
    ensures r.Some? <==> d.Some?
    ensures d.Some? ==> r.value == FormatBarDate(d.value)
  {
    if d.Some? then Some(FormatBarDate(d.value)) else None
  }

  /** The only query parameters a bar request can carry. */
  const BarsParamNames: set<string> := {"interval", "unit", "barsback", "firstdate", "lastdate", "sessiontemplate"}

  function BarsEndpoint(symbol: string): string
  {
    "marketdata/barcharts/" + symbol
  }

  /** `params[key] = value` when a value is given; the map unchanged otherwise. */
  function WithOptional(params: Fields, key: string, value: Option<string>): (r: Fields)
    ensures r.Keys == if value.Some? then params.Keys + {key} else params.Keys
    ensures value.Some? ==> r[key] == value.value
    ensures forall k :: k in params && k != key ==> r[k] == params[k]
  {
    if value.Some? then params[key := value.value] else params
  }

  /** The interval and unit, then each optional parameter that has a value, in the order `bars` adds them. */
  function OptionalParams(interval: string, unit: string, barsback: Option<string>, firstdate: Option<string>,
                          lastdate: Option<string>, sessiontemplate: Option<string>): Fields
  {
    var base := map["interval" := interval, "unit" := unit];
    WithOptional(WithOptional(WithOptional(WithOptional(base, "barsback", barsback), "firstdate", firstdate),
                              "lastdate", lastdate), "sessiontemplate", sessiontemplate)
  }

  lemma OptionalParamsContents(interval: string, unit: string, barsback: Option<string>, firstdate: Option<string>,
                               lastdate: Option<string>, sessiontemplate: Option<string>)
    ensures var params := OptionalParams(interval, unit, barsback, firstdate, lastdate, sessiontemplate);
            && params.Keys <= BarsParamNames
            && "interval" in params && params["interval"] == interval
            && "unit" in params && params["unit"] == unit
            && ("barsback" in params <==> barsback.Some?) && (barsback.Some? ==> params["barsback"] == barsback.value)
            && ("firstdate" in params <==> firstdate.Some?) && (firstdate.Some? ==> params["firstdate"] == firstdate.value)
            && ("lastdate" in params <==> lastdate.Some?) && (lastdate.Some? ==> params["lastdate"] == lastdate.value)
            && ("sessiontemplate" in params <==> sessiontemplate.Some?)
            && (sessiontemplate.Some? ==> params["sessiontemplate"] == sessiontemplate.value)
  {
    var p1 := WithOptional(map["interval" := interval, "unit" := unit], "barsback", barsback);
    assert p1.Keys <= {"interval", "unit", "barsback"} && p1["interval"] == interval && p1["unit"] == unit;
    var p2 := WithOptional(p1, "firstdate", firstdate);
    assert p2.Keys <= {"interval", "unit", "barsback", "firstdate"} && p2["interval"] == interval && p2["unit"] == unit;
    var p3 := WithOptional(p2, "lastdate", lastdate);
    assert p3.Keys <= {"interval", "unit", "barsback", "firstdate", "lastdate"};
    assert p3["interval"] == interval && p3["unit"] == unit;
  }

  /** The bar request's query parameters. */
  function BarsParams(interval: int, unit: BarUnit, barsback: Option<int>, firstdate: Option<BarDate>,
                      lastdate: Option<BarDate>, sessiontemplate: Option<SessionTemplate>): (params: Fields)
    ensures "interval" in params && "unit" in params && params.Keys <= BarsParamNames
  {
    var barsbackValue := if barsback.Some? then Some(IntToDecimal(barsback.value)) else None;
    var templateValue := if sessiontemplate.Some? then Some(sessiontemplate.value.Value()) else None;
    OptionalParamsContents(IntToDecimal(interval), unit.Value(), barsbackValue,
                           FormatOptional(firstdate), FormatOptional(lastdate), templateValue);
    OptionalParams(IntToDecimal(interval), unit.Value(), barsbackValue,
                   FormatOptional(firstdate), FormatOptional(lastdate), templateValue)
  }

  /**
   * The bar request's parameters hold the interval and unit always, and each
   * optional argument exactly when it was given (a zero `barsback` included).
   */
  lemma BarsParamsContents(interval: int, unit: BarUnit, barsback: Option<int>, firstdate: Option<BarDate>,
                           lastdate: Option<BarDate>, sessiontemplate: Option<SessionTemplate>)
    ensures var params := BarsParams(interval, unit, barsback, firstdate, lastdate, sessiontemplate);
            && params.Keys <= BarsParamNames
            && "interval" in params && params["interval"] == IntToDecimal(interval)
            && "unit" in params && params["unit"] == unit.Value()
            && ("barsback" in params <==> barsback.Some?) && (barsback.Some? ==> params["barsback"] == IntToDecimal(barsback.value))
            && ("firstdate" in params <==> firstdate.Some?) && (firstdate.Some? ==> params["firstdate"] == FormatBarDate(firstdate.value))
            && ("lastdate" in params <==> lastdate.Some?) && (lastdate.Some? ==> params["lastdate"] == FormatBarDate(lastdate.value))
            && ("sessiontemplate" in params <==> sessiontemplate.Some?) && (sessiontemplate.Some? ==> params["sessiontemplate"] == sessiontemplate.value.Value())
  {
    OptionalParamsContents(IntToDecimal(interval), unit.Value(),
                           if barsback.Some? then Some(IntToDecimal(barsback.value)) else None,
                           FormatOptional(firstdate), FormatOptional(lastdate),
                           if sessiontemplate.Some? then Some(sessiontemplate.value.Value()) else None);
  }

  /** The parameter dictionary as `bars` fills it: one conditional insertion per optional argument. */
  method BuildBarsParams(interval: int, unit: BarUnit, barsback: Option<int>, firstdate: Option<BarDate>,
                         lastdate: Option<BarDate>, sessiontemplate: Option<SessionTemplate>)
    returns (params: Fields)
    ensures params == BarsParams(interval, unit, barsback, firstdate, lastdate, sessiontemplate)
  {
    params := map["interval" := IntToDecimal(interval), "unit" := unit.Value()];
    ghost var p0 := params;
    if barsback.Some? {
      params := params["barsback" := IntToDecimal(barsback.value)];
    }
    ghost var p1 := params;
    assert p1 == WithOptional(p0, "barsback", if barsback.Some? then Some(IntToDecimal(barsback.value)) else None);
    if firstdate.Some? {
      params := params["firstdate" := FormatBarDate(firstdate.value)];
    }
    ghost var p2 := params;
    assert p2 == WithOptional(p1, "firstdate", FormatOptional(firstdate));
    if lastdate.Some? {
      params := params["lastdate" := FormatBarDate(lastdate.value)];
    }
    ghost var p3 := params;
    assert p3 == WithOptional(p2, "lastdate", FormatOptional(lastdate));
    if sessiontemplate.Some? {
      params := params["sessiontemplate" := sessiontemplate.value.Value()];
    }
    assert params == WithOptional(p3, "sessiontemplate", if sessiontemplate.Some? then Some(sessiontemplate.value.Value()) else None);
  }

  /** The market-data resource, bound to the API client it issues requests through. */
  class MarketData {
    const client: SyncAPIClient

    constructor(client: SyncAPIClient)
      ensures this.client == client
    {
      this.client := client;
    }

    /** The bar-chart request: a GET to `marketdata/barcharts/<symbol>` carrying the bar parameters. */
    method Bars(symbol: string, interval: int := 1, unit: BarUnit := Daily, barsback: Option<int> := None,
                firstdate: Option<BarDate> := None, lastdate: Option<BarDate> := None,
                sessiontemplate: Option<SessionTemplate> := None)
      returns (call: RequestCall)
      ensures call.verb == "GET" && call.url == ApiUrl(client.baseUrl, BarsEndpoint(symbol)) && !call.followRedirects
      ensures call.kwargs == map["params" := BarsParams(interval, unit, barsback, firstdate, lastdate, sessiontemplate)]
    {
      var params := BuildBarsParams(interval, unit, barsback, firstdate, lastdate, sessiontemplate);
      BarsParamsContents(interval, unit, barsback, firstdate, lastdate, sessiontemplate);
      call := client.MakeRequest("GET", BarsEndpoint(symbol), params := Some(params));
      ParamsOnlyKwargs(params);
    }
  }
}
