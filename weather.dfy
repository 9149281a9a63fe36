/** The weather tool provider: the current-weather and forecast tools. Each
    shapes a request to the weather API, checks the response code, and (for
    the forecast) groups the three-hourly samples into calendar days.

    The HTTP request is a parameter (`Fetcher`: `None` when the request fails
    or yields nothing); so are the text rendering of the current weather and of
    one forecast day (`None` when they raise). */
module Weather {
  import opened Values
  import opened DayRuns

  const MinDays := 1
  const MaxDays := 5

  /** The API reports every three hours: eight samples per day. */
  const SamplesPerDay := 8

  const MetricUnits := "metric"
  const Celsius := "°C"
  const Fahrenheit := "°F"
  const MetresPerSecond := "м/с"
  const MilesPerHour := "миль/ч"

  /** The message reported when an error response carries none. */
  const UnknownError := "Неизвестная ошибка"

  /** A request to the weather API: the endpoint and the query parameters the
      tool chooses (the API key and language are added by the transport). */
  datatype Request = Request(endpoint: string, params: map<string, Value>)

  /** What a tool returns, up to its wording. */
  datatype ServerReply =
    | NoData                                              // no (or an empty) response
    | ApiError(message: Value)                            // the response code rejected it
    | BadData                                             // processing the response raised
    | Weather(text: string)                               // the current-weather report
    | Forecast(city: Value, country: Value, days: seq<string>)  // one text per day

  type Fetcher = Request -> Option<map<string, Value>>
  type DayFormatter = (seq<Value>, string) -> Option<string>
  type WeatherRenderer = (map<string, Value>, string, string) -> Option<string>

  /** `min(max(days, 1), 5)` */
  function ClampDays(days: int): (r: int)
    ensures MinDays <= r <= MaxDays
    ensures MinDays <= days <= MaxDays ==> r == days
    ensures days < MinDays ==> r == MinDays
    ensures days > MaxDays ==> r == MaxDays
  {
    var atLeastOne := if days < MinDays then MinDays else days;
    if atLeastOne > MaxDays then MaxDays else atLeastOne
  }

  /** The temperature symbol: Celsius exactly for metric units. */
  function TempUnit(units: string): (r: string)
    ensures r == Celsius <==> units == MetricUnits
    ensures r == Fahrenheit <==> units != MetricUnits
  {
    if units == MetricUnits then Celsius else Fahrenheit
  }

  /** The wind-speed unit: metres per second exactly for metric units. */
  function WindUnit(units: string): (r: string)
    ensures r == MetresPerSecond <==> units == MetricUnits
    ensures r == MilesPerHour <==> units != MetricUnits
  {
    if units == MetricUnits then MetresPerSecond else MilesPerHour
  }

  function CurrentRequest(city: string, units: string): Request {
    Request("weather", map["q" := Str(city), "units" := Str(units)])
  }

  function ForecastRequest(city: string, days: int, units: string): Request {
    Request("forecast", map["q" := Str(city), "units" := Str(units), "cnt" := Int(ClampDays(days) * SamplesPerDay)])
  }

  /** The current weather asks the "weather" endpoint for the city in the
      given units, and for nothing else. */
  lemma CurrentRequestShape(city: string, units: string)
    ensures var r := CurrentRequest(city, units);
            && r.endpoint == "weather"
            && r.params.Keys == {"q", "units"}
            && r.params["q"] == Str(city) && r.params["units"] == Str(units)
            && r.endpoint != ForecastRequest(city, MinDays, units).endpoint
  {
  }

  /** The forecast asks for eight samples per requested day, between 8 and 40,
      and for exactly `8 * days` when `days` is already within 1..5. */
  lemma ForecastRequestCount(city: string, days: int, units: string)
    ensures var r := ForecastRequest(city, days, units);
            && r.endpoint == "forecast"
            && r.params.Keys == {"q", "units", "cnt"}
            && r.params["q"] == Str(city) && r.params["units"] == Str(units)
            && r.params["cnt"].Int?
            && r.params["cnt"].i == ClampDays(days) * SamplesPerDay
            && MinDays * SamplesPerDay <= r.params["cnt"].i <= MaxDays * SamplesPerDay
            && r.params["cnt"].i % SamplesPerDay == 0
            && (MinDays <= days <= MaxDays ==> r.params["cnt"].i == days * SamplesPerDay)
  {
  }

  /** Python's `not data` for the decoded response. */
  predicate IsEmptyResponse(data: Option<map<string, Value>>) {
    data.None? || data.value == map[]
  }

  /** `data.get('message', 'Неизвестная ошибка')` */
  function ErrorMessage(data: map<string, Value>): Value {
    if "message" in data then data["message"] else Str(UnknownError)
  }

  /** The forecast accepts a response only when `cod` is present and is the
      string "200". */
  predicate ForecastCodAccepted(data: map<string, Value>): (accepted: bool)
    ensures accepted ==> "cod" in data && data["cod"].Str?
    ensures "cod" !in data ==> !accepted
  {
    "cod" in data && data["cod"] == Str("200")
  }

  /** The current weather rejects a response only when `cod` is present and is
      not equal to the number 200 (Python equates 200 and 200.0). */
  predicate CurrentCodRejected(data: map<string, Value>): (rejected: bool)
    ensures "cod" !in data ==> !rejected
    ensures "cod" in data && data["cod"] == Int(200) ==> !rejected
    ensures !rejected ==> !ForecastCodAccepted(data)
  {
    "cod" in data && data["cod"] != Int(200) && data["cod"] != Float(200.0)
  }

  /** The two tools read the response code differently: a missing code is
      accepted by one and rejected by the other, and so are the number 200 and
      the string "200". */
  lemma CodChecksDiffer()
    ensures var missing: map<string, Value> := map[];
            !CurrentCodRejected(missing) && !ForecastCodAccepted(missing)
    ensures var number := map["cod" := Int(200)];
            !CurrentCodRejected(number) && !ForecastCodAccepted(number)
    ensures var text := map["cod" := Str("200")];
            CurrentCodRejected(text) && ForecastCodAccepted(text)
  {
  }

  /** The current-weather tool. */
  function CurrentWeather(city: string, units: string, fetch: Fetcher, render: WeatherRenderer): (r: ServerReply)
    ensures var data := fetch(CurrentRequest(city, units));
            && (r.NoData? <==> IsEmptyResponse(data))
            && (r.ApiError? <==> !IsEmptyResponse(data) && CurrentCodRejected(data.value))
            && (r.ApiError? ==> r.message == ErrorMessage(data.value))
            && (r.Weather? <==>
                  && !IsEmptyResponse(data) && !CurrentCodRejected(data.value)
                  && render(data.value, TempUnit(units), WindUnit(units)).Some?)
            && (r.Weather? ==> r.text == render(data.value, TempUnit(units), WindUnit(units)).value)
            && !r.Forecast?
  {
    var data := fetch(CurrentRequest(city, units));
    if IsEmptyResponse(data) then NoData
    else if CurrentCodRejected(data.value) then ApiError(ErrorMessage(data.value))
    else
      match render(data.value, TempUnit(units), WindUnit(units))
      case None => BadData
      case Some(text) => Weather(text)
  }

  /** Python's `str.isspace`, the separators `str.split()` splits on. */
  predicate IsSpace(c: char) {
    || c == ' '
    || '\U{0009}' <= c <= '\U{000D}'
    || '\U{001C}' <= c <= '\U{001F}'
    || c == '\U{0085}' || c == '\U{00A0}' || c == '\U{1680}'
    || '\U{2000}' <= c <= '\U{200A}'
    || c == '\U{2028}' || c == '\U{2029}' || c == '\U{202F}' || c == '\U{205F}' || c == '\U{3000}'
  }

  /** The index of the first non-separator at or after `from`. */
  function SkipSeparators(s: string, sep: char -> bool, from: nat): (k: nat)
    requires from <= |s|
    ensures from <= k <= |s|
    ensures forall i :: from <= i < k ==> sep(s[i])
    ensures k < |s| ==> !sep(s[k])
    decreases |s| - from
  {
    if from == |s| || !sep(s[from]) then from else SkipSeparators(s, sep, from + 1)
  }

  /** The index of the first separator at or after `from`. */
  function SkipToken(s: string, sep: char -> bool, from: nat): (k: nat)
    requires from <= |s|
    ensures from <= k <= |s|
    ensures forall i :: from <= i < k ==> !sep(s[i])
    ensures k < |s| ==> sep(s[k])
    decreases |s| - from
  {
    if from == |s| || sep(s[from]) then from else SkipToken(s, sep, from + 1)
  }

  /** `s[from:].split(...)[0]` for the separators `sep`: the first token at or
      after `from`, absent (Python raises) when only separators are left. */
  function FirstToken(s: string, sep: char -> bool, from: nat): Option<string>
    requires from <= |s|
    decreases |s| - from
  {
    if from == |s| then None
    else if sep(s[from]) then FirstToken(s, sep, from + 1)
    else Some(s[from..SkipToken(s, sep, from)])
  }

  /** The first token is absent exactly when only separators are left;
      otherwise it is the run of non-separators that starts after the
      leading separators. */
  lemma {:induction false} FirstTokenSkipsSeparators(s: string, sep: char -> bool, from: nat)
    requires from <= |s|
    ensures var start := SkipSeparators(s, sep, from);
            && (start == |s| ==> FirstToken(s, sep, from).None?)
            && (start < |s| ==> FirstToken(s, sep, from) == Some(s[start..SkipToken(s, sep, start)]))
    decreases |s| - from
  {
    if from < |s| && sep(s[from]) {
      FirstTokenSkipsSeparators(s, sep, from + 1);
    }
  }

  /** `s.split()[0]`: the first whitespace-separated word of `s`. */
  function FirstWord(s: string): Option<string> {
    FirstToken(s, IsSpace, 0)
  }

  /** The date token is absent exactly when the text is all whitespace;
      otherwise it is non-empty, free of whitespace, preceded only by
      whitespace and followed by whitespace or the end of the text. */
  lemma FirstWordIsFirstToken(s: string)
    ensures var r := FirstWord(s);
            && (r.None? <==> forall i :: 0 <= i < |s| ==> IsSpace(s[i]))
            && (r.Some? ==> r.value != [] && forall i :: 0 <= i < |r.value| ==> !IsSpace(r.value[i]))
            && (r.Some? ==>
                  var start := SkipSeparators(s, IsSpace, 0);
                  && start + |r.value| <= |s|
                  && (forall i :: 0 <= i < start ==> IsSpace(s[i]))
                  && s[start..start + |r.value|] == r.value
                  && (start + |r.value| == |s| || IsSpace(s[start + |r.value|])))
  {
    var start := SkipSeparators(s, IsSpace, 0);
    FirstTokenSkipsSeparators(s, IsSpace, 0);
    if start < |s| {
      var end := SkipToken(s, IsSpace, start);
      assert forall i :: 0 <= i < end - start ==> s[start..end][i] == s[start + i];
    }
  }

  /** `item["dt_txt"].split()[0]`: the date of a forecast sample, absent when
      Python raises (the sample is not an object, has no `dt_txt`, its `dt_txt`
      is not a string, or holds no word). */
  function DateKey(item: Value): Option<string> {
    match item
    case Object(fields) =>
      if "dt_txt" in fields && fields["dt_txt"].Str? then FirstWord(fields["dt_txt"].s) else None
    case _ => None
  }

  /** A sample has a date exactly when it is an object whose `dt_txt` is a
      string holding a non-whitespace character; the date is then a non-empty
      word free of whitespace. */
  lemma DateKeyOfSample(item: Value)
    ensures var r := DateKey(item);
            && (r.Some? <==>
                  && item.Object? && "dt_txt" in item.fields && item.fields["dt_txt"].Str?
                  && !(forall i :: 0 <= i < |item.fields["dt_txt"].s| ==> IsSpace(item.fields["dt_txt"].s[i])))
            && (r.Some? ==> r.value != [] && forall i :: 0 <= i < |r.value| ==> !IsSpace(r.value[i]))
  {
    if item.Object? && "dt_txt" in item.fields && item.fields["dt_txt"].Str? {
      FirstWordIsFirstToken(item.fields["dt_txt"].s);
    }
  }

  function DateOf(item: Value): string {
    DateKey(item).GetOr("")
  }

  /** The index of the first sample without a date, or the number of samples. */
  function FirstUndated(items: seq<Value>): (k: nat)
    ensures k <= |items|
    ensures forall i :: 0 <= i < k ==> DateKey(items[i]).Some?
    ensures k < |items| ==> DateKey(items[k]).None?
  {
    if items == [] || DateKey(items[0]).None? then 0 else 1 + FirstUndated(items[1..])
  }

  /** The samples a `for` loop over `data["list"]` visits; `None` when it raises
      (the value is not iterable, or a non-empty object or string, whose keys or
      characters cannot be indexed by "dt_txt"). */
  function Iterate(v: Value): (r: Option<seq<Value>>)
    ensures r.Some? <==> v.Array? || v == Object(map[]) || v == Str("")
    ensures v.Array? ==> r == Some(v.items)
    ensures r.Some? && r.value != [] ==> v == Array(r.value)
    ensures v.Null? || v.Bool? || v.Int? || v.Float? ==> r.None?
  {
    match v
    case Array(items) => Some(items)
    case Object(fields) => if fields == map[] then Some([]) else None
    case Str(s) => if s == "" then Some([]) else None
    case _ => None
  }

  function ForecastItems(data: map<string, Value>): (r: Option<seq<Value>>)
    ensures "list" !in data ==> r.None?
    ensures "list" in data && data["list"].Array? ==> r == Some(data["list"].items)
    ensures r.Some? && r.value != [] ==> data["list"] == Array(r.value)
  {
    if "list" in data then Iterate(data["list"]) else None
  }

  /** The day groups of the forecast, specified by the maximal date runs: the
      first `days` runs when there are more than that (later samples are never
      looked at); otherwise all runs, provided every sample has a date. */
  function GroupByDay(items: seq<Value>, days: nat): (r: Option<seq<seq<Value>>>)
    ensures r.None? <==> FirstUndated(items) < |items| && |Runs(items[..FirstUndated(items)], DateOf)| <= days
  {
    var k := FirstUndated(items);
    var runs := Runs(items[..k], DateOf);
    if |runs| > days then Some(runs[..days])
    else if k < |items| then None
    else Some(runs)
  }

  /** The grouping loop of the forecast tool: scan the samples, start a new day
      whenever the date changes, and stop once `days` days are complete. */
  method GroupDays(items: seq<Value>, days: nat) returns (groups: Option<seq<seq<Value>>>)
    requires MinDays <= days
    ensures groups == GroupByDay(items, days)
  {
    var forecasts: seq<seq<Value>> := [];
    var currentDate: Option<string> := None;
    var dayData: seq<Value> := [];
    var i := 0;
    while i < |items|
      invariant 0 <= i <= |items|
      invariant i <= FirstUndated(items)
      invariant |forecasts| < days
      invariant (dayData == []) == (i == 0)
      invariant currentDate == if i == 0 then None else DateKey(items[i - 1])
      invariant Runs(items[..i], DateOf) == forecasts + (if dayData == [] then [] else [dayData])
    {
      var date := DateKey(items[i]);
      if date.None? {
        UndatedSampleIsReached(items, days, i);
        return None;
      }
      assert i < FirstUndated(items);
      ScanSample(items, i, forecasts, dayData);
      if currentDate != date {
        if dayData != [] {
          forecasts := forecasts + [dayData];
          if |forecasts| >= days {
            DaysCompleteBeforeEnd(items, days, i, forecasts);
            return Some(forecasts);
          }
        }
        currentDate := date;
        dayData := [items[i]];
      } else {
        dayData := dayData + [items[i]];
      }
      i := i + 1;
    }
    assert items[..i] == items;
    if dayData != [] && |forecasts| < days {
      forecasts := forecasts + [dayData];
    }
    AllSamplesGrouped(items, days);
    return Some(forecasts);
  }

  /** How one more sample changes the runs of the samples scanned so far. */
  lemma NextSampleRuns(items: seq<Value>, i: nat)
    requires i < |items|
    ensures var before := Runs(items[..i], DateOf);
            Runs(items[..i + 1], DateOf)
              == if i > 0 && DateOf(items[i - 1]) == DateOf(items[i])
                 then before[..|before| - 1] + [Last(before) + [items[i]]]
                 else before + [[items[i]]]
  {
    assert items[..i + 1][..i] == items[..i];
    assert i > 0 ==> items[..i + 1][i - 1] == items[i - 1];
  }

  /** One step of the grouping loop, in terms of its own variables: a sample
      with the current date joins the current day, any other sample closes it
      and opens a new one. */
  lemma ScanSample(items: seq<Value>, i: nat, forecasts: seq<seq<Value>>, dayData: seq<Value>)
    requires i < |items| && DateKey(items[i]).Some?
    requires i > 0 ==> DateKey(items[i - 1]).Some?
    requires (dayData == []) == (i == 0)
    requires Runs(items[..i], DateOf) == forecasts + (if dayData == [] then [] else [dayData])
    ensures i > 0 && DateKey(items[i - 1]) == DateKey(items[i]) ==>
              Runs(items[..i + 1], DateOf) == forecasts + [dayData + [items[i]]]
    ensures !(i > 0 && DateKey(items[i - 1]) == DateKey(items[i])) ==>
              Runs(items[..i + 1], DateOf) == forecasts + (if dayData == [] then [] else [dayData]) + [[items[i]]]
  {
    NextSampleRuns(items, i);
    if i > 0 {
      var before := Runs(items[..i], DateOf);
      assert before[..|before| - 1] == forecasts;
      assert Last(before) == dayData;
    }
  }

  lemma UndatedSampleIsReached(items: seq<Value>, days: nat, i: nat)
    requires i < |items| && DateKey(items[i]).None?
    requires i <= FirstUndated(items)
    requires |Runs(items[..i], DateOf)| <= days
    ensures GroupByDay(items, days).None?
  {
    assert FirstUndated(items) == i;
  }

  lemma DaysCompleteBeforeEnd(items: seq<Value>, days: nat, i: nat, forecasts: seq<seq<Value>>)
    requires 0 < i < |items|
    requires i < FirstUndated(items)
    requires DateOf(items[i - 1]) != DateOf(items[i])
    requires Runs(items[..i], DateOf) == forecasts && |forecasts| == days
    ensures GroupByDay(items, days) == Some(forecasts)
  {
    var k := FirstUndated(items);
    NextSampleRuns(items, i);
    TakeOfTake(items, k, i + 1);
    RunsOfPrefix(items[..k], i + 1, DateOf);
  }

  lemma TakeOfTake<U>(s: seq<U>, k: nat, n: nat)
    requires n <= k <= |s|
    ensures s[..k][..n] == s[..n]
  {
  }

  lemma AllSamplesGrouped(items: seq<Value>, days: nat)
    requires FirstUndated(items) == |items|
    requires |Runs(items, DateOf)| <= days
    ensures GroupByDay(items, days) == Some(Runs(items, DateOf))
  {
    assert items[..|items|] == items;
  }

  /** The groups of `GroupByDay` are the first `days` maximal date runs of the
      dated samples: at most `days` of them, none empty, one date per group,
      a different date in neighbouring groups; together they are the samples
      from the start, in order, and cover the whole list when it has no more
      than `days` runs. */
  lemma DayGroupsAreDateRuns(items: seq<Value>, days: nat)
    requires GroupByDay(items, days).Some?
    ensures var groups := GroupByDay(items, days).value;
            var dated := items[..FirstUndated(items)];
            && |groups| <= days
            && |groups| == (if |Runs(dated, DateOf)| < days then |Runs(dated, DateOf)| else days)
            && (forall i :: 0 <= i < |groups| ==> groups[i] != [])
            && (forall i, j :: 0 <= i < |groups| && 0 <= j < |groups[i]| ==>
                  DateOf(groups[i][j]) == DateOf(groups[i][0]))
            && (forall i :: 0 < i < |groups| ==> DateOf(groups[i - 1][0]) != DateOf(groups[i][0]))
            && Flatten(groups) <= dated
            && (|Runs(dated, DateOf)| <= days ==> dated == items && Flatten(groups) == items)
  {
    var k := FirstUndated(items);
    var dated := items[..k];
    var runs := Runs(dated, DateOf);
    if |runs| > days {
      TakeRuns(dated, DateOf, days);
    } else {
      assert runs[..|runs|] == runs;
      TakeRuns(dated, DateOf, |runs|);
      RunsAreMaximal(dated, DateOf);
      assert k == |items| && dated == items;
    }
  }

  /** The forecast is rendered one group at a time; `None` when rendering any
      group raises. */
  function FormatDays(groups: seq<seq<Value>>, unit: string, format: DayFormatter): (r: Option<seq<string>>)
    ensures r.Some? <==> forall i :: 0 <= i < |groups| ==> format(groups[i], unit).Some?
    ensures r.Some? ==> |r.value| == |groups|
    ensures r.Some? ==> forall i :: 0 <= i < |groups| ==> r.value[i] == format(groups[i], unit).value
  {
    if groups == [] then Some([])
    else
      match format(groups[0], unit)
      case None => None
      case Some(first) =>
        match FormatDays(groups[1..], unit, format)
        case None => None
        case Some(rest) => Some([first] + rest)
  }

  /** `data['city']['name']` and `data['city']['country']`; `None` when Python
      raises. */
  function CityOf(data: map<string, Value>): (r: Option<(Value, Value)>)
    ensures r.Some? <==>
              "city" in data && data["city"].Object? && "name" in data["city"].fields && "country" in data["city"].fields
    ensures r.Some? ==> r.value == (data["city"].fields["name"], data["city"].fields["country"])
  {
    if "city" in data && data["city"].Object? && "name" in data["city"].fields && "country" in data["city"].fields
    then Some((data["city"].fields["name"], data["city"].fields["country"]))
    else None
  }

  /** The forecast tool: clamp the number of days, request eight samples per
      day, check the response code, group the samples by day and render each
      day. Any step that raises after the code check gives `BadData`. */
  method GetForecast(city: string, days: int, units: string, fetch: Fetcher, format: DayFormatter)
    returns (reply: ServerReply)
    ensures var data := fetch(ForecastRequest(city, days, units));
            && (reply.NoData? <==> IsEmptyResponse(data))
            && (reply.ApiError? <==> !IsEmptyResponse(data) && !ForecastCodAccepted(data.value))
            && (reply.ApiError? ==> reply.message == ErrorMessage(data.value))
            && !reply.Weather?
    ensures var data := fetch(ForecastRequest(city, days, units));
            reply.Forecast? <==>
              && !IsEmptyResponse(data) && ForecastCodAccepted(data.value)
              && ForecastItems(data.value).Some?
              && GroupByDay(ForecastItems(data.value).value, ClampDays(days)).Some?
              && FormatDays(GroupByDay(ForecastItems(data.value).value, ClampDays(days)).value,
                            TempUnit(units), format).Some?
              && CityOf(data.value).Some?
    ensures var data := fetch(ForecastRequest(city, days, units));
            reply.Forecast? ==>
              && (reply.city, reply.country) == CityOf(data.value).value
              && reply.days == FormatDays(GroupByDay(ForecastItems(data.value).value, ClampDays(days)).value,
                                          TempUnit(units), format).value
              && |reply.days| <= ClampDays(days)
  {
    var n := ClampDays(days);
    var data := fetch(ForecastRequest(city, days, units));
    if IsEmptyResponse(data) {
      return NoData;
    }
    if !ForecastCodAccepted(data.value) {
      return ApiError(ErrorMessage(data.value));
    }
    var unit := TempUnit(units);
    var items := ForecastItems(data.value);
    if items.None? {
      return BadData;
    }
    var groups := GroupDays(items.value, n);
    if groups.None? {
      return BadData;
    }
    DayGroupsAreDateRuns(items.value, n);
    var texts := FormatDays(groups.value, unit, format);
    var place := CityOf(data.value);
    if texts.None? || place.None? {
      return BadData;
    }
    return Forecast(place.value.0, place.value.1, texts.value);
  }
}
