/**
 * The weather provider's forecast response and the per-city record the store keeps,
 * with the normalisation between them. Readings are carried as the provider sends them.
 */
module Weather {

  /** The provider's condition object, kept whole in forecast entries. */
  datatype Condition = Condition(text: string, icon: string, code: int)

  /** The `current` block of the provider's response. */
  datatype CurrentRaw = CurrentRaw(
    tempC: real, humidity: int, feelslikeC: real, condition: Condition,
    windKph: real, windDegree: int, windDir: string, airQuality: map<string, real>)

  /** The `day` summary of one `forecastday` entry. */
  datatype DayRaw = DayRaw(
    maxtempC: real, mintempC: real, avgtempC: real, condition: Condition,
    avghumidity: real, dailyChanceOfRain: int)

  /** One element of a `forecastday` entry's `hour` list. */
  datatype HourRaw = HourRaw(
    time: string, tempC: real, condition: Condition, windKph: real, humidity: int, chanceOfRain: int)

  datatype ForecastDayRaw = ForecastDayRaw(date: string, day: DayRaw, hour: seq<HourRaw>)

  /** The decoded body: `current` and `forecast.forecastday`. */
  datatype ForecastResponse = ForecastResponse(current: CurrentRaw, forecastday: seq<ForecastDayRaw>)

  datatype Reading = Reading(temp: real, humidity: int, feelsLike: real)
  datatype Summary = Summary(main: string, icon: string)
  datatype Wind = Wind(speed: real, deg: int, dir: string)

  datatype HourlyPoint = HourlyPoint(
    time: string, temp: real, condition: Condition, windSpeed: real, humidity: int, rainChance: int)

  datatype ForecastDay = ForecastDay(
    date: string, maxTemp: real, minTemp: real, avgTemp: real, condition: Condition,
    humidity: real, rainChance: int, hourly: seq<HourlyPoint>)

  /** What the store keeps under a city's key. */
  datatype WeatherRecord = WeatherRecord(
    main: Reading, weather: seq<Summary>, wind: Wind, airQuality: map<string, real>,
    forecast: seq<ForecastDay>)

  function HourlyOf(h: HourRaw): HourlyPoint
  {
    HourlyPoint(h.time, h.tempC, h.condition, h.windKph, h.humidity, h.chanceOfRain)
  }

  /** The `hour.map(...)` step: one point per hour entry, in order. */
  function HourlySeries(hours: seq<HourRaw>): (r: seq<HourlyPoint>)
    ensures |r| == |hours|
    ensures forall i :: 0 <= i < |hours| ==> r[i] == HourlyOf(hours[i])
  {
    if hours == [] then [] else [HourlyOf(hours[0])] + HourlySeries(hours[1..])
  }

  function ForecastDayOf(d: ForecastDayRaw): ForecastDay
  {
    ForecastDay(d.date, d.day.maxtempC, d.day.mintempC, d.day.avgtempC, d.day.condition,
                d.day.avghumidity, d.day.dailyChanceOfRain, HourlySeries(d.hour))
  }

  /** The `forecastday.map(...)` step: one entry per forecast day, in order. */
  function ForecastOf(days: seq<ForecastDayRaw>): (r: seq<ForecastDay>)
    ensures |r| == |days|
    ensures forall i :: 0 <= i < |days| ==> r[i] == ForecastDayOf(days[i])
  {
    if days == [] then [] else [ForecastDayOf(days[0])] + ForecastOf(days[1..])
  }

  /**
   * The record built from a successful response. It has exactly one current-conditions
   * summary, one forecast entry per provider day (in order, with that day's date), and
   * in each entry one hourly point per provider hour (in order, with that hour's time).
   */
  function RecordOf(res: ForecastResponse): (r: WeatherRecord)
    ensures r.weather == [Summary(res.current.condition.text, res.current.condition.icon)]
    ensures |r.forecast| == |res.forecastday|
    ensures forall i :: 0 <= i < |r.forecast| ==>
              && r.forecast[i].date == res.forecastday[i].date
              && |r.forecast[i].hourly| == |res.forecastday[i].hour|
              && forall j :: 0 <= j < |r.forecast[i].hourly| ==>
                   r.forecast[i].hourly[j].time == res.forecastday[i].hour[j].time
  {
    var c := res.current;
    WeatherRecord(
      Reading(c.tempC, c.humidity, c.feelslikeC),
      [Summary(c.condition.text, c.condition.icon)],
      Wind(c.windKph, c.windDegree, c.windDir),
      c.airQuality,
      ForecastOf(res.forecastday))
  }
}
