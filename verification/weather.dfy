/**
 * The weather dashboard's view logic: the condition-to-icon classifier, the
 * 1..7 day duration gate, the defaulting of the past and forecast lists from
 * the fetched payload, the panel each tab shows, and the chart series.
 */
module Weather {
  import opened Wrappers
  import opened Text

  /** One day of weather as the backend sends it. */
  datatype WeatherRow = WeatherRow(
    date: string,
    time: Option<string>,
    temperature: real,
    humidity: real,
    windSpeed: real,
    condition: Option<string>,
    weather: string)

  /** The four icons a card can show. */
  datatype Icon = CloudIcon | RainIcon | StormIcon | SunIcon

  /** `word` occurs in the lower-cased `text`. */
  ghost predicate Mentions(text: string, word: string) {
    exists i :: OccursAt(Lower(text), word, i)
  }

  /**
   * The icon of a card: "cloud" first, then "rain", then "storm", matched
   * case-insensitively anywhere in the condition; no condition, or none of
   * the three, gives the default icon.
   */
  function ConditionIcon(condition: Option<string>): (icon: Icon)
    ensures icon == CloudIcon <==> condition.Some? && Mentions(condition.value, "cloud")
    ensures icon == RainIcon <==>
              condition.Some? && !Mentions(condition.value, "cloud") && Mentions(condition.value, "rain")
    ensures icon == StormIcon <==>
              && condition.Some? && !Mentions(condition.value, "cloud") && !Mentions(condition.value, "rain")
              && Mentions(condition.value, "storm")
  {
    match condition
    case None => SunIcon
    case Some(text) =>
      var lower := Lower(text);
      IncludesIff(lower, "cloud");
      IncludesIff(lower, "rain");
      IncludesIff(lower, "storm");
      if Includes(lower, "cloud") then CloudIcon
      else if Includes(lower, "rain") then RainIcon
      else if Includes(lower, "storm") then StormIcon
      else SunIcon
  }

  /** A condition mentioning both rain and storm, but no cloud, gets the rain icon. */
  lemma RainBeatsStorm(text: string)
    requires Includes(Lower(text), "rain") && Includes(Lower(text), "storm")
    requires !Includes(Lower(text), "cloud")
    ensures ConditionIcon(Some(text)) == RainIcon
  {
    IncludesIff(Lower(text), "rain");
    IncludesIff(Lower(text), "cloud");
  }

  /** Letter case never changes the icon. */
  lemma IconIgnoresCase(text: string)
    ensures ConditionIcon(Some(Lower(text))) == ConditionIcon(Some(text))
  {
    LowerIdempotent(text);
  }

  /** The icons of a list of cards, one per row, in order; past and forecast cards use the same classifier. */
  function Icons(rows: seq<WeatherRow>): (icons: seq<Icon>)
    ensures |icons| == |rows|
    ensures forall i :: 0 <= i < |rows| ==> icons[i] == ConditionIcon(rows[i].condition)
  {
    if rows == [] then [] else [ConditionIcon(rows[0].condition)] + Icons(rows[1..])
  }

  /** A forecast card's heading: its `time` when that is a non-empty string, its date otherwise. */
  function Heading(row: WeatherRow): (heading: string)
    ensures heading == row.date || (row.time.Some? && heading == row.time.value)
    ensures heading == row.date <== row.time.None? || row.time == Some("")
    ensures row.time.Some? && row.time.value != "" ==> heading == row.time.value
  {
    match row.time
    case Some(t) => if t != "" then t else row.date
    case None => row.date
  }

  /** The Refresh button's `disabled={duration < 1 || duration > 7}`. */
  function RefreshDisabled(duration: real): (disabled: bool)
    ensures !disabled <==> 1.0 <= duration <= 7.0
  {
    duration < 1.0 || duration > 7.0
  }

  /** The section of the fetched payload that holds one list. */
  datatype Section = Section(data: Option<seq<WeatherRow>>)

  /** What `fetchWeather` stores: the forecast and the past responses. */
  datatype Payload = Payload(forecast: Option<Section>, past: Option<Section>)

  /** `section?.data || []`: the list when present, the empty list otherwise. */
  function RowsOf(section: Option<Section>): (rows: seq<WeatherRow>)
    ensures section.Some? && section.value.data.Some? ==> rows == section.value.data.value
    ensures section.None? || section.value.data.None? ==> rows == []
  {
    match section
    case Some(Section(Some(rows))) => rows
    case _ => []
  }

  /** `weatherData?.past?.data || []`; `weatherData` is `None` until the first fetch completes. */
  function PastRows(weatherData: Option<Payload>): (rows: seq<WeatherRow>)
    ensures weatherData.None? ==> rows == []
    ensures weatherData.Some? ==> rows == RowsOf(weatherData.value.past)
  {
    match weatherData
    case Some(payload) => RowsOf(payload.past)
    case None => []
  }

  /** `weatherData?.forecast?.data || []`. */
  function ForecastRows(weatherData: Option<Payload>): (rows: seq<WeatherRow>)
    ensures weatherData.None? ==> rows == []
    ensures weatherData.Some? ==> rows == RowsOf(weatherData.value.forecast)
  {
    match weatherData
    case Some(payload) => RowsOf(payload.forecast)
    case None => []
  }

  /** What a tab shows. */
  datatype TabView = DurationError | Spinner | Cards(rows: seq<WeatherRow>) | NoData

  /** The past tab: the spinner while loading, the cards when there are rows, else "no data". */
  function PastTab(loading: bool, past: seq<WeatherRow>): (view: TabView)
    ensures view != DurationError
    ensures view == Spinner <==> loading
    ensures view.Cards? <==> !loading && past != []
    ensures view.Cards? ==> view.rows == past
  {
    if loading then Spinner else if past != [] then Cards(past) else NoData
  }

  /** The forecast tab: an out-of-range duration wins over loading, which wins over the cards. */
  function ForecastTab(duration: real, loading: bool, forecast: seq<WeatherRow>): (view: TabView)
    ensures view == DurationError <==> !(1.0 <= duration <= 7.0)
    ensures view == Spinner <==> 1.0 <= duration <= 7.0 && loading
    ensures view.Cards? <==> 1.0 <= duration <= 7.0 && !loading && forecast != []
    ensures view.Cards? ==> view.rows == forecast
  {
    if duration < 1.0 || duration > 7.0 then DurationError
    else if loading then Spinner
    else if forecast != [] then Cards(forecast)
    else NoData
  }

  /** Refresh is enabled exactly when the forecast tab does not show the duration error. */
  lemma RefreshEnabledIffForecastShown(duration: real, loading: bool, forecast: seq<WeatherRow>)
    ensures !RefreshDisabled(duration) <==> ForecastTab(duration, loading, forecast) != DurationError
  {
  }

  /** `data.map(f)`. */
  function Project<T>(rows: seq<WeatherRow>, f: WeatherRow -> T): (out: seq<T>)
    ensures |out| == |rows|
    ensures forall i :: 0 <= i < |rows| ==> out[i] == f(rows[i])
  {
    if rows == [] then [] else [f(rows[0])] + Project(rows[1..], f)
  }

  /** One line chart: its legend (the dataset label), the x labels and the y values. */
  datatype Series = Series(legend: string, labels: seq<string>, values: seq<real>)

  /** `tempChartData(data)`: dates against temperatures. */
  function TemperatureSeries(rows: seq<WeatherRow>): (s: Series)
    ensures |s.labels| == |rows| && |s.values| == |rows|
    ensures forall i :: 0 <= i < |rows| ==> s.labels[i] == rows[i].date && s.values[i] == rows[i].temperature
  {
    Series("Temperature (¬∞C)", Project(rows, (r: WeatherRow) => r.date), Project(rows, (r: WeatherRow) => r.temperature))
  }

  /** `humidityChartData(data)`: dates against humidities. */
  function HumiditySeries(rows: seq<WeatherRow>): (s: Series)
    ensures |s.labels| == |rows| && |s.values| == |rows|
    ensures forall i :: 0 <= i < |rows| ==> s.labels[i] == rows[i].date && s.values[i] == rows[i].humidity
  {
    Series("Humidity (%)", Project(rows, (r: WeatherRow) => r.date), Project(rows, (r: WeatherRow) => r.humidity))
  }

  /** `windChartData(data)`: dates against wind speeds. */
  function WindSeries(rows: seq<WeatherRow>): (s: Series)
    ensures |s.labels| == |rows| && |s.values| == |rows|
    ensures forall i :: 0 <= i < |rows| ==> s.labels[i] == rows[i].date && s.values[i] == rows[i].windSpeed
  {
    Series("Wind Speed (m/s)", Project(rows, (r: WeatherRow) => r.date), Project(rows, (r: WeatherRow) => r.windSpeed))
  }

  /** The three charts of a tab share their x axis. */
  lemma ChartsShareLabels(rows: seq<WeatherRow>)
    ensures TemperatureSeries(rows).labels == HumiditySeries(rows).labels == WindSeries(rows).labels
  {
  }

  /** Charting a longer list extends each series at the end: earlier points stay where they were. */
  lemma ProjectAppend<T>(rows: seq<WeatherRow>, more: seq<WeatherRow>, f: WeatherRow -> T)
    ensures Project(rows + more, f) == Project(rows, f) + Project(more, f)
  {
  }
}
