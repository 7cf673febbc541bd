/**
 * The simulated forecast (services/weatherService.ts): seven days from today, each
 * day's weather picked from the sum of the character codes of its date text. The
 * calendar arithmetic and the locale formatting of the dates are left out: each of
 * the seven days arrives with its date text, weekday label and month-day label.
 */
module Weather {

  datatype Risk = Low | Moderate | High

  const Conditions: seq<string> := ["Sunny", "Partly Cloudy", "Cloudy", "Rainy", "Stormy"]

  /** One calendar day as the date library renders it: `toDateString`, short weekday, short month and day. */
  datatype CalendarDay = CalendarDay(dateString: string, weekday: string, monthDay: string)

  datatype WeatherData = WeatherData(day: string, date: string, temp: int, condition: string, riskLevel: Risk)

  /** The sum of the character codes of `s`. */
  function CodeSum(s: string): nat
    decreases |s|
  {
    if s == [] then 0 else CodeSum(s[..|s| - 1]) + s[|s| - 1] as nat
  }

  /** The seed does not depend on how the text is split: the sum over a concatenation adds up. */
  lemma {:induction false} CodeSumAppend(s: string, t: string)
    ensures CodeSum(s + t) == CodeSum(s) + CodeSum(t)
    decreases |t|
  {
    if t == [] {
      assert s + t == s;
    } else {
      var t' := t[..|t| - 1];
      CodeSumAppend(s, t');
      assert (s + t)[..|s + t| - 1] == s + t';
    }
  }

  /** High for a storm, Moderate for rain, Low for everything else. */
  function RiskFor(condition: string): (r: Risk)
    ensures r == High <==> condition == "Stormy"
    ensures r == Moderate <==> condition == "Rainy"
    ensures r == Low <==> condition != "Stormy" && condition != "Rainy"
  {
    if condition == "Stormy" then High else if condition == "Rainy" then Moderate else Low
  }

  /**
   * The forecast for the `i`-th day: one of the five listed conditions, picked by
   * the seed modulo five; a temperature from 27 to 32 degrees; the risk of that
   * condition; the first day labelled 'Today'.
   */
  function DayForecast(day: CalendarDay, i: int): (w: WeatherData)
    ensures w.condition in Conditions && w.condition == Conditions[CodeSum(day.dateString) % 5]
    ensures 27 <= w.temp <= 32 && w.temp - 27 == CodeSum(day.dateString) % 6
    ensures w.riskLevel == RiskFor(w.condition)
    ensures w.day == (if i == 0 then "Today" else day.weekday) && w.date == day.monthDay
  {
    var seed := CodeSum(day.dateString);
    WeatherData(if i == 0 then "Today" else day.weekday, day.monthDay, 27 + seed % 6, Conditions[seed % 5],
                RiskFor(Conditions[seed % 5]))
  }

  /** The same date text always gives the same condition, temperature and risk, whatever its position. */
  lemma SameDateSameWeather(d1: CalendarDay, d2: CalendarDay, i: int, j: int)
    requires d1.dateString == d2.dateString
    ensures DayForecast(d1, i).condition == DayForecast(d2, j).condition
    ensures DayForecast(d1, i).temp == DayForecast(d2, j).temp
    ensures DayForecast(d1, i).riskLevel == DayForecast(d2, j).riskLevel
  {
  }

  /** `getWeatherForecast`: seven entries, one per day from today, the first labelled 'Today'. */
  method GetWeatherForecast(days: seq<CalendarDay>) returns (data: seq<WeatherData>)
    requires |days| == 7
    ensures |data| == 7 && data[0].day == "Today"
    ensures forall i :: 0 <= i < 7 ==> data[i] == DayForecast(days[i], i)
  {
    data := [];
    var i := 0;
    while i < 7
      invariant 0 <= i <= 7 && |data| == i
      invariant forall k :: 0 <= k < i ==> data[k] == DayForecast(days[k], k)
    {
      var dateStr := days[i].dateString;
      var seed := 0;
      var j := 0;
      while j < |dateStr|
        invariant 0 <= j <= |dateStr|
        invariant seed == CodeSum(dateStr[..j])
      {
        assert dateStr[..j + 1][..j] == dateStr[..j];
        seed := seed + dateStr[j] as int;
        j := j + 1;
      }
      assert dateStr[..j] == dateStr;
      var condIndex := seed % |Conditions|;
      var temp := 27 + (seed % 6);
      var risk := Low;
      if Conditions[condIndex] == "Stormy" {
        risk := High;
      }
      if Conditions[condIndex] == "Rainy" {
        risk := Moderate;
      }
      data := data + [WeatherData(if i == 0 then "Today" else days[i].weekday, days[i].monthDay, temp,
                                  Conditions[condIndex], risk)];
      i := i + 1;
    }
  }
}
