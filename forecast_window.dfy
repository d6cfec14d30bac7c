/**
  The five-day forecast window of `GetFiveDayForecastUseCase`: forecast samples are
  de-duplicated by their day key (keeping the first sample of each day, Kotlin
  `distinctBy`), and at most five of them are kept (`take(5)`).
 */
module ForecastWindow {
  import opened Wrappers
  import opened Domain
  import opened Results
  import opened Collections

  const FORECAST_DAYS: nat := 5

  /**
    The day key of a timestamp: `date.split(" ").firstOrNull()`. Splitting never gives
    an empty list, so this is the part before the first space, or the whole string.
   */
  function DayKey(date: string): string {
    if date == [] || date[0] == ' ' then [] else [date[0]] + DayKey(date[1..])
  }

  /** The day key is a prefix without spaces that ends at the first space or at the end of the timestamp. */
  lemma {:induction false} DayKeyIsFirstField(date: string)
    ensures DayKey(date) <= date
    ensures ' ' !in DayKey(date)
    ensures DayKey(date) == date || date[|DayKey(date)|] == ' '
  {
    if date != [] && date[0] != ' ' {
      DayKeyIsFirstField(date[1..]);
    }
  }

  lemma {:induction false} DayKeyOfTimestamp(day: string, time: string)
    requires ' ' !in day
    ensures DayKey(day + " " + time) == day
  {
    if day != [] {
      assert (day + " " + time)[1..] == day[1..] + " " + time;
      DayKeyOfTimestamp(day[1..], time);
    }
  }

  function Key(f: WeatherForecast): string {
    DayKey(f.date)
  }

  /** The set of day keys occurring in a list of samples. */
  function Keys(s: seq<WeatherForecast>): set<string> {
    if s == [] then {} else {Key(s[0])} + Keys(s[1..])
  }

  predicate UniqueKeys(r: seq<WeatherForecast>) {
    forall i, j :: 0 <= i < j < |r| ==> Key(r[i]) != Key(r[j])
  }

  /** The position of the first sample of `s` whose day key is `k`. */
  function FirstIndex(s: seq<WeatherForecast>, k: string): (i: nat)
    requires k in Keys(s)
    ensures i < |s| && Key(s[i]) == k
    ensures forall j :: 0 <= j < i ==> Key(s[j]) != k
  {
    if Key(s[0]) == k then 0 else 1 + FirstIndex(s[1..], k)
  }

  lemma {:induction false} KeyInKeys(s: seq<WeatherForecast>, i: nat)
    requires i < |s|
    ensures Key(s[i]) in Keys(s)
  {
    if i > 0 {
      KeyInKeys(s[1..], i - 1);
    }
  }

  // ---------------------------------------------------------------------------
  // distinctBy and take

  /** Kotlin `distinctBy`, with `seen` the keys already met. */
  function DistinctFrom(s: seq<WeatherForecast>, seen: set<string>): seq<WeatherForecast>
    decreases |s|
  {
    if s == [] then []
    else if Key(s[0]) in seen then DistinctFrom(s[1..], seen)
    else [s[0]] + DistinctFrom(s[1..], seen + {Key(s[0])})
  }

  function DistinctByDay(s: seq<WeatherForecast>): seq<WeatherForecast> {
    DistinctFrom(s, {})
  }

  /** The forecast window: `distinctBy { day key }.take(5)`. */
  function Window(s: seq<WeatherForecast>): seq<WeatherForecast> {
    Take(DistinctByDay(s), FORECAST_DAYS)
  }

  // ---------------------------------------------------------------------------
  // What distinctBy computes

  lemma {:induction false} DistinctFromKeys(s: seq<WeatherForecast>, seen: set<string>)
    ensures var r := DistinctFrom(s, seen);
      && UniqueKeys(r)
      && Keys(r) == Keys(s) - seen
      && (forall i :: 0 <= i < |r| ==> Key(r[i]) in Keys(s) && Key(r[i]) !in seen)
    decreases |s|
  {
    if s != [] {
      var k := Key(s[0]);
      if k in seen {
        DistinctFromKeys(s[1..], seen);
      } else {
        var rest := DistinctFrom(s[1..], seen + {k});
        DistinctFromKeys(s[1..], seen + {k});
        var r := [s[0]] + rest;
        assert r[1..] == rest;
        forall i, j | 0 <= i < j < |r| ensures Key(r[i]) != Key(r[j]) {
          if i > 0 {
            assert r[i] == rest[i - 1] && r[j] == rest[j - 1];
          } else {
            assert r[j] == rest[j - 1];
          }
        }
        forall i | 0 <= i < |r| ensures Key(r[i]) in Keys(s) && Key(r[i]) !in seen {
          if i > 0 {
            assert r[i] == rest[i - 1];
          }
        }
      }
    }
  }

  /** A day key of the tail that differs from the head's first occurs one position later in the whole. */
  lemma FirstIndexOfTail(s: seq<WeatherForecast>, k: string)
    requires s != [] && k in Keys(s[1..]) && k != Key(s[0])
    ensures k in Keys(s) && FirstIndex(s, k) == 1 + FirstIndex(s[1..], k)
  {
  }

  /** Every kept sample is the first sample of its day in the input. */
  lemma {:induction false} DistinctFromFirstWins(s: seq<WeatherForecast>, seen: set<string>)
    ensures var r := DistinctFrom(s, seen);
      forall i :: 0 <= i < |r| ==> Key(r[i]) in Keys(s) && r[i] == s[FirstIndex(s, Key(r[i]))]
    decreases |s|
  {
    if s != [] {
      var k := Key(s[0]);
      var seen' := if k in seen then seen else seen + {k};
      var rest := DistinctFrom(s[1..], seen');
      DistinctFromFirstWins(s[1..], seen');
      DistinctFromKeys(s[1..], seen');
      forall m | 0 <= m < |rest|
        ensures Key(rest[m]) in Keys(s) && rest[m] == s[FirstIndex(s, Key(rest[m]))]
      {
        FirstIndexOfTail(s, Key(rest[m]));
      }
      var r := DistinctFrom(s, seen);
      if k !in seen {
        assert r == [s[0]] + rest;
        forall i | 0 <= i < |r| ensures Key(r[i]) in Keys(s) && r[i] == s[FirstIndex(s, Key(r[i]))] {
          if i > 0 {
            assert r[i] == rest[i - 1];
          }
        }
      }
    }
  }

  /** Kept samples come in the order in which their days first occur. */
  lemma {:induction false} DistinctFromOrder(s: seq<WeatherForecast>, seen: set<string>)
    ensures var r := DistinctFrom(s, seen);
      forall i, j :: 0 <= i < j < |r| ==>
        Key(r[i]) in Keys(s) && Key(r[j]) in Keys(s) && FirstIndex(s, Key(r[i])) < FirstIndex(s, Key(r[j]))
    decreases |s|
  {
    if s != [] {
      var k := Key(s[0]);
      var seen' := if k in seen then seen else seen + {k};
      var rest := DistinctFrom(s[1..], seen');
      DistinctFromOrder(s[1..], seen');
      DistinctFromKeys(s[1..], seen');
      forall m | 0 <= m < |rest|
        ensures Key(rest[m]) in Keys(s) && FirstIndex(s, Key(rest[m])) == 1 + FirstIndex(s[1..], Key(rest[m]))
      {
        FirstIndexOfTail(s, Key(rest[m]));
      }
      var r := DistinctFrom(s, seen);
      if k !in seen {
        assert r == [s[0]] + rest;
        forall i, j | 0 <= i < j < |r|
          ensures Key(r[i]) in Keys(s) && Key(r[j]) in Keys(s) && FirstIndex(s, Key(r[i])) < FirstIndex(s, Key(r[j]))
        {
          assert r[j] == rest[j - 1];
          if i > 0 {
            assert r[i] == rest[i - 1];
          }
        }
      }
    }
  }

  lemma {:induction false} DistinctFromSubsequence(s: seq<WeatherForecast>, seen: set<string>)
    ensures IsSubsequence(DistinctFrom(s, seen), s)
    decreases |s|
  {
    if s != [] {
      var k := Key(s[0]);
      if k in seen {
        DistinctFromSubsequence(s[1..], seen);
      } else {
        DistinctFromSubsequence(s[1..], seen + {k});
        var r := DistinctFrom(s, seen);
        assert r[0] == s[0] && r[1..] == DistinctFrom(s[1..], seen + {k});
      }
    }
  }

  /** With unique keys, the number of samples equals the number of days. */
  lemma {:induction false} UniqueKeysCount(r: seq<WeatherForecast>)
    requires UniqueKeys(r)
    ensures |Keys(r)| == |r|
  {
    if r != [] {
      assert UniqueKeys(r[1..]) by {
        forall i, j | 0 <= i < j < |r[1..]| ensures Key(r[1..][i]) != Key(r[1..][j]) {
          assert r[1..][i] == r[i + 1] && r[1..][j] == r[j + 1];
        }
      }
      UniqueKeysCount(r[1..]);
      if Key(r[0]) in Keys(r[1..]) {
        var j := FirstIndex(r[1..], Key(r[0]));
        assert false;
      }
    }
  }

  /** An input that already has one sample per day is kept whole. */
  lemma {:induction false} DistinctFromUnique(s: seq<WeatherForecast>, seen: set<string>)
    requires UniqueKeys(s) && Keys(s) !! seen
    ensures DistinctFrom(s, seen) == s
    decreases |s|
  {
    if s != [] {
      var k := Key(s[0]);
      assert k in Keys(s);
      assert UniqueKeys(s[1..]) by {
        forall i, j | 0 <= i < j < |s[1..]| ensures Key(s[1..][i]) != Key(s[1..][j]) {
          assert s[1..][i] == s[i + 1] && s[1..][j] == s[j + 1];
        }
      }
      if k in Keys(s[1..]) {
        var j := FirstIndex(s[1..], k);
        assert false;
      }
      DistinctFromUnique(s[1..], seen + {k});
      assert s == [s[0]] + s[1..];
    }
  }

  lemma PrefixUniqueKeys(p: seq<WeatherForecast>, r: seq<WeatherForecast>)
    requires p <= r && UniqueKeys(r)
    ensures UniqueKeys(p)
  {
    forall i, j | 0 <= i < j < |p| ensures Key(p[i]) != Key(p[j]) {
      assert p[i] == r[i] && p[j] == r[j];
    }
  }

  // ---------------------------------------------------------------------------
  // Properties of the window

  /** At most five entries, one per day, as many as there are days up to five. */
  lemma WindowSize(s: seq<WeatherForecast>)
    ensures |Window(s)| <= FORECAST_DAYS
    ensures UniqueKeys(Window(s))
    ensures |Window(s)| == if |Keys(s)| <= FORECAST_DAYS then |Keys(s)| else FORECAST_DAYS
  {
    DistinctFromKeys(s, {});
    UniqueKeysCount(DistinctByDay(s));
    PrefixUniqueKeys(Window(s), DistinctByDay(s));
  }

  /** The window is a subsequence of the input. */
  lemma WindowSubsequence(s: seq<WeatherForecast>)
    ensures IsSubsequence(Window(s), s)
  {
    DistinctFromSubsequence(s, {});
    PrefixOfSubsequence(Window(s), DistinctByDay(s), s);
  }

  /**
    Every entry of the window is the first sample of its day, the entries are in the
    order in which their days first occur, and they are the earliest days: a day of
    the input that is missing from the window first occurs after all the window's days.
   */
  lemma WindowFirstWins(s: seq<WeatherForecast>)
    ensures var w := Window(s);
      forall i :: 0 <= i < |w| ==> Key(w[i]) in Keys(s) && w[i] == s[FirstIndex(s, Key(w[i]))]
    ensures var w := Window(s);
      forall i, j :: 0 <= i < j < |w| ==>
        Key(w[i]) in Keys(s) && Key(w[j]) in Keys(s) && FirstIndex(s, Key(w[i])) < FirstIndex(s, Key(w[j]))
    ensures var w := Window(s);
      forall k :: k in Keys(s) && k !in Keys(w) ==>
        |w| == FORECAST_DAYS && forall i :: 0 <= i < |w| ==> Key(w[i]) in Keys(s) && FirstIndex(s, Key(w[i])) < FirstIndex(s, k)
  {
    var d := DistinctByDay(s);
    var w := Window(s);
    DistinctFromFirstWins(s, {});
    DistinctFromOrder(s, {});
    DistinctFromKeys(s, {});
    forall i | 0 <= i < |w| ensures Key(w[i]) in Keys(s) && w[i] == s[FirstIndex(s, Key(w[i]))] {
      assert w[i] == d[i];
    }
    forall i, j | 0 <= i < j < |w|
      ensures Key(w[i]) in Keys(s) && Key(w[j]) in Keys(s) && FirstIndex(s, Key(w[i])) < FirstIndex(s, Key(w[j]))
    {
      assert w[i] == d[i] && w[j] == d[j];
    }
    forall k | k in Keys(s) && k !in Keys(w)
      ensures |w| == FORECAST_DAYS
      ensures forall i :: 0 <= i < |w| ==> Key(w[i]) in Keys(s) && FirstIndex(s, Key(w[i])) < FirstIndex(s, k)
    {
      // k is kept by distinctBy at some position m, beyond the part that take(5) keeps.
      assert k in Keys(d);
      var m := FirstIndex(d, k);
      if m < |w| {
        assert w[m] == d[m];
        KeyInKeys(w, m);
        assert false;
      }
      forall i | 0 <= i < |w| ensures Key(w[i]) in Keys(s) && FirstIndex(s, Key(w[i])) < FirstIndex(s, k) {
        assert w[i] == d[i];
      }
    }
  }

  /** Windowing its own output changes nothing. */
  lemma WindowIdempotent(s: seq<WeatherForecast>)
    ensures Window(Window(s)) == Window(s)
  {
    var w := Window(s);
    WindowSize(s);
    DistinctFromUnique(w, {});
  }

  lemma WindowEmpty()
    ensures Window([]) == []
  {
  }

  /** When every sample falls on the same day, the window is the first sample alone. */
  lemma WindowOneDay(s: seq<WeatherForecast>)
    requires |s| >= 1
    requires forall i :: 0 <= i < |s| ==> Key(s[i]) == Key(s[0])
    ensures Window(s) == [s[0]]
  {
    var w := Window(s);
    assert Keys(s) == {Key(s[0])} by {
      KeyInKeys(s, 0);
      forall k | k in Keys(s) ensures k == Key(s[0]) {
        var i := FirstIndex(s, k);
      }
    }
    WindowSize(s);
    WindowFirstWins(s);
    assert FirstIndex(s, Key(s[0])) == 0;
  }

  lemma DistinctFromCons(x: WeatherForecast, s: seq<WeatherForecast>, seen: set<string>)
    ensures Key(x) in seen ==> DistinctFrom([x] + s, seen) == DistinctFrom(s, seen)
    ensures Key(x) !in seen ==> DistinctFrom([x] + s, seen) == [x] + DistinctFrom(s, seen + {Key(x)})
  {
    assert ([x] + s)[1..] == s;
  }

  lemma KeyOfSample(f: WeatherForecast, day: string, time: string)
    requires f.date == day + " " + time && ' ' !in day
    ensures Key(f) == day
  {
    DayKeyOfTimestamp(day, time);
  }

  /**
    Seven samples, the first two on the same day and the other five on five further
    days: the window keeps the first sample of each of the first five days.
   */
  lemma DistinctOfFiveNewDays(c: WeatherForecast, d: WeatherForecast, e: WeatherForecast,
                              f: WeatherForecast, g: WeatherForecast, seen: set<string>)
    requires Key(c) !in seen
    requires Key(d) !in seen + {Key(c)}
    requires Key(e) !in seen + {Key(c), Key(d)}
    requires Key(f) !in seen + {Key(c), Key(d), Key(e)}
    requires Key(g) !in seen + {Key(c), Key(d), Key(e), Key(f)}
    ensures DistinctFrom([c, d, e, f, g], seen) == [c, d, e, f, g]
  {
    var s1 := seen + {Key(c)};
    var s2 := s1 + {Key(d)};
    var s3 := s2 + {Key(e)};
    var s4 := s3 + {Key(f)};
    var t4: seq<WeatherForecast> := [g];
    var t3 := [f] + t4;
    var t2 := [e] + t3;
    var t1 := [d] + t2;
    var t0 := [c] + t1;
    DistinctFromCons(g, [], s4);
    assert [g] + [] == t4;
    DistinctFromCons(f, t4, s3);
    DistinctFromCons(e, t3, s2);
    DistinctFromCons(d, t2, s1);
    DistinctFromCons(c, t1, seen);
    assert t0 == [c, d, e, f, g];
  }

  /**
    Seven samples, the first two on the same day and the other five on five further
    days: the window keeps the first sample of each of the first five days.
   */
  lemma WindowOfSevenSamples(a: WeatherForecast, b: WeatherForecast, c: WeatherForecast, d: WeatherForecast,
                             e: WeatherForecast, f: WeatherForecast, g: WeatherForecast)
    requires Key(b) == Key(a)
    requires Key(c) !in {Key(a)}
    requires Key(d) !in {Key(a), Key(c)}
    requires Key(e) !in {Key(a), Key(c), Key(d)}
    requires Key(f) !in {Key(a), Key(c), Key(d), Key(e)}
    requires Key(g) !in {Key(a), Key(c), Key(d), Key(e), Key(f)}
    ensures Window([a, b, c, d, e, f, g]) == [a, c, d, e, f]
  {
    var s1 := {Key(a)};
    assert DistinctFrom([c, d, e, f, g], s1) == [c, d, e, f, g] by {
      assert s1 + {Key(c)} == {Key(a), Key(c)};
      assert s1 + {Key(c), Key(d)} == {Key(a), Key(c), Key(d)};
      assert s1 + {Key(c), Key(d), Key(e)} == {Key(a), Key(c), Key(d), Key(e)};
      assert s1 + {Key(c), Key(d), Key(e), Key(f)} == {Key(a), Key(c), Key(d), Key(e), Key(f)};
      DistinctOfFiveNewDays(c, d, e, f, g, s1);
    }
    assert DistinctFrom([b, c, d, e, f, g], s1) == [c, d, e, f, g] by {
      DistinctFromCons(b, [c, d, e, f, g], s1);
      assert [b, c, d, e, f, g] == [b] + [c, d, e, f, g];
    }
    assert DistinctByDay([a, b, c, d, e, f, g]) == [a, c, d, e, f, g] by {
      DistinctFromCons(a, [b, c, d, e, f, g], {});
      assert [a, b, c, d, e, f, g] == [a] + [b, c, d, e, f, g] && {} + {Key(a)} == s1;
    }
  }

  /**
    The seven-sample list of the use case's unit test: two samples on 2024-01-01, then
    one per day up to 2024-01-06. The window keeps the 12:00 sample of 01-01 and the
    samples of 01-02 to 01-05, in that order. Each timestamp is written as its day,
    the separating space and its time.
   */
  lemma WindowWorkedExample(a: WeatherForecast, b: WeatherForecast, c: WeatherForecast, d: WeatherForecast,
                            e: WeatherForecast, f: WeatherForecast, g: WeatherForecast)
    requires a.date == "2024-01-01" + " " + "12:00:00" && b.date == "2024-01-01" + " " + "15:00:00"
    requires c.date == "2024-01-02" + " " + "12:00:00" && d.date == "2024-01-03" + " " + "12:00:00"
    requires e.date == "2024-01-04" + " " + "12:00:00" && f.date == "2024-01-05" + " " + "12:00:00"
    requires g.date == "2024-01-06" + " " + "12:00:00"
    ensures Window([a, b, c, d, e, f, g]) == [a, c, d, e, f]
  {
    KeyOfSample(a, "2024-01-01", "12:00:00");
    KeyOfSample(b, "2024-01-01", "15:00:00");
    KeyOfSample(c, "2024-01-02", "12:00:00");
    KeyOfSample(d, "2024-01-03", "12:00:00");
    KeyOfSample(e, "2024-01-04", "12:00:00");
    KeyOfSample(f, "2024-01-05", "12:00:00");
    KeyOfSample(g, "2024-01-06", "12:00:00");
    WindowOfSevenSamples(a, b, c, d, e, f, g);
  }

  // ---------------------------------------------------------------------------
  // The use case

  /** `weatherData.copy(forecast = filteredForecast)`: only the forecast list is replaced. */
  function WithWindowedForecast(wd: WeatherData): (r: WeatherData)
    ensures r.location == wd.location && r.currentWeather == wd.currentWeather
    ensures r.forecast == Window(wd.forecast)
  {
    wd.(forecast := Window(wd.forecast))
  }

  /**
    `GetFiveDayForecastUseCase(lat, lon)` given the repository's forecast flow for those
    coordinates: every upstream value is windowed, and the result is wrapped by `toResult`.
   */
  function GetFiveDayForecast(upstream: Flow<WeatherData>): (r: seq<Result<WeatherData>>)
    ensures WellFormedStream(r)
    ensures |r| == 1 + |upstream.values| + (if upstream.failure.Some? then 1 else 0)
    ensures forall i :: 1 <= i <= |upstream.values| ==>
      && r[i].Success?
      && r[i].data.location == upstream.values[i - 1].location
      && r[i].data.currentWeather == upstream.values[i - 1].currentWeather
      && r[i].data.forecast == Window(upstream.values[i - 1].forecast)
    ensures upstream.failure.Some? ==> r[|r| - 1] == Error(ToAppError(upstream.failure.value))
  {
    var mapped := MapFlow(WithWindowedForecast, upstream);
    ToResultWellFormed(mapped);
    var r := ToResult(mapped);
    assert forall i :: 1 <= i <= |upstream.values| ==> r[i] == Success(mapped.values[i - 1]) by {
      forall i | 1 <= i <= |upstream.values| ensures r[i] == Success(mapped.values[i - 1]) {
        assert r[(i - 1) + 1] == Success(mapped.values[i - 1]);
      }
    }
    r
  }
}
