/** The two constant lookup tables from a month or day abbreviation to the
    one-hot column that encodes it (app.py:50-61), the prefix test that marks
    a column as categorical (app.py:73), and the user's two selections. */
module CategoricalMaps {
  import opened PyValues

  const MonthPrefix: string := "month_"
  const DayPrefix: string := "day_"

  /** `month_map`: month abbreviation to encoded column name. */
  const MonthMap: map<string, string> := map[
    "jan" := "month_jan", "feb" := "month_feb", "mar" := "month_mar",
    "apr" := "month_apr", "may" := "month_may", "jun" := "month_jun",
    "jul" := "month_jul", "aug" := "month_aug", "sep" := "month_sep",
    "oct" := "month_oct", "nov" := "month_nov", "dec" := "month_dec"
  ]

  /** `day_map`: day abbreviation to encoded column name. */
  const DayMap: map<string, string> := map[
    "mon" := "day_mon", "tue" := "day_tue", "wed" := "day_wed",
    "thu" := "day_thu", "fri" := "day_fri",
    "sat" := "day_sat", "sun" := "day_sun"
  ]

  /** Python's `s.startswith(prefix)`. */
  predicate StartsWith(s: string, prefix: string)
  {
    prefix <= s
  }

  /** The test of app.py:73: a column that the initialisation loop sets to 0. */
  predicate IsCategoricalColumn(col: string)
  {
    StartsWith(col, MonthPrefix) || StartsWith(col, DayPrefix)
  }

  /** A selection from the month select box, whose options are the keys of
      `month_map`; likewise for days. */
  datatype Month = Jan | Feb | Mar | Apr | May | Jun | Jul | Aug | Sep | Oct | Nov | Dec
  datatype Day = Mon | Tue | Wed | Thu | Fri | Sat | Sun

  /** The select-box option (a key of `month_map`) that a month stands for. */
  function MonthKey(m: Month): (key: string)
    ensures key in MonthMap
  {
    match m
    case Jan => "jan" case Feb => "feb" case Mar => "mar"
    case Apr => "apr" case May => "may" case Jun => "jun"
    case Jul => "jul" case Aug => "aug" case Sep => "sep"
    case Oct => "oct" case Nov => "nov" case Dec => "dec"
  }

  /** The select-box option (a key of `day_map`) that a day stands for. */
  function DayKey(d: Day): (key: string)
    ensures key in DayMap
  {
    match d
    case Mon => "mon" case Tue => "tue" case Wed => "wed"
    case Thu => "thu" case Fri => "fri" case Sat => "sat" case Sun => "sun"
  }

  /** Which month a select-box option denotes; `None` for a string that is
      not an option. */
  function MonthFromKey(key: string): (m: Option<Month>)
    ensures m.Some? <==> key in MonthMap
    ensures m.Some? ==> MonthKey(m.value) == key
  {
    if key == "jan" then Some(Jan) else if key == "feb" then Some(Feb)
    else if key == "mar" then Some(Mar) else if key == "apr" then Some(Apr)
    else if key == "may" then Some(May) else if key == "jun" then Some(Jun)
    else if key == "jul" then Some(Jul) else if key == "aug" then Some(Aug)
    else if key == "sep" then Some(Sep) else if key == "oct" then Some(Oct)
    else if key == "nov" then Some(Nov) else if key == "dec" then Some(Dec)
    else None
  }

  /** Which day a select-box option denotes; `None` for a string that is not
      an option. */
  function DayFromKey(key: string): (d: Option<Day>)
    ensures d.Some? <==> key in DayMap
    ensures d.Some? ==> DayKey(d.value) == key
  {
    if key == "mon" then Some(Mon) else if key == "tue" then Some(Tue)
    else if key == "wed" then Some(Wed) else if key == "thu" then Some(Thu)
    else if key == "fri" then Some(Fri) else if key == "sat" then Some(Sat)
    else if key == "sun" then Some(Sun)
    else None
  }

  /** `month_map[selected_month]`: the lookup always succeeds, and the column
      is the key behind the month prefix, so it passes the categorical test. */
  function MonthColumn(m: Month): (col: string)
    ensures col == MonthPrefix + MonthKey(m)
    ensures IsCategoricalColumn(col) && StartsWith(col, MonthPrefix)
  {
    MonthMap[MonthKey(m)]
  }

  /** `day_map[selected_day]`: the lookup always succeeds, and the column is
      the key behind the day prefix, so it passes the categorical test. */
  function DayColumn(d: Day): (col: string)
    ensures col == DayPrefix + DayKey(d)
    ensures IsCategoricalColumn(col) && StartsWith(col, DayPrefix)
  {
    DayMap[DayKey(d)]
  }

  /** Every option of the month select box is a month and back again, so the
      enumeration and the keys of `month_map` are the same twelve values. */
  lemma MonthKeyRoundTrip(m: Month)
    ensures MonthFromKey(MonthKey(m)) == Some(m)
  {
    match m
    case Jan => case Feb => case Mar => case Apr => case May => case Jun =>
    case Jul => case Aug => case Sep => case Oct => case Nov => case Dec =>
  }

  /** The same for the seven days. */
  lemma DayKeyRoundTrip(d: Day)
    ensures DayFromKey(DayKey(d)) == Some(d)
  {
    match d
    case Mon => case Tue => case Wed => case Thu => case Fri => case Sat => case Sun =>
  }

  /** Each value of `month_map` is its key behind the month prefix, and so
      passes the categorical test. */
  lemma MonthMapValues()
    ensures forall k :: k in MonthMap ==> MonthMap[k] == MonthPrefix + k
    ensures forall k :: k in MonthMap ==> IsCategoricalColumn(MonthMap[k])
  {
  }

  /** `month_map` has exactly 12 entries. */
  lemma MonthMapSize()
    ensures |MonthMap| == 12
  {
    // Twelve insertions, each of a key not yet present.
    var m: map<string, string> := map[];
    m := m["jan" := "month_jan"]; assert |m| == 1;
    m := m["feb" := "month_feb"]; assert |m| == 2;
    m := m["mar" := "month_mar"]; assert |m| == 3;
    m := m["apr" := "month_apr"]; assert |m| == 4;
    m := m["may" := "month_may"]; assert |m| == 5;
    m := m["jun" := "month_jun"]; assert |m| == 6;
    m := m["jul" := "month_jul"]; assert |m| == 7;
    m := m["aug" := "month_aug"]; assert |m| == 8;
    m := m["sep" := "month_sep"]; assert |m| == 9;
    m := m["oct" := "month_oct"]; assert |m| == 10;
    m := m["nov" := "month_nov"]; assert |m| == 11;
    m := m["dec" := "month_dec"]; assert |m| == 12;
    assert m == MonthMap;
  }

  /** Each value of `day_map` is its key behind the day prefix, and so passes
      the categorical test. */
  lemma DayMapValues()
    ensures forall k :: k in DayMap ==> DayMap[k] == DayPrefix + k
    ensures forall k :: k in DayMap ==> IsCategoricalColumn(DayMap[k])
  {
  }

  /** `day_map` has exactly 7 entries. */
  lemma DayMapSize()
    ensures |DayMap| == 7
  {
  }

  /** Distinct selections encode to distinct columns, and no month column is a
      day column: a month column never starts with the day prefix and a day
      column never starts with the month prefix. */
  lemma ColumnsDistinct(m1: Month, m2: Month, d1: Day, d2: Day)
    ensures MonthColumn(m1) == MonthColumn(m2) ==> m1 == m2
    ensures DayColumn(d1) == DayColumn(d2) ==> d1 == d2
    ensures !StartsWith(MonthColumn(m1), DayPrefix)
    ensures !StartsWith(DayColumn(d1), MonthPrefix)
  {
    if MonthColumn(m1) == MonthColumn(m2) {
      assert MonthKey(m1) == MonthColumn(m1)[|MonthPrefix|..];
      MonthKeyRoundTrip(m1);
      MonthKeyRoundTrip(m2);
    }
    if DayColumn(d1) == DayColumn(d2) {
      assert DayKey(d1) == DayColumn(d1)[|DayPrefix|..];
      DayKeyRoundTrip(d1);
      DayKeyRoundTrip(d2);
    }
    assert MonthColumn(m1)[0] == 'm';
    assert DayColumn(d1)[0] == 'd';
  }
}
