/** Steps 2 and 4 of `processFiles` (services/processor.ts) that line the
    files up by month: the exogenous lookup map, the historical join before
    November 2025, the previous-forecast map from 2026-01 on, and the choice
    of projection rows from January 2026 on. */
module Alignment {
  import opened Wrappers
  import opened Calendar
  import opened Types
  import opened RowTransform

  /** A `Map` filled with `set` in row order: a row without a key is skipped,
      and a later row overwrites an earlier one with the same key. */
  function IndexBy<T, V>(rows: seq<T>, key: T -> Option<string>, val: T -> V): map<string, V>
  {
    if rows == [] then map[]
    else
      var n := |rows| - 1;
      var m := IndexBy(rows[..n], key, val);
      match key(rows[n])
      case Some(k) => m[k := val(rows[n])]
      case None => m
  }

  /** A key is in the map exactly when some row carries it. */
  lemma {:induction false} IndexByKeys<T, V>(rows: seq<T>, key: T -> Option<string>, val: T -> V, k: string)
    ensures k in IndexBy(rows, key, val) <==> exists i :: 0 <= i < |rows| && key(rows[i]) == Some(k)
  {
    if rows != [] {
      var n := |rows| - 1;
      IndexByKeys(rows[..n], key, val, k);
      if exists i :: 0 <= i < n && key(rows[..n][i]) == Some(k) {
        var i :| 0 <= i < n && key(rows[..n][i]) == Some(k);
        assert key(rows[i]) == Some(k);
      }
      if exists i :: 0 <= i < |rows| && key(rows[i]) == Some(k) {
        var i :| 0 <= i < |rows| && key(rows[i]) == Some(k);
        if i < n {
          assert key(rows[..n][i]) == Some(k);
        }
      }
    }
  }

  /** The value stored under a key comes from the last row carrying that key. */
  lemma {:induction false} IndexByLastWins<T, V>(rows: seq<T>, key: T -> Option<string>, val: T -> V, i: nat)
    requires i < |rows| && key(rows[i]).Some?
    requires forall j :: i < j < |rows| ==> key(rows[j]) != key(rows[i])
    ensures key(rows[i]).value in IndexBy(rows, key, val)
    ensures IndexBy(rows, key, val)[key(rows[i]).value] == val(rows[i])
  {
    var n := |rows| - 1;
    if i < n {
      forall j | i < j < n
        ensures key(rows[..n][j]) != key(rows[..n][i])
      {
        assert rows[..n][j] == rows[j];
      }
      assert rows[..n][i] == rows[i];
      IndexByLastWins(rows[..n], key, val, i);
    }
  }

  /** The key under which `exogMap` stores a row: its parsed month, if any. */
  function ExogKey(row: ExogenousRow): Option<string>
  {
    match row.fecha
    case Some(d) => Some(MonthKey(d))
    case None => None
  }

  function ExogRow(row: ExogenousRow): ExogenousRow
  {
    row
  }

  /** `exogMap` after every historical exogenous row has been set. */
  function ExogIndex(rows: seq<ExogenousRow>): map<string, ExogenousRow>
  {
    IndexBy(rows, ExogKey, ExogRow)
  }

  /** The `forEach` that fills `exogMap`. */
  method BuildExogMap(rows: seq<ExogenousRow>) returns (m: map<string, ExogenousRow>)
    ensures m == ExogIndex(rows)
  {
    m := map[];
    for i := 0 to |rows|
      invariant m == IndexBy(rows[..i], ExogKey, ExogRow)
    {
      assert rows[..i + 1][..i] == rows[..i];
      var row := rows[i];
      if row.fecha.Some? {
        m := m[MonthKey(row.fecha.value) := row];
      }
    }
    assert rows[..|rows|] == rows;
  }

  /** Row i is the last exogenous row dated in the month with this key. */
  predicate LastExogFor(rows: seq<ExogenousRow>, i: nat, key: string)
    requires i < |rows|
  {
    ExogKey(rows[i]) == Some(key) && forall j :: i < j < |rows| ==> ExogKey(rows[j]) != Some(key)
  }

  /** For a month, the last historical exogenous row dated in that month is
      the one the join uses, and a month no row is dated in has no entry. */
  lemma ExogIndexLastWins(rows: seq<ExogenousRow>, d: YearMonth)
    ensures (forall i :: 0 <= i < |rows| ==> ExogKey(rows[i]) != Some(MonthKey(d))) ==> MonthKey(d) !in ExogIndex(rows)
    ensures forall i | 0 <= i < |rows| && LastExogFor(rows, i, MonthKey(d)) ::
      MonthKey(d) in ExogIndex(rows) && ExogIndex(rows)[MonthKey(d)] == rows[i]
  {
    IndexByKeys(rows, ExogKey, ExogRow, MonthKey(d));
    forall i | 0 <= i < |rows| && LastExogFor(rows, i, MonthKey(d))
      ensures MonthKey(d) in ExogIndex(rows) && ExogIndex(rows)[MonthKey(d)] == rows[i]
    {
      IndexByLastWins(rows, ExogKey, ExogRow, i);
    }
  }

  /** `cutoffDate`: history stops before November 2025. */
  const Cutoff := YearMonth(2025, 11)

  /** Whether a regional row enters the history: its date parses, lies before
      the cutoff, has an exogenous row for its month, and the row has a
      `Gm_Promedio`. */
  predicate Joins(r: HistoricalRow, exog: map<string, ExogenousRow>)
  {
    && r.fecha.Some?
    && Before(r.fecha.value, Cutoff)
    && MonthKey(r.fecha.value) in exog
    && r.gmPromedio.Some?
  }

  /** The history row a joining regional row becomes. */
  function JoinRow(r: HistoricalRow, exog: map<string, ExogenousRow>): ProcessedRow
    requires Joins(r, exog)
  {
    TransformRow(r.fecha.value, r.gmPromedio.value, exog[MonthKey(r.fecha.value)])
  }

  /** `historicalRows`: the joining regional rows, in file order. */
  function Joined(regional: seq<HistoricalRow>, exog: map<string, ExogenousRow>): (h: seq<ProcessedRow>)
    ensures |h| <= |regional|
  {
    if regional == [] then []
    else
      var n := |regional| - 1;
      Joined(regional[..n], exog) + (if Joins(regional[n], exog) then [JoinRow(regional[n], exog)] else [])
  }

  /** The `forEach` over the regional rows that fills `historicalRows`. */
  method AlignHistorical(regional: seq<HistoricalRow>, exog: map<string, ExogenousRow>)
    returns (rows: seq<ProcessedRow>)
    ensures rows == Joined(regional, exog)
  {
    rows := [];
    for i := 0 to |regional|
      invariant rows == Joined(regional[..i], exog)
    {
      assert regional[..i + 1][..i] == regional[..i];
      var regRow := regional[i];
      if regRow.fecha.None? {
        continue;
      }
      var d := regRow.fecha.value;
      if !Before(d, Cutoff) {
        continue;
      }
      var key := MonthKey(d);
      if key in exog && regRow.gmPromedio.Some? {
        rows := rows + [TransformRow(d, regRow.gmPromedio.value, exog[key])];
      }
    }
    assert regional[..|regional|] == regional;
  }

  /** The join works row by row: joining two files one after the other gives
      the two histories one after the other, so file order is kept. */
  lemma {:induction false} JoinedConcat(a: seq<HistoricalRow>, b: seq<HistoricalRow>, exog: map<string, ExogenousRow>)
    ensures Joined(a + b, exog) == Joined(a, exog) + Joined(b, exog)
    decreases |b|
  {
    if b == [] {
      assert a + b == a;
    } else {
      var n := |b| - 1;
      assert (a + b)[..|a + b| - 1] == a + b[..n];
      JoinedConcat(a, b[..n], exog);
    }
  }

  /** Every history row comes from a joining regional row, lies before the
      cutoff and has an exogenous row for its month. */
  lemma {:induction false} JoinedSound(regional: seq<HistoricalRow>, exog: map<string, ExogenousRow>)
    ensures forall k :: 0 <= k < |Joined(regional, exog)| ==>
      && Before(Joined(regional, exog)[k].date, Cutoff)
      && Joined(regional, exog)[k].mesAno in exog
      && exists i :: 0 <= i < |regional| && Joins(regional[i], exog) && Joined(regional, exog)[k] == JoinRow(regional[i], exog)
  {
    if regional != [] {
      var n := |regional| - 1;
      JoinedSound(regional[..n], exog);
      var prefix := Joined(regional[..n], exog);
      var joined := Joined(regional, exog);
      assert joined == prefix + (if Joins(regional[n], exog) then [JoinRow(regional[n], exog)] else []);
      forall k | 0 <= k < |joined|
        ensures Before(joined[k].date, Cutoff) && joined[k].mesAno in exog
        ensures exists i :: 0 <= i < |regional| && Joins(regional[i], exog) && joined[k] == JoinRow(regional[i], exog)
      {
        if k < |prefix| {
          var i :| 0 <= i < n && Joins(regional[..n][i], exog) && prefix[k] == JoinRow(regional[..n][i], exog);
          assert regional[..n][i] == regional[i];
        } else {
          assert joined[k] == JoinRow(regional[n], exog);
        }
      }
    }
  }

  /** Every joining regional row is in the history. */
  lemma {:induction false} JoinedComplete(regional: seq<HistoricalRow>, exog: map<string, ExogenousRow>, i: nat)
    requires i < |regional| && Joins(regional[i], exog)
    ensures JoinRow(regional[i], exog) in Joined(regional, exog)
  {
    var n := |regional| - 1;
    if i < n {
      assert regional[..n][i] == regional[i];
      JoinedComplete(regional[..n], exog, i);
    }
  }

  /** The history is empty exactly when no regional row joins; this is the
      "no overlapping historical data" error. */
  lemma JoinedEmpty(regional: seq<HistoricalRow>, exog: map<string, ExogenousRow>)
    ensures Joined(regional, exog) == [] <==> forall i :: 0 <= i < |regional| ==> !Joins(regional[i], exog)
  {
    if Joined(regional, exog) == [] {
      forall i | 0 <= i < |regional|
        ensures !Joins(regional[i], exog)
      {
        if Joins(regional[i], exog) {
          JoinedComplete(regional, exog, i);
        }
      }
    } else {
      JoinedSound(regional, exog);
      assert |Joined(regional, exog)| > 0;
    }
  }

  /** The previous forecasts are keyed from this month on. */
  const ProjectionStartKey: string := "2026-01"

  /** The text a `Mes_Año` cell becomes: `formatMonthYear` of a date cell,
      `String(val)` of anything else. */
  function ForecastCellKey(r: ForecastRow): string
  {
    match r.mesAno
    case DateCell(d) => MonthKey(d)
    case TextCell(t) => t
  }

  /** The key under which `prevForecastMap` stores a row: its text, when that
      compares as a string at or after "2026-01". */
  function ForecastKey(r: ForecastRow): Option<string>
  {
    var k := ForecastCellKey(r);
    if StrAtLeast(k, ProjectionStartKey) then Some(k) else None
  }

  function ForecastValue(r: ForecastRow): Option<real>
  {
    r.gmPromedio
  }

  /** `prevForecastMap` after every previous-forecast row has been seen. */
  function ForecastIndex(rows: seq<ForecastRow>): map<string, Option<real>>
  {
    IndexBy(rows, ForecastKey, ForecastValue)
  }

  /** The `forEach` that fills `prevForecastMap`. */
  method BuildForecastMap(rows: seq<ForecastRow>) returns (m: map<string, Option<real>>)
    ensures m == ForecastIndex(rows)
  {
    m := map[];
    for i := 0 to |rows|
      invariant m == IndexBy(rows[..i], ForecastKey, ForecastValue)
    {
      assert rows[..i + 1][..i] == rows[..i];
      var r := rows[i];
      var key := "";
      match r.mesAno {
        case DateCell(d) => key := MonthKey(d);
        case TextCell(t) => key := t;
      }
      if StrAtLeast(key, ProjectionStartKey) {
        m := m[key := r.gmPromedio];
      }
    }
    assert rows[..|rows|] == rows;
  }

  /** `prevForecastMap.get(key) || 0`. */
  function UserForecast(prev: map<string, Option<real>>, key: string): real
  {
    if key in prev then prev[key].GetOr(0.0) else 0.0
  }

  /** Row i is the last previous-forecast row whose `Mes_Año` reads as this key. */
  predicate LastForecastFor(rows: seq<ForecastRow>, i: nat, key: string)
    requires i < |rows|
  {
    ForecastCellKey(rows[i]) == key && forall j :: i < j < |rows| ==> ForecastCellKey(rows[j]) != key
  }

  /** The user's forecast for a month from January 2026 on is the value of the
      last previous-forecast row for that month, 0 when that row has no value
      or when no row names the month. */
  lemma UserForecastLookup(rows: seq<ForecastRow>, d: YearMonth)
    requires FourDigitYear(d) && !Before(d, YearMonth(2026, 1))
    ensures (forall j :: 0 <= j < |rows| ==> ForecastCellKey(rows[j]) != MonthKey(d)) ==>
      UserForecast(ForecastIndex(rows), MonthKey(d)) == 0.0
    ensures forall i | 0 <= i < |rows| && LastForecastFor(rows, i, MonthKey(d)) ::
      UserForecast(ForecastIndex(rows), MonthKey(d)) == rows[i].gmPromedio.GetOr(0.0)
  {
    var key := MonthKey(d);
    MonthKeyOrder(d, YearMonth(2026, 1));
    January2026Key();
    assert StrAtLeast(key, ProjectionStartKey);
    IndexByKeys(rows, ForecastKey, ForecastValue, key);
    forall i | 0 <= i < |rows| && LastForecastFor(rows, i, key)
      ensures UserForecast(ForecastIndex(rows), key) == rows[i].gmPromedio.GetOr(0.0)
    {
      IndexByLastWins(rows, ForecastKey, ForecastValue, i);
    }
  }

  /** A previous-forecast month before 2026 never enters the map. */
  lemma EarlyForecastIgnored(rows: seq<ForecastRow>, d: YearMonth)
    requires FourDigitYear(d) && Before(d, YearMonth(2026, 1))
    ensures MonthKey(d) !in ForecastIndex(rows)
  {
    MonthKeyOrder(d, YearMonth(2026, 1));
    January2026Key();
    IndexByKeys(rows, ForecastKey, ForecastValue, MonthKey(d));
  }

  /** Projections start in January 2026. */
  const ProjectionStart := YearMonth(2026, 1)

  /** The month of a projection row: from `Mes_Año` when that column is
      filled, else from `Fecha`. */
  function ProjectionDate(row: ExogenousRow): Option<YearMonth>
  {
    match row.mesAno
    case MesAno(parsed) => parsed
    case NoMesAno => row.fecha
  }

  /** Whether a projection row is used: its month parses and is not before
      January 2026. */
  predicate Projects(row: ExogenousRow)
  {
    ProjectionDate(row).Some? && !Before(ProjectionDate(row).value, ProjectionStart)
  }

  /** The projection rows that are used, in file order. */
  function ProjectedRows(rows: seq<ExogenousRow>): (p: seq<ExogenousRow>)
  {
    if rows == [] then []
    else
      var n := |rows| - 1;
      ProjectedRows(rows[..n]) + (if Projects(rows[n]) then [rows[n]] else [])
  }

  /** Filtering works row by row, so the used rows keep their file order
      and multiplicity. */
  lemma {:induction false} ProjectedRowsConcat(a: seq<ExogenousRow>, b: seq<ExogenousRow>)
    ensures ProjectedRows(a + b) == ProjectedRows(a) + ProjectedRows(b)
    decreases |b|
  {
    if b == [] {
      assert a + b == a;
    } else {
      var n := |b| - 1;
      assert (a + b)[..|a + b| - 1] == a + b[..n];
      ProjectedRowsConcat(a, b[..n]);
    }
  }

  /** The rows kept are exactly the used ones: each kept row projects, and
      each projecting row is kept. */
  lemma {:induction false} ProjectedRowsExact(rows: seq<ExogenousRow>)
    ensures forall k :: 0 <= k < |ProjectedRows(rows)| ==> Projects(ProjectedRows(rows)[k]) && ProjectedRows(rows)[k] in rows
    ensures forall i :: 0 <= i < |rows| && Projects(rows[i]) ==> rows[i] in ProjectedRows(rows)
  {
    if rows != [] {
      var n := |rows| - 1;
      ProjectedRowsExact(rows[..n]);
      assert forall i :: 0 <= i < n ==> rows[..n][i] == rows[i];
      assert forall x :: x in rows[..n] ==> x in rows;
    }
  }
}
