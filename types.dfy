/** The row records the forecasting engine consumes and produces (types.ts),
    with every date already reduced to its calendar month by the abstract
    date parse and every spreadsheet cell that may be missing as an Option. */
module Types {
  import opened Wrappers
  import opened Calendar

  datatype Phase = LaNina | ElNino | Neutral

  /** A row of the historical regional file (`HistoricalRow`): `Fecha` after
      `parseDate` (None when it does not parse) and `Gm_Promedio`. */
  datatype HistoricalRow = HistoricalRow(fecha: Option<YearMonth>, gmPromedio: Option<real>)

  /** The `Mes_Año` column of a projection row: absent or empty, or present
      with the month that `new Date(Mes_Año + "-01")` parses to (None for an
      invalid date). */
  datatype MesAnoColumn = NoMesAno | MesAno(parsed: Option<YearMonth>)

  /** A row of an exogenous file (`ExogenousRow`). `Embalses SIN %` is read by
      the source but never stored, so it is not part of the row here. */
  datatype ExogenousRow = ExogenousRow(
    fecha: Option<YearMonth>,
    mesAno: MesAnoColumn,
    precioGas: Option<real>,
    ipcIndice: Option<real>,
    trm: Option<real>,
    deficit: Option<real>,
    hidraulica: Option<real>,
    termica: Option<real>,
    faseEnso: Option<string>)

  /** `Mes_Año` of a previous-forecast row: a date cell or any other value,
      which `String(val)` turns into text. */
  datatype MonthCell = DateCell(date: YearMonth) | TextCell(text: string)

  /** A row of the previous-forecast file (`ForecastRow`). */
  datatype ForecastRow = ForecastRow(mesAno: MonthCell, gmPromedio: Option<real>)

  /** `ProcessedRow`. `gm_real` is always set by `transformRow`, so it is a
      plain number here; the other results are filled in stage by stage. */
  datatype ProcessedRow = ProcessedRow(
    date: YearMonth,
    mesAno: string,
    precioGas: real,
    ipc: real,
    trm: real,
    deficit: real,
    hidraulica: real,
    termicaXGas: real,
    fase: Phase,
    gmReal: real,
    gmFederico: Option<real>,
    gmV2: Option<real>,
    gmConsenso: Option<real>,
    gmV3: Option<real>,
    gmP10: Option<real>,
    gmP90: Option<real>)

  /** The six regression features, in the order of `featureKeys`. */
  function Features(r: ProcessedRow): seq<real>
  {
    [r.precioGas, r.ipc, r.trm, r.deficit, r.hidraulica, r.termicaXGas]
  }

  /** `metrics`; the percent difference is None where the mean previous
      forecast is 0 and the source divides by zero. */
  datatype Metrics = Metrics(
    v2Mean: real,
    federicoMean: real,
    consensoMean: real,
    v3Mean: real,
    diffV3FedericoPercent: Option<real>)

  datatype SimulationResult = SimulationResult(
    history: seq<ProcessedRow>,
    forecast: seq<ProcessedRow>,
    metrics: Metrics)

  /** The errors a run can end with. */
  datatype Error =
    | NoHistoricalOverlap   // no regional row joined an exogenous row
    | NoProjectionData      // no projection row dated 2026-01 or later
    | SingularMatrix        // mathjs `inv` threw while fitting a ridge model
}
