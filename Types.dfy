/**
 * The records the dashboard reads from its database tables and builds from them.
 * Dates are day numbers (days since 1970-01-01); a nullable column is an `Option`.
 */
module Types {
  import opened Wrappers

  /** A calendar day, counted from 1970-01-01. */
  type Day = int

  /** One purchasing cycle (a row of the cycles table). */
  datatype Cycle = Cycle(
    id: int,
    requestId: int,          // solicitacao_compra_id
    branchId: int,           // filial_id
    weekStart: Day,          // semana_de
    weekEnd: Day,            // semana_ate
    totalPlanned: int,       // total_planejado
    totalRealized: int,      // total_realizado
    cancelled: bool,         // cancelado
    sentAt: Option<Day>,     // enviado_em
    concludedAt: Option<Day> // concluido_em
  )

  /** One day of a cycle (a row of the daily-records table); every column may be missing. */
  datatype DailyRecord = DailyRecord(
    requestId: int,
    referenceCost: Option<real>, // custo_referencia
    planned: Option<int>,        // planejado_quantidade
    realized: Option<int>,       // realizado_quantidade
    efficiency: Option<real>,    // eficiencia
    realizedCost: Option<real>   // custo_realizado
  )

  /** The consolidated figures of one cycle (a row of the metrics table, or derived from daily records). */
  datatype Metric = Metric(
    requestId: int,
    branchId: int,
    planned: Option<int>,       // total_planejado
    realized: Option<int>,      // total_realizado
    efficiency: real,           // eficiencia_producao
    realizedCost: real,         // custo_realizado
    costPerMeal: real           // custo_por_refeicao_real
  )

  /** One extra-order line (a row of the additions table). */
  datatype Addition = Addition(detailTotal: Option<real>)

  /** The lifecycle status shown for a cycle. */
  datatype CycleStatus = Planning | InProgress | Concluded | Cancelled

  /** A cycle joined with its derived metric and status. */
  datatype CycleWithMetric = CycleWithMetric(cycle: Cycle, metric: Option<Metric>, status: CycleStatus)

  /** The headline indicators of the dashboard. */
  datatype KpiData = KpiData(
    totalCycles: int,
    activeCycles: int,
    plannedMeals: int,
    realizedMeals: int,
    meanEfficiency: real,
    meanMealCost: real,
    additions: int,
    additionsValue: real
  )

  /** The status of one step of a cycle's lifecycle, ordered Pending < InProgress < Completed. */
  datatype PhaseStatus = Pending | Ongoing | Completed
  {
    function Rank(): nat {
      match this
      case Pending => 0
      case Ongoing => 1
      case Completed => 2
    }
  }

  /** An error returned by a query; `isError` says whether it is a JavaScript `Error` instance. */
  datatype DbError = DbError(message: string, isError: bool)

  /** The outcome of one query: the rows (possibly `null`) or an error. */
  datatype Fetch<T> = Fetched(rows: Option<seq<T>>) | FetchFailed(error: DbError)

  /** The `value || 0` idiom on a nullable number. */
  function OrZero(x: Option<int>): int {
    if x.Some? then x.value else 0
  }

  function OrZeroReal(x: Option<real>): real {
    if x.Some? then x.value else 0.0
  }

  /** The rows of a query, `null` read as no rows (`data || []`, `data?.forEach`). */
  function RowsOf<T>(rows: Option<seq<T>>): (r: seq<T>)
    ensures rows.None? ==> r == []
  {
    if rows.Some? then rows.value else []
  }

  /** The message a hook stores when a query throws: the error's own message, or a fixed fallback. */
  function ErrorText(e: DbError, fallback: string): (t: string)
    ensures e.isError ==> t == e.message
    ensures !e.isError ==> t == fallback
  {
    if e.isError then e.message else fallback
  }
}
