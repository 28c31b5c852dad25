/** `src/actions/report.ts`: the figures and the per-day chart of the
    dashboard's current month. The month's bounds, its list of days and the
    day a timestamp falls on are inputs (calendar arithmetic is not modelled). */
module DashboardStats {
  import opened JsText
  import opened Schema
  import opened SaleActions

  /** One chart point: the day and the amount sold on it. */
  datatype ChartPoint = ChartPoint(day: int, sales: int)

  datatype Stats = Stats(totalSales: int, totalExpenses: int, netIncome: int, newClients: nat, chartData: seq<ChartPoint>)

  /** The month's expenses: those dated within [start, end]. */
  function MonthExpenses(expenses: seq<Expense>, start: int, end: int): (r: seq<Expense>)
    ensures forall e :: e in r <==> e in expenses && start <= e.date <= end
  {
    if expenses == [] then []
    else
      var rest := MonthExpenses(expenses[..|expenses| - 1], start, end);
      var e := expenses[|expenses| - 1];
      assert expenses == expenses[..|expenses| - 1] + [e];
      if start <= e.date <= end then rest + [e] else rest
  }

  function AmountTotal(expenses: seq<Expense>): int {
    if expenses == [] then 0 else AmountTotal(expenses[..|expenses| - 1]) + expenses[|expenses| - 1].amount
  }

  /** The clients created within [start, end], in table order. */
  function CreatedIn(clients: seq<Client>, start: int, end: int): (r: seq<Client>)
    ensures forall c :: c in r <==> c in clients && start <= c.createdAt <= end
    ensures SubsequenceOf(r, clients)
  {
    if clients == [] then []
    else
      var rest := CreatedIn(clients[1..], start, end);
      if start <= clients[0].createdAt <= end then
        assert ([clients[0]] + rest)[1..] == rest;
        [clients[0]] + rest
      else rest
  }

  /** `prisma.client.count` over clients created within [start, end]. */
  function NewClients(clients: seq<Client>, start: int, end: int): (n: nat)
    ensures n == |CreatedIn(clients, start, end)|
    ensures n <= |clients|
    ensures n == 0 <==> forall c :: c in clients ==> !(start <= c.createdAt <= end)
  {
    if clients == [] then 0
    else NewClients(clients[1..], start, end) + (if start <= clients[0].createdAt <= end then 1 else 0)
  }

  /** The positions from `lo` on whose client was created within [start, end]. */
  function NewClientIndices(clients: seq<Client>, start: int, end: int, lo: nat): set<int> {
    set i | lo <= i < |clients| && start <= clients[i].createdAt <= end
  }

  /** The count is the number of client rows created within the month. */
  lemma NewClientsCount(clients: seq<Client>, start: int, end: int)
    ensures NewClients(clients, start, end) == |NewClientIndices(clients, start, end, 0)|
  {
    NewClientsFrom(clients, start, end, 0);
    assert clients[0..] == clients;
  }

  lemma {:induction false} NewClientsFrom(clients: seq<Client>, start: int, end: int, lo: nat)
    requires lo <= |clients|
    ensures NewClients(clients[lo..], start, end) == |NewClientIndices(clients, start, end, lo)|
    decreases |clients| - lo
  {
    if lo == |clients| {
      assert NewClientIndices(clients, start, end, lo) == {};
    } else {
      NewClientsFrom(clients, start, end, lo + 1);
      assert clients[lo..][1..] == clients[lo + 1..];
      var here := if start <= clients[lo].createdAt <= end then {lo} else {};
      assert NewClientIndices(clients, start, end, lo) == here + NewClientIndices(clients, start, end, lo + 1);
      assert lo !in NewClientIndices(clients, start, end, lo + 1);
    }
  }

  /** The amount sold on day `d`: `daySales.reduce((sum, s) => sum + s.total, 0)`. */
  function DayTotal(sales: seq<Sale>, dayOf: int -> int, d: int): int {
    if sales == [] then 0
    else DayTotal(sales[..|sales| - 1], dayOf, d) + (if dayOf(sales[|sales| - 1].createdAt) == d then sales[|sales| - 1].total else 0)
  }

  /** `days.map(...)`: one point per day, in day order. */
  function Chart(days: seq<int>, sales: seq<Sale>, dayOf: int -> int): (r: seq<ChartPoint>)
    ensures |r| == |days|
    ensures forall i :: 0 <= i < |days| ==> r[i] == ChartPoint(days[i], DayTotal(sales, dayOf, days[i]))
  {
    if days == [] then [] else [ChartPoint(days[0], DayTotal(sales, dayOf, days[0]))] + Chart(days[1..], sales, dayOf)
  }

  /** `getDashboardStats`, given the sales table, the expenses and clients, the
      month's bounds, the days of the month and the day of a timestamp. */
  function DashboardStats(all: seq<Sale>, expenses: seq<Expense>, clients: seq<Client>, start: int, end: int,
                          days: seq<int>, dayOf: int -> int): Stats {
    var sales := Fetched(all, start, end, None);
    var totalSales := SumTotals(sales);
    var totalExpenses := AmountTotal(MonthExpenses(expenses, start, end));
    Stats(totalSales, totalExpenses, totalSales - totalExpenses, NewClients(clients, start, end), Chart(days, sales, dayOf))
  }

  function ChartSum(points: seq<ChartPoint>): int {
    if points == [] then 0 else points[0].sales + ChartSum(points[1..])
  }

  predicate DistinctDays(days: seq<int>) {
    forall i, j :: 0 <= i < j < |days| ==> days[i] != days[j]
  }

  /** One more sale adds its amount to the chart once, on its own day. */
  lemma {:induction false} ChartSnoc(days: seq<int>, sales: seq<Sale>, s: Sale, dayOf: int -> int)
    requires DistinctDays(days)
    ensures ChartSum(Chart(days, sales + [s], dayOf))
      == ChartSum(Chart(days, sales, dayOf)) + (if dayOf(s.createdAt) in days then s.total else 0)
  {
    if days != [] {
      assert (sales + [s])[..|sales|] == sales;
      ChartSnoc(days[1..], sales, s, dayOf);
      if dayOf(s.createdAt) == days[0] {
        assert dayOf(s.createdAt) !in days[1..] by {
          forall j | 0 <= j < |days| - 1 ensures days[1..][j] != days[0] {
            assert days[j + 1] != days[0];
          }
        }
      }
    }
  }

  /** When the days are distinct and every sale falls on one of them, the
      chart adds up to the sum of the sales. */
  lemma {:induction false} ChartCoversSales(days: seq<int>, sales: seq<Sale>, dayOf: int -> int)
    requires DistinctDays(days)
    requires forall s :: s in sales ==> dayOf(s.createdAt) in days
    ensures ChartSum(Chart(days, sales, dayOf)) == SumTotals(sales)
  {
    if sales == [] {
      ChartOfNoSales(days, dayOf);
    } else {
      var init := sales[..|sales| - 1];
      var last := sales[|sales| - 1];
      assert sales == init + [last];
      assert forall s :: s in init ==> s in sales;
      ChartCoversSales(days, init, dayOf);
      ChartSnoc(days, init, last, dayOf);
    }
  }

  /** With no sales every point of the chart is zero, and so is its sum. */
  lemma {:induction false} ChartOfNoSales(days: seq<int>, dayOf: int -> int)
    ensures forall i :: 0 <= i < |days| ==> Chart(days, [], dayOf)[i].sales == 0
    ensures ChartSum(Chart(days, [], dayOf)) == 0
  {
    if days != [] {
      ChartOfNoSales(days[1..], dayOf);
    }
  }

  /** Every SALE row of the month counts, CANCELLED ones included; net income
      is sales minus expenses; the chart has one point per day, in order, and
      adds up to the total sales. */
  lemma DashboardStatsSpec(all: seq<Sale>, expenses: seq<Expense>, clients: seq<Client>, start: int, end: int,
                           days: seq<int>, dayOf: int -> int)
    requires DistinctDays(days)
    requires forall s :: s in all && start <= s.createdAt <= end ==> dayOf(s.createdAt) in days
    ensures var st := DashboardStats(all, expenses, clients, start, end, days, dayOf);
      && st.totalSales == SumTotals(Fetched(all, start, end, None))
      && (forall s :: s in Fetched(all, start, end, None) <==> s in all && s.saleType == SALE && start <= s.createdAt <= end)
      && st.netIncome == st.totalSales - st.totalExpenses
      && |st.chartData| == |days|
      && (forall i :: 0 <= i < |days| ==> st.chartData[i].day == days[i])
      && ChartSum(st.chartData) == st.totalSales
  {
    var sales := Fetched(all, start, end, None);
    ChartCoversSales(days, sales, dayOf);
  }
}
