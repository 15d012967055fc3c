/** The dashboard figures for one persona: the visible rows, then eight metrics
    computed from them by filtering and summing. The instants the handler reads
    from the system clock (now, the first and last instant of the current month,
    and the instant thirty days ahead) are parameters. */
module DashboardMetricsView {
  import opened Schema
  import opened Selection

  /** The instants the handler takes from the clock, already converted from local calendar time. */
  datatype Clock = Clock(now: Timestamp, monthStart: Timestamp, monthEnd: Timestamp, thirtyDaysOut: Timestamp)

  /** Which rows the dashboard aggregates: `IC` and `Manager` alike see the rows
      assigned to `userId`; `Executive` sees every row. */
  function DashboardVisible(opps: seq<SalesOpportunity>, userId: string, persona: Persona): (r: seq<SalesOpportunity>)
    ensures persona == Persona.Executive ==> r == opps
    ensures persona != Persona.Executive ==> forall o :: o in r <==> o in opps && o.assignedToId == userId
  {
    if persona.Executive? then opps else AssignedTo(opps, userId)
  }

  /** The dashboard's `Manager` view is the `IC` view of the same user: no team is consulted. */
  lemma ManagerDashboardIsOwnRows(opps: seq<SalesOpportunity>, userId: string)
    ensures DashboardVisible(opps, userId, Manager) == DashboardVisible(opps, userId, Persona.IC)
  {
  }

  /** The win rate in hundredths of a percent: `won / closed * 100` rounded half up
      to two decimals, and zero when nothing is closed. */
  function WinRateHundredths(won: nat, closed: nat): (r: int)
    ensures closed == 0 ==> r == 0
    ensures won <= closed ==> 0 <= r <= 10000
    ensures 0 < closed && won == closed ==> r == 10000
    ensures won == 0 ==> r == 0
  {
    if closed == 0 then 0
    else
      WinRateRange(won, closed);
      (20000 * won + closed) / (2 * closed)
  }

  lemma WinRateRange(won: nat, closed: nat)
    requires closed > 0
    ensures var r := (20000 * won + closed) / (2 * closed);
      && (won <= closed ==> 0 <= r <= 10000)
      && (won == closed ==> r == 10000)
      && (won == 0 ==> r == 0)
  {
    var d := 2 * closed;
    var n := 20000 * won + closed;
    var r := n / d;
    DivBounds(n, d);
    if won <= closed {
      assert n < d * 10001 by {
        assert 20000 * won <= 20000 * closed;
      }
    }
    if won == closed {
      assert n == d * 10000 + closed;
      DivUnique(n, d, 10000);
    }
    if won == 0 {
      DivUnique(n, d, 0);
    }
  }

  /** The rounded win rate is within half a hundredth of a percent of the exact
      ratio `10000 * won / closed`. */
  lemma WinRateIsNearest(won: nat, closed: nat)
    requires closed > 0
    ensures var r := WinRateHundredths(won, closed);
      && 2 * (10000 * won - closed * r) < closed
      && 2 * (closed * r - 10000 * won) <= closed
  {
    var d := 2 * closed;
    var n := 20000 * won + closed;
    var r := n / d;
    DivBounds(n, d);
    assert d * r == 2 * (closed * r);
  }

  lemma DivBounds(n: int, d: int)
    requires d > 0
    ensures n >= 0 ==> 0 <= n / d
    ensures d * (n / d) <= n < d * (n / d) + d
  {
  }

  lemma DivUnique(n: int, d: int, q: int)
    requires d > 0 && d * q <= n < d * q + d
    ensures n / d == q
  {
    DivBounds(n, d);
    var r := n / d;
    if r < q {
      MulMonotone(d, r + 1, q);
    } else if r > q {
      MulMonotone(d, q + 1, r);
    }
  }

  lemma MulMonotone(d: int, a: int, b: int)
    requires d > 0 && a <= b
    ensures d * a <= d * b
  {
    assert d * b - d * a == d * (b - a);
  }

  /** The eight metrics over the visible rows. */
  function Metrics(visible: seq<SalesOpportunity>, clock: Clock): (m: DashboardMetrics)
    ensures ValidMetrics(m)
    ensures m.activitiesCompleted == 0
    ensures m.openOpportunities + m.opportunitiesWon + |InStages(visible, {ClosedLost})| == |visible|
    ensures m.pipelineValue + TotalAmount(InStages(visible, ClosedStages)) == TotalAmount(visible)
    ensures m.closedWonThisMonth <= m.opportunitiesWon
    ensures m.upcomingActivities <= m.openOpportunities
    ensures AllValid(visible) ==> 0.0 <= m.forecastedRevenue <= m.pipelineValue as real
    ensures |InStages(visible, ClosedStages)| == 0 ==> m.winRate == 0.0
    ensures m.opportunitiesWon == |InStages(visible, ClosedStages)| > 0 ==> m.winRate == 100.0
    ensures visible == [] ==> m == DashboardMetrics(0, 0, 0, 0.0, 0, 0, 0.0, 0)
  {
    var open := InStages(visible, OpenStages);
    var won := InStages(visible, {ClosedWon});
    var closed := InStages(visible, ClosedStages);
    OpenWonLostPartition(visible);
    InStagesSplit(visible, OpenStages, ClosedStages);
    assert OpenStages + ClosedStages == AllStages;
    InAllStages(visible);
    AllValidOpen(visible);
    DashboardMetrics(
      pipelineValue := TotalAmount(open),
      opportunitiesWon := |won|,
      activitiesCompleted := 0,
      winRate := WinRateHundredths(|won|, |closed|) as real / 100.0,
      openOpportunities := |open|,
      closedWonThisMonth := |CreatedBetween(won, clock.monthStart, clock.monthEnd)|,
      forecastedRevenue := WeightedAmount(open) as real / 100.0,
      upcomingActivities := |ClosingBetween(open, clock.now, clock.thirtyDaysOut)|)
  }

  lemma AllValidOpen(visible: seq<SalesOpportunity>)
    ensures AllValid(visible) ==> 0 <= WeightedAmount(InStages(visible, OpenStages)) <= 100 * TotalAmount(InStages(visible, OpenStages))
  {
    if AllValid(visible) {
      WeightedAmountBounds(InStages(visible, OpenStages));
    }
  }

  /** The dashboard handler: the persona's visible rows, then the metrics. */
  function GetDashboardMetrics(opps: seq<SalesOpportunity>, userId: string, persona: Persona, clock: Clock): (m: DashboardMetrics)
    ensures ValidMetrics(m)
    ensures var visible := DashboardVisible(opps, userId, persona);
      m.openOpportunities + m.opportunitiesWon + |InStages(visible, {ClosedLost})| == |visible|
    ensures AllValid(opps) ==> 0.0 <= m.forecastedRevenue <= m.pipelineValue as real
    ensures persona != Persona.Executive && (forall o :: o in opps ==> o.assignedToId != userId) ==>
      m == DashboardMetrics(0, 0, 0, 0.0, 0, 0, 0.0, 0)
  {
    var visible := DashboardVisible(opps, userId, persona);
    assert AllValid(opps) ==> AllValid(visible);
    Metrics(visible, clock)
  }

  /** One open deal of 10 000.00 at 50% closing in fifteen days, one won deal and
      one lost deal, all assigned to the asking `IC` user. */
  lemma ThreeDealExample()
    ensures var deals := [
        SalesOpportunity("opp1", "Open Deal 1", Qualification, 1_000_000, 15, "user1", "Customer A", 0, 50, 0),
        SalesOpportunity("opp2", "Won Deal", ClosedWon, 500_000, 0, "user1", "Customer B", 0, 100, 0),
        SalesOpportunity("opp3", "Lost Deal", ClosedLost, 300_000, 0, "user1", "Customer C", 0, 0, 0)];
      GetDashboardMetrics(deals, "user1", Persona.IC, Clock(0, -10, 10, 30))
        == DashboardMetrics(1_000_000, 1, 0, 50.0, 1, 1, 500_000.0, 1)
  {
    var deals := [
        SalesOpportunity("opp1", "Open Deal 1", Qualification, 1_000_000, 15, "user1", "Customer A", 0, 50, 0),
        SalesOpportunity("opp2", "Won Deal", ClosedWon, 500_000, 0, "user1", "Customer B", 0, 100, 0),
        SalesOpportunity("opp3", "Lost Deal", ClosedLost, 300_000, 0, "user1", "Customer C", 0, 0, 0)];
    assert deals[1..][1..][1..] == [];
    assert AssignedTo(deals, "user1") == deals;
    assert InStages(deals, OpenStages) == [deals[0]];
    assert InStages(deals, {ClosedWon}) == [deals[1]];
    assert InStages(deals, ClosedStages) == [deals[1], deals[2]];
    assert WinRateHundredths(1, 2) == 5000;
    assert TotalAmount([deals[0]]) == 1_000_000;
    assert WeightedAmount([deals[0]]) == 50_000_000;
    assert CreatedBetween([deals[1]], -10, 10) == [deals[1]];
    assert ClosingBetween([deals[0]], 0, 30) == [deals[0]];
    var m := Metrics(deals, Clock(0, -10, 10, 30));
    assert m.pipelineValue == 1_000_000;
    assert m.winRate == 50.0;
    assert m.forecastedRevenue == 500_000.0;
    assert m.closedWonThisMonth == 1;
    assert m.upcomingActivities == 1;
  }
}
