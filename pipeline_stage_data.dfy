/** The group-by-stage view: the persona's visible rows, grouped by stage, one
    row per stage that has at least one visible opportunity, carrying the count
    and the summed amount, ordered by the stage enumeration's declaration order. */
module PipelineStageDataView {
  import opened Schema
  import opened Tables
  import opened Selection
  import DashboardMetricsView

  /** The opportunity's assignee is a stored user with role `IC`: the inner join on
      the users table followed by the role condition. This reads the join as a
      test, which is exact because the users' primary key lets at most one user
      match; with two users under one id the join would count the row twice. */
  predicate JoinsIcUser(users: seq<User>, o: SalesOpportunity) {
    exists k :: 0 <= k < |users| && users[k].id == o.assignedToId && users[k].role == UserRole.IC
  }

  /** Rows whose assignee joins to a user with role `IC`; rows with a dangling assignee drop out. */
  function AssignedToIcUsers(users: seq<User>, opps: seq<SalesOpportunity>): (r: seq<SalesOpportunity>)
    ensures |r| <= |opps|
    ensures forall o :: o in r <==> o in opps && JoinsIcUser(users, o)
  {
    if opps == [] then []
    else if JoinsIcUser(users, opps[0]) then [opps[0]] + AssignedToIcUsers(users, opps[1..])
    else AssignedToIcUsers(users, opps[1..])
  }

  /** Which rows the stage view aggregates: `IC` sees the rows assigned to
      `userId`; `Manager` sees every row assigned to any `IC` user and ignores
      `userId`; `Executive` sees every row. */
  function PipelineVisible(users: seq<User>, opps: seq<SalesOpportunity>, userId: string, persona: Persona): (r: seq<SalesOpportunity>)
    ensures persona == Persona.IC ==> forall o :: o in r <==> o in opps && o.assignedToId == userId
    ensures persona == Manager ==> forall o :: o in r <==> o in opps && JoinsIcUser(users, o)
    ensures persona == Persona.Executive ==> r == opps
  {
    match persona
    case IC => AssignedTo(opps, userId)
    case Manager => AssignedToIcUsers(users, opps)
    case Executive => opps
  }

  /** The stage view's `Manager` rows do not depend on who asks. */
  lemma ManagerPipelineIgnoresUserId(users: seq<User>, opps: seq<SalesOpportunity>, a: string, b: string)
    ensures PipelineVisible(users, opps, a, Manager) == PipelineVisible(users, opps, b, Manager)
  {
  }

  /** The two aggregations disagree on `Manager`: a front-line manager with no
      deals of their own sees nothing on the dashboard, yet the stage view shows
      the deal of an `IC` user. */
  lemma ManagerViewsDisagree()
    ensures var users := [User("m", "Manager", "m@example.com", FrontLineManager, 0),
                          User("i", "Rep", "i@example.com", UserRole.IC, 0)];
            var deal := SalesOpportunity("o", "Deal", Prospecting, 100, 0, "i", "Customer", 0, 50, 0);
            && DashboardMetricsView.DashboardVisible([deal], "m", Manager) == []
            && PipelineVisible(users, [deal], "m", Manager) == [deal]
  {
    var users := [User("m", "Manager", "m@example.com", FrontLineManager, 0),
                  User("i", "Rep", "i@example.com", UserRole.IC, 0)];
    var deal := SalesOpportunity("o", "Deal", Prospecting, 100, 0, "i", "Customer", 0, 50, 0);
    assert JoinsIcUser(users, deal) by { assert users[1].id == deal.assignedToId; }
    assert [deal][1..] == [];
  }

  /** Stages strictly ascending in declaration order. */
  predicate Ascending(stages: seq<Stage>) {
    forall i, j :: 0 <= i < j < |stages| ==> StageIndex(stages[i]) < StageIndex(stages[j])
  }

  /** The group of `visible` for one stage: how many rows have it, and their total amount. */
  function Group(visible: seq<SalesOpportunity>, st: Stage): (g: PipelineStageData)
    ensures g.stage == st && g.count <= |visible|
    ensures g.count == 0 <==> forall o :: o in visible ==> o.stage != st
  {
    var members := InStages(visible, {st});
    PipelineStageData(st, |members|, TotalAmount(members))
  }

  /** The groups of `visible` for the given stages, in the order of `stages`, empty groups omitted. */
  function StageRows(visible: seq<SalesOpportunity>, stages: seq<Stage>): (rows: seq<PipelineStageData>)
    ensures |rows| <= |stages|
  {
    if stages == [] then []
    else if Group(visible, stages[0]).count > 0 then [Group(visible, stages[0])] + StageRows(visible, stages[1..])
    else StageRows(visible, stages[1..])
  }

  /** Every row is the non-empty group of a stage drawn from `stages`. */
  lemma {:induction false} StageRowsAreGroups(visible: seq<SalesOpportunity>, stages: seq<Stage>)
    ensures forall k :: 0 <= k < |StageRows(visible, stages)| ==>
      var row := StageRows(visible, stages)[k];
      row.stage in stages && row == Group(visible, row.stage) && row.count > 0
  {
    if stages != [] {
      StageRowsAreGroups(visible, stages[1..]);
    }
  }

  /** Rows strictly ascending by stage in declaration order. */
  predicate RowsAscending(rows: seq<PipelineStageData>) {
    forall i, j :: 0 <= i < j < |rows| ==> StageIndex(rows[i].stage) < StageIndex(rows[j].stage)
  }

  /** Rows follow the order of `stages`. */
  lemma {:induction false} StageRowsAscending(visible: seq<SalesOpportunity>, stages: seq<Stage>)
    requires Ascending(stages)
    ensures RowsAscending(StageRows(visible, stages))
  {
    if stages != [] {
      var tail := stages[1..];
      assert Ascending(tail);
      StageRowsAscending(visible, tail);
      var rest := StageRows(visible, tail);
      HeadPrecedesRows(visible, stages);
      if Group(visible, stages[0]).count > 0 {
        ConsAscending(Group(visible, stages[0]), rest);
      }
    }
  }

  /** The first stage precedes the stage of every row built from the others. */
  lemma HeadPrecedesRows(visible: seq<SalesOpportunity>, stages: seq<Stage>)
    requires Ascending(stages) && stages != []
    ensures forall k :: 0 <= k < |StageRows(visible, stages[1..])| ==>
      StageIndex(stages[0]) < StageIndex(StageRows(visible, stages[1..])[k].stage)
  {
    var tail := stages[1..];
    var rest := StageRows(visible, tail);
    StageRowsAreGroups(visible, tail);
    forall k | 0 <= k < |rest| ensures StageIndex(stages[0]) < StageIndex(rest[k].stage) {
      var j :| 0 <= j < |tail| && tail[j] == rest[k].stage;
      assert stages[j + 1] == tail[j];
    }
  }

  /** A row whose stage precedes every stage of an ascending list extends it ascending. */
  lemma ConsAscending(row: PipelineStageData, rest: seq<PipelineStageData>)
    requires RowsAscending(rest)
    requires forall k :: 0 <= k < |rest| ==> StageIndex(row.stage) < StageIndex(rest[k].stage)
    ensures RowsAscending([row] + rest)
  {
    var rows := [row] + rest;
    forall i, j | 0 <= i < j < |rows| ensures StageIndex(rows[i].stage) < StageIndex(rows[j].stage) {
      assert rows[j] == rest[j - 1];
      if i > 0 {
        assert rows[i] == rest[i - 1];
      }
    }
  }

  /** Every stage of `stages` with a visible row has a row. */
  lemma {:induction false} StageRowsComplete(visible: seq<SalesOpportunity>, stages: seq<Stage>, st: Stage)
    requires st in stages && Group(visible, st).count > 0
    ensures Group(visible, st) in StageRows(visible, stages)
  {
    if stages[0] != st {
      StageRowsComplete(visible, stages[1..], st);
    }
  }

  function TotalCount(rows: seq<PipelineStageData>): nat {
    if rows == [] then 0 else rows[0].count + TotalCount(rows[1..])
  }

  function TotalValue(rows: seq<PipelineStageData>): Cents {
    if rows == [] then 0 else rows[0].value + TotalValue(rows[1..])
  }

  function StageSet(stages: seq<Stage>): set<Stage> {
    set st | st in stages
  }

  /** Summed over the rows, counts and values equal the count and total of the
      visible rows whose stage is among `stages`. */
  lemma {:induction false} StageRowsTotals(visible: seq<SalesOpportunity>, stages: seq<Stage>)
    requires Ascending(stages)
    ensures TotalCount(StageRows(visible, stages)) == |InStages(visible, StageSet(stages))|
    ensures TotalValue(StageRows(visible, stages)) == TotalAmount(InStages(visible, StageSet(stages)))
  {
    if stages == [] {
      EmptySelection(visible, StageSet(stages));
    } else {
      var tail := stages[1..];
      assert Ascending(tail);
      StageRowsTotals(visible, tail);
      HeadStageIsNew(stages);
      InStagesSplit(visible, {stages[0]}, StageSet(tail));
      HeadRowTotals(visible, stages);
    }
  }

  /** In an ascending list, the first stage is not among the others. */
  lemma HeadStageIsNew(stages: seq<Stage>)
    requires Ascending(stages) && stages != []
    ensures StageSet(stages) == {stages[0]} + StageSet(stages[1..])
    ensures stages[0] !in StageSet(stages[1..])
  {
    assert StageSet(stages) == {stages[0]} + StageSet(stages[1..]);
  }

  /** The first stage's group adds its count and amount to the rows of the others. */
  lemma HeadRowTotals(visible: seq<SalesOpportunity>, stages: seq<Stage>)
    requires stages != []
    ensures TotalCount(StageRows(visible, stages))
      == |InStages(visible, {stages[0]})| + TotalCount(StageRows(visible, stages[1..]))
    ensures TotalValue(StageRows(visible, stages))
      == TotalAmount(InStages(visible, {stages[0]})) + TotalValue(StageRows(visible, stages[1..]))
  {
    if Group(visible, stages[0]).count == 0 {
      assert InStages(visible, {stages[0]}) == [];
    } else {
      var rows := StageRows(visible, stages);
      assert rows[1..] == StageRows(visible, stages[1..]);
    }
  }

  lemma EmptySelection(visible: seq<SalesOpportunity>, stages: set<Stage>)
    requires stages == {}
    ensures InStages(visible, stages) == []
  {
  }

  lemma StageOrderAscending()
    ensures Ascending(StageOrder)
    ensures StageSet(StageOrder) == AllStages
  {
    StageOrderIsPermutation();
    forall st ensures st in AllStages { StageInAllStages(st); }
  }

  /** The stage-view handler: groups of the persona's visible rows, in declaration
      order of the stage enumeration. */
  function GetPipelineStageData(users: seq<User>, opps: seq<SalesOpportunity>, userId: string, persona: Persona): (rows: seq<PipelineStageData>)
    ensures RowsAscending(rows)
    ensures var visible := PipelineVisible(users, opps, userId, persona);
      forall k :: 0 <= k < |rows| ==> rows[k] == Group(visible, rows[k].stage) && rows[k].count > 0
    ensures var visible := PipelineVisible(users, opps, userId, persona);
      forall st :: Group(visible, st).count > 0 ==> Group(visible, st) in rows
    ensures var visible := PipelineVisible(users, opps, userId, persona);
      TotalCount(rows) == |visible| && TotalValue(rows) == TotalAmount(visible)
    ensures PipelineVisible(users, opps, userId, persona) == [] ==> rows == []
  {
    var visible := PipelineVisible(users, opps, userId, persona);
    StageOrderAscending();
    StageRowsAreGroups(visible, StageOrder);
    StageRowsAscending(visible, StageOrder);
    forall st | Group(visible, st).count > 0 ensures Group(visible, st) in StageRows(visible, StageOrder) {
      assert StageOrder[StageIndex(st)] == st;
      StageRowsComplete(visible, StageOrder, st);
    }
    StageRowsTotals(visible, StageOrder);
    InAllStages(visible);
    StageRows(visible, StageOrder)
  }

  /** An `IC` user, a front-line manager and an executive, each assigned one deal:
      prospecting deals of 10 000.00 and 15 000.00 and a qualification deal of
      25 000.00. Every assignee is a stored user, and the executive sees all three
      deals, whoever they are assigned to: two rows, in stage order. */
  lemma ThreeDealExample()
    ensures AssigneesResolve(ThreeUsers(), ThreeDeals())
    ensures GetPipelineStageData(ThreeUsers(), ThreeDeals(), "exec", Persona.Executive)
      == [PipelineStageData(Prospecting, 2, 2_500_000), PipelineStageData(Qualification, 1, 2_500_000)]
  {
    ThreeDealAssigneesResolve();
    ThreeDealRows();
  }

  function ThreeUsers(): seq<User> {
    [User("ic", "IC User", "ic@example.com", UserRole.IC, 0),
     User("manager", "Manager", "manager@example.com", FrontLineManager, 0),
     User("exec", "Executive", "exec@example.com", UserRole.Executive, 0)]
  }

  lemma ThreeDealAssigneesResolve()
    ensures AssigneesResolve(ThreeUsers(), ThreeDeals())
  {
    var users, deals := ThreeUsers(), ThreeDeals();
    assert HasUser(users, deals[0].assignedToId) by { assert users[0].id == deals[0].assignedToId; }
    assert HasUser(users, deals[1].assignedToId) by { assert users[1].id == deals[1].assignedToId; }
    assert HasUser(users, deals[2].assignedToId) by { assert users[2].id == deals[2].assignedToId; }
  }

  lemma ThreeDealRows()
    ensures StageRows(ThreeDeals(), StageOrder)
      == [PipelineStageData(Prospecting, 2, 2_500_000), PipelineStageData(Qualification, 1, 2_500_000)]
  {
    var deals := ThreeDeals();
    ThreeDealGroups();
    assert StageOrder[0] == Prospecting && StageOrder[1..][0] == Qualification;
    StageRowsKeep(deals, StageOrder);
    StageRowsKeep(deals, StageOrder[1..]);
    assert StageOrder[1..][1..] == StageOrder[2..];
    ThreeDealLaterRows();
  }

  /** A stage with visible rows contributes its group ahead of the later stages' rows. */
  lemma StageRowsKeep(visible: seq<SalesOpportunity>, stages: seq<Stage>)
    requires stages != [] && Group(visible, stages[0]).count > 0
    ensures StageRows(visible, stages) == [Group(visible, stages[0])] + StageRows(visible, stages[1..])
  {
  }

  /** No deal is past `Qualification`, so the later stages give no rows. */
  lemma ThreeDealLaterRows()
    ensures StageRows(ThreeDeals(), StageOrder[2..]) == []
  {
    LaterStages();
    ThreeDealLaterGroups();
    StageRowsOfEmptyGroups(ThreeDeals(), [Proposal, Negotiation, ClosedWon, ClosedLost]);
  }

  lemma LaterStages()
    ensures StageOrder[2..] == [Proposal, Negotiation, ClosedWon, ClosedLost]
  {
  }

  lemma ThreeDealLaterGroups()
    ensures var later := [Proposal, Negotiation, ClosedWon, ClosedLost];
      forall k :: 0 <= k < |later| ==> Group(ThreeDeals(), later[k]).count == 0
  {
    var later := [Proposal, Negotiation, ClosedWon, ClosedLost];
    ThreeDealOtherGroups();
    forall k | 0 <= k < |later| ensures Group(ThreeDeals(), later[k]).count == 0 {
      assert later[k] != Prospecting && later[k] != Qualification;
    }
  }

  /** Stages without visible rows contribute no rows. */
  lemma {:induction false} StageRowsOfEmptyGroups(visible: seq<SalesOpportunity>, stages: seq<Stage>)
    requires forall k :: 0 <= k < |stages| ==> Group(visible, stages[k]).count == 0
    ensures StageRows(visible, stages) == []
  {
    if stages != [] {
      StageRowsOfEmptyGroups(visible, stages[1..]);
    }
  }

  function ThreeDeals(): seq<SalesOpportunity> {
    [SalesOpportunity("opp1", "IC Opportunity", Prospecting, 1_000_000, 0, "ic", "Customer 1", 0, 25, 0),
     SalesOpportunity("opp2", "Manager Opportunity", Prospecting, 1_500_000, 0, "manager", "Customer 2", 0, 30, 0),
     SalesOpportunity("opp3", "Executive Opportunity", Qualification, 2_500_000, 0, "exec", "Customer 3", 0, 50, 0)]
  }

  lemma ThreeDealGroups()
    ensures Group(ThreeDeals(), Prospecting) == PipelineStageData(Prospecting, 2, 2_500_000)
    ensures Group(ThreeDeals(), Qualification) == PipelineStageData(Qualification, 1, 2_500_000)
  {
    var deals := ThreeDeals();
    assert deals[1..][1..][1..] == [];
  }

  /** Every stage other than `Prospecting` and `Qualification` has an empty group. */
  lemma ThreeDealOtherGroups()
    ensures forall st :: st !in {Prospecting, Qualification} ==> Group(ThreeDeals(), st).count == 0
  {
    var deals := ThreeDeals();
    assert forall o :: o in deals ==> o.stage == Prospecting || o.stage == Qualification;
  }
}
