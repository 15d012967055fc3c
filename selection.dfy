/** The filter and reduce steps the two aggregations apply to the rows they
    read: selection by assignee, by stage, by a window on an instant, and the
    plain and probability-weighted sums of amounts. Each filter keeps the order
    of its input and keeps exactly the rows that satisfy its condition. */
module Selection {
  import opened Schema

  /** Rows assigned to `userId`. */
  function AssignedTo(s: seq<SalesOpportunity>, userId: string): (r: seq<SalesOpportunity>)
    ensures |r| <= |s|
    ensures forall o :: o in r <==> o in s && o.assignedToId == userId
  {
    if s == [] then []
    else if s[0].assignedToId == userId then [s[0]] + AssignedTo(s[1..], userId)
    else AssignedTo(s[1..], userId)
  }

  /** Rows whose stage is one of `stages`. */
  function InStages(s: seq<SalesOpportunity>, stages: set<Stage>): (r: seq<SalesOpportunity>)
    ensures |r| <= |s|
    ensures forall o :: o in r <==> o in s && o.stage in stages
  {
    if s == [] then []
    else if s[0].stage in stages then [s[0]] + InStages(s[1..], stages)
    else InStages(s[1..], stages)
  }

  /** Rows created within the inclusive window [from, to]. */
  function CreatedBetween(s: seq<SalesOpportunity>, from: Timestamp, to: Timestamp): (r: seq<SalesOpportunity>)
    ensures |r| <= |s|
    ensures forall o :: o in r <==> o in s && from <= o.createdAt <= to
  {
    if s == [] then []
    else if from <= s[0].createdAt <= to then [s[0]] + CreatedBetween(s[1..], from, to)
    else CreatedBetween(s[1..], from, to)
  }

  /** Rows whose close date lies within the inclusive window [from, to]. */
  function ClosingBetween(s: seq<SalesOpportunity>, from: Timestamp, to: Timestamp): (r: seq<SalesOpportunity>)
    ensures |r| <= |s|
    ensures forall o :: o in r <==> o in s && from <= o.closeDate <= to
  {
    if s == [] then []
    else if from <= s[0].closeDate <= to then [s[0]] + ClosingBetween(s[1..], from, to)
    else ClosingBetween(s[1..], from, to)
  }

  /** Sum of amounts, in cents. Every positive amount is at least one cent, so
      the sum of positive amounts is at least the number of rows. */
  function TotalAmount(s: seq<SalesOpportunity>): (t: Cents)
    ensures (forall k :: 0 <= k < |s| ==> s[k].amount > 0) ==> t >= |s|
  {
    if s == [] then 0 else s[0].amount + TotalAmount(s[1..])
  }

  /** Sum of amount times probability, in cents times percent. When every deal is
      certain it is a hundred times the plain sum; when none can close, zero. */
  function WeightedAmount(s: seq<SalesOpportunity>): (w: int)
    ensures (forall k :: 0 <= k < |s| ==> s[k].dealProbability == 100) ==> w == 100 * TotalAmount(s)
    ensures (forall k :: 0 <= k < |s| ==> s[k].dealProbability == 0) ==> w == 0
  {
    if s == [] then 0 else s[0].amount * s[0].dealProbability + WeightedAmount(s[1..])
  }

  predicate AllValid(s: seq<SalesOpportunity>) {
    forall o :: o in s ==> ValidOpportunity(o)
  }

  const AllStages: set<Stage> := {Prospecting, Qualification, Proposal, Negotiation, ClosedWon, ClosedLost}
  const ClosedStages: set<Stage> := {ClosedWon, ClosedLost}
  /** A stage is open when it is neither `Closed Won` nor `Closed Lost`. */
  const OpenStages: set<Stage> := {Prospecting, Qualification, Proposal, Negotiation}

  /** Selecting by two disjoint stage sets splits both the count and the total of
      the selection by their union. */
  lemma {:induction false} InStagesSplit(s: seq<SalesOpportunity>, a: set<Stage>, b: set<Stage>)
    requires a !! b
    ensures |InStages(s, a + b)| == |InStages(s, a)| + |InStages(s, b)|
    ensures TotalAmount(InStages(s, a + b)) == TotalAmount(InStages(s, a)) + TotalAmount(InStages(s, b))
  {
    if s != [] {
      InStagesSplit(s[1..], a, b);
    }
  }

  /** Every row has one of the six stages. */
  lemma {:induction false} InAllStages(s: seq<SalesOpportunity>)
    ensures InStages(s, AllStages) == s
  {
    if s != [] {
      StageInAllStages(s[0].stage);
      InAllStages(s[1..]);
      assert [s[0]] + s[1..] == s;
    }
  }

  lemma StageInAllStages(st: Stage)
    ensures st in AllStages
  {
    match st
    case Prospecting =>
    case Qualification =>
    case Proposal =>
    case Negotiation =>
    case ClosedWon =>
    case ClosedLost =>
  }

  /** Open, `Closed Won` and `Closed Lost` partition the rows. */
  lemma OpenWonLostPartition(s: seq<SalesOpportunity>)
    ensures |InStages(s, OpenStages)| + |InStages(s, {ClosedWon})| + |InStages(s, {ClosedLost})| == |s|
    ensures |InStages(s, {ClosedWon})| + |InStages(s, {ClosedLost})| == |InStages(s, ClosedStages)|
  {
    InStagesSplit(s, {ClosedWon}, {ClosedLost});
    assert {ClosedWon} + {ClosedLost} == ClosedStages;
    InStagesSplit(s, OpenStages, ClosedStages);
    assert OpenStages + ClosedStages == AllStages;
    InAllStages(s);
  }

  /** With probabilities in [0, 100], the weighted sum lies between zero and a
      hundred times the plain sum. */
  lemma {:induction false} WeightedAmountBounds(s: seq<SalesOpportunity>)
    requires AllValid(s)
    ensures 0 <= WeightedAmount(s) <= 100 * TotalAmount(s)
  {
    if s != [] {
      var o := s[0];
      assert o in s;
      assert AllValid(s[1..]) by {
        forall x | x in s[1..] ensures ValidOpportunity(x) { assert x in s; }
      }
      WeightedAmountBounds(s[1..]);
      ProductBounds(o.amount, o.dealProbability);
    }
  }

  lemma ProductBounds(amount: int, probability: int)
    requires amount > 0 && 0 <= probability <= 100
    ensures 0 <= amount * probability <= 100 * amount
  {
    assert amount * (100 - probability) >= 0;
  }
}
