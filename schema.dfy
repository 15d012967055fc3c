/** The shapes the API validates before any handler runs: the role, stage and
    persona enumerations, the two records, the create and update inputs, the
    query filters and the two aggregate result shapes.

    Amounts are whole cents (the column keeps two fractional digits), instants
    are integers (milliseconds), and an optional field is an `Option`. */
module Schema {

  datatype Option<+T> = None | Some(value: T)

  datatype Result<+T, +E> = Success(value: T) | Failure(error: E)

  /** An optional string passes a truthiness test when it is present and non-empty. */
  predicate Truthy(s: Option<string>) {
    s.Some? && s.value != ""
  }

  /** An exact decimal amount with two fractional digits, counted in cents. */
  type Cents = int

  /** A point in time; calendar arithmetic happens outside the model. */
  type Timestamp = int

  // ---------------------------------------------------------------------------
  // Enumerations
  // ---------------------------------------------------------------------------

  /** The stored role of a user. */
  datatype UserRole = IC | FrontLineManager | Executive

  function RoleName(r: UserRole): string {
    match r
    case IC => "IC"
    case FrontLineManager => "Front Line Manager"
    case Executive => "Executive"
  }

  /** The role enumeration accepts exactly the three role names. */
  function ParseRole(s: string): (r: Option<UserRole>)
    ensures r.Some? ==> RoleName(r.value) == s
    ensures forall role :: RoleName(role) == s ==> r == Some(role)
  {
    if s == "IC" then Some(UserRole.IC)
    else if s == "Front Line Manager" then Some(FrontLineManager)
    else if s == "Executive" then Some(UserRole.Executive)
    else None
  }

  /** The pipeline stage of an opportunity, in the order the enumeration declares them. */
  datatype Stage = Prospecting | Qualification | Proposal | Negotiation | ClosedWon | ClosedLost

  function StageName(s: Stage): string {
    match s
    case Prospecting => "Prospecting"
    case Qualification => "Qualification"
    case Proposal => "Proposal"
    case Negotiation => "Negotiation"
    case ClosedWon => "Closed Won"
    case ClosedLost => "Closed Lost"
  }

  /** The stage enumeration accepts exactly the six stage names. */
  function ParseStage(s: string): (r: Option<Stage>)
    ensures r.Some? ==> StageName(r.value) == s
    ensures forall st :: StageName(st) == s ==> r == Some(st)
  {
    if s == "Prospecting" then Some(Prospecting)
    else if s == "Qualification" then Some(Qualification)
    else if s == "Proposal" then Some(Proposal)
    else if s == "Negotiation" then Some(Negotiation)
    else if s == "Closed Won" then Some(ClosedWon)
    else if s == "Closed Lost" then Some(ClosedLost)
    else None
  }

  /** The dashboard viewpoint; an enumeration of its own, distinct from `UserRole`. */
  datatype Persona = IC | Manager | Executive

  function PersonaName(p: Persona): string {
    match p
    case IC => "IC"
    case Manager => "Manager"
    case Executive => "Executive"
  }

  /** The persona enumeration accepts exactly the three persona names. */
  function ParsePersona(s: string): (r: Option<Persona>)
    ensures r.Some? ==> PersonaName(r.value) == s
    ensures forall p :: PersonaName(p) == s ==> r == Some(p)
  {
    if s == "IC" then Some(Persona.IC)
    else if s == "Manager" then Some(Manager)
    else if s == "Executive" then Some(Persona.Executive)
    else None
  }

  /** "Manager" names a persona but no role, and "Front Line Manager" names a role but no persona. */
  lemma ManagerIsNotFrontLineManager()
    ensures ParseRole("Manager") == None && ParsePersona("Manager") == Some(Manager)
    ensures ParsePersona("Front Line Manager") == None && ParseRole("Front Line Manager") == Some(FrontLineManager)
  {
  }

  // ---------------------------------------------------------------------------
  // Records
  // ---------------------------------------------------------------------------

  datatype User = User(id: string, name: string, email: string, role: UserRole, createdAt: Timestamp)

  datatype SalesOpportunity = SalesOpportunity(
    id: string,
    name: string,
    stage: Stage,
    amount: Cents,
    closeDate: Timestamp,
    assignedToId: string,
    customerName: string,
    lastActivityDate: Timestamp,
    dealProbability: int,
    createdAt: Timestamp)

  predicate ValidProbability(p: int) {
    0 <= p <= 100
  }

  /** A sales opportunity as the record schema describes it. */
  predicate ValidOpportunity(o: SalesOpportunity) {
    o.amount > 0 && ValidProbability(o.dealProbability)
  }

  // ---------------------------------------------------------------------------
  // Inputs
  // ---------------------------------------------------------------------------

  datatype CreateUserInput = CreateUserInput(name: string, email: string, role: UserRole)

  datatype CreateSalesOpportunityInput = CreateSalesOpportunityInput(
    name: string,
    stage: Stage,
    amount: Cents,
    closeDate: Timestamp,
    assignedToId: string,
    customerName: string,
    lastActivityDate: Timestamp,
    dealProbability: int)

  predicate ValidCreateInput(i: CreateSalesOpportunityInput) {
    i.amount > 0 && ValidProbability(i.dealProbability)
  }

  /** A partial update: `id` is required, every other field may be absent. */
  datatype UpdateSalesOpportunityInput = UpdateSalesOpportunityInput(
    id: string,
    name: Option<string>,
    stage: Option<Stage>,
    amount: Option<Cents>,
    closeDate: Option<Timestamp>,
    assignedToId: Option<string>,
    customerName: Option<string>,
    lastActivityDate: Option<Timestamp>,
    dealProbability: Option<int>)

  /** The bounds of the record schema apply to each field that is present. */
  predicate ValidUpdateInput(i: UpdateSalesOpportunityInput) {
    && (i.amount.Some? ==> i.amount.value > 0)
    && (i.dealProbability.Some? ==> ValidProbability(i.dealProbability.value))
  }

  /** The update carries at least one field to write besides the id. */
  predicate SetsAField(i: UpdateSalesOpportunityInput) {
    || i.name.Some? || i.stage.Some? || i.amount.Some? || i.closeDate.Some?
    || i.assignedToId.Some? || i.customerName.Some? || i.lastActivityDate.Some? || i.dealProbability.Some?
  }

  /** An update that names the record and nothing else. */
  function EmptyPatch(id: string): (p: UpdateSalesOpportunityInput)
    ensures p.id == id && ValidUpdateInput(p)
    ensures p.name.None? && p.stage.None? && p.amount.None? && p.closeDate.None?
    ensures p.assignedToId.None? && p.customerName.None? && p.lastActivityDate.None? && p.dealProbability.None?
    ensures !SetsAField(p)
  {
    UpdateSalesOpportunityInput(id, None, None, None, None, None, None, None, None)
  }

  /** Every filter is optional; no ordering between the two bounds of a range is required. */
  datatype OpportunityFilters = OpportunityFilters(
    assignedToId: Option<string>,
    stage: Option<Stage>,
    customerName: Option<string>,
    minAmount: Option<Cents>,
    maxAmount: Option<Cents>,
    closeDateFrom: Option<Timestamp>,
    closeDateTo: Option<Timestamp>)

  const NoFilters: OpportunityFilters := OpportunityFilters(None, None, None, None, None, None, None)

  // ---------------------------------------------------------------------------
  // Aggregates
  // ---------------------------------------------------------------------------

  /** The dashboard figures. `pipelineValue` is in cents, `forecastedRevenue` is the
      exact probability-weighted sum in cents, `winRate` is a percentage. */
  datatype DashboardMetrics = DashboardMetrics(
    pipelineValue: Cents,
    opportunitiesWon: nat,
    activitiesCompleted: nat,
    winRate: real,
    openOpportunities: nat,
    closedWonThisMonth: nat,
    forecastedRevenue: real,
    upcomingActivities: nat)

  /** The metrics schema: every count is a natural number and the win rate a percentage. */
  predicate ValidMetrics(m: DashboardMetrics) {
    0.0 <= m.winRate <= 100.0
  }

  /** One row of the group-by-stage view: how many opportunities, and their total amount. */
  datatype PipelineStageData = PipelineStageData(stage: Stage, count: nat, value: Cents)

  /** Why a store operation failed. */
  datatype StoreError =
    | OpportunityNotFound(opportunityId: string)
    | UserNotFound(userId: string)
    | DuplicateId(duplicate: string)
    | AmountOverflow(rejected: Cents)
    | NothingToSet(opportunityId: string)
}
