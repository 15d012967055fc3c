/** The two tables as one in-memory store, and the four handlers that change
    it plus the filtered read. Each handler is one atomic step: it checks what
    it reads, then writes at most one row, or fails and writes nothing. The
    clock, the random parts of generated user ids and the UUID the handler
    draws for a new opportunity are parameters. */
module Store {
  import opened Schema
  import opened Tables
  import opened UserIds
  import opened OpportunityQuery

  // ---------------------------------------------------------------------------
  // The patch merge
  // ---------------------------------------------------------------------------

  /** The patch value when the patch carries the field, the stored value otherwise. */
  function Pick<T>(present: Option<T>, current: T): T {
    if present.Some? then present.value else current
  }

  /** The row an update writes: every field the patch carries replaces the stored
      one. The key and the creation instant never change, and a patch that
      carries no field leaves the row as it is. */
  function Patched(o: SalesOpportunity, p: UpdateSalesOpportunityInput): (r: SalesOpportunity)
    ensures r.id == o.id && r.createdAt == o.createdAt
    ensures !SetsAField(p) ==> r == o
  {
    o.(name := Pick(p.name, o.name),
       stage := Pick(p.stage, o.stage),
       amount := Pick(p.amount, o.amount),
       closeDate := Pick(p.closeDate, o.closeDate),
       assignedToId := Pick(p.assignedToId, o.assignedToId),
       customerName := Pick(p.customerName, o.customerName),
       lastActivityDate := Pick(p.lastActivityDate, o.lastActivityDate),
       dealProbability := Pick(p.dealProbability, o.dealProbability))
  }

  /** Applying the same patch twice is applying it once. */
  lemma PatchIdempotent(o: SalesOpportunity, p: UpdateSalesOpportunityInput)
    ensures Patched(Patched(o, p), p) == Patched(o, p)
  {
  }

  /** The combined patch: the later patch's fields where it has them, the earlier one's elsewhere. */
  function Then(p1: UpdateSalesOpportunityInput, p2: UpdateSalesOpportunityInput): UpdateSalesOpportunityInput {
    p2.(name := if p2.name.Some? then p2.name else p1.name,
        stage := if p2.stage.Some? then p2.stage else p1.stage,
        amount := if p2.amount.Some? then p2.amount else p1.amount,
        closeDate := if p2.closeDate.Some? then p2.closeDate else p1.closeDate,
        assignedToId := if p2.assignedToId.Some? then p2.assignedToId else p1.assignedToId,
        customerName := if p2.customerName.Some? then p2.customerName else p1.customerName,
        lastActivityDate := if p2.lastActivityDate.Some? then p2.lastActivityDate else p1.lastActivityDate,
        dealProbability := if p2.dealProbability.Some? then p2.dealProbability else p1.dealProbability)
  }

  /** Two successive updates are one update with the combined patch. */
  lemma PatchesCompose(o: SalesOpportunity, p1: UpdateSalesOpportunityInput, p2: UpdateSalesOpportunityInput)
    ensures Patched(Patched(o, p1), p2) == Patched(o, Then(p1, p2))
  {
  }

  /** A patch that passed validation, and whose amount fits the column, keeps a stored row storable. */
  lemma PatchKeepsStored(o: SalesOpportunity, p: UpdateSalesOpportunityInput)
    requires StoredOpportunity(o) && ValidUpdateInput(p)
    requires p.amount.Some? ==> FitsAmountColumn(p.amount.value)
    ensures StoredOpportunity(Patched(o, p))
  {
  }

  /** The empty-string assignee is written although the user check skipped it:
      when no user has the empty id, the updated row's assignee resolves to nobody. */
  lemma EmptyAssigneeEscapesUserCheck(users: seq<User>, opps: seq<SalesOpportunity>, k: nat, p: UpdateSalesOpportunityInput)
    requires k < |opps| && p.assignedToId == Some("") && !HasUser(users, "")
    ensures !Truthy(p.assignedToId)
    ensures !AssigneesResolve(users, opps[k := Patched(opps[k], p)])
  {
    var updated := opps[k := Patched(opps[k], p)];
    assert updated[k] in updated;
  }

  /** Build the updated row field by field, copying each field the patch carries. */
  method ApplyPatch(row: SalesOpportunity, input: UpdateSalesOpportunityInput) returns (updated: SalesOpportunity)
    ensures updated == Patched(row, input)
  {
    updated := row;
    if input.name.Some? { updated := updated.(name := input.name.value); }
    if input.stage.Some? { updated := updated.(stage := input.stage.value); }
    if input.amount.Some? { updated := updated.(amount := input.amount.value); }
    if input.closeDate.Some? { updated := updated.(closeDate := input.closeDate.value); }
    if input.assignedToId.Some? { updated := updated.(assignedToId := input.assignedToId.value); }
    if input.customerName.Some? { updated := updated.(customerName := input.customerName.value); }
    if input.lastActivityDate.Some? { updated := updated.(lastActivityDate := input.lastActivityDate.value); }
    if input.dealProbability.Some? { updated := updated.(dealProbability := input.dealProbability.value); }
  }

  /** After writing `row` at position `k`, every row is an old row or `row`. */
  lemma ReplacedRows(os: seq<SalesOpportunity>, k: nat, row: SalesOpportunity)
    requires k < |os|
    ensures row in os[k := row]
    ensures forall o :: o in os[k := row] ==> o in os || o == row
  {
    assert os[k := row][k] == row;
    forall o | o in os[k := row] ensures o in os || o == row {
      var j :| 0 <= j < |os| && os[k := row][j] == o;
      if j != k {
        assert os[j] == o;
      }
    }
  }

  // ---------------------------------------------------------------------------
  // Insertion
  // ---------------------------------------------------------------------------

  /** The row an insertion writes: the input's fields under the new id, created now. */
  function NewOpportunity(id: string, input: CreateSalesOpportunityInput, now: Timestamp): (o: SalesOpportunity)
    ensures ValidCreateInput(input) && FitsAmountColumn(input.amount) ==> StoredOpportunity(o)
  {
    SalesOpportunity(id, input.name, input.stage, input.amount, input.closeDate, input.assignedToId,
                     input.customerName, input.lastActivityDate, input.dealProbability, now)
  }

  // ---------------------------------------------------------------------------
  // The store
  // ---------------------------------------------------------------------------

  class SalesStore {
    var users: seq<User>
    var opportunities: seq<SalesOpportunity>

    /** Both primary keys hold, and every opportunity passed the record schema and
        fits the amount column. No row is then stored twice, and every stored
        amount is positive. */
    ghost predicate Valid(): (b: bool)
      reads this
      ensures b ==> forall i, j :: 0 <= i < j < |opportunities| ==> opportunities[i] != opportunities[j]
      ensures b ==> forall o :: o in opportunities ==> 0 < o.amount
    {
      && UniqueUserIds(users)
      && UniqueOpportunityIds(opportunities)
      && forall o :: o in opportunities ==> StoredOpportunity(o)
    }

    constructor ()
      ensures Valid() && users == [] && opportunities == []
    {
      users := [];
      opportunities := [];
    }

    /** Insert a user under a generated id; a clash with an existing id is the primary key's error. */
    method CreateUser(input: CreateUserInput, now: Timestamp, millis: nat, rendering: string) returns (r: Result<User, StoreError>)
      requires Valid()
      modifies this
      ensures Valid() && opportunities == old(opportunities)
      ensures var id := GeneratedUserId(millis, rendering);
        if HasUser(old(users), id) then r == Failure(DuplicateId(id)) && users == old(users)
        else r == Success(User(id, input.name, input.email, input.role, now)) && users == old(users) + [r.value]
      ensures AssigneesResolve(old(users), old(opportunities)) ==> AssigneesResolve(users, opportunities)
    {
      var id := GeneratedUserId(millis, rendering);
      if FindUser(users, id).Some? {
        return Failure(DuplicateId(id));
      }
      var user := User(id, input.name, input.email, input.role, now);
      AppendFreshUser(users, user);
      ghost var before := users;
      users := users + [user];
      assert forall id :: HasUser(before, id) ==> HasUser(users, id) by {
        forall id | HasUser(before, id) ensures HasUser(users, id) {
          var k :| 0 <= k < |before| && before[k].id == id;
          assert users[k] == before[k];
        }
      }
      r := Success(user);
    }

    /** Insert an opportunity for an existing user under the id `newId`. */
    method CreateSalesOpportunity(input: CreateSalesOpportunityInput, newId: string, now: Timestamp)
      returns (r: Result<SalesOpportunity, StoreError>)
      requires Valid() && ValidCreateInput(input)
      modifies this
      ensures Valid() && users == old(users)
      ensures if !HasUser(users, input.assignedToId) then
          r == Failure(UserNotFound(input.assignedToId)) && opportunities == old(opportunities)
        else if !FitsAmountColumn(input.amount) then
          r == Failure(AmountOverflow(input.amount)) && opportunities == old(opportunities)
        else if HasOpportunity(old(opportunities), newId) then
          r == Failure(DuplicateId(newId)) && opportunities == old(opportunities)
        else
          r == Success(NewOpportunity(newId, input, now)) && opportunities == old(opportunities) + [r.value]
      ensures AssigneesResolve(old(users), old(opportunities)) ==> AssigneesResolve(users, opportunities)
    {
      if FindUser(users, input.assignedToId).None? {
        return Failure(UserNotFound(input.assignedToId));
      }
      if !FitsAmountColumn(input.amount) {
        return Failure(AmountOverflow(input.amount));
      }
      if FindOpportunity(opportunities, newId).Some? {
        return Failure(DuplicateId(newId));
      }
      var row := NewOpportunity(newId, input, now);
      AppendFreshOpportunity(opportunities, row);
      opportunities := opportunities + [row];
      r := Success(row);
    }

    /** Merge a patch onto the opportunity with `input.id`: fail when it does not
        exist, when a non-empty assignee names no user, or when the patch carries
        no field (the update statement then has nothing to set); otherwise write
        the patched row in place and return it. */
    method UpdateSalesOpportunity(input: UpdateSalesOpportunityInput) returns (r: Result<SalesOpportunity, StoreError>)
      requires Valid() && ValidUpdateInput(input)
      modifies this
      ensures Valid() && users == old(users)
      ensures match FindOpportunity(old(opportunities), input.id)
        case None =>
          r == Failure(OpportunityNotFound(input.id)) && opportunities == old(opportunities)
        case Some(k) =>
          if Truthy(input.assignedToId) && !HasUser(users, input.assignedToId.value) then
            r == Failure(UserNotFound(input.assignedToId.value)) && opportunities == old(opportunities)
          else if !SetsAField(input) then
            r == Failure(NothingToSet(input.id)) && opportunities == old(opportunities)
          else if input.amount.Some? && !FitsAmountColumn(input.amount.value) then
            r == Failure(AmountOverflow(input.amount.value)) && opportunities == old(opportunities)
          else
            r == Success(Patched(old(opportunities)[k], input)) && opportunities == old(opportunities)[k := r.value]
      ensures AssigneesResolve(old(users), old(opportunities)) && input.assignedToId != Some("") ==>
        AssigneesResolve(users, opportunities)
    {
      var found := FindOpportunity(opportunities, input.id);
      if found.None? {
        return Failure(OpportunityNotFound(input.id));
      }
      var k := found.value;
      if Truthy(input.assignedToId) && FindUser(users, input.assignedToId.value).None? {
        return Failure(UserNotFound(input.assignedToId.value));
      }
      if !SetsAField(input) {
        return Failure(NothingToSet(input.id));
      }
      if input.amount.Some? && !FitsAmountColumn(input.amount.value) {
        return Failure(AmountOverflow(input.amount.value));
      }
      var row := ApplyPatch(opportunities[k], input);
      assert opportunities[k] in opportunities;
      PatchKeepsStored(opportunities[k], input);
      ReplaceKeepsUnique(opportunities, k, row);
      ReplacedRows(opportunities, k, row);
      opportunities := opportunities[k := row];
      r := Success(row);
    }

    /** Remove the opportunity with `id`, reporting whether there was one. */
    method DeleteSalesOpportunity(id: string) returns (removed: bool)
      requires Valid()
      modifies this
      ensures Valid() && users == old(users)
      ensures removed == HasOpportunity(old(opportunities), id)
      ensures !HasOpportunity(opportunities, id)
      ensures opportunities == WithoutId(old(opportunities), id)
      ensures match FindOpportunity(old(opportunities), id)
        case Some(k) => opportunities == old(opportunities)[..k] + old(opportunities)[k + 1..]
        case None => opportunities == old(opportunities)
      ensures AssigneesResolve(old(users), old(opportunities)) ==> AssigneesResolve(users, opportunities)
    {
      var found := FindOpportunity(opportunities, id);
      removed := found.Some?;
      if found.Some? {
        var k := found.value;
        WithoutIdIsSplice(opportunities, id, k);
        SpliceKeepsUnique(opportunities, k);
        opportunities := opportunities[..k] + opportunities[k + 1..];
      } else {
        NoIdNoChange(opportunities, id);
      }
    }

    /** The filtered read: the conditions built from the filter object, then the
        rows satisfying all of them, or every row when there are none. */
    method GetSalesOpportunities(filters: Option<OpportunityFilters>) returns (result: seq<SalesOpportunity>)
      ensures result == Query(opportunities, filters)
    {
      var conditions := BuildConditions(filters);
      if |conditions| > 0 {
        SelectIsQuery(opportunities, conditions, filters);
        result := Select(opportunities, conditions);
      } else {
        NoFiltersSelectEverything(opportunities, filters);
        result := opportunities;
      }
    }
  }

  /** Deleting the same id twice reports a removal at most the first time. */
  method DeleteTwice(store: SalesStore, id: string) returns (first: bool, second: bool)
    requires store.Valid()
    modifies store
    ensures store.Valid()
    ensures first == HasOpportunity(old(store.opportunities), id) && !second
    ensures store.opportunities == WithoutId(old(store.opportunities), id)
  {
    first := store.DeleteSalesOpportunity(id);
    second := store.DeleteSalesOpportunity(id);
  }
}
