/** The opportunity query: an optional filter object becomes a list of
    conditions, pushed one by one for each filter that is set (a string filter
    only when it is non-empty), and the table is restricted to the rows that
    satisfy all of them. `Matches` states the intended conjunction directly;
    the conditions list and the selection are proved equal to it. */
module OpportunityQuery {
  import opened Schema

  // ---------------------------------------------------------------------------
  // Case-insensitive substring match
  // ---------------------------------------------------------------------------

  function LowerChar(c: char): char {
    if 'A' <= c <= 'Z' then (c as int - 'A' as int + 'a' as int) as char else c
  }

  function Lower(s: string): (r: string)
    ensures |r| == |s|
  {
    if s == [] then [] else [LowerChar(s[0])] + Lower(s[1..])
  }

  lemma {:induction false} LowerAt(s: string, i: nat)
    requires i < |s|
    ensures Lower(s)[i] == LowerChar(s[i])
  {
    if i > 0 {
      LowerAt(s[1..], i - 1);
    }
  }

  /** Lower-casing twice is lower-casing once. */
  lemma LowerIdempotent(s: string)
    ensures Lower(Lower(s)) == Lower(s)
  {
    forall i | 0 <= i < |s| ensures Lower(Lower(s))[i] == Lower(s)[i] {
      LowerAt(s, i);
      LowerAt(Lower(s), i);
    }
  }

  /** `needle` occurs in `text` starting at position `i`. */
  predicate OccursAt(needle: string, text: string, i: int) {
    0 <= i <= |text| - |needle| && text[i..i + |needle|] == needle
  }

  predicate IsSubstring(needle: string, text: string) {
    exists i :: 0 <= i <= |text| - |needle| && OccursAt(needle, text, i)
  }

  /** The customer-name filter: the pattern occurs in the name, ignoring ASCII case. */
  predicate ContainsIgnoringCase(text: string, pattern: string): (b: bool)
    ensures pattern == [] ==> b
    ensures b ==> |pattern| <= |text|
  {
    assert pattern == [] ==> OccursAt(Lower(pattern), Lower(text), 0);
    IsSubstring(Lower(pattern), Lower(text))
  }

  /** Case does not matter on either side. */
  lemma ContainsIgnoresCase(text: string, pattern: string)
    ensures ContainsIgnoringCase(Lower(text), pattern) == ContainsIgnoringCase(text, pattern)
    ensures ContainsIgnoringCase(text, Lower(pattern)) == ContainsIgnoringCase(text, pattern)
  {
    LowerIdempotent(text);
    LowerIdempotent(pattern);
  }

  /** A pattern that agrees with the start of the text up to case is found. */
  lemma PrefixIgnoringCase(text: string, pattern: string)
    requires |pattern| <= |text|
    requires forall i :: 0 <= i < |pattern| ==> LowerChar(text[i]) == LowerChar(pattern[i])
    ensures ContainsIgnoringCase(text, pattern)
  {
    forall i | 0 <= i < |pattern| ensures Lower(text)[i] == Lower(pattern)[i] {
      LowerAt(text, i);
      LowerAt(pattern, i);
    }
    assert OccursAt(Lower(pattern), Lower(text), 0);
  }

  /** "acme" finds "Acme Corp". */
  lemma AcmeExample()
    ensures ContainsIgnoringCase("Acme Corp", "acme")
  {
    PrefixIgnoringCase("Acme Corp", "acme");
  }

  // ---------------------------------------------------------------------------
  // The filter, declaratively
  // ---------------------------------------------------------------------------

  /** The intended conjunction: each filter in effect constrains the row,
      inclusive at range ends. With no filter in effect every row matches; an
      inverted amount or close-date range matches none. */
  predicate Matches(filters: Option<OpportunityFilters>, o: SalesOpportunity): (b: bool)
    ensures !AnyInEffect(filters) ==> b
    ensures (&& filters.Some? && filters.value.minAmount.Some? && filters.value.maxAmount.Some?
             && filters.value.minAmount.value > filters.value.maxAmount.value) ==> !b
    ensures (&& filters.Some? && filters.value.closeDateFrom.Some? && filters.value.closeDateTo.Some?
             && filters.value.closeDateFrom.value > filters.value.closeDateTo.value) ==> !b
  {
    filters.None? ||
    var f := filters.value;
    && (Truthy(f.assignedToId) ==> o.assignedToId == f.assignedToId.value)
    && (f.stage.Some? ==> o.stage == f.stage.value)
    && (Truthy(f.customerName) ==> ContainsIgnoringCase(o.customerName, f.customerName.value))
    && (f.minAmount.Some? ==> o.amount >= f.minAmount.value)
    && (f.maxAmount.Some? ==> o.amount <= f.maxAmount.value)
    && (f.closeDateFrom.Some? ==> o.closeDate >= f.closeDateFrom.value)
    && (f.closeDateTo.Some? ==> o.closeDate <= f.closeDateTo.value)
  }

  /** Some filter takes effect. */
  predicate AnyInEffect(filters: Option<OpportunityFilters>) {
    filters.Some? &&
    var f := filters.value;
    || Truthy(f.assignedToId) || f.stage.Some? || Truthy(f.customerName)
    || f.minAmount.Some? || f.maxAmount.Some? || f.closeDateFrom.Some? || f.closeDateTo.Some?
  }

  /** The rows that match, in table order. */
  function Query(rows: seq<SalesOpportunity>, filters: Option<OpportunityFilters>): (r: seq<SalesOpportunity>)
    ensures |r| <= |rows|
    ensures forall o :: o in r <==> o in rows && Matches(filters, o)
  {
    if rows == [] then []
    else if Matches(filters, rows[0]) then [rows[0]] + Query(rows[1..], filters)
    else Query(rows[1..], filters)
  }

  // ---------------------------------------------------------------------------
  // The conditions list
  // ---------------------------------------------------------------------------

  datatype Condition =
    | AssignedToIs(userId: string)
    | StageIs(stage: Stage)
    | CustomerNameContains(pattern: string)
    | AmountAtLeast(min: Cents)
    | AmountAtMost(max: Cents)
    | CloseDateFrom(from: Timestamp)
    | CloseDateTo(to: Timestamp)

  predicate Holds(c: Condition, o: SalesOpportunity) {
    match c
    case AssignedToIs(u) => o.assignedToId == u
    case StageIs(s) => o.stage == s
    case CustomerNameContains(p) => ContainsIgnoringCase(o.customerName, p)
    case AmountAtLeast(m) => o.amount >= m
    case AmountAtMost(m) => o.amount <= m
    case CloseDateFrom(t) => o.closeDate >= t
    case CloseDateTo(t) => o.closeDate <= t
  }

  /** The conjunction of the conditions. */
  predicate AllHold(conditions: seq<Condition>, o: SalesOpportunity) {
    forall k :: 0 <= k < |conditions| ==> Holds(conditions[k], o)
  }

  /** The `i`-th filter of the object, in the order the conditions are pushed,
      holds of `o`; a filter not in effect holds of every row. */
  predicate FieldHolds(f: OpportunityFilters, i: nat, o: SalesOpportunity) {
    if i == 0 then Truthy(f.assignedToId) ==> o.assignedToId == f.assignedToId.value
    else if i == 1 then f.stage.Some? ==> o.stage == f.stage.value
    else if i == 2 then Truthy(f.customerName) ==> ContainsIgnoringCase(o.customerName, f.customerName.value)
    else if i == 3 then f.minAmount.Some? ==> o.amount >= f.minAmount.value
    else if i == 4 then f.maxAmount.Some? ==> o.amount <= f.maxAmount.value
    else if i == 5 then f.closeDateFrom.Some? ==> o.closeDate >= f.closeDateFrom.value
    else if i == 6 then f.closeDateTo.Some? ==> o.closeDate <= f.closeDateTo.value
    else true
  }

  /** The first `n` filters hold of `o`. */
  predicate FirstFieldsHold(f: OpportunityFilters, n: nat, o: SalesOpportunity) {
    forall i: nat :: i < n ==> FieldHolds(f, i, o)
  }

  lemma AllFieldsAreMatches(f: OpportunityFilters, o: SalesOpportunity)
    ensures FirstFieldsHold(f, 7, o) <==> Matches(Some(f), o)
  {
    assert FirstFieldsHold(f, 7, o) ==> Matches(Some(f), o) by {
      if FirstFieldsHold(f, 7, o) {
        assert FieldHolds(f, 0, o) && FieldHolds(f, 1, o) && FieldHolds(f, 2, o) && FieldHolds(f, 3, o);
        assert FieldHolds(f, 4, o) && FieldHolds(f, 5, o) && FieldHolds(f, 6, o);
      }
    }
  }

  /** Pushing the condition of filter `k` extends the agreement to the first `k + 1` filters. */
  lemma PushStep(f: OpportunityFilters, k: nat, conditions: seq<Condition>, c: Condition)
    requires forall o :: AllHold(conditions, o) <==> FirstFieldsHold(f, k, o)
    requires forall o :: Holds(c, o) <==> FieldHolds(f, k, o)
    ensures forall o :: AllHold(conditions + [c], o) <==> FirstFieldsHold(f, k + 1, o)
  {
    AllHoldAppend(conditions, c);
  }

  /** A filter not in effect needs no condition. */
  lemma SkipStep(f: OpportunityFilters, k: nat, conditions: seq<Condition>)
    requires forall o :: AllHold(conditions, o) <==> FirstFieldsHold(f, k, o)
    requires forall o :: FieldHolds(f, k, o)
    ensures forall o :: AllHold(conditions, o) <==> FirstFieldsHold(f, k + 1, o)
  {
  }

  /** Turn the optional filter object into the list of conditions, one `if` per filter. */
  method BuildConditions(filters: Option<OpportunityFilters>) returns (conditions: seq<Condition>)
    ensures |conditions| <= 7
    ensures conditions == [] <==> !AnyInEffect(filters)
    ensures forall o :: AllHold(conditions, o) <==> Matches(filters, o)
  {
    conditions := [];
    if filters.Some? {
      var f := filters.value;
      if Truthy(f.assignedToId) {
        PushStep(f, 0, conditions, AssignedToIs(f.assignedToId.value));
        conditions := conditions + [AssignedToIs(f.assignedToId.value)];
      } else {
        SkipStep(f, 0, conditions);
      }
      if f.stage.Some? {
        PushStep(f, 1, conditions, StageIs(f.stage.value));
        conditions := conditions + [StageIs(f.stage.value)];
      } else {
        SkipStep(f, 1, conditions);
      }
      if Truthy(f.customerName) {
        PushStep(f, 2, conditions, CustomerNameContains(f.customerName.value));
        conditions := conditions + [CustomerNameContains(f.customerName.value)];
      } else {
        SkipStep(f, 2, conditions);
      }
      if f.minAmount.Some? {
        PushStep(f, 3, conditions, AmountAtLeast(f.minAmount.value));
        conditions := conditions + [AmountAtLeast(f.minAmount.value)];
      } else {
        SkipStep(f, 3, conditions);
      }
      if f.maxAmount.Some? {
        PushStep(f, 4, conditions, AmountAtMost(f.maxAmount.value));
        conditions := conditions + [AmountAtMost(f.maxAmount.value)];
      } else {
        SkipStep(f, 4, conditions);
      }
      if f.closeDateFrom.Some? {
        PushStep(f, 5, conditions, CloseDateFrom(f.closeDateFrom.value));
        conditions := conditions + [CloseDateFrom(f.closeDateFrom.value)];
      } else {
        SkipStep(f, 5, conditions);
      }
      if f.closeDateTo.Some? {
        PushStep(f, 6, conditions, CloseDateTo(f.closeDateTo.value));
        conditions := conditions + [CloseDateTo(f.closeDateTo.value)];
      } else {
        SkipStep(f, 6, conditions);
      }
      forall o ensures AllHold(conditions, o) <==> Matches(filters, o) {
        AllFieldsAreMatches(f, o);
      }
    }
  }

  lemma AllHoldAppend(conditions: seq<Condition>, c: Condition)
    ensures forall o :: AllHold(conditions + [c], o) <==> AllHold(conditions, o) && Holds(c, o)
  {
    forall o ensures AllHold(conditions + [c], o) <==> AllHold(conditions, o) && Holds(c, o) {
      if AllHold(conditions, o) && Holds(c, o) {
        forall k | 0 <= k < |conditions| + 1 ensures Holds((conditions + [c])[k], o) {
          if k < |conditions| { assert (conditions + [c])[k] == conditions[k]; }
        }
      }
      if AllHold(conditions + [c], o) {
        forall k | 0 <= k < |conditions| ensures Holds(conditions[k], o) {
          assert (conditions + [c])[k] == conditions[k];
        }
        assert (conditions + [c])[|conditions|] == c;
      }
    }
  }

  /** The rows that satisfy every condition, in table order. */
  function Select(rows: seq<SalesOpportunity>, conditions: seq<Condition>): (r: seq<SalesOpportunity>)
    ensures |r| <= |rows|
    ensures forall o :: o in r <==> o in rows && AllHold(conditions, o)
  {
    if rows == [] then []
    else if AllHold(conditions, rows[0]) then [rows[0]] + Select(rows[1..], conditions)
    else Select(rows[1..], conditions)
  }

  /** Selecting by conditions equivalent to the filter is the query. */
  lemma {:induction false} SelectIsQuery(rows: seq<SalesOpportunity>, conditions: seq<Condition>, filters: Option<OpportunityFilters>)
    requires forall o :: AllHold(conditions, o) <==> Matches(filters, o)
    ensures Select(rows, conditions) == Query(rows, filters)
  {
    if rows != [] {
      SelectIsQuery(rows[1..], conditions, filters);
    }
  }

  /** When every row matches, the query returns the whole table. */
  lemma {:induction false} QueryKeepsAllMatching(rows: seq<SalesOpportunity>, filters: Option<OpportunityFilters>)
    requires forall o :: o in rows ==> Matches(filters, o)
    ensures Query(rows, filters) == rows
  {
    if rows != [] {
      assert rows[0] in rows;
      QueryKeepsAllMatching(rows[1..], filters);
      assert [rows[0]] + rows[1..] == rows;
    }
  }

  /** With no filter object, or one with no filter in effect, every row is returned. */
  lemma NoFiltersSelectEverything(rows: seq<SalesOpportunity>, filters: Option<OpportunityFilters>)
    requires !AnyInEffect(filters)
    ensures Query(rows, filters) == rows
  {
    QueryKeepsAllMatching(rows, filters);
  }

  /** Two filters that accept the same rows give the same result. */
  lemma {:induction false} QueryRespectsEquivalence(rows: seq<SalesOpportunity>, f1: Option<OpportunityFilters>, f2: Option<OpportunityFilters>)
    requires forall o :: Matches(f1, o) == Matches(f2, o)
    ensures Query(rows, f1) == Query(rows, f2)
  {
    if rows != [] {
      QueryRespectsEquivalence(rows[1..], f1, f2);
    }
  }

  /** An empty assignee or customer-name filter is the same as leaving it out. */
  lemma EmptyStringFiltersIgnored(rows: seq<SalesOpportunity>, f: OpportunityFilters)
    ensures Query(rows, Some(f.(assignedToId := Some("")))) == Query(rows, Some(f.(assignedToId := None)))
    ensures Query(rows, Some(f.(customerName := Some("")))) == Query(rows, Some(f.(customerName := None)))
  {
    QueryRespectsEquivalence(rows, Some(f.(assignedToId := Some(""))), Some(f.(assignedToId := None)));
    QueryRespectsEquivalence(rows, Some(f.(customerName := Some(""))), Some(f.(customerName := None)));
  }

  /** `f2` keeps every filter of `f1` and may add more. */
  predicate Narrows(f1: Option<OpportunityFilters>, f2: Option<OpportunityFilters>) {
    f1.None? ||
    (f2.Some? &&
     var a := f1.value;
     var b := f2.value;
     && (a.assignedToId.None? || b.assignedToId == a.assignedToId)
     && (a.stage.None? || b.stage == a.stage)
     && (a.customerName.None? || b.customerName == a.customerName)
     && (a.minAmount.None? || b.minAmount == a.minAmount)
     && (a.maxAmount.None? || b.maxAmount == a.maxAmount)
     && (a.closeDateFrom.None? || b.closeDateFrom == a.closeDateFrom)
     && (a.closeDateTo.None? || b.closeDateTo == a.closeDateTo))
  }

  /** Adding filters never enlarges the result: the narrower query is the wider
      query's result filtered again. */
  lemma {:induction false} NarrowerFiltersSelectFewer(rows: seq<SalesOpportunity>, f1: Option<OpportunityFilters>, f2: Option<OpportunityFilters>)
    requires Narrows(f1, f2)
    ensures Query(rows, f2) == Query(Query(rows, f1), f2)
    ensures |Query(rows, f2)| <= |Query(rows, f1)|
  {
    if rows != [] {
      NarrowerFiltersSelectFewer(rows[1..], f1, f2);
    }
  }
}
