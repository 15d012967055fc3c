/** The two tables as stored: primary keys, the scale and precision of the
    amount column, the declaration order of the stage enumeration, and lookups
    by primary key. There is no database-level foreign key from an opportunity
    to its user; `AssigneesResolve` is the property only the handlers keep. */
module Tables {
  import opened Schema

  /** `numeric(12, 2)`: ten integer digits and two fractional ones, so at most
      9 999 999 999.99, that is 999 999 999 999 cents. */
  const MaxAmountCents: int := 999_999_999_999

  /** The stage enumeration in declaration order; the database sorts stages by this order. */
  const StageOrder: seq<Stage> := [Prospecting, Qualification, Proposal, Negotiation, ClosedWon, ClosedLost]

  /** Position of a stage in the declaration order. */
  function StageIndex(s: Stage): (i: nat)
    ensures i < |StageOrder| && StageOrder[i] == s
  {
    match s
    case Prospecting => 0
    case Qualification => 1
    case Proposal => 2
    case Negotiation => 3
    case ClosedWon => 4
    case ClosedLost => 5
  }

  /** Every stage occurs in the declaration order exactly once, at its own index. */
  lemma StageOrderIsPermutation()
    ensures forall s :: s in StageOrder
    ensures forall i :: 0 <= i < |StageOrder| ==> StageIndex(StageOrder[i]) == i
  {
    forall s ensures s in StageOrder {
      assert StageOrder[StageIndex(s)] == s;
    }
  }

  /** The amount fits the column. */
  predicate FitsAmountColumn(amount: Cents) {
    amount <= MaxAmountCents
  }

  /** A row of the opportunities table that the handlers can have written. */
  predicate StoredOpportunity(o: SalesOpportunity) {
    ValidOpportunity(o) && FitsAmountColumn(o.amount)
  }

  /** `id` is the primary key of the users table. */
  predicate UniqueUserIds(us: seq<User>) {
    forall i, j :: 0 <= i < j < |us| ==> us[i].id != us[j].id
  }

  /** `id` is the primary key of the opportunities table. */
  predicate UniqueOpportunityIds(os: seq<SalesOpportunity>) {
    forall i, j :: 0 <= i < j < |os| ==> os[i].id != os[j].id
  }

  predicate HasUser(us: seq<User>, id: string) {
    exists k :: 0 <= k < |us| && us[k].id == id
  }

  predicate HasOpportunity(os: seq<SalesOpportunity>, id: string) {
    exists k :: 0 <= k < |os| && os[k].id == id
  }

  /** Every opportunity names an existing user. */
  ghost predicate AssigneesResolve(us: seq<User>, os: seq<SalesOpportunity>) {
    forall o :: o in os ==> HasUser(us, o.assignedToId)
  }

  /** Lookup of a user by primary key: the position of the first row with that id. */
  function FindUser(us: seq<User>, id: string): (r: Option<nat>)
    ensures r.Some? <==> HasUser(us, id)
    ensures r.Some? ==> r.value < |us| && us[r.value].id == id
  {
    if us == [] then None
    else if us[0].id == id then Some(0)
    else match FindUser(us[1..], id)
      case Some(k) => Some(k + 1)
      case None => None
  }

  /** Lookup of an opportunity by primary key: the position of the first row with that id. */
  function FindOpportunity(os: seq<SalesOpportunity>, id: string): (r: Option<nat>)
    ensures r.Some? <==> HasOpportunity(os, id)
    ensures r.Some? ==> r.value < |os| && os[r.value].id == id
  {
    if os == [] then None
    else if os[0].id == id then Some(0)
    else match FindOpportunity(os[1..], id)
      case Some(k) => Some(k + 1)
      case None => None
  }

  /** Under the primary key, the row a lookup finds is the only row with that id. */
  lemma FoundOpportunityIsOnly(os: seq<SalesOpportunity>, id: string, k: nat)
    requires UniqueOpportunityIds(os)
    requires k < |os| && os[k].id == id
    ensures FindOpportunity(os, id) == Some(k)
  {
  }

  /** The opportunities table without the row(s) carrying `id`. */
  function WithoutId(os: seq<SalesOpportunity>, id: string): (r: seq<SalesOpportunity>)
    ensures !HasOpportunity(r, id)
    ensures forall o :: o in r <==> o in os && o.id != id
    ensures |r| <= |os|
  {
    if os == [] then []
    else if os[0].id == id then WithoutId(os[1..], id)
    else [os[0]] + WithoutId(os[1..], id)
  }

  /** Under the primary key, removing every row with `id` is cutting out the one row found. */
  lemma {:induction false} WithoutIdIsSplice(os: seq<SalesOpportunity>, id: string, k: nat)
    requires UniqueOpportunityIds(os)
    requires k < |os| && os[k].id == id
    ensures WithoutId(os, id) == os[..k] + os[k + 1..]
  {
    if k == 0 {
      TailLacksFirstId(os);
      NoIdNoChange(os[1..], id);
    } else {
      TailUnique(os);
      assert os[1..][k - 1] == os[k];
      WithoutIdIsSplice(os[1..], id, k - 1);
      SpliceStep(os, id, k);
    }
  }

  lemma SpliceStep(os: seq<SalesOpportunity>, id: string, k: nat)
    requires UniqueOpportunityIds(os)
    requires 0 < k < |os| && os[k].id == id
    requires WithoutId(os[1..], id) == os[1..][..k - 1] + os[1..][k..]
    ensures WithoutId(os, id) == os[..k] + os[k + 1..]
  {
    assert os[0].id != id;
    assert [os[0]] + os[1..][..k - 1] == os[..k];
    assert os[1..][k..] == os[k + 1..];
  }

  lemma TailUnique(os: seq<SalesOpportunity>)
    requires UniqueOpportunityIds(os) && os != []
    ensures UniqueOpportunityIds(os[1..])
  {
    var tail := os[1..];
    forall i, j | 0 <= i < j < |tail| ensures tail[i].id != tail[j].id {
      assert tail[i] == os[i + 1] && tail[j] == os[j + 1];
    }
  }

  lemma TailLacksFirstId(os: seq<SalesOpportunity>)
    requires UniqueOpportunityIds(os) && os != []
    ensures !HasOpportunity(os[1..], os[0].id)
  {
    var tail := os[1..];
    forall j | 0 <= j < |tail| ensures tail[j].id != os[0].id {
      assert tail[j] == os[j + 1];
    }
  }

  /** Removing an id that is not present leaves the table as it is. */
  lemma {:induction false} NoIdNoChange(os: seq<SalesOpportunity>, id: string)
    requires !HasOpportunity(os, id)
    ensures WithoutId(os, id) == os
  {
    if os != [] {
      assert os[0].id != id;
      assert !HasOpportunity(os[1..], id) by {
        forall k | 0 <= k < |os| - 1 ensures os[1..][k].id != id {
          assert os[1..][k] == os[k + 1];
        }
      }
      NoIdNoChange(os[1..], id);
      assert [os[0]] + os[1..] == os;
    }
  }

  /** Appending a user whose id is absent keeps the primary key. */
  lemma AppendFreshUser(us: seq<User>, u: User)
    requires UniqueUserIds(us) && !HasUser(us, u.id)
    ensures UniqueUserIds(us + [u])
  {
    var r := us + [u];
    forall i, j | 0 <= i < j < |r| ensures r[i].id != r[j].id {
      assert r[i] == us[i];
      if j < |us| {
        assert r[j] == us[j];
      }
    }
  }

  /** Appending an opportunity whose id is absent keeps the primary key. */
  lemma AppendFreshOpportunity(os: seq<SalesOpportunity>, o: SalesOpportunity)
    requires UniqueOpportunityIds(os) && !HasOpportunity(os, o.id)
    ensures UniqueOpportunityIds(os + [o])
  {
    var r := os + [o];
    forall i, j | 0 <= i < j < |r| ensures r[i].id != r[j].id {
      assert r[i] == os[i];
      if j < |os| {
        assert r[j] == os[j];
      }
    }
  }

  /** Replacing a row by one with the same id keeps the primary key. */
  lemma ReplaceKeepsUnique(os: seq<SalesOpportunity>, k: nat, o: SalesOpportunity)
    requires UniqueOpportunityIds(os) && k < |os| && o.id == os[k].id
    ensures UniqueOpportunityIds(os[k := o])
  {
    var r := os[k := o];
    forall i, j | 0 <= i < j < |r| ensures r[i].id != r[j].id {
      assert r[i].id == os[i].id && r[j].id == os[j].id;
    }
  }

  /** Cutting out one row keeps the primary key. */
  lemma SpliceKeepsUnique(os: seq<SalesOpportunity>, k: nat)
    requires UniqueOpportunityIds(os) && k < |os|
    ensures UniqueOpportunityIds(os[..k] + os[k + 1..])
  {
    var r := os[..k] + os[k + 1..];
    forall i, j | 0 <= i < j < |r| ensures r[i].id != r[j].id {
      var i' := if i < k then i else i + 1;
      var j' := if j < k then j else j + 1;
      assert r[i] == os[i'] && r[j] == os[j'];
    }
  }
}
