/** The two form rules of the dashboard that shape what is saved: the asset
    allocation form and the education form. */
module Forms {
  import opened Common
  import opened Metrics
  import opened UserStore

  // ---------------------------------------------------------------------
  // Asset allocation

  const StockKey: Key := Col("stock_percentage")
  const BondKey: Key := Col("bond_percentage")
  const PropertyKey: Key := Col("property_percentage")
  const CashKey: Key := Col("cash_percentage")
  const RiskLevelKey: Key := Col("risk_level")

  /** The row holds the four percentages as numbers summing to exactly 100. */
  predicate AllocationSumsTo100(row: Row) {
    && StockKey in row && row[StockKey].Num?
    && BondKey in row && row[BondKey].Num?
    && PropertyKey in row && row[PropertyKey].Num?
    && CashKey in row && row[CashKey].Num?
    && row[StockKey].x + row[BondKey].x + row[PropertyKey].x + row[CashKey].x == 100.0
  }

  /** The allocation form's submission: rejected unless the four
      percentages sum to exactly 100, and otherwise the six fields exactly
      as entered (no rescaling). */
  function AllocationData(totalAssets: real, stock: int, bond: int, property: int, cash: int, risk: string)
    : (r: Option<Row>)
    ensures r.Some? <==> stock + bond + property + cash == 100
    ensures r.Some? ==> AllocationSumsTo100(r.value)
    ensures r.Some? ==> r.value.Keys == {TotalAssetsKey, StockKey, BondKey, PropertyKey, CashKey, RiskLevelKey}
    ensures r.Some? ==> r.value[StockKey] == Num(stock as real) && r.value[BondKey] == Num(bond as real)
                        && r.value[PropertyKey] == Num(property as real) && r.value[CashKey] == Num(cash as real)
  {
    if stock + bond + property + cash != 100 then None
    else Some(map[TotalAssetsKey := Num(totalAssets), StockKey := Num(stock as real), BondKey := Num(bond as real),
                  PropertyKey := Num(property as real), CashKey := Num(cash as real), RiskLevelKey := Text(risk)])
  }

  /** A saved allocation leaves the user's row summing to 100. */
  lemma SavedAllocationSumsTo100(rows: seq<Row>, uid: string, data: Row, now: string)
    requires AllocationSumsTo100(data)
    ensures FirstRow(Upsert(rows, uid, Stamp(data, uid, now), now), uid).Some?
    ensures AllocationSumsTo100(FirstRow(Upsert(rows, uid, Stamp(data, uid, now), now), uid).value)
  {
    SaveThenLoad(rows, uid, data, now, StockKey);
    SaveThenLoad(rows, uid, data, now, BondKey);
    SaveThenLoad(rows, uid, data, now, PropertyKey);
    SaveThenLoad(rows, uid, data, now, CashKey);
  }

  /** Submitting the allocation form: nothing is saved unless the four
      percentages sum to 100. */
  method SubmitAllocation(
    table: UserDataTable, uid: string, totalAssets: real, stock: int, bond: int, property: int, cash: int,
    risk: string, now: string, fault: StorageFault)
    returns (saved: bool)
    modifies table
    ensures stock + bond + property + cash != 100 ==> !saved && table.rows == old(table.rows)
    ensures stock + bond + property + cash == 100 ==> (saved <==> fault == Healthy)
    ensures !saved ==> table.rows == old(table.rows)
    ensures saved ==>
              table.rows == Upsert(old(table.rows), uid,
                                   Stamp(AllocationData(totalAssets, stock, bond, property, cash, risk).value, uid, now), now)
    ensures saved ==> FirstRow(table.rows, uid).Some? && AllocationSumsTo100(FirstRow(table.rows, uid).value)
  {
    var data := AllocationData(totalAssets, stock, bond, property, cash, risk);
    if data.None? {
      return false;
    }
    var bag := new FieldBag(data.value);
    saved := SaveUserData(table, uid, bag, now, fault);
    if saved {
      SavedAllocationSumsTo100(old(table.rows), uid, data.value, now);
    }
  }

  // ---------------------------------------------------------------------
  // Education

  const NumChildrenKey: Key := Col("num_children")
  const EducationBudgetKey: Key := Col("education_budget")
  const EducationPlanKey: Key := Col("education_plan")

  /** The four `child_{i}_*` fields of child `i`. */
  function ChildFields(i: nat, c: Child): Row {
    map[ChildKey(i, Age) := Num(c.age as real), ChildKey(i, Grade) := Text(c.grade),
        ChildKey(i, Interests) := Text(c.interests), ChildKey(i, Goals) := Text(c.goals)]
  }

  lemma ChildFieldsKeys(i: nat, c: Child)
    ensures forall k :: k in ChildFields(i, c) <==> k.ChildKey? && k.i == i
  {
    forall k: Key | k.ChildKey? && k.i == i
      ensures k in ChildFields(i, c)
    {
      match k.field
      case Age => assert k == ChildKey(i, Age);
      case Grade => assert k == ChildKey(i, Grade);
      case Interests => assert k == ChildKey(i, Interests);
      case Goals => assert k == ChildKey(i, Goals);
    }
  }

  /** The row carries child `i`'s four fields as the form entered them. */
  predicate ChildStored(data: Row, i: nat, c: Child) {
    && ChildKey(i, Age) in data && data[ChildKey(i, Age)] == Num(c.age as real)
    && ChildKey(i, Grade) in data && data[ChildKey(i, Grade)] == Text(c.grade)
    && ChildKey(i, Interests) in data && data[ChildKey(i, Interests)] == Text(c.interests)
    && ChildKey(i, Goals) in data && data[ChildKey(i, Goals)] == Text(c.goals)
  }

  /** A key the education form writes besides the child fields. */
  predicate IsEducationKey(k: Key) {
    k == NumChildrenKey || k == EducationBudgetKey || k == EducationPlanKey || k == EducationProgressKey
  }

  /** The `child_{i}_*` fields of every child, child `i` under index `i`. */
  function ChildrenFields(children: seq<Child>): Row {
    if |children| == 0 then map[]
    else ChildrenFields(children[..|children| - 1]) + ChildFields(|children| - 1, children[|children| - 1])
  }

  /** The children's fields are exactly the `child_{i}_*` columns of the
      entered indices, each holding what was entered. */
  lemma {:induction false} ChildrenFieldsContents(children: seq<Child>)
    ensures forall k :: k in ChildrenFields(children) <==> k.ChildKey? && k.i < |children|
    ensures forall i :: 0 <= i < |children| ==> ChildStored(ChildrenFields(children), i, children[i])
  {
    if |children| > 0 {
      var n := |children| - 1;
      var prefix := children[..n];
      ChildrenFieldsContents(prefix);
      ChildFieldsKeys(n, children[n]);
      forall i | 0 <= i < n
        ensures ChildStored(ChildrenFields(children), i, children[i])
      {
        assert prefix[i] == children[i];
        assert ChildStored(ChildrenFields(prefix), i, prefix[i]);
      }
    }
  }

  /** The dict the education form saves.  With children: the count, budget
      and plan, the four `child_{i}_*` fields of every child, and the
      computed progress.  Without: the count and progress, both 0. */
  function EducationData(children: seq<Child>, budget: real, plan: string): Row {
    if |children| == 0 then map[NumChildrenKey := Num(0.0), EducationProgressKey := Num(0.0)]
    else
      (map[NumChildrenKey := Num(|children| as real), EducationBudgetKey := Num(budget), EducationPlanKey := Text(plan)]
       + ChildrenFields(children))[EducationProgressKey := Num(EducationProgress(children) as real)]
  }

  /** What the education form's dict holds: with children, the count,
      budget, plan and progress and exactly the entered children's
      `child_{i}_*` columns, as entered. */
  lemma EducationDataContents(children: seq<Child>, budget: real, plan: string)
    ensures |children| == 0 ==> EducationData(children, budget, plan) == map[NumChildrenKey := Num(0.0), EducationProgressKey := Num(0.0)]
    ensures |children| > 0 ==>
              forall k :: k in EducationData(children, budget, plan) <==> IsEducationKey(k) || (k.ChildKey? && k.i < |children|)
    ensures |children| > 0 ==>
              && EducationData(children, budget, plan)[NumChildrenKey] == Num(|children| as real)
              && EducationData(children, budget, plan)[EducationBudgetKey] == Num(budget)
              && EducationData(children, budget, plan)[EducationPlanKey] == Text(plan)
              && EducationData(children, budget, plan)[EducationProgressKey] == Num(EducationProgress(children) as real)
    ensures forall i :: 0 <= i < |children| ==> ChildStored(EducationData(children, budget, plan), i, children[i])
  {
    ChildrenFieldsContents(children);
  }

  /** The education form's submission, built as the form does: the three
      plain fields, then each child's four fields in a loop, then the
      computed progress. */
  method EducationFormData(children: seq<Child>, budget: real, plan: string) returns (data: Row)
    ensures data == EducationData(children, budget, plan)
  {
    if |children| == 0 {
      return map[NumChildrenKey := Num(0.0), EducationProgressKey := Num(0.0)];
    }
    var plain := map[NumChildrenKey := Num(|children| as real), EducationBudgetKey := Num(budget), EducationPlanKey := Text(plan)];
    data := plain;
    for i := 0 to |children|
      invariant data == plain + ChildrenFields(children[..i])
    {
      assert children[..i + 1][..i] == children[..i];
      data := data + ChildFields(i, children[i]);
    }
    assert children[..|children|] == children;
    var progress := CalculateEducationProgress(children);
    data := data[EducationProgressKey := Num(progress as real)];
  }

  /** Saving merges: child fields the new submission does not carry, such
      as those of children beyond a reduced count, stay in the row. */
  lemma StaleChildKeysSurvive(rows: seq<Row>, uid: string, data: Row, now: string, n: nat)
    requires forall k :: k in data && k.ChildKey? ==> k.i < n
    requires FirstRow(rows, uid).Some?
    ensures FirstRow(Upsert(rows, uid, Stamp(data, uid, now), now), uid).Some?
    ensures forall i: nat, f :: i >= n && ChildKey(i, f) in FirstRow(rows, uid).value ==>
              && ChildKey(i, f) in FirstRow(Upsert(rows, uid, Stamp(data, uid, now), now), uid).value
              && FirstRow(Upsert(rows, uid, Stamp(data, uid, now), now), uid).value[ChildKey(i, f)]
                 == FirstRow(rows, uid).value[ChildKey(i, f)]
  {
    UpsertFirstRow(rows, uid, Stamp(data, uid, now), now);
  }

  /** After the education form is saved, the user's row carries the count
      and progress and every entered child's fields as entered. */
  lemma SavedEducationReadsBack(rows: seq<Row>, uid: string, children: seq<Child>, budget: real, plan: string, now: string)
    ensures FirstRow(Upsert(rows, uid, Stamp(EducationData(children, budget, plan), uid, now), now), uid).Some?
    ensures var row := FirstRow(Upsert(rows, uid, Stamp(EducationData(children, budget, plan), uid, now), now), uid).value;
            && NumChildrenKey in row && row[NumChildrenKey] == Num(|children| as real)
            && EducationProgressKey in row && row[EducationProgressKey] == Num(EducationProgress(children) as real)
            && forall i :: 0 <= i < |children| ==> ChildStored(row, i, children[i])
  {
    var data := EducationData(children, budget, plan);
    EducationDataContents(children, budget, plan);
    SaveThenLoad(rows, uid, data, now, NumChildrenKey);
    SaveThenLoad(rows, uid, data, now, EducationProgressKey);
    forall i | 0 <= i < |children|
      ensures ChildStored(FirstRow(Upsert(rows, uid, Stamp(data, uid, now), now), uid).value, i, children[i])
    {
      SaveThenLoad(rows, uid, data, now, ChildKey(i, Age));
      SaveThenLoad(rows, uid, data, now, ChildKey(i, Grade));
      SaveThenLoad(rows, uid, data, now, ChildKey(i, Interests));
      SaveThenLoad(rows, uid, data, now, ChildKey(i, Goals));
    }
  }

  /** Submitting the education form: the table becomes the upsert of the
      form's dict.  The user's row then reads back the entered children,
      while the `child_{i}_*` fields of every child index at or beyond the
      new count keep their old values; other users are untouched. */
  method SubmitEducation(
    table: UserDataTable, uid: string, children: seq<Child>, budget: real, plan: string,
    now: string, fault: StorageFault)
    returns (saved: bool)
    modifies table
    ensures saved <==> fault == Healthy
    ensures table.rows == if saved then Upsert(old(table.rows), uid, Stamp(EducationData(children, budget, plan), uid, now), now)
                          else old(table.rows)
    ensures saved ==>
              && FirstRow(table.rows, uid).Some?
              && NumChildrenKey in FirstRow(table.rows, uid).value
              && FirstRow(table.rows, uid).value[NumChildrenKey] == Num(|children| as real)
              && forall i :: 0 <= i < |children| ==> ChildStored(FirstRow(table.rows, uid).value, i, children[i])
    ensures saved && FirstRow(old(table.rows), uid).Some? ==>
              forall i: nat, f :: i >= |children| && ChildKey(i, f) in FirstRow(old(table.rows), uid).value ==>
                && ChildKey(i, f) in FirstRow(table.rows, uid).value
                && FirstRow(table.rows, uid).value[ChildKey(i, f)] == FirstRow(old(table.rows), uid).value[ChildKey(i, f)]
    ensures forall other :: other != uid ==> FirstRow(table.rows, other) == FirstRow(old(table.rows), other)
    ensures UniqueOwners(old(table.rows)) ==> UniqueOwners(table.rows)
  {
    var data := EducationFormData(children, budget, plan);
    var bag := new FieldBag(data);
    saved := SaveUserData(table, uid, bag, now, fault);
    if saved {
      SavedEducationReadsBack(old(table.rows), uid, children, budget, plan, now);
      UpsertLeavesOthers(old(table.rows), uid, Stamp(data, uid, now), now);
      if FirstRow(old(table.rows), uid).Some? {
        EducationDataContents(children, budget, plan);
        StaleChildKeysSurvive(old(table.rows), uid, data, now, |children|);
      }
    }
  }
}
