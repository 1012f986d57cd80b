/**
 Splitting a batch whose payload is too large: halve the items, hand each half the pending entries it
 answers, and go on until a payload fits, a single item does not, or encoding fails.
 */
module Planner {
  import opened Prelude

  datatype BatchItem = BatchItem(id: Id, content: Bytes)

  /** Serialisation of a batch event: may fail, and has a size. */
  type Builder = seq<BatchItem> -> Result<Bytes>

  const INTERNAL_SERVER_ERROR: nat := 500
  const BAD_GATEWAY: nat := 502

  /** A planned invocation; `items` is what its payload was built from. */
  datatype InvocationPlan<T> =
    | Invoke(pending: map<Id, T>, items: seq<BatchItem>, payload: Bytes)
    | Fail(pending: map<Id, T>, items: seq<BatchItem>, status: nat, msg: string)

  datatype Planned<T> = Planned(plans: seq<InvocationPlan<T>>, splitCount: nat, oversizedSingleCount: nat)

  function ItemIds(items: seq<BatchItem>): set<Id> {
    set item | item in items :: item.id
  }

  /** split_pending: moves the entries of the left items out of the map, one by one. */
  method SplitPending<T>(pending: map<Id, T>, leftItems: seq<BatchItem>) returns (left: map<Id, T>, rest: map<Id, T>)
    ensures left == LeftPart(pending, leftItems)
    ensures rest == RightPart(pending, leftItems)
  {
    left, rest := map[], pending;
    for k := 0 to |leftItems|
      invariant left == LeftPart(pending, leftItems[..k])
      invariant rest == RightPart(pending, leftItems[..k])
    {
      var id := leftItems[k].id;
      assert ItemIds(leftItems[..k + 1]) == ItemIds(leftItems[..k]) + {id} by {
        assert leftItems[..k + 1] == leftItems[..k] + [leftItems[k]];
      }
      if id in rest {
        left := left[id := rest[id]];
        rest := rest - {id};
      }
    }
    assert leftItems[..|leftItems|] == leftItems;
  }

  function LeftPart<T>(pending: map<Id, T>, leftItems: seq<BatchItem>): map<Id, T> {
    map id | id in pending && id in ItemIds(leftItems) :: pending[id]
  }

  function RightPart<T>(pending: map<Id, T>, leftItems: seq<BatchItem>): map<Id, T> {
    map id | id in pending && id !in ItemIds(leftItems) :: pending[id]
  }

  function PlanInvocations<T>(build: Builder, limit: nat, pending: map<Id, T>, items: seq<BatchItem>): Planned<T>
    decreases |items|
  {
    match build(items)
    case Err(e) => Planned([Fail(pending, items, INTERNAL_SERVER_ERROR, "encode: " + e)], 0, 0)
    case Ok(payload) =>
      if |payload| <= limit then Planned([Invoke(pending, items, payload)], 0, 0)
      else if |items| <= 1 then Planned([Fail(pending, items, BAD_GATEWAY, "invoke payload too large")], 0, 1)
      else
        var leftItems, rightItems := items[..|items| / 2], items[|items| / 2..];
        var left := PlanInvocations(build, limit, LeftPart(pending, leftItems), leftItems);
        var right := PlanInvocations(build, limit, RightPart(pending, leftItems), rightItems);
        Planned(left.plans + right.plans, 1 + left.splitCount + right.splitCount,
                left.oversizedSingleCount + right.oversizedSingleCount)
  }

  // ---------------------------------------------------------------- nothing is lost, nothing is doubled

  ghost function AllItems<T>(plans: seq<InvocationPlan<T>>): seq<BatchItem> {
    if plans == [] then [] else plans[0].items + AllItems(plans[1..])
  }

  lemma {:induction false} AllItemsConcat<T>(a: seq<InvocationPlan<T>>, b: seq<InvocationPlan<T>>)
    ensures AllItems(a + b) == AllItems(a) + AllItems(b)
  {
    if a == [] {
      assert a + b == b;
    } else {
      assert (a + b)[1..] == a[1..] + b;
      AllItemsConcat(a[1..], b);
      assert a[0].items + (AllItems(a[1..]) + AllItems(b)) == (a[0].items + AllItems(a[1..])) + AllItems(b);
    }
  }

  /** How many plans hold an entry for id. */
  ghost function Holders<T>(plans: seq<InvocationPlan<T>>, id: Id): nat {
    if plans == [] then 0 else (if id in plans[0].pending then 1 else 0) + Holders(plans[1..], id)
  }

  /** The plan's entries are entries of the batch, value included. */
  ghost predicate Within<T(!new)>(plan: InvocationPlan<T>, pending: map<Id, T>) {
    forall id :: id in plan.pending ==> id in pending && plan.pending[id] == pending[id]
  }

  /** Every pending entry is in exactly one plan, with its own value, and nothing else is in any. */
  ghost predicate Partitions<T(!new)>(plans: seq<InvocationPlan<T>>, pending: map<Id, T>) {
    && (forall id :: Holders(plans, id) == if id in pending then 1 else 0)
    && (forall k :: 0 <= k < |plans| ==> Within(plans[k], pending))
  }

  lemma {:induction false} HoldersConcat<T>(a: seq<InvocationPlan<T>>, b: seq<InvocationPlan<T>>, id: Id)
    ensures Holders(a + b, id) == Holders(a, id) + Holders(b, id)
  {
    if a == [] {
      assert a + b == b;
    } else {
      assert (a + b)[1..] == a[1..] + b;
      HoldersConcat(a[1..], b, id);
    }
  }

  lemma OnePlan<T(!new)>(plan: InvocationPlan<T>)
    ensures Partitions([plan], plan.pending)
    ensures AllItems([plan]) == plan.items
  {
    assert [plan][1..] == [];
    assert plan.items + [] == plan.items;
  }

  /** The plans of the two halves of a batch are plans of the batch. */
  lemma HalvesPartition<T(!new)>(a: seq<InvocationPlan<T>>, b: seq<InvocationPlan<T>>, pending: map<Id, T>,
                                 leftItems: seq<BatchItem>)
    requires Partitions(a, LeftPart(pending, leftItems)) && Partitions(b, RightPart(pending, leftItems))
    ensures Partitions(a + b, pending)
  {
    forall id ensures Holders(a + b, id) == if id in pending then 1 else 0 {
      HoldersConcat(a, b, id);
    }
    forall k | 0 <= k < |a + b| ensures Within((a + b)[k], pending) {
      assert k < |a| ==> Within(a[k], LeftPart(pending, leftItems));
      assert k >= |a| ==> Within(b[k - |a|], RightPart(pending, leftItems));
    }
  }

  /**
   Main result, with no assumption on the items: the plans' pending maps partition the batch's, their
   items are the batch's items in order, every invocation's payload is what was built and fits, and
   there is one plan more than there were splits.
   */
  lemma {:induction false} PlansPartition<T(!new)>(build: Builder, limit: nat, pending: map<Id, T>,
                                                items: seq<BatchItem>)
    ensures var p := PlanInvocations(build, limit, pending, items);
            && Partitions(p.plans, pending)
            && AllItems(p.plans) == items
            && |p.plans| == p.splitCount + 1
            && (forall k :: 0 <= k < |p.plans| && p.plans[k].Invoke? ==>
                  build(p.plans[k].items) == Ok(p.plans[k].payload) && |p.plans[k].payload| <= limit)
    decreases |items|
  {
    var p := PlanInvocations(build, limit, pending, items);
    var built := build(items);
    if built.Ok? && |built.value| > limit && |items| > 1 {
      var leftItems, rightItems := items[..|items| / 2], items[|items| / 2..];
      var leftPending, rightPending := LeftPart(pending, leftItems), RightPart(pending, leftItems);
      PlansPartition(build, limit, leftPending, leftItems);
      PlansPartition(build, limit, rightPending, rightItems);
      var left := PlanInvocations(build, limit, leftPending, leftItems);
      var right := PlanInvocations(build, limit, rightPending, rightItems);
      HalvesPartition(left.plans, right.plans, pending, leftItems);
      AllItemsConcat(left.plans, right.plans);
      assert items == leftItems + rightItems;
    } else {
      OnePlan(p.plans[0]);
      assert p.plans == [p.plans[0]];
    }
  }

  /** The plan is what building its items calls for: an error, an invocation that fits, or one item that does not. */
  ghost predicate IsCalledFor<T>(build: Builder, limit: nat, plan: InvocationPlan<T>) {
    match build(plan.items)
    case Err(e) => plan.Fail? && plan.status == 500 && plan.msg == "encode: " + e
    case Ok(payload) =>
      if |payload| <= limit then plan.Invoke? && plan.payload == payload
      else |plan.items| <= 1 && plan.Fail? && plan.status == 502 && plan.msg == "invoke payload too large"
  }

  ghost predicate AllCalledFor<T>(build: Builder, limit: nat, plans: seq<InvocationPlan<T>>, nonEmpty: bool) {
    forall k {:trigger plans[k]} :: 0 <= k < |plans| ==>
      IsCalledFor(build, limit, plans[k]) && (nonEmpty ==> plans[k].items != [])
  }

  /** Every plan is made as building its own items calls for, and has items if the batch has. */
  lemma {:induction false} PlansAreCalledFor<T>(build: Builder, limit: nat, pending: map<Id, T>, items: seq<BatchItem>)
    ensures AllCalledFor(build, limit, PlanInvocations(build, limit, pending, items).plans, items != [])
    decreases |items|
  {
    var built := build(items);
    if built.Ok? && |built.value| > limit && |items| > 1 {
      var leftItems, rightItems := items[..|items| / 2], items[|items| / 2..];
      var leftPart, rightPart := LeftPart(pending, leftItems), RightPart(pending, leftItems);
      PlansAreCalledFor(build, limit, leftPart, leftItems);
      PlansAreCalledFor(build, limit, rightPart, rightItems);
      assert leftItems != [] && rightItems != [];
      assert PlanInvocations(build, limit, pending, items).plans
          == PlanInvocations(build, limit, leftPart, leftItems).plans
             + PlanInvocations(build, limit, rightPart, rightItems).plans;
    } else {
      assert IsCalledFor(build, limit, PlanInvocations(build, limit, pending, items).plans[0]);
    }
  }

  ghost predicate IsTooLarge(build: Builder, limit: nat, block: seq<BatchItem>) {
    build(block).Ok? && |build(block).value| > limit
  }

  ghost predicate IsHalf(part: seq<BatchItem>, block: seq<BatchItem>) {
    part == block[..|block| / 2] || part == block[|block| / 2..]
  }

  /** The plan's items are one half of a block that could be encoded but was too large. */
  ghost predicate IsHalfOfTooLarge<T>(build: Builder, limit: nat, plan: InvocationPlan<T>) {
    exists block :: IsTooLarge(build, limit, block) && IsHalf(plan.items, block)
  }

  ghost predicate AllHalves<T>(build: Builder, limit: nat, plans: seq<InvocationPlan<T>>) {
    forall k {:trigger plans[k]} :: 0 <= k < |plans| ==> IsHalfOfTooLarge(build, limit, plans[k])
  }

  /** What a half of a too large block is planned as, split further or not. */
  lemma PartHalves<T>(build: Builder, limit: nat, plans: seq<InvocationPlan<T>>, part: seq<BatchItem>,
                      block: seq<BatchItem>)
    requires IsTooLarge(build, limit, block) && IsHalf(part, block)
    requires if |plans| == 1 then plans[0].items == part else AllHalves(build, limit, plans)
    ensures AllHalves(build, limit, plans)
  {
  }

  /** Splitting is by halves, and only where it must be: every plan of a split batch is half of what was too large. */
  lemma {:induction false} SplitOnlyTooLarge<T>(build: Builder, limit: nat, pending: map<Id, T>, items: seq<BatchItem>)
    ensures var plans := PlanInvocations(build, limit, pending, items).plans;
            && (|plans| == 1 ==> plans[0].items == items)
            && (|plans| != 1 ==> IsTooLarge(build, limit, items) && AllHalves(build, limit, plans))
    decreases |items|
  {
    if IsTooLarge(build, limit, items) && |items| > 1 {
      var leftItems, rightItems := items[..|items| / 2], items[|items| / 2..];
      var leftPart, rightPart := LeftPart(pending, leftItems), RightPart(pending, leftItems);
      SplitOnlyTooLarge(build, limit, leftPart, leftItems);
      SplitOnlyTooLarge(build, limit, rightPart, rightItems);
      var left := PlanInvocations(build, limit, leftPart, leftItems).plans;
      var right := PlanInvocations(build, limit, rightPart, rightItems).plans;
      PartHalves(build, limit, left, leftItems, items);
      PartHalves(build, limit, right, rightItems, items);
      SomePlan(build, limit, leftPart, leftItems);
      SomePlan(build, limit, rightPart, rightItems);
      assert PlanInvocations(build, limit, pending, items).plans == left + right;
    }
  }

  lemma {:induction false} SomePlan<T>(build: Builder, limit: nat, pending: map<Id, T>, items: seq<BatchItem>)
    ensures |PlanInvocations(build, limit, pending, items).plans| > 0
    decreases |items|
  {
    if IsTooLarge(build, limit, items) && |items| > 1 {
      var leftItems := items[..|items| / 2];
      SomePlan(build, limit, LeftPart(pending, leftItems), leftItems);
    }
  }

  /** A plan's items are the stretch of the batch's items that starts where the plans before it end. */
  lemma PlanIsStretch<T>(plans: seq<InvocationPlan<T>>, k: nat)
    requires k < |plans|
    ensures var from, to := |AllItems(plans[..k])|, |AllItems(plans[..k + 1])|;
            from <= to <= |AllItems(plans)| && plans[k].items == AllItems(plans)[from..to]
  {
    var before, rest := plans[..k], plans[k + 1..];
    assert [plans[k]][1..] == [] && AllItems([plans[k]]) == plans[k].items;
    assert plans[..k + 1] == before + [plans[k]] && plans == plans[..k + 1] + rest;
    AllItemsConcat(before, [plans[k]]);
    AllItemsConcat(plans[..k + 1], rest);
  }

  // ---------------------------------------------------------------- each plan answers its own items

  ghost predicate DistinctIds(items: seq<BatchItem>) {
    forall j, k :: 0 <= j < k < |items| ==> items[j].id != items[k].id
  }

  lemma PartsOwnTheirItems<T>(pending: map<Id, T>, items: seq<BatchItem>, mid: nat)
    requires DistinctIds(items) && pending.Keys <= ItemIds(items) && mid <= |items|
    ensures LeftPart(pending, items[..mid]).Keys == pending.Keys * ItemIds(items[..mid])
    ensures RightPart(pending, items[..mid]).Keys == pending.Keys * ItemIds(items[mid..])
    ensures ItemIds(items) == ItemIds(items[..mid]) + ItemIds(items[mid..])
  {
    var left, right := items[..mid], items[mid..];
    forall id ensures id in ItemIds(items) <==> id in ItemIds(left) || id in ItemIds(right) {
      forall item ensures item in items <==> item in left || item in right {
        assert items == left + right;
      }
    }
    forall id | id in ItemIds(left) ensures id !in ItemIds(right) {
      var j :| 0 <= j < |left| && left[j].id == id;
      forall k | 0 <= k < |right| ensures right[k].id != id {
        assert items[j] == left[j] && items[mid + k] == right[k];
      }
    }
  }

  /** The plan is about items of the batch, and holds the entries of its own items: all that there are. */
  ghost predicate OwnsItems<T>(plan: InvocationPlan<T>, pending: map<Id, T>, items: seq<BatchItem>) {
    && ItemIds(plan.items) <= ItemIds(items)
    && plan.pending.Keys == pending.Keys * ItemIds(plan.items)
  }

  ghost predicate AllOwnItems<T>(plans: seq<InvocationPlan<T>>, pending: map<Id, T>, items: seq<BatchItem>) {
    forall k :: 0 <= k < |plans| ==> OwnsItems(plans[k], pending, items)
  }

  /** What a plan of one half owns of the half's entries, it owns of all entries. */
  lemma HalfOwns<T>(plan: InvocationPlan<T>, pending: map<Id, T>, part: map<Id, T>, items: seq<BatchItem>,
                    half: seq<BatchItem>)
    requires OwnsItems(plan, part, half)
    requires part.Keys == pending.Keys * ItemIds(half) && ItemIds(half) <= ItemIds(items)
    ensures OwnsItems(plan, pending, items)
  {
  }

  lemma HalvesOwn<T>(left: seq<InvocationPlan<T>>, right: seq<InvocationPlan<T>>, pending: map<Id, T>,
                     items: seq<BatchItem>, mid: nat)
    requires DistinctIds(items) && pending.Keys <= ItemIds(items) && mid <= |items|
    requires AllOwnItems(left, LeftPart(pending, items[..mid]), items[..mid])
    requires AllOwnItems(right, RightPart(pending, items[..mid]), items[mid..])
    ensures AllOwnItems(left + right, pending, items)
  {
    PartsOwnTheirItems(pending, items, mid);
    forall k | 0 <= k < |left + right| ensures OwnsItems((left + right)[k], pending, items) {
      if k < |left| {
        HalfOwns(left[k], pending, LeftPart(pending, items[..mid]), items, items[..mid]);
      } else {
        HalfOwns(right[k - |left|], pending, RightPart(pending, items[..mid]), items, items[mid..]);
      }
    }
  }

  /** With distinct ids and entries for items only, every plan answers exactly its own items. */
  lemma {:induction false} PlansOwnTheirItems<T>(build: Builder, limit: nat, pending: map<Id, T>, items: seq<BatchItem>)
    requires DistinctIds(items) && pending.Keys <= ItemIds(items)
    ensures AllOwnItems(PlanInvocations(build, limit, pending, items).plans, pending, items)
    decreases |items|
  {
    var plans := PlanInvocations(build, limit, pending, items).plans;
    var built := build(items);
    if built.Ok? && |built.value| > limit && |items| > 1 {
      var mid := |items| / 2;
      var leftPart, rightPart := LeftPart(pending, items[..mid]), RightPart(pending, items[..mid]);
      PartsOwnTheirItems(pending, items, mid);
      PlansOwnTheirItems(build, limit, leftPart, items[..mid]);
      PlansOwnTheirItems(build, limit, rightPart, items[mid..]);
      HalvesOwn(PlanInvocations(build, limit, leftPart, items[..mid]).plans,
                PlanInvocations(build, limit, rightPart, items[mid..]).plans, pending, items, mid);
    } else {
      assert |plans| == 1 && plans[0].pending == pending && plans[0].items == items;
    }
  }

  /** With an entry for every item, there is one in the plan of every item. */
  lemma PlansAnswerTheirItems<T>(build: Builder, limit: nat, pending: map<Id, T>, items: seq<BatchItem>, k: nat)
    requires DistinctIds(items) && pending.Keys == ItemIds(items)
    requires k < |PlanInvocations(build, limit, pending, items).plans|
    ensures var plan := PlanInvocations(build, limit, pending, items).plans[k];
            plan.pending.Keys == ItemIds(plan.items)
  {
    PlansOwnTheirItems(build, limit, pending, items);
    assert OwnsItems(PlanInvocations(build, limit, pending, items).plans[k], pending, items);
  }

  // ---------------------------------------------------------------- who fails

  /** Encoding always succeeds, and a part of a batch is never larger than the batch. */
  ghost predicate TotalAndMonotone(build: Builder) {
    && (forall items: seq<BatchItem> :: build(items).Ok?)
    && (forall items: seq<BatchItem>, k: nat {:trigger items[k]} :: k < |items| ==>
          |build([items[k]]).value| <= |build(items).value|)
  }

  ghost predicate TooLargeAlone(build: Builder, limit: nat, item: BatchItem) {
    build([item]).Ok? && |build([item]).value| > limit
  }

  /** Exactly the items that do not fit on their own fail, and each of them alone. */
  lemma {:induction false} FailuresAreTooLarge<T>(build: Builder, limit: nat, pending: map<Id, T>,
                                                  items: seq<BatchItem>)
    requires TotalAndMonotone(build) && items != []
    ensures var p := PlanInvocations(build, limit, pending, items);
            && (forall k :: 0 <= k < |p.plans| ==>
                  if p.plans[k].Fail?
                  then |p.plans[k].items| == 1 && TooLargeAlone(build, limit, p.plans[k].items[0])
                  else forall j :: 0 <= j < |p.plans[k].items| ==> !TooLargeAlone(build, limit, p.plans[k].items[j]))
            && p.oversizedSingleCount == FailCount(p.plans)
    decreases |items|
  {
    var built := build(items);
    if |built.value| > limit && |items| > 1 {
      var leftItems, rightItems := items[..|items| / 2], items[|items| / 2..];
      var leftPending, rightPending := LeftPart(pending, leftItems), RightPart(pending, leftItems);
      FailuresAreTooLarge(build, limit, leftPending, leftItems);
      FailuresAreTooLarge(build, limit, rightPending, rightItems);
      FailCountConcat(PlanInvocations(build, limit, leftPending, leftItems).plans,
                      PlanInvocations(build, limit, rightPending, rightItems).plans);
    } else if |built.value| > limit {
      assert items == [items[0]];
    }
  }

  ghost function FailCount<T>(plans: seq<InvocationPlan<T>>): nat {
    if plans == [] then 0 else (if plans[0].Fail? then 1 else 0) + FailCount(plans[1..])
  }

  lemma {:induction false} FailCountConcat<T>(a: seq<InvocationPlan<T>>, b: seq<InvocationPlan<T>>)
    ensures FailCount(a + b) == FailCount(a) + FailCount(b)
  {
    if a == [] {
      assert a + b == b;
    } else {
      assert (a + b)[1..] == a[1..] + b;
      FailCountConcat(a[1..], b);
    }
  }

  /** A single request is never split: it gives one plan, so a probe makes one invocation at most. */
  lemma SingletonHasOnePlan<T>(build: Builder, limit: nat, pending: map<Id, T>, item: BatchItem)
    ensures |PlanInvocations(build, limit, pending, [item]).plans| == 1
  {
  }
}
