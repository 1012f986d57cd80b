/**
 Recognising an outer batch: anything that is not a version-1 envelope with a batch field passes
 through; an envelope whose batch is not a non-empty list of items with distinct ids is rejected.
 */
module KhoneEnvelope {
  import opened Prelude
  import opened ProxyMachine

  datatype Json =
    | JsonNull
    | JsonBool(b: bool)
    | JsonNumber(n: int)
    | JsonOther              // a number that is no integer
    | JsonString(s: string)
    | JsonArray(items: seq<Json>)
    | JsonObject(fields: map<string, Json>)

  function Field(v: Json, name: string): Option<Json> {
    if v.JsonObject? && name in v.fields then Some(v.fields[name]) else None
  }

  /** The item is an object whose requestContext is an object whose requestId is this string. */
  ghost predicate HasRequestId(item: Json, id: Id) {
    && item.JsonObject? && "requestContext" in item.fields
    && var context := item.fields["requestContext"];
       context.JsonObject? && "requestId" in context.fields && context.fields["requestId"] == JsonString(id)
  }

  function RequestId(item: Json): (r: Option<Id>)
    ensures forall id :: r == Some(id) <==> HasRequestId(item, id)
  {
    var context := Field(item, "requestContext");
    var id := if context.Some? then Field(context.value, "requestId") else None;
    if id.Some? && id.value.JsonString? then Some(id.value.s) else None
  }

  datatype Parsed = NotABatch | Batch(virtuals: seq<Virtual>) | Rejected(error: string)

  /** An object whose v is the number 1 and that has a batch. */
  ghost predicate IsEnvelope(env: Option<Json>) {
    && env.Some? && env.value.JsonObject?
    && "v" in env.value.fields && env.value.fields["v"] == JsonNumber(1)
    && "batch" in env.value.fields
  }

  /** The first k items each have an id, and no two of them the same. */
  ghost predicate GoodUpTo(items: seq<Json>, k: nat)
    requires k <= |items|
  {
    && (forall j :: 0 <= j < k ==> RequestId(items[j]).Some?)
    && (forall i, j :: 0 <= i < j < k ==> RequestId(items[i]) != RequestId(items[j]))
  }

  /** The items are a batch: at least one, each with an id, no id twice. */
  ghost predicate IsBatch(batch: Json) {
    batch.JsonArray? && batch.items != [] && GoodUpTo(batch.items, |batch.items|)
  }

  ghost predicate IsIdBefore(items: seq<Json>, k: nat, id: Id)
    requires k <= |items|
  {
    exists j :: 0 <= j < k && RequestId(items[j]) == Some(id)
  }

  /** Why items are no batch: the first that is wrong has no id, or the id of an earlier one. */
  ghost predicate IsItemError(items: seq<Json>, error: string) {
    exists k: nat :: k < |items| && GoodUpTo(items, k) && IsErrorAt(items, k, error)
  }

  ghost predicate IsErrorAt(items: seq<Json>, k: nat, error: string)
    requires k < |items|
  {
    match RequestId(items[k])
    case None => error == "batch item missing requestContext.requestId"
    case Some(id) => IsIdBefore(items, k, id) && error == "duplicate requestContext.requestId in batch (" + id + ")"
  }

  /** Why an envelope's batch is rejected. */
  ghost predicate IsReason(batch: Json, error: string) {
    if !batch.JsonArray? then error == "Khone batch field must be an array"
    else if batch.items == [] then error == "Khone batch must contain at least one item"
    else IsItemError(batch.items, error)
  }

  ghost predicate InOrder(items: seq<Json>, render: Json -> Bytes, virtuals: seq<Virtual>) {
    && |virtuals| == |items|
    && forall k :: 0 <= k < |items| ==> virtuals[k] == Virtual(RequestId(items[k]).GetOr(""), render(items[k]))
  }

  /** What has been read of the first k items. */
  ghost predicate ReadUpTo(items: seq<Json>, k: nat, render: Json -> Bytes, out: seq<Virtual>, seen: set<Id>)
    requires k <= |items|
  {
    && GoodUpTo(items, k) && InOrder(items[..k], render, out)
    && forall id :: id in seen <==> IsIdBefore(items, k, id)
  }

  lemma IdsBeforeNext(items: seq<Json>, k: nat, id: Id)
    requires k < |items|
    ensures IsIdBefore(items, k + 1, id) <==> IsIdBefore(items, k, id) || RequestId(items[k]) == Some(id)
  {
  }

  lemma ReadNext(items: seq<Json>, k: nat, render: Json -> Bytes, out: seq<Virtual>, seen: set<Id>, id: Id)
    requires k < |items| && ReadUpTo(items, k, render, out, seen) && RequestId(items[k]) == Some(id) && id !in seen
    ensures ReadUpTo(items, k + 1, render, out + [Virtual(id, render(items[k]))], seen + {id})
  {
    forall other ensures other in seen + {id} <==> IsIdBefore(items, k + 1, other) {
      IdsBeforeNext(items, k, other);
    }
    assert !IsIdBefore(items, k, id);
    assert items[..k + 1] == items[..k] + [items[k]];
  }

  /** The loop over the items: a batch when every item is good, the first error otherwise. */
  method ParseItems(items: seq<Json>, render: Json -> Bytes) returns (r: Parsed)
    ensures !r.NotABatch?
    ensures r.Batch? <==> GoodUpTo(items, |items|)
    ensures r.Batch? ==> InOrder(items, render, r.virtuals) && Distinct(Ids(r.virtuals))
    ensures r.Rejected? ==> IsItemError(items, r.error)
  {
    var out: seq<Virtual> := [];
    var seen: set<Id> := {};
    for k := 0 to |items|
      invariant ReadUpTo(items, k, render, out, seen)
    {
      var id := RequestId(items[k]);
      if id.None? {
        r := Rejected("batch item missing requestContext.requestId");
        assert IsErrorAt(items, k, r.error);
        return r;
      }
      if id.value in seen {
        r := Rejected("duplicate requestContext.requestId in batch (" + id.value + ")");
        assert IsErrorAt(items, k, r.error);
        return r;
      }
      ReadNext(items, k, render, out, seen, id.value);
      seen := seen + {id.value};
      out := out + [Virtual(id.value, render(items[k]))];
    }
    assert items[..|items|] == items;
    return Batch(out);
  }

  /**
   Three outcomes, each exactly when it should be; an accepted batch keeps the order, the ids and
   the rendered items, and its ids are distinct, which is what the proxy's state machine relies on.
   */
  method ParseOuterBatch(env: Option<Json>, render: Json -> Bytes) returns (r: Parsed)
    ensures r.NotABatch? <==> !IsEnvelope(env)
    ensures r.Batch? <==> IsEnvelope(env) && IsBatch(env.value.fields["batch"])
    ensures r.Batch? ==> InOrder(env.value.fields["batch"].items, render, r.virtuals)
    ensures r.Rejected? ==> IsReason(env.value.fields["batch"], r.error)
    ensures r.Batch? ==> r.virtuals != [] && Distinct(Ids(r.virtuals))
  {
    if env.None? || Field(env.value, "v") != Some(JsonNumber(1)) { return NotABatch; }
    var field := Field(env.value, "batch");
    if field.None? { return NotABatch; }
    var batch := field.value;
    if !batch.JsonArray? { return Rejected("Khone batch field must be an array"); }
    if batch.items == [] { return Rejected("Khone batch must contain at least one item"); }
    r := ParseItems(batch.items, render);
  }
}
