/** The item table as the two routes change it: the high-risk sweep rewrites
    every row in place, ticket creation appends one. */
module Store {
  import opened Wrappers
  import opened Risk
  import opened Items
  import opened AutoTag
  import opened Tickets

  class ItemStore {
    /** The rows, in the order the table lists them. */
    var items: seq<Item>
    /** The next id the table hands out. */
    var nextId: nat

    /** Ids are unique and below `nextId`. */
    ghost predicate Valid()
      reads this
    {
      (forall k :: 0 <= k < |items| ==> items[k].id < nextId) &&
      (forall j, k :: 0 <= j < k < |items| ==> items[j].id != items[k].id)
    }

    constructor ()
      ensures Valid() && items == [] && nextId == 0
    {
      items := [];
      nextId := 0;
    }

    /** `POST /api/cron/auto-tag-high-risk`: rescores every row, reconciles its
        "high risk" tag, writes both back, and counts the writes. */
    method AutoTagHighRisk() returns (updated: nat)
      requires Valid()
      modifies this
      ensures Valid() && nextId == old(nextId)
      ensures items == ReconcileAll(old(items))
      ensures updated == |items|
      ensures forall k :: 0 <= k < |items| ==> Reconciled(items[k])
    {
      updated := 0;
      var i := 0;
      while i < |items|
        invariant 0 <= i <= |items| == |old(items)|
        invariant forall k :: 0 <= k < i ==> items[k] == ReconcileItem(old(items)[k])
        invariant forall k :: i <= k < |items| ==> items[k] == old(items)[k]
        invariant updated == i
        invariant nextId == old(nextId)
      {
        var item := items[i];
        var score := CalculateRiskScore(item.amount, Some(item.tags));
        var category := MapRiskCategory(score);
        var newTags := ReconcileTags(item.tags, category);
        items := items[i := item.(riskScore := Some(score), tags := newTags)];
        updated := updated + 1;
        i := i + 1;
      }
    }

    /** `POST /api/tickets`: 401 without a principal, 400 without a title or a
        description, otherwise a new row owned by the principal. */
    method CreateTicket(principal: Option<string>, body: CreateBody, now: int) returns (outcome: CreateOutcome)
      requires Valid()
      modifies this
      ensures Valid()
      ensures !Authenticated(principal) ==>
        outcome == Unauthorized && items == old(items) && nextId == old(nextId)
      ensures Authenticated(principal) && !(Filled(body.title) && Filled(body.description)) ==>
        outcome == MissingFields && items == old(items) && nextId == old(nextId)
      ensures Authenticated(principal) && Filled(body.title) && Filled(body.description) ==>
        outcome == Created(old(nextId)) && nextId == old(nextId) + 1 &&
        items == old(items) + [NewItem(old(nextId), principal.value, body, now)]
    {
      if !Authenticated(principal) {
        return Unauthorized;
      }
      if !(Filled(body.title) && Filled(body.description)) {
        return MissingFields;
      }
      var baseTags := BaseTags(body.tag);
      var score := CalculateRiskScore(body.price, Some(baseTags));
      var category := MapRiskCategory(score);
      var finalTags := FinalTags(baseTags, category);
      var created := Item(nextId, body.title.value, body.description.value, body.price,
                          finalTags, Some(score), InitialStatus, principal, now);
      items := items + [created];
      outcome := Created(nextId);
      nextId := nextId + 1;
    }
  }
}
