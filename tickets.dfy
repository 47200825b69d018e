/** The pure part of the ticket list/create route (`src/app/api/tickets/route.ts`):
    the query filters and the display mapping of `GET`, and the request
    checks, tag finalisation and new record of `POST`. */
module Tickets {
  import opened Wrappers
  import opened Text
  import opened Risk
  import opened Items
  import opened AutoTag
  import Seqs

  /** A principal id that is present and not empty (the source tests `!userId`). */
  predicate Authenticated(principal: Option<string>) {
    principal.Some? && principal.value != ""
  }

  /** A query parameter with its default: missing or empty gives the default. */
  function ParamOr(param: Option<string>, default: string): (v: string)
    ensures param.Some? && param.value != "" ==> v == param.value
    ensures !(param.Some? && param.value != "") ==> v == default
  {
    if param.Some? && param.value != "" then param.value else default
  }

  /** The `scope`, `status` and `risk` query parameters of a listing request. */
  datatype Query = Query(scope: Option<string>, status: Option<string>, risk: Option<string>)

  /** The owner condition of the listing query: no condition for scope "all",
      the caller's own items otherwise, and for an anonymous caller a
      condition on an id no stored item has. */
  function ScopeMatches(scope: string, principal: Option<string>, item: Item): (keep: bool)
    ensures scope == "all" ==> keep
    ensures scope != "all" ==> (keep <==> Authenticated(principal) && item.createdBy == principal)
  {
    if scope == "all" then true
    else if Authenticated(principal) then item.createdBy == principal
    else false
  }

  /** The four status labels the listing displays and filters on. */
  const DisplayLabels: set<string> := {"New", "In-Review", "Rejected", "Approved"}

  /** The four values of the database status enum. */
  const DbStatuses: set<string> := {"NEW", "IN_REVIEW", "REJECTED", "APPROVED"}

  /** The database status a display label filters on; `None` for every other
      parameter, including "all", which then filters nothing. */
  function StatusWhere(param: string): (r: Option<string>)
    ensures r.Some? <==> param in DisplayLabels
    ensures r.Some? ==> r.value in DbStatuses
  {
    match param
    case "New" => Some("NEW")
    case "In-Review" => Some("IN_REVIEW")
    case "Rejected" => Some("REJECTED")
    case "Approved" => Some("APPROVED")
    case _ => None
  }

  /** The status condition of the listing: a display label keeps the items
      whose known database status displays as that label; any other
      parameter keeps everything. An item with an unknown database status
      displays as "New" but is not kept by the "New" filter. */
  function StatusMatches(statusParam: string, item: Item): (keep: bool)
    ensures statusParam !in DisplayLabels ==> keep
    ensures statusParam in DisplayLabels ==>
      (keep <==> item.status in DbStatuses && MapStatus(item.status) == statusParam)
  {
    var statusWhere := StatusWhere(statusParam);
    statusWhere.None? || item.status == statusWhere.value
  }

  /** The display label of a database status; anything unknown shows as "New". */
  function MapStatus(s: string): (shown: string)
    ensures shown in DisplayLabels
    ensures s == "NEW" ==> shown == "New"
    ensures s == "IN_REVIEW" ==> shown == "In-Review"
    ensures s == "REJECTED" ==> shown == "Rejected"
    ensures s == "APPROVED" ==> shown == "Approved"
    ensures s !in DbStatuses ==> shown == "New"
  {
    match s
    case "NEW" => "New"
    case "IN_REVIEW" => "In-Review"
    case "REJECTED" => "Rejected"
    case "APPROVED" => "Approved"
    case _ => "New"
  }

  /** The route's own copy of the category thresholds, taking 0 for a missing
      score; it agrees with `mapRiskCategory`. */
  function RiskCategoryOf(score: Option<int>): (c: RiskCategory)
    ensures score.Some? ==> c == MapRiskCategory(score.value)
    ensures score.None? ==> c == Low
  {
    var s := if score.Some? then score.value else 0;
    if s < 25 then Low
    else if s < 50 then Mid
    else High
  }

  /** One row of the listing response. `createdAt` is the item's timestamp
      (the route prints only its date part). */
  datatype Ticket = Ticket(
    id: nat,
    title: string,
    description: string,
    status: string,
    risk: RiskCategory,
    assignedTo: string,
    createdAt: int,
    price: real,
    createdBy: string
  )

  /** The response row of an item. `users` maps a user id to the user's name,
      for the users that have one. */
  function ToTicket(item: Item, users: map<string, string>): (t: Ticket)
    ensures t.id == item.id && t.createdAt == item.createdAt
    ensures t.risk == MapRiskCategory(item.riskScore.GetOr(0))
    ensures t.status == MapStatus(item.status)
    ensures t.title == item.title && t.description == item.description
    ensures t.price == (if item.amount.Some? then item.amount.value else 0.0)
    ensures t.createdBy == (if item.createdBy.Some? then item.createdBy.value else "-")
    ensures item.createdBy.Some? && item.createdBy.value in users ==> t.assignedTo == users[item.createdBy.value]
    ensures item.createdBy.None? || item.createdBy.value !in users ==> t.assignedTo == "-"
  {
    Ticket(
      item.id,
      item.title,
      item.description,
      MapStatus(item.status),
      RiskCategoryOf(Some(item.riskScore.GetOr(0))),
      if item.createdBy.Some? && item.createdBy.value in users then users[item.createdBy.value] else "-",
      item.createdAt,
      item.amount.GetOr(0.0),
      item.createdBy.GetOr("-")
    )
  }

  /** Whether the listing keeps an item: its owner, status and risk
      category all pass the query. */
  predicate Selected(q: Query, principal: Option<string>, item: Item) {
    var riskParam := ParamOr(q.risk, "all");
    ScopeMatches(ParamOr(q.scope, "mine"), principal, item) &&
    StatusMatches(ParamOr(q.status, "all"), item) &&
    (riskParam == "all" || MapRiskCategory(item.riskScore.GetOr(0)).Name() == riskParam)
  }

  /** Every status label filters on the database status it displays from,
      and every database status is found again by the label it displays as. */
  lemma StatusRoundTrip(dbStatus: string, param: string)
    ensures dbStatus in DbStatuses ==>
      StatusWhere(MapStatus(dbStatus)) == Some(dbStatus)
    ensures param in DisplayLabels ==>
      MapStatus(StatusWhere(param).value) == param
  {
  }

  /** `GET /api/tickets`: `items` is every stored item, newest first; the
      owner condition is applied here. The listing is
      the response rows of the selected items, in input order. */
  function ListTickets(items: seq<Item>, q: Query, principal: Option<string>, users: map<string, string>): (r: seq<Ticket>)
    ensures r == Seqs.Map(Seqs.Filter(items, i => Selected(q, principal, i)), i => ToTicket(i, users))
  {
    var scope := ParamOr(q.scope, "mine");
    var statusParam := ParamOr(q.status, "all");
    var riskParam := ParamOr(q.risk, "all");
    var scopeTest := i => ScopeMatches(scope, principal, i);
    var statusTest := i => StatusMatches(statusParam, i);
    var toTicket := i => ToTicket(i, users);
    var riskTest := (t: Ticket) => t.risk.Name() == riskParam;
    var scoped := Seqs.Filter(items, scopeTest);
    var byStatus := Seqs.Filter(scoped, statusTest);
    var ticketsAll := Seqs.Map(byStatus, toTicket);
    var r := if riskParam == "all" then ticketsAll else Seqs.Filter(ticketsAll, riskTest);
    assert r == Seqs.Map(Seqs.Filter(items, i => Selected(q, principal, i)), toTicket) by {
      var selectedTest := i => Selected(q, principal, i);
      if riskParam == "all" {
        Seqs.FilterFilter(items, scopeTest, statusTest, selectedTest);
      } else {
        var ownerStatusTest := i => ScopeMatches(scope, principal, i) && StatusMatches(statusParam, i);
        Seqs.FilterFilter(items, scopeTest, statusTest, ownerStatusTest);
        var riskOfItem := i => riskTest(toTicket(i));
        Seqs.FilterMap(byStatus, toTicket, riskTest, riskOfItem);
        Seqs.FilterFilter(items, ownerStatusTest, riskOfItem, selectedTest);
      }
    }
    r
  }

  /** The listing holds exactly the response rows of the selected items. */
  lemma {:induction false} ListTicketsMembers(items: seq<Item>, q: Query, principal: Option<string>, users: map<string, string>)
    ensures forall t :: t in ListTickets(items, q, principal, users) ==>
      exists k :: 0 <= k < |items| && Selected(q, principal, items[k]) && t == ToTicket(items[k], users)
    ensures forall k :: 0 <= k < |items| && Selected(q, principal, items[k]) ==>
      ToTicket(items[k], users) in ListTickets(items, q, principal, users)
  {
    var selected := Seqs.Filter(items, i => Selected(q, principal, i));
    var r := ListTickets(items, q, principal, users);
    forall t | t in r
      ensures exists k :: 0 <= k < |items| && Selected(q, principal, items[k]) && t == ToTicket(items[k], users)
    {
      var m :| 0 <= m < |r| && r[m] == t;
      assert selected[m] in items;
      var k :| 0 <= k < |items| && items[k] == selected[m];
    }
    forall k | 0 <= k < |items| && Selected(q, principal, items[k])
      ensures ToTicket(items[k], users) in r
    {
      assert items[k] in selected;
      var m :| 0 <= m < |selected| && selected[m] == items[k];
      assert r[m] == ToTicket(items[k], users);
    }
  }

  function CreatedAtOf(item: Item): int { item.createdAt }
  function TicketCreatedAt(t: Ticket): int { t.createdAt }

  /** Filters and the row mapping keep the newest-first order. */
  lemma ListTicketsNewestFirst(items: seq<Item>, q: Query, principal: Option<string>, users: map<string, string>)
    requires Seqs.Descending(items, CreatedAtOf)
    ensures Seqs.Descending(ListTickets(items, q, principal, users), TicketCreatedAt)
  {
    var selectedTest := i => Selected(q, principal, i);
    Seqs.FilterDescending(items, selectedTest, CreatedAtOf);
    Seqs.MapDescending(Seqs.Filter(items, selectedTest), i => ToTicket(i, users), CreatedAtOf, TicketCreatedAt);
  }

  /** An anonymous caller asking for anything but scope "all" gets nothing. */
  lemma AnonymousSeesNothing(items: seq<Item>, q: Query, principal: Option<string>, users: map<string, string>)
    requires !Authenticated(principal) && ParamOr(q.scope, "mine") != "all"
    ensures ListTickets(items, q, principal, users) == []
  {
    ListTicketsMembers(items, q, principal, users);
  }

  /** Scope "all" with no usable status or risk parameter lists every item, in order. */
  lemma UnfilteredListing(items: seq<Item>, q: Query, principal: Option<string>, users: map<string, string>)
    requires ParamOr(q.scope, "mine") == "all"
    requires StatusWhere(ParamOr(q.status, "all")).None?
    requires ParamOr(q.risk, "all") == "all"
    ensures |ListTickets(items, q, principal, users)| == |items|
    ensures forall k :: 0 <= k < |items| ==> ListTickets(items, q, principal, users)[k] == ToTicket(items[k], users)
  {
    Seqs.FilterKeepsAll(items, i => Selected(q, principal, i));
  }

  /** The body of a creation request; a field that is missing or of the
      wrong type is `None`. */
  datatype CreateBody = CreateBody(
    title: Option<string>,
    description: Option<string>,
    tag: Option<string>,
    price: Option<real>
  )

  /** A field the request checks: present and not empty (whitespace passes). */
  predicate Filled(field: Option<string>) {
    field.Some? && field.value != ""
  }

  /** The outcome of `POST /api/tickets`: 401, 400, or 201 with the new id. */
  datatype CreateOutcome = Unauthorized | MissingFields | Created(id: nat)

  /** The request's tag as a list: one tag when given and not empty. */
  function BaseTags(tag: Option<string>): (tags: seq<string>)
    ensures Filled(tag) ==> tags == [tag.value]
    ensures !Filled(tag) ==> tags == []
  {
    if tag.Some? && tag.value != "" then [tag.value] else []
  }

  /** The tags a new item is stored with: the literal "High Risk" appended
      when the category is high and no "high risk" tag is there yet.
      Unlike the sweep, creation never removes a tag. */
  function FinalTags(baseTags: seq<string>, category: RiskCategory): (r: seq<string>)
    ensures r == baseTags + [HighRiskTag] <==> category == High && !HasHighRisk(baseTags)
    ensures r != baseTags + [HighRiskTag] ==> r == baseTags
    ensures category == High ==> HasHighRisk(r)
  {
    if category == High then
      if HasHighRisk(baseTags) then baseTags
      else
        AppendHighRisk(baseTags);
        baseTags + [HighRiskTag]
    else baseTags
  }

  /** The item `POST` creates for `user`, with id `id` and creation time `now`. */
  function NewItem(id: nat, user: string, body: CreateBody, now: int): (item: Item)
    requires Filled(body.title) && Filled(body.description)
    ensures item.id == id && item.createdBy == Some(user) && item.createdAt == now
    ensures item.title == body.title.value && item.description == body.description.value
    ensures item.amount == body.price && item.status == InitialStatus
    ensures item.riskScore == Some(CalculateRiskScore(body.price, Some(BaseTags(body.tag))))
    ensures item.tags == FinalTags(BaseTags(body.tag), MapRiskCategory(item.riskScore.value))
  {
    var baseTags := BaseTags(body.tag);
    var score := CalculateRiskScore(body.price, Some(baseTags));
    var category := MapRiskCategory(score);
    Item(id, body.title.value, body.description.value, body.price,
         FinalTags(baseTags, category), Some(score), InitialStatus, Some(user), now)
  }

  /** The stored score of a new item is also the score of its stored tags,
      and its tags carry a "high risk" tag whenever the score is high. */
  lemma NewItemScoreConsistent(id: nat, user: string, body: CreateBody, now: int)
    requires Filled(body.title) && Filled(body.description)
    ensures var item := NewItem(id, user, body, now);
      item.riskScore == Some(CalculateRiskScore(item.amount, Some(item.tags))) &&
      (MapRiskCategory(item.riskScore.value) == High ==> HasHighRisk(item.tags))
  {
    HighRiskTagsDoNotScore(body.price, BaseTags(body.tag));
  }

  /** Creation agrees with the sweep unless the request's own tag is a
      "high risk" tag on an item that is not high. */
  lemma FinalTagsAgreeWithSweep(baseTags: seq<string>, category: RiskCategory)
    ensures FinalTags(baseTags, category) == ReconcileTags(baseTags, category) <==>
      category == High || !HasHighRisk(baseTags)
  {
    if category != High && HasHighRisk(baseTags) {
      assert !HasHighRisk(ReconcileTags(baseTags, category));
    }
  }

  /** A new item is already what the sweep would make of it, except in the
      case `FinalTagsAgreeWithSweep` names. */
  lemma NewItemReconciled(id: nat, user: string, body: CreateBody, now: int)
    requires Filled(body.title) && Filled(body.description)
    ensures var item := NewItem(id, user, body, now);
      Reconciled(item) <==> (MapRiskCategory(item.riskScore.value) == High || !HasHighRisk(BaseTags(body.tag)))
  {
    NewItemScoreConsistent(id, user, body, now);
  }

  /** A request tagged "high risk" with no fee creates a low item that keeps
      the tag; the next sweep removes it. */
  lemma HighRiskTagOnLowItemSurvivesCreation()
    ensures var item := NewItem(0, "u", CreateBody(Some("t"), Some("d"), Some("high risk"), None), 0);
      item.tags == ["high risk"] && item.riskScore == Some(0) &&
      ReconcileItem(item).tags == []
  {
    var body := CreateBody(Some("t"), Some("d"), Some("high risk"), None);
    assert Lower("high risk") == "high risk";
    assert |Lower("high risk")| == 9;
    assert BaseTags(body.tag) == ["high risk"];
    assert IsHighRiskTag(["high risk"][0]);
    assert HasHighRisk(["high risk"]);
    assert !IsBonusTag("high risk");
    SingleTagPoints("high risk");
  }
}
