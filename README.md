# ReviewBoard risk engine — a Dafny model

ReviewBoard is a ticket review dashboard. Users submit items (tickets) with a
title, a description, an optional fee and a tag. The server scores each item's
risk from its fee and tags and buckets the score into low, mid or high. High
items get a "High Risk" tag. A periodic sweep rescores every stored item and
reconciles that tag.

This project models that core:

- `risk.dfy` (module `Risk`): `calculateRiskScore` and `mapRiskCategory` of
  `src/lib/utils.ts`, as functions. Lemmas cover the score range, the fee
  bands, the flat tag bonus, case-insensitive matching, monotonicity and
  worked examples.
- `auto_tag.dfy` (module `AutoTag`): one step of the high-risk sweep of
  `src/app/api/cron/auto-tag-high-risk/route.ts` as pure functions
  (`ReconcileTags`, `ReconcileItem`, `ReconcileAll`). It proves tag
  reconciliation, score stability and idempotence.
- `tickets.dfy` (module `Tickets`): the pure parts of
  `src/app/api/tickets/route.ts`. For `GET` these are the scope, status and
  risk filters, `mapStatus`, `riskCategoryOf` and the response row. For `POST`
  these are the field checks, the base and final tags and the new record.
- `store.dfy` (module `Store`): class `ItemStore` holds the item table. Its
  method `AutoTagHighRisk` is the sweep's loop, rewriting rows in place and
  counting the writes. Its method `CreateTicket` is `POST /api/tickets`.
- Support modules: `wrappers.dfy` (`Option`), `text.dfy` (ASCII
  lower-casing), `seqs.dfy` (`filter`/`map` on sequences and their order
  facts), `items.dfy` (the item record).

The database and the session are abstracted. The item table is the store's
`items` sequence. The session is an `Option<string>` principal id; an empty
id counts as absent, as the source's `!userId` test does. A field that the
source reads as "not a number" or "missing" is `None`.

## Model

| member | source | states |
|---|---|---|
| Text.Lower | src/lib/utils.ts:17 | lower-casing keeps the length, maps each character and leaves no upper-case ASCII letter |
| Risk.FeePoints | src/lib/utils.ts:14-16 | a fee earns one of 0, 10, 25 or 50 points |
| Risk.TagPoints | src/lib/utils.ts:17-18 | the tag bonus is 0 or a flat 20 |
| Risk.CalculateRiskScore | src/lib/utils.ts:11-20 | the score is one of 0, 10, 20, 25, 30, 45, 50, 70 and so never negative |
| Risk.MapRiskCategory | src/lib/utils.ts:22-26 | low iff score < 25, mid iff 25 <= score < 50, high iff score >= 50 |
| Risk.FeeBands | src/lib/utils.ts:14-16 | the four fee bands are half-open and exclusive; a negative fee earns 0 |
| Risk.ScoreParts | src/lib/utils.ts:14-18 | the score minus the fee band is 20 iff some tag lower-cases to "bug report" or "billing", else 0 |
| Risk.AbsentInputs | src/lib/utils.ts:13-17 | a missing amount scores as fee 0, missing tags as no tags |
| Risk.ScoreMonotoneInFee | src/lib/utils.ts:14-16 | for fixed tags, a larger fee never lowers the score |
| Risk.CategoryMonotone | src/lib/utils.ts:22-26 | a larger score never gives a lower category |
| Risk.AppendNonBonusTag | src/lib/utils.ts:17-18 | appending a tag that is neither "bug report" nor "billing" keeps the score |
| Risk.FilterNonBonusTags | src/lib/utils.ts:17-18 | dropping only tags that earn no bonus keeps the score |
| Risk.SingleTagPoints | src/lib/utils.ts:17-18 | a one-tag list earns 20 exactly when that tag is a bonus tag |
| Risk.BonusTagExamples | src/lib/utils.ts:17-18 | "Billing", "BILLING", "billing" and "Bug Report" are bonus tags; "bug" and "High Risk" are not |
| Risk.TagMatchingExamples | src/lib/utils.ts:17-18 | "Billing" and "BILLING" earn 20, "bug" earns 0, both words together still earn only 20 |
| Risk.ScoreExamples | src/lib/utils.ts:11-26 | fee 999 scores 0 (low); 1000 scores 10 (low); 1000 with "Billing" 30 (mid); 3000 with "Bug Report" 45 (mid); 5000 scores 50 (high); 5000 with "billing" 70 (high) |
| AutoTag.HighRiskTagIsHighRisk | src/app/api/cron/auto-tag-high-risk/route.ts:20-25 | the appended literal "High Risk" is itself a case-insensitive "high risk" tag and earns no bonus |
| AutoTag.RemoveHighRisk | src/app/api/cron/auto-tag-high-risk/route.ts:27 | the result has no "high risk" tag, keeps every other tag, adds nothing, and is the input when it had none |
| AutoTag.RemoveHighRiskAppend | src/app/api/cron/auto-tag-high-risk/route.ts:27 | removal works piecewise over concatenation, so the kept tags keep their relative order |
| AutoTag.ReconcileTags | src/app/api/cron/auto-tag-high-risk/route.ts:19-28 | the result has a "high risk" tag iff the category is high; its other tags are the input's, in order; an existing variant is kept as is; otherwise exactly one "High Risk" goes at the end; below high, every variant is removed |
| AutoTag.AppendHighRisk | src/app/api/cron/auto-tag-high-risk/route.ts:24-25 | appending the literal gives a "high risk" tag and leaves the other tags unchanged |
| AutoTag.HighRiskTagsDoNotScore | src/lib/utils.ts:17-18 | adding "High Risk" or removing every "high risk" tag never changes the score |
| AutoTag.ReconcileTagsKeepsScore | src/app/api/cron/auto-tag-high-risk/route.ts:16-28 | the tags the sweep writes score the same as the tags it read |
| AutoTag.ReconcileItem | src/app/api/cron/auto-tag-high-risk/route.ts:16-36 | only score and tags change; the stored score is the score of the amount and the original tags; the new tags are `ReconcileTags` of the old tags for that score's category, so the other tags stay in order; the result is reconciled |
| AutoTag.ReconciledIsFixed | src/app/api/cron/auto-tag-high-risk/route.ts:16-36 | an item already reconciled is written back unchanged |
| AutoTag.ReconcileItemIdempotent | src/app/api/cron/auto-tag-high-risk/route.ts:15-36 | a second sweep step on an item changes nothing |
| AutoTag.ReconcileAll | src/app/api/cron/auto-tag-high-risk/route.ts:15-39 | the sweep keeps the item count, reconciles every item and leaves every item reconciled |
| AutoTag.ReconcileAllIdempotent | src/app/api/cron/auto-tag-high-risk/route.ts:15-39 | a second sweep with no edits in between yields the same items |
| AutoTag.ExistingVariantKept | src/app/api/cron/auto-tag-high-risk/route.ts:20-25 | a high item that already has a "high risk" variant keeps its tags and gets no duplicate |
| AutoTag.ReconcileTagsExamples | src/app/api/cron/auto-tag-high-risk/route.ts:19-28 | "HIGH RISK" is kept on a high item; "High Risk" is appended after "billing"; every variant is stripped from a mid item |
| Store.ItemStore.AutoTagHighRisk | src/app/api/cron/auto-tag-high-risk/route.ts:7-41 | the rows become the sweep of the old rows; ids stay unique; every row is reconciled; the count is the number of rows |
| Tickets.ParamOr | src/app/api/tickets/route.ts:11-13 | a present, non-empty query parameter is used as given; a missing or empty one gives the default |
| Tickets.ScopeMatches | src/app/api/tickets/route.ts:19-23 | scope "all" keeps every item; any other scope keeps exactly the caller's own items, and nothing for an anonymous caller |
| Tickets.StatusWhere | src/app/api/tickets/route.ts:26-39 | only the four display labels give a database status filter; anything else, "all" included, gives none |
| Tickets.MapStatus | src/app/api/tickets/route.ts:47-60 | NEW, IN_REVIEW, REJECTED and APPROVED show as New, In-Review, Rejected and Approved; any other database status shows as "New" |
| Tickets.StatusMatches | src/app/api/tickets/route.ts:26-74 | a display label keeps exactly the items whose known database status shows as that label; any other parameter keeps every item |
| Tickets.RiskCategoryOf | src/app/api/tickets/route.ts:62-67 | the route's own thresholds agree with `mapRiskCategory` on a present score, and a missing score is low |
| Tickets.StatusRoundTrip | src/app/api/tickets/route.ts:26-60 | each database status is found by the filter of the label it displays as, and each label's filter displays as that label |
| Tickets.ToTicket | src/app/api/tickets/route.ts:75-85 | a response row copies id, title, description and timestamp; it shows the mapped status and the category of the score (0 when missing); the assignee is the owner's name from `users`; price, owner and assignee default to 0, "-" and "-" |
| Tickets.ListTickets | src/app/api/tickets/route.ts:19-87 | the listing is the response rows of the items that pass the owner, status and risk conditions, each once and in input order |
| Tickets.ListTicketsMembers | src/app/api/tickets/route.ts:19-87 | a row is in the listing iff it is the row of an item passing the owner, status and risk conditions |
| Tickets.ListTicketsNewestFirst | src/app/api/tickets/route.ts:41-87 | a newest-first input gives a newest-first listing |
| Tickets.AnonymousSeesNothing | src/app/api/tickets/route.ts:18-23 | without a principal, any scope but "all" lists nothing |
| Tickets.UnfilteredListing | src/app/api/tickets/route.ts:19-87 | scope "all" with no usable status or risk filter lists every item, in order |
| Tickets.BaseTags | src/app/api/tickets/route.ts:127 | the base tags are the request's tag when it is non-empty, otherwise none |
| Tickets.FinalTags | src/app/api/tickets/route.ts:129-131 | "High Risk" is appended iff the category is high and no "high risk" tag is there; otherwise the tags are unchanged; a high item always ends up with one |
| Tickets.NewItem | src/app/api/tickets/route.ts:127-142 | the new record has the given id, owner and time, the request's title, description and amount, status NEW, the score of the amount and base tags, and the final tags |
| Tickets.NewItemScoreConsistent | src/app/api/tickets/route.ts:127-139 | a new item's stored score is also the score of its stored tags, and a high item carries a "high risk" tag |
| Tickets.FinalTagsAgreeWithSweep | src/app/api/tickets/route.ts:129-131 | creation tags as the sweep would, except when the request's own tag is "high risk" on an item that is not high |
| Tickets.NewItemReconciled | src/app/api/tickets/route.ts:127-139 | a new item is already reconciled iff it is high or its request tag is not "high risk" |
| Tickets.HighRiskTagOnLowItemSurvivesCreation | src/app/api/tickets/route.ts:127-131 | a request tagged "high risk" with no fee stores `["high risk"]` with score 0, and the next sweep removes the tag |
| Store.ItemStore.CreateTicket | src/app/api/tickets/route.ts:96-144 | 401 without a principal and 400 without a title or description, both leaving the table as it was; otherwise one new row with a fresh id owned by the principal, and 201 with that id |

## Left out

- The database and the session libraries. The item table is a sequence in a class; the session is an optional principal id.
- Item ids are natural numbers from a counter, where the source uses database-generated strings. An anonymous non-"all" listing queries an id no item has; here that is a condition that matches nothing.
- The user upsert in `POST /api/tickets` is not modelled. It runs before the field check, so a 400 response still creates the user row. The listing's assignee name comes from a `users` map parameter (user id to name) standing for the joined user row.
- Exceptions and their 500 responses are not modelled. This covers a malformed request body and a failing database call. A failure in the middle of the sweep stops it there, and earlier rows stay written. The model covers only the run in which every write succeeds.
- The listing's ordering by creation time is done by the database. `ListTickets` takes that ordered list as input, and `ListTicketsNewestFirst` proves the order is kept.
- The creation date is printed as `YYYY-MM-DD` in the listing. Here the ticket carries the raw timestamp.
- JSON and HTTP encoding of responses.
- Lower-casing is ASCII only. JavaScript's `toLowerCase` also folds non-ASCII letters.
- The fee is a JavaScript number; here it is a `real`. JSON cannot carry NaN, but a literal too large for a double, such as `1e400`, parses to Infinity. A `real` cannot hold ±Infinity, so such a price is outside the model. In the source, Infinity scores in the 50 band like any fee of 5000 or more, and -Infinity in the 0 band.
- `CreateBody` models only request fields that are strings (the price: numbers) or absent; a field of any other type is `None`. That matches the source only for a falsy value or a non-number price. A truthy tag that is not a string (`"tag": 5`) makes lower-casing throw, and a truthy non-string title or description is rejected by the database. Both end in a 500 with nothing created. The model instead answers `Created` or `MissingFields` for such a request.
- A stored tag list is always a list here, so the sweep's guard for a non-array tags column is not modelled.
- Concurrency with other requests is not modelled. The sweep reads all rows once and then writes each row back by id. A row edited between that read and its write is overwritten with the sweep's values, and a row created meanwhile is not swept. `ItemStore.AutoTagHighRisk` runs as one uninterrupted step.
- `GET /api/cron/auto-tag-high-risk` calls the same handler as `POST` and is the same method here.
- The status-change, note and audit endpoints and the rejection webhook (`src/app/api/tickets/[id]/route.ts`, `src/app/api/audits/route.ts`) are not part of this model.

Behaviour of the code worth knowing:

- The code stops the sweep at the first failing write; rows written before it keep their new values.
- The code writes every row on every sweep and counts each write. So a second sweep reports the same count, though it changes no row.
- The code accepts a negative fee and puts it in the 0 band.
- The code takes a whitespace-only title or description as present.
- At creation the code never removes a "high risk" tag from a low item. Only the sweep does that (see `Tickets.HighRiskTagOnLowItemSurvivesCreation`).
