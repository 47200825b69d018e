/** The pure part of the high-risk tagging sweep
    (`src/app/api/cron/auto-tag-high-risk/route.ts`): what one pass does to one
    item, and to the whole item list. */
module AutoTag {
  import opened Wrappers
  import opened Text
  import opened Risk
  import opened Items
  import Seqs

  /** The literal tag the sweep and ticket creation append. */
  const HighRiskTag: string := "High Risk"

  /** A tag that reads "high risk" in any capitalisation. */
  predicate IsHighRiskTag(t: string) {
    Lower(t) == "high risk"
  }

  predicate IsNotHighRiskTag(t: string) {
    !IsHighRiskTag(t)
  }

  /** Some tag reads "high risk" in any capitalisation. */
  predicate HasHighRisk(tags: seq<string>) {
    exists i :: 0 <= i < |tags| && IsHighRiskTag(tags[i])
  }

  lemma HighRiskTagIsHighRisk()
    ensures IsHighRiskTag(HighRiskTag)
    ensures !IsBonusTag(HighRiskTag)
  {
    assert Lower(HighRiskTag) == "high risk";
  }

  /** Every "high risk" tag dropped, the others kept in their order. */
  function RemoveHighRisk(tags: seq<string>): (r: seq<string>)
    ensures !HasHighRisk(r)
    ensures forall i :: 0 <= i < |tags| && !IsHighRiskTag(tags[i]) ==> tags[i] in r
    ensures forall i :: 0 <= i < |r| ==> r[i] in tags
    ensures !HasHighRisk(tags) ==> r == tags
  {
    var r := Seqs.Filter(tags, IsNotHighRiskTag);
    assert !HasHighRisk(tags) ==> r == tags by {
      if !HasHighRisk(tags) {
        Seqs.FilterKeepsAll(tags, IsNotHighRiskTag);
      }
    }
    r
  }

  /** Removing works piecewise: the kept tags keep their relative order. */
  lemma RemoveHighRiskAppend(a: seq<string>, b: seq<string>)
    ensures RemoveHighRisk(a + b) == RemoveHighRisk(a) + RemoveHighRisk(b)
  {
    Seqs.FilterAppend(a, b, IsNotHighRiskTag);
  }

  /** The tag list one sweep step writes for an item of the given category. */
  function ReconcileTags(tags: seq<string>, category: RiskCategory): (r: seq<string>)
    ensures HasHighRisk(r) <==> category == High
    ensures RemoveHighRisk(r) == RemoveHighRisk(tags)
    ensures category == High && HasHighRisk(tags) ==> r == tags
    ensures category == High && !HasHighRisk(tags) ==> r == tags + [HighRiskTag]
    ensures category != High ==> r == RemoveHighRisk(tags)
  {
    var hasHighRisk := HasHighRisk(tags);
    var shouldHaveHighRisk := category == High;
    if shouldHaveHighRisk && !hasHighRisk then
      AppendHighRisk(tags);
      tags + [HighRiskTag]
    else if !shouldHaveHighRisk && hasHighRisk then
      RemoveHighRisk(tags)
    else
      tags
  }

  /** Appending the literal tag gives a list with a "high risk" tag whose other
      tags are the old ones. */
  lemma {:induction false} AppendHighRisk(tags: seq<string>)
    ensures HasHighRisk(tags + [HighRiskTag])
    ensures RemoveHighRisk(tags + [HighRiskTag]) == RemoveHighRisk(tags)
  {
    HighRiskTagIsHighRisk();
    assert (tags + [HighRiskTag])[|tags|] == HighRiskTag;
    RemoveHighRiskAppend(tags, [HighRiskTag]);
    assert Seqs.Filter([HighRiskTag], IsNotHighRiskTag) == [];
  }

  /** Neither adding the literal tag nor removing "high risk" tags changes a
      score: only "bug report" and "billing" count. */
  lemma HighRiskTagsDoNotScore(amount: Option<real>, tags: seq<string>)
    ensures CalculateRiskScore(amount, Some(tags + [HighRiskTag])) == CalculateRiskScore(amount, Some(tags))
    ensures CalculateRiskScore(amount, Some(RemoveHighRisk(tags))) == CalculateRiskScore(amount, Some(tags))
  {
    HighRiskTagIsHighRisk();
    AppendNonBonusTag(amount, tags, HighRiskTag);
    forall t | !IsNotHighRiskTag(t) ensures !IsBonusTag(t) {
      assert |Lower(t)| == 9;
    }
    FilterNonBonusTags(amount, tags, IsNotHighRiskTag);
  }

  /** The tags the sweep writes score the same as the tags it read. */
  lemma ReconcileTagsKeepsScore(amount: Option<real>, tags: seq<string>, category: RiskCategory)
    ensures CalculateRiskScore(amount, Some(ReconcileTags(tags, category))) == CalculateRiskScore(amount, Some(tags))
  {
    HighRiskTagsDoNotScore(amount, tags);
  }

  /** An item whose stored score is the score of its amount and tags, and
      whose tags hold a "high risk" tag exactly when that score is high. */
  predicate Reconciled(item: Item) {
    var score := CalculateRiskScore(item.amount, Some(item.tags));
    item.riskScore == Some(score) &&
    (HasHighRisk(item.tags) <==> MapRiskCategory(score) == High)
  }

  /** One iteration of the sweep: rescore, then reconcile the tag list. */
  function ReconcileItem(item: Item): (r: Item)
    ensures r == item.(riskScore := r.riskScore, tags := r.tags)
    ensures r.riskScore == Some(CalculateRiskScore(item.amount, Some(item.tags)))
    ensures r.tags == ReconcileTags(item.tags, MapRiskCategory(CalculateRiskScore(item.amount, Some(item.tags))))
    ensures RemoveHighRisk(r.tags) == RemoveHighRisk(item.tags)
    ensures Reconciled(r)
  {
    var score := CalculateRiskScore(item.amount, Some(item.tags));
    var category := MapRiskCategory(score);
    var newTags := ReconcileTags(item.tags, category);
    ReconcileTagsKeepsScore(item.amount, item.tags, category);
    item.(riskScore := Some(score), tags := newTags)
  }

  /** A reconciled item is left as it is. */
  lemma ReconciledIsFixed(item: Item)
    requires Reconciled(item)
    ensures ReconcileItem(item) == item
  {
  }

  /** A second sweep step changes nothing. */
  lemma ReconcileItemIdempotent(item: Item)
    ensures ReconcileItem(ReconcileItem(item)) == ReconcileItem(item)
  {
    ReconciledIsFixed(ReconcileItem(item));
  }

  /** The whole sweep: every item, in store order. */
  function ReconcileAll(items: seq<Item>): (r: seq<Item>)
    ensures |r| == |items|
    ensures forall k :: 0 <= k < |items| ==> r[k] == ReconcileItem(items[k])
    ensures forall k :: 0 <= k < |r| ==> Reconciled(r[k])
  {
    Seqs.Map(items, ReconcileItem)
  }

  /** A second sweep with no edits in between changes no item. */
  lemma ReconcileAllIdempotent(items: seq<Item>)
    ensures ReconcileAll(ReconcileAll(items)) == ReconcileAll(items)
  {
    var once := ReconcileAll(items);
    forall k | 0 <= k < |once| ensures ReconcileAll(once)[k] == once[k] {
      ReconciledIsFixed(once[k]);
    }
  }

  /** A "high risk" tag already present in another capitalisation is kept,
      and no second one is added. */
  lemma ExistingVariantKept(tags: seq<string>)
    requires HasHighRisk(tags)
    ensures ReconcileTags(tags, High) == tags
  {
  }

  /** Worked cases: "HIGH RISK" kept on a high item, appended literal on a
      high item without one, every variant stripped from a low one. */
  lemma ReconcileTagsExamples()
    ensures ReconcileTags(["HIGH RISK"], High) == ["HIGH RISK"]
    ensures ReconcileTags(["billing"], High) == ["billing", "High Risk"]
    ensures ReconcileTags(["high risk", "billing", "High Risk"], Mid) == ["billing"]
  {
    assert Lower("HIGH RISK") == "high risk";
    assert IsHighRiskTag(["HIGH RISK"][0]);
    assert |Lower("billing")| == 7;
    assert !HasHighRisk(["billing"]);
    assert Lower("high risk") == "high risk";
    HighRiskTagIsHighRisk();
    var mixed := ["high risk", "billing", "High Risk"];
    assert mixed == ["high risk"] + ["billing"] + ["High Risk"];
    RemoveHighRiskAppend(["high risk"] + ["billing"], ["High Risk"]);
    RemoveHighRiskAppend(["high risk"], ["billing"]);
    assert Seqs.Filter(["high risk"], IsNotHighRiskTag) == [];
    assert Seqs.Filter(["billing"], IsNotHighRiskTag) == ["billing"];
    assert Seqs.Filter(["High Risk"], IsNotHighRiskTag) == [];
  }
}
