/** The risk classifier of `src/lib/utils.ts`: a score from the declared fee
    and the tags, and the low/mid/high bucket of a score. */
module Risk {
  import opened Wrappers
  import opened Text
  import Seqs

  /** `RiskCategory` of the source, with the label it is written as. */
  datatype RiskCategory = Low | Mid | High {
    function Name(): string {
      match this
      case Low => "low"
      case Mid => "mid"
      case High => "high"
    }

    /** Position in the order low < mid < high. */
    function Rank(): nat {
      match this
      case Low => 0
      case Mid => 1
      case High => 2
    }
  }

  /** The fee: the amount when it is a number, otherwise 0. */
  function FeeOf(amount: Option<real>): real {
    amount.GetOr(0.0)
  }

  /** The tag list: the given array, otherwise empty. */
  function TagsOf(tags: Option<seq<string>>): seq<string> {
    tags.GetOr([])
  }

  /** The fee band's points. */
  function FeePoints(fee: real): (p: int)
    ensures p == 0 || p == 10 || p == 25 || p == 50
  {
    if fee >= 1000.0 && fee < 3000.0 then 10
    else if fee >= 3000.0 && fee < 5000.0 then 25
    else if fee >= 5000.0 then 50
    else 0
  }

  /** Some entry of `tags`, once lower-cased, equals `word`. */
  predicate HasLowered(tags: seq<string>, word: string) {
    exists i :: 0 <= i < |tags| && Lower(tags[i]) == word
  }

  /** A tag that earns the tag bonus. */
  predicate IsBonusTag(t: string) {
    Lower(t) == "bug report" || Lower(t) == "billing"
  }

  /** The tag bonus: 20 once, however many tags earn it. */
  function TagPoints(tags: seq<string>): (p: int)
    ensures p == 0 || p == 20
  {
    if HasLowered(tags, "bug report") || HasLowered(tags, "billing") then 20 else 0
  }

  /** `calculateRiskScore(amount, tags)`. */
  function CalculateRiskScore(amount: Option<real>, tags: Option<seq<string>>): (score: int)
    ensures score in {0, 10, 20, 25, 30, 45, 50, 70}
    ensures score >= 0
  {
    var fee := FeeOf(amount);
    FeePoints(fee) + TagPoints(TagsOf(tags))
  }

  /** `mapRiskCategory(score)`. */
  function MapRiskCategory(score: int): (c: RiskCategory)
    ensures c == Low <==> score < 25
    ensures c == Mid <==> 25 <= score < 50
    ensures c == High <==> score >= 50
  {
    if score < 25 then Low
    else if score < 50 then Mid
    else High
  }

  /** The fee bands are half-open and exclusive; a negative fee earns nothing. */
  lemma FeeBands(fee: real)
    ensures FeePoints(fee) == 0 <==> fee < 1000.0
    ensures FeePoints(fee) == 10 <==> 1000.0 <= fee < 3000.0
    ensures FeePoints(fee) == 25 <==> 3000.0 <= fee < 5000.0
    ensures FeePoints(fee) == 50 <==> fee >= 5000.0
  {
  }

  /** The score is the fee band plus the flat tag bonus. */
  lemma ScoreParts(amount: Option<real>, tags: Option<seq<string>>)
    ensures CalculateRiskScore(amount, tags) - FeePoints(FeeOf(amount)) == 20 <==>
      exists i :: 0 <= i < |TagsOf(tags)| && IsBonusTag(TagsOf(tags)[i])
    ensures CalculateRiskScore(amount, tags) - FeePoints(FeeOf(amount)) == 0 <==>
      forall i :: 0 <= i < |TagsOf(tags)| ==> !IsBonusTag(TagsOf(tags)[i])
  {
  }

  /** An absent amount scores like a zero fee, absent tags like no tags. */
  lemma AbsentInputs(amount: Option<real>, tags: Option<seq<string>>)
    ensures CalculateRiskScore(None, tags) == CalculateRiskScore(Some(0.0), tags)
    ensures CalculateRiskScore(amount, None) == CalculateRiskScore(amount, Some([]))
    ensures CalculateRiskScore(None, None) == 0
  {
  }

  /** For fixed tags, a larger fee never lowers the score. */
  lemma ScoreMonotoneInFee(fee1: real, fee2: real, tags: Option<seq<string>>)
    requires fee1 <= fee2
    ensures CalculateRiskScore(Some(fee1), tags) <= CalculateRiskScore(Some(fee2), tags)
  {
  }

  /** A higher score never gives a lower category. */
  lemma CategoryMonotone(s1: int, s2: int)
    requires s1 <= s2
    ensures MapRiskCategory(s1).Rank() <= MapRiskCategory(s2).Rank()
  {
  }

  /** Appending a tag that earns no bonus leaves the score as it was. */
  lemma {:induction false} AppendNonBonusTag(amount: Option<real>, tags: seq<string>, t: string)
    requires !IsBonusTag(t)
    ensures CalculateRiskScore(amount, Some(tags + [t])) == CalculateRiskScore(amount, Some(tags))
  {
    var ext := tags + [t];
    forall w | w == "bug report" || w == "billing"
      ensures HasLowered(ext, w) == HasLowered(tags, w)
    {
      if HasLowered(ext, w) {
        var i :| 0 <= i < |ext| && Lower(ext[i]) == w;
        assert i < |tags|;
        assert Lower(tags[i]) == w;
      }
      if HasLowered(tags, w) {
        var i :| 0 <= i < |tags| && Lower(tags[i]) == w;
        assert Lower(ext[i]) == w;
      }
    }
  }

  /** Dropping tags that earn no bonus leaves the score as it was. */
  lemma {:induction false} FilterNonBonusTags(amount: Option<real>, tags: seq<string>, keep: string -> bool)
    requires forall t :: !keep(t) ==> !IsBonusTag(t)
    ensures CalculateRiskScore(amount, Some(Seqs.Filter(tags, keep))) == CalculateRiskScore(amount, Some(tags))
  {
    var kept := Seqs.Filter(tags, keep);
    forall w | w == "bug report" || w == "billing"
      ensures HasLowered(kept, w) == HasLowered(tags, w)
    {
      if HasLowered(kept, w) {
        var i :| 0 <= i < |kept| && Lower(kept[i]) == w;
        assert kept[i] in tags;
        var j :| 0 <= j < |tags| && tags[j] == kept[i];
        assert Lower(tags[j]) == w;
      }
      if HasLowered(tags, w) {
        var j :| 0 <= j < |tags| && Lower(tags[j]) == w;
        assert keep(tags[j]);
        var i :| 0 <= i < |kept| && kept[i] == tags[j];
        assert Lower(kept[i]) == w;
      }
    }
  }

  /** The tag bonus of a one-tag list, decided by that tag alone. */
  lemma {:induction false} SingleTagPoints(t: string)
    ensures TagPoints([t]) == if IsBonusTag(t) then 20 else 0
  {
    assert [t][0] == t;
    if Lower(t) == "bug report" {
      assert HasLowered([t], "bug report");
    } else if Lower(t) == "billing" {
      assert HasLowered([t], "billing");
    }
  }

  /** Case-insensitive, otherwise exact matching on the tags the source's
      pages show: "bug" (what the creation form sends for its bug option) is
      not "bug report". */
  lemma BonusTagExamples()
    ensures IsBonusTag("Billing") && IsBonusTag("BILLING") && IsBonusTag("billing")
    ensures IsBonusTag("Bug Report")
    ensures !IsBonusTag("bug") && !IsBonusTag("High Risk")
  {
    assert Lower("Billing") == "billing";
    assert Lower("BILLING") == "billing";
    assert Lower("billing") == "billing";
    assert Lower("Bug Report") == "bug report";
    assert |Lower("bug")| == 3;
    assert |Lower("High Risk")| == 9;
  }

  /** The bonus on whole tag lists: earned by any capitalisation of
      "billing", not by "bug", and only once when both words are present. */
  lemma TagMatchingExamples()
    ensures CalculateRiskScore(None, Some(["Billing"])) == 20
    ensures CalculateRiskScore(None, Some(["BILLING"])) == 20
    ensures CalculateRiskScore(None, Some(["bug"])) == 0
    ensures CalculateRiskScore(None, Some(["Bug Report", "billing"])) == 20
  {
    BonusTagExamples();
    SingleTagPoints("Billing");
    SingleTagPoints("BILLING");
    SingleTagPoints("bug");
    var both := ["Bug Report", "billing"];
    assert IsBonusTag(both[0]);
    assert HasLowered(both, "bug report");
  }

  /** Worked scores and categories at the band edges. */
  lemma ScoreExamples()
    ensures CalculateRiskScore(Some(999.0), Some([])) == 0 && MapRiskCategory(0) == Low
    ensures CalculateRiskScore(Some(1000.0), Some([])) == 10 && MapRiskCategory(10) == Low
    ensures CalculateRiskScore(Some(1000.0), Some(["Billing"])) == 30 && MapRiskCategory(30) == Mid
    ensures CalculateRiskScore(Some(3000.0), Some(["Bug Report"])) == 45 && MapRiskCategory(45) == Mid
    ensures CalculateRiskScore(Some(5000.0), Some([])) == 50 && MapRiskCategory(50) == High
    ensures CalculateRiskScore(Some(5000.0), Some(["billing"])) == 70 && MapRiskCategory(70) == High
  {
    BonusTagExamples();
    SingleTagPoints("Billing");
    SingleTagPoints("Bug Report");
    SingleTagPoints("billing");
  }
}
