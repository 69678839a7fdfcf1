/**
 * Discount tiers: a threshold lookup on the challenge score. A score is a
 * binary floating-point number; comparing it with 9.0, 8.0 and 7.0, which
 * are exact in binary, gives the same answer as comparing its exact value,
 * so the score is modelled as a `real`.
 */
module Discount {
  import opened Text

  datatype Tier = Gold | Silver | Bronze | Participant
  {
    /** The percentage off. */
    function Percent(): nat
    {
      match this
      case Gold => 40
      case Silver => 30
      case Bronze => 20
      case Participant => 15
    }

    /** The "tier" text of the result. */
    function Label(): string
    {
      match this
      case Gold => "\U{1F947} 40% OFF"
      case Silver => "\U{1F948} 30% OFF"
      case Bronze => "\U{1F949} 20% OFF"
      case Participant => "\U{1F3AF} 15% OFF (Participant)"
    }

    /** The "savings" text of the result. */
    function Savings(): string
    {
      match this
      case Gold => "40%"
      case Silver => "30%"
      case Bronze => "20%"
      case Participant => "15%"
    }
  }

  /** The dict `discount_by_score` returns. */
  datatype Discount = Discount(tier: string, savings: string)

  /** The threshold lookup: the first tier whose inclusive lower bound the score reaches. */
  function TierOf(score: real): Tier
  {
    if score >= 9.0 then Gold
    else if score >= 8.0 then Silver
    else if score >= 7.0 then Bronze
    else Participant
  }

  /** `discount_by_score`. */
  function DiscountByScore(score: real): (r: Discount)
    ensures r.tier == TierOf(score).Label() && r.savings == TierOf(score).Savings()
  {
    var t := TierOf(score);
    Discount(t.Label(), t.Savings())
  }

  /** Each tier's range, lower bounds inclusive; every score, in range or not, gets a tier. */
  lemma TierRanges(score: real)
    ensures TierOf(score) == Gold <==> score >= 9.0
    ensures TierOf(score) == Silver <==> 8.0 <= score < 9.0
    ensures TierOf(score) == Bronze <==> 7.0 <= score < 8.0
    ensures TierOf(score) == Participant <==> score < 7.0
  {
  }

  /** A higher score never earns a smaller discount. */
  lemma SavingsMonotone(a: real, b: real)
    requires a <= b
    ensures TierOf(a).Percent() <= TierOf(b).Percent()
  {
  }

  /** A tier's label states its savings text, right after the emoji and a space. */
  lemma LabelStatesSavings(t: Tier)
    ensures IsSubstring(t.Savings(), t.Label())
  {
    assert t.Label()[2..5] == t.Savings();
    assert OccursAt(t.Savings(), t.Label(), 2);
  }

  /** The savings text is the percentage in decimal followed by "%". */
  lemma SavingsIsPercent(t: Tier)
    ensures t.Savings() == NatText(t.Percent()) + "%"
  {
  }

  /** The savings text is the tier's percentage, and the tier label states the same percentage. */
  lemma SavingsAgreeWithLabel(score: real)
    ensures var r := DiscountByScore(score);
      && r.savings == NatText(TierOf(score).Percent()) + "%"
      && IsSubstring(r.savings, r.tier)
  {
    SavingsIsPercent(TierOf(score));
    LabelStatesSavings(TierOf(score));
  }

  /** Decimal text of a two-digit number. */
  function NatText(n: nat): string
    requires n < 100
  {
    [('0' as int + n / 10) as char, ('0' as int + n % 10) as char]
  }

  /** Different tiers give different results, so the result tells the tier. */
  lemma DiscountIdentifiesTier(a: real, b: real)
    ensures DiscountByScore(a) == DiscountByScore(b) <==> TierOf(a) == TierOf(b)
  {
    if TierOf(a) != TierOf(b) {
      assert TierOf(a).Savings() != TierOf(b).Savings();
    }
  }

  /** A blank solution scores between 4.0 and 6.5, below every paid tier: it gets the participant discount. */
  lemma BlankSolutionIsParticipant(score: real)
    requires 4.0 <= score <= 6.5
    ensures DiscountByScore(score) == Discount("\U{1F3AF} 15% OFF (Participant)", "15%")
  {
  }

  /** The boundaries: 9.0 is gold, just below 9.0 is silver, 7.0 is bronze. */
  lemma Boundaries()
    ensures DiscountByScore(9.0).savings == "40%"
    ensures DiscountByScore(8.9999).savings == "30%"
    ensures DiscountByScore(7.0).savings == "20%"
    ensures DiscountByScore(6.9).savings == "15%"
  {
  }

  /** The quick auto-test draws a score between 7.0 and 9.5: it never gets the participant discount. */
  lemma AutoTestIsPaidTier(score: real)
    requires 7.0 <= score <= 9.5
    ensures TierOf(score) != Participant && TierOf(score).Percent() >= 20
  {
  }
}
