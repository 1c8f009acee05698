/**
 * The token gauge: the total of prompt and response tokens, the share of the
 * context window it uses as a rounded percentage, the width of the bar and
 * the three usage tiers that choose its colour and its tooltip.
 */
module TokenCounter {

  /** `Math.round(total / max * 100)` computed exactly: half-way cases round up. */
  function PercentageUsed(total: nat, maxContext: nat): (r: nat)
    requires maxContext > 0
    ensures 2 * maxContext * r <= 200 * total + maxContext < 2 * maxContext * (r + 1)
  {
    (200 * total + maxContext) / (2 * maxContext)
  }

  /** The tokens of the conversation so far: the prompt's and the replies'. */
  function TotalTokens(promptTokens: nat, responseTokens: nat): (r: nat)
    ensures r >= promptTokens && r >= responseTokens
    ensures r == 0 <==> promptTokens == 0 && responseTokens == 0
  {
    promptTokens + responseTokens
  }

  /** The rounded percentage is the nearest integer to the exact share: it is
      within one half of `100 * total / max`. */
  lemma PercentageIsNearest(total: nat, maxContext: nat, p: int)
    requires maxContext > 0
    ensures PercentageUsed(total, maxContext) == p
      <==> 2 * maxContext * p <= 200 * total + maxContext < 2 * maxContext * (p + 1)
  {
    var r := PercentageUsed(total, maxContext);
    var m := 2 * maxContext;
    if m * p <= 200 * total + maxContext < m * (p + 1) {
      if p < r {
        MulIsMonotone(m, p + 1, r);
      } else if p > r {
        MulIsMonotone(m, r + 1, p);
      }
    }
  }

  /** More tokens never show a smaller percentage. */
  lemma PercentageIsMonotone(t1: nat, t2: nat, maxContext: nat)
    requires maxContext > 0 && t1 <= t2
    ensures PercentageUsed(t1, maxContext) <= PercentageUsed(t2, maxContext)
  {
    var r1 := PercentageUsed(t1, maxContext);
    var r2 := PercentageUsed(t2, maxContext);
    var m := 2 * maxContext;
    if r2 < r1 {
      MulIsMonotone(m, r2 + 1, r1);
    }
  }

  lemma MulIsMonotone(m: nat, a: int, b: int)
    requires a <= b
    ensures m * a <= m * b
  {
  }

  /** An empty context and a full one. */
  lemma PercentageEnds(maxContext: nat)
    requires maxContext > 0
    ensures PercentageUsed(0, maxContext) == 0
    ensures PercentageUsed(maxContext, maxContext) == 100
  {
    PercentageIsNearest(0, maxContext, 0);
    PercentageIsNearest(maxContext, maxContext, 100);
  }

  /** `Math.min(percentageUsed, 100)`, the bar's width in percent. */
  function BarWidth(percentage: nat): (r: nat)
    ensures r <= 100
    ensures r <= percentage
    ensures r == percentage || r == 100
  {
    if percentage < 100 then percentage else 100
  }

  datatype Tier = Low | Moderate | High

  /** The rank of a tier, low to high. */
  function Rank(t: Tier): nat
  {
    match t
    case Low => 0
    case Moderate => 1
    case High => 2
  }

  /** The shared thresholds: above 90 is high, above 75 moderate. */
  function TierOf(percentage: nat): (r: Tier)
    ensures r == High <==> percentage > 90
    ensures r == Moderate <==> 75 < percentage <= 90
    ensures r == Low <==> percentage <= 75
  {
    if percentage > 90 then High else if percentage > 75 then Moderate else Low
  }

  /** A higher percentage never falls to a lower tier. */
  lemma TierIsMonotone(p: nat, q: nat)
    requires p <= q
    ensures Rank(TierOf(p)) <= Rank(TierOf(q))
  {
  }

  /** The class of the bar, chosen by its own copy of the thresholds. */
  function BarColour(percentage: nat): (r: string)
    ensures r == ColourOf(TierOf(percentage))
  {
    if percentage > 90 then "bg-red-500" else if percentage > 75 then "bg-yellow-500" else "bg-green-500"
  }

  /** The tooltip, chosen by its own copy of the thresholds. */
  function UsageHint(percentage: nat): (r: string)
    ensures r == HintOf(TierOf(percentage))
  {
    if percentage > 90 then "High usage: Consider starting a new chat"
    else if percentage > 75 then "Moderate usage: Approaching context limit"
    else "Low usage: Plenty of context available"
  }

  function ColourOf(t: Tier): string
  {
    match t
    case High => "bg-red-500"
    case Moderate => "bg-yellow-500"
    case Low => "bg-green-500"
  }

  function HintOf(t: Tier): string
  {
    match t
    case High => "High usage: Consider starting a new chat"
    case Moderate => "Moderate usage: Approaching context limit"
    case Low => "Low usage: Plenty of context available"
  }

  /** The colour and the tooltip always describe the same tier, and distinct
      tiers look different. */
  lemma ColourAndHintAgree(p: nat, q: nat)
    ensures BarColour(p) == ColourOf(TierOf(p)) && UsageHint(p) == HintOf(TierOf(p))
    ensures BarColour(p) == BarColour(q) <==> UsageHint(p) == UsageHint(q)
    ensures BarColour(p) == BarColour(q) <==> TierOf(p) == TierOf(q)
  {
  }

  /** The gauge for a context window that is full or overfull shows the bar at
      full width in the high tier. */
  lemma FullContextIsHighUsage(promptTokens: nat, responseTokens: nat, maxContext: nat)
    requires maxContext > 0 && TotalTokens(promptTokens, responseTokens) >= maxContext
    ensures BarWidth(PercentageUsed(TotalTokens(promptTokens, responseTokens), maxContext)) == 100
    ensures TierOf(PercentageUsed(TotalTokens(promptTokens, responseTokens), maxContext)) == High
  {
    PercentageEnds(maxContext);
    PercentageIsMonotone(maxContext, TotalTokens(promptTokens, responseTokens), maxContext);
  }
}
