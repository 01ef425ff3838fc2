/** Pricing of an ad placement, `getAdCost` in backend/index.js. Every multiplier
    in the source is a whole number of tenths, so costs are kept exactly as
    integer tenths of a currency unit: a cost of 220 is 2200 here. */
module AdCost {
  import opened Common

  /** Outcome of the Google Ads account-access call made for a PPC ad. */
  datatype AccessCheck = Granted | Threw

  /** The per-approach multipliers, in tenths. */
  const MultiplierTable: map<string, nat> :=
    map["informative" := 10, "persuasive" := 11, "reminder" := 9, "comparative" := 12, "emotive" := 13]

  /** YouTube base cost by subscriber tier. */
  function YoutubeBase(subscribers: int): (base: nat)
    ensures base in {200, 800, 5000, 20000}
    ensures base == 200 <==> subscribers < 10000
    ensures base == 800 <==> 10000 <= subscribers < 100000
    ensures base == 5000 <==> 100000 <= subscribers < 1000000
    ensures base == 20000 <==> 1000000 <= subscribers
  {
    if subscribers < 10000 then 200
    else if subscribers < 100000 then 800
    else if subscribers < 1000000 then 5000
    else 20000
  }

  /** More subscribers never make a YouTube placement cheaper. */
  lemma YoutubeBaseMonotone(fewer: int, more: int)
    requires fewer <= more
    ensures YoutubeBase(fewer) <= YoutubeBase(more)
  {
  }

  /** Base cost before the approach multiplier; `access` is what the PPC account
      call did, and it does not change the price. */
  function BaseCost(adType: string, location: string, subscribers: int, access: AccessCheck): (base: nat)
    ensures base > 0
    ensures adType == "youtube" ==> base == YoutubeBase(subscribers)
    ensures adType == "newspaper" ==> base == (if Contains(location, "India") then 3000 else 5000)
    ensures adType == "ppc" ==> base == 2
    ensures adType !in {"youtube", "newspaper", "ppc"} ==> base == 1000
  {
    if adType == "youtube" then YoutubeBase(subscribers)
    else if adType == "newspaper" then (if Contains(location, "India") then 3000 else 5000)
    else if adType == "ppc" then (match access case Granted => 2 case Threw => 2)
    else 1000
  }

  /** The approach multiplier in tenths, 1.0 for an approach the table lacks. */
  function MultiplierTenths(approach: string): (m: nat)
    ensures 9 <= m <= 13
    ensures approach !in MultiplierTable ==> m == 10
  {
    if approach in MultiplierTable then MultiplierTable[approach] else 10
  }

  /** `getAdCost`, in tenths. */
  function AdCostTenths(adType: string, location: string, subscribers: int, approach: string,
                        access: AccessCheck): (cost: int)
    ensures var base := BaseCost(adType, location, subscribers, access);
      9 * base <= cost <= 13 * base && cost > 0
    ensures MultiplierTenths(approach) == 10 ==> cost == 10 * BaseCost(adType, location, subscribers, access)
  {
    BaseCost(adType, location, subscribers, access) * MultiplierTenths(approach)
  }

  /** For a fixed approach, a YouTube price is monotone in the subscriber count. */
  lemma YoutubeCostMonotone(location: string, fewer: int, more: int, approach: string, access: AccessCheck)
    requires fewer <= more
    ensures AdCostTenths("youtube", location, fewer, approach, access)
         <= AdCostTenths("youtube", location, more, approach, access)
  {
  }

  /** The PPC price does not depend on whether the account call succeeded. */
  lemma PpcIgnoresAccessCheck(location: string, subscribers: int, approach: string)
    ensures AdCostTenths("ppc", location, subscribers, approach, Granted)
         == AdCostTenths("ppc", location, subscribers, approach, Threw)
         == 2 * MultiplierTenths(approach)
  {
  }

  /** Worked prices: a persuasive YouTube ad under 10000 subscribers costs 220,
      a newspaper ad costs 3000 or 5000 times the multiplier depending on "India". */
  lemma PriceExamples(approach: string, access: AccessCheck)
    ensures AdCostTenths("youtube", "India", 5000, "persuasive", access) == 2200
    ensures AdCostTenths("newspaper", "India-North", 0, approach, access) == 3000 * MultiplierTenths(approach)
    ensures AdCostTenths("newspaper", "US", 0, approach, access) == 5000 * MultiplierTenths(approach)
  {
  }

  // ---------------------------------------------------------------------------
  // The multiplier lookup as written: `approachMultipliers[adApproach] || 1.0`
  // reads a plain object literal, so a name inherited from Object.prototype
  // yields a function (or the prototype object), which is truthy, and the
  // product with the base cost is NaN.

  /** Property names every plain JavaScript object inherits. */
  const InheritedNames: set<string> :=
    {"constructor", "__proto__", "hasOwnProperty", "isPrototypeOf", "propertyIsEnumerable",
     "toLocaleString", "toString", "valueOf", "__defineGetter__", "__defineSetter__",
     "__lookupGetter__", "__lookupSetter__"}

  /** The lookup as written; None stands for a non-numeric value. */
  function MultiplierAsWritten(approach: string): (m: Option<nat>)
    ensures m.None? <==> approach in InheritedNames
  {
    if approach in MultiplierTable then Some(MultiplierTable[approach])
    else if approach in InheritedNames then None
    else Some(10)
  }

  /** `getAdCost` as written; None stands for NaN. */
  function AdCostAsWritten(adType: string, location: string, subscribers: int, approach: string,
                           access: AccessCheck): (cost: Option<int>)
    ensures cost.None? <==> approach in InheritedNames
  {
    match MultiplierAsWritten(approach)
    case None => None
    case Some(m) => Some(BaseCost(adType, location, subscribers, access) * m)
  }

  /** The discrepancy: the approach "constructor" prices every ad as NaN, where
      the evident intent is the default multiplier 1.0. */
  lemma ConstructorApproachIsNaN(adType: string, location: string, subscribers: int, access: AccessCheck)
    ensures AdCostAsWritten(adType, location, subscribers, "constructor", access) == None
    ensures AdCostTenths(adType, location, subscribers, "constructor", access)
         == 10 * BaseCost(adType, location, subscribers, access)
  {
  }

  /** Away from the inherited names the written code and the corrected one agree. */
  lemma AsWrittenAgreesElsewhere(adType: string, location: string, subscribers: int, approach: string,
                                 access: AccessCheck)
    requires approach !in InheritedNames
    ensures AdCostAsWritten(adType, location, subscribers, approach, access)
         == Some(AdCostTenths(adType, location, subscribers, approach, access))
  {
  }
}
