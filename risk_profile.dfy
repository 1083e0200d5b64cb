/**
 * The risk-profile lookup (app.py lines 19 and 37-45): the label picked in
 * the risk selector picks an assumed annual return and an ordered table of
 * asset-class weights.
 */
module RiskProfile {

  datatype Risk = Conservative | Balanced | Aggressive

  /** The asset classes that appear as keys of the allocation tables. */
  datatype AssetClass = BondsOrCash | HighDividendEtf | MarketCapEtf | OtherGrowth

  /** One entry of an allocation table, in the table's order. */
  datatype Holding = Holding(asset: AssetClass, weight: real)

  /** What a risk profile selects: the annual return assumed by the growth
      simulation and the allocation table shown to the user. */
  datatype Plan = Plan(annualReturn: real, allocation: seq<Holding>)

  const ConservativeLabel: string := "保守型"
  const BalancedLabel: string := "穩健型"
  const AggressiveLabel: string := "積極型"

  /** The options of the risk selector, in the order they are offered. */
  const Options: seq<string> := [ConservativeLabel, BalancedLabel, AggressiveLabel]

  /** The four keys the allocation tables use. */
  const AssetKeys: set<string> := {"債券型 / 現金", "高股息 ETF", "市值型 ETF", "其他成長型"}

  /** The text of each asset class as a key of the allocation table. */
  function AssetName(a: AssetClass): (name: string)
    ensures name in AssetKeys
  {
    match a
    case BondsOrCash => "債券型 / 現金"
    case HighDividendEtf => "高股息 ETF"
    case MarketCapEtf => "市值型 ETF"
    case OtherGrowth => "其他成長型"
  }

  /** The selector option that stands for each risk profile: one of the
      offered options, and the one whose branch selects that profile. */
  function Label(risk: Risk): (option: string)
    ensures option in Options
    ensures RiskOf(option) == risk
  {
    match risk
    case Conservative => ConservativeLabel
    case Balanced => BalancedLabel
    case Aggressive => AggressiveLabel
  }

  /** The branch taken by the `if / elif / else` on the label: the first two
      labels are compared for, and every other string, not only the third
      option, falls through to the aggressive branch. */
  function RiskOf(choice: string): (risk: Risk)
    ensures risk == Conservative <==> choice == ConservativeLabel
    ensures risk == Balanced <==> choice == BalancedLabel
    ensures risk == Aggressive <==> choice != ConservativeLabel && choice != BalancedLabel
  {
    if choice == ConservativeLabel then Conservative
    else if choice == BalancedLabel then Balanced
    else Aggressive
  }

  /** Sum of the weights of an allocation table. */
  function TotalWeight(hs: seq<Holding>): real
  {
    if hs == [] then 0.0 else hs[0].weight + TotalWeight(hs[1..])
  }

  /** A plan is well formed when its return is positive, its table has no
      repeated key, every weight lies strictly between 0 and 1 and the
      weights add up to exactly 1. */
  predicate WellFormed(p: Plan)
  {
    && p.annualReturn > 0.0
    && (forall i, j :: 0 <= i < j < |p.allocation| ==> p.allocation[i].asset != p.allocation[j].asset)
    && (forall i :: 0 <= i < |p.allocation| ==> 0.0 < p.allocation[i].weight < 1.0)
    && TotalWeight(p.allocation) == 1.0
  }

  /** The body of each branch: the annual return and the allocation table,
      in the order the source lists its keys. */
  function PlanOf(risk: Risk): (p: Plan)
    ensures WellFormed(p)
    ensures |p.allocation| == 3
  {
    match risk
    case Conservative =>
      Plan(0.03, [Holding(BondsOrCash, 0.6), Holding(HighDividendEtf, 0.3), Holding(MarketCapEtf, 0.1)])
    case Balanced =>
      Plan(0.06, [Holding(MarketCapEtf, 0.5), Holding(HighDividendEtf, 0.3), Holding(BondsOrCash, 0.2)])
    case Aggressive =>
      Plan(0.09, [Holding(MarketCapEtf, 0.7), Holding(HighDividendEtf, 0.2), Holding(OtherGrowth, 0.1)])
  }

  /** Different asset classes have different keys, so a table with no
      repeated asset class has no repeated key. */
  lemma AssetNamesDistinct(a: AssetClass, b: AssetClass)
    ensures AssetName(a) == AssetName(b) <==> a == b
  {
  }

  /** Each offered option leads to its own risk profile and back to the same
      option, and the three options are distinct. */
  lemma SelectorRoundTrip(option: string)
    requires option in Options
    ensures Label(RiskOf(option)) == option
    ensures |Options| == 3 && Options[0] != Options[1] && Options[1] != Options[2] && Options[0] != Options[2]
  {
  }

  /** Every label selects one of exactly three plans; a label that is not
      one of the first two selects the aggressive plan with its 9% return. */
  lemma SelectedPlan(choice: string)
    ensures PlanOf(RiskOf(choice)) in {PlanOf(Conservative), PlanOf(Balanced), PlanOf(Aggressive)}
    ensures choice != ConservativeLabel && choice != BalancedLabel ==>
      PlanOf(RiskOf(choice)) == PlanOf(Aggressive) && PlanOf(RiskOf(choice)).annualReturn == 0.09
  {
  }

  /** The assumed annual return strictly increases with the risk taken. */
  lemma ReturnIncreasesWithRisk()
    ensures PlanOf(Conservative).annualReturn == 0.03
    ensures PlanOf(Balanced).annualReturn == 0.06
    ensures PlanOf(Aggressive).annualReturn == 0.09
    ensures PlanOf(Conservative).annualReturn < PlanOf(Balanced).annualReturn < PlanOf(Aggressive).annualReturn
  {
  }
}
