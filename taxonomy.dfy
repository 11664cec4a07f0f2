/**
 * The ESG taxonomy: three pillars, their 22 subcategories, the pillar
 * membership table, the name-to-feature chain of the extractor and the
 * flattened keyword list built when the program starts.
 */
module Taxonomy {
  import opened Wrappers

  datatype Pillar = Environmental | Social | Governance

  /** The subcategories of each pillar, as `esg_category_mapping` lists them. */
  datatype EnvironmentalSub =
    | ClimateAction | EnergyTransition | CircularEconomy | WaterStewardship
    | BiodiversityNature | SustainablePractices | PollutionPrevention

  datatype SocialSub =
    | WorkforceDevelopment | HealthSafety | DiversityInclusion | CommunityEngagement
    | HumanRights | CustomerStakeholder | FinancialInclusion

  datatype GovernanceSub =
    | CorporateGovernance | EthicsIntegrity | RiskManagement | ComplianceLegal
    | TransparencyDisclosure | StakeholderRelations | CybersecurityData | InnovationTechnology

  /** One of the 22 subcategories, tagged with the pillar it belongs to. */
  datatype Subcategory = Env(env: EnvironmentalSub) | Soc(social: SocialSub) | Gov(gov: GovernanceSub)

  /** The subcategory's key in the keyword taxonomy. */
  function SubName(s: Subcategory): string
  {
    match s
    case Env(ClimateAction) => "climate_action"
    case Env(EnergyTransition) => "energy_transition"
    case Env(CircularEconomy) => "circular_economy"
    case Env(WaterStewardship) => "water_stewardship"
    case Env(BiodiversityNature) => "biodiversity_nature"
    case Env(SustainablePractices) => "sustainable_practices"
    case Env(PollutionPrevention) => "pollution_prevention"
    case Soc(WorkforceDevelopment) => "workforce_development"
    case Soc(HealthSafety) => "health_safety"
    case Soc(DiversityInclusion) => "diversity_inclusion"
    case Soc(CommunityEngagement) => "community_engagement"
    case Soc(HumanRights) => "human_rights"
    case Soc(CustomerStakeholder) => "customer_stakeholder"
    case Soc(FinancialInclusion) => "financial_inclusion"
    case Gov(CorporateGovernance) => "corporate_governance"
    case Gov(EthicsIntegrity) => "ethics_integrity"
    case Gov(RiskManagement) => "risk_management"
    case Gov(ComplianceLegal) => "compliance_legal"
    case Gov(TransparencyDisclosure) => "transparency_disclosure"
    case Gov(StakeholderRelations) => "stakeholder_relations"
    case Gov(CybersecurityData) => "cybersecurity_data"
    case Gov(InnovationTechnology) => "innovation_technology"
  }

  /** The pillar-to-subcategories table `esg_category_mapping`, in its order. */
  function CategoryMapping(p: Pillar): seq<Subcategory>
  {
    match p
    case Environmental =>
      [Env(ClimateAction), Env(EnergyTransition), Env(CircularEconomy), Env(WaterStewardship),
       Env(BiodiversityNature), Env(SustainablePractices), Env(PollutionPrevention)]
    case Social =>
      [Soc(WorkforceDevelopment), Soc(HealthSafety), Soc(DiversityInclusion), Soc(CommunityEngagement),
       Soc(HumanRights), Soc(CustomerStakeholder), Soc(FinancialInclusion)]
    case Governance =>
      [Gov(CorporateGovernance), Gov(EthicsIntegrity), Gov(RiskManagement), Gov(ComplianceLegal),
       Gov(TransparencyDisclosure), Gov(StakeholderRelations), Gov(CybersecurityData), Gov(InnovationTechnology)]
  }

  /** The pillar a subcategory belongs to. */
  function PillarOf(s: Subcategory): Pillar
  {
    match s
    case Env(_) => Environmental
    case Soc(_) => Social
    case Gov(_) => Governance
  }

  /** Every subcategory is listed under its own pillar. */
  lemma MappingCovers(s: Subcategory)
    ensures s in CategoryMapping(PillarOf(s))
  {
    match s
    case Env(e) => match e {
      case ClimateAction => case EnergyTransition => case CircularEconomy => case WaterStewardship =>
      case BiodiversityNature => case SustainablePractices => case PollutionPrevention =>
    }
    case Soc(e) => match e {
      case WorkforceDevelopment => case HealthSafety => case DiversityInclusion => case CommunityEngagement =>
      case HumanRights => case CustomerStakeholder => case FinancialInclusion =>
    }
    case Gov(e) => match e {
      case CorporateGovernance => case EthicsIntegrity => case RiskManagement => case ComplianceLegal =>
      case TransparencyDisclosure => case StakeholderRelations => case CybersecurityData => case InnovationTechnology =>
    }
  }

  /** The mapping partitions the subcategories: each is listed under exactly one pillar. */
  lemma MappingPartitions(s: Subcategory, p: Pillar)
    ensures s in CategoryMapping(p) <==> p == PillarOf(s)
  {
    MappingCovers(s);
  }

  /** An entry of the keyword taxonomy: a subcategory and its keywords, in order. */
  datatype SubEntry = SubEntry(sub: Subcategory, keywords: seq<string>)

  /** A pillar of the keyword taxonomy with its subcategory entries, in order. */
  datatype PillarEntry = PillarEntry(pillar: Pillar, subs: seq<SubEntry>)

  /** The nested keyword dictionary `esg_keywords`: pillar, then subcategory, then keywords. */
  type Taxonomy = seq<PillarEntry>

  /**
   * The taxonomy has the shape of `esg_keywords`: the three pillars in order,
   * each holding the subcategories that `esg_category_mapping` lists for it, in
   * that order. The keywords themselves are free.
   */
  predicate Conforms(tax: Taxonomy)
  {
    && |tax| == 3
    && tax[0].pillar == Environmental && tax[1].pillar == Social && tax[2].pillar == Governance
    && forall i :: 0 <= i < 3 ==>
         && |tax[i].subs| == |CategoryMapping(tax[i].pillar)|
         && forall j :: 0 <= j < |tax[i].subs| ==> tax[i].subs[j].sub == CategoryMapping(tax[i].pillar)[j]
  }

  /** The keywords of a run of subcategory entries, concatenated in order. */
  function SubKeywords(subs: seq<SubEntry>): seq<string>
  {
    if subs == [] then [] else SubKeywords(subs[..|subs| - 1]) + subs[|subs| - 1].keywords
  }

  /** The keywords of the whole taxonomy, concatenated pillar by pillar, subcategory by subcategory. */
  function Flatten(tax: Taxonomy): seq<string>
  {
    if tax == [] then [] else Flatten(tax[..|tax| - 1]) + SubKeywords(tax[|tax| - 1].subs)
  }

  /** A keyword is in the flat list exactly when some subcategory entry lists it. */
  lemma {:induction false} SubKeywordsMembership(subs: seq<SubEntry>, k: string)
    ensures k in SubKeywords(subs) <==> exists j :: 0 <= j < |subs| && k in subs[j].keywords
  {
    if subs != [] {
      var n := |subs| - 1;
      SubKeywordsMembership(subs[..n], k);
      assert forall j :: 0 <= j < n ==> subs[..n][j] == subs[j];
    }
  }

  /** A keyword is in the flat list exactly when some subcategory entry of some pillar lists it. */
  lemma {:induction false} FlattenMembership(tax: Taxonomy, k: string)
    ensures k in Flatten(tax) <==>
      exists i, j :: 0 <= i < |tax| && 0 <= j < |tax[i].subs| && k in tax[i].subs[j].keywords
  {
    if tax != [] {
      var n := |tax| - 1;
      FlattenMembership(tax[..n], k);
      SubKeywordsMembership(tax[n].subs, k);
      assert forall i :: 0 <= i < n ==> tax[..n][i] == tax[i];
    }
  }

  /** The module-level loop that builds `all_esg_keywords` with `extend`. */
  method FlattenKeywords(tax: Taxonomy) returns (all: seq<string>)
    ensures all == Flatten(tax)
  {
    all := [];
    for i := 0 to |tax|
      invariant all == Flatten(tax[..i])
    {
      var subs := tax[i].subs;
      for j := 0 to |subs|
        invariant all == Flatten(tax[..i]) + SubKeywords(subs[..j])
      {
        assert subs[..j + 1][..j] == subs[..j];
        all := all + subs[j].keywords;
      }
      assert subs[..|subs|] == subs;
      assert tax[..i + 1][..i] == tax[..i];
    }
    assert tax[..|tax|] == tax;
  }

  /** `[keyword.lower() for keyword in keywords]`. */
  function LowerAll(lower: string -> string, keywords: seq<string>): (r: seq<string>)
    ensures |r| == |keywords|
    ensures forall i :: 0 <= i < |r| ==> r[i] == lower(keywords[i])
  {
    seq(|keywords|, i requires 0 <= i < |keywords| => lower(keywords[i]))
  }

  /** The polarity half of a feature name: `pos_` or `neg_`. */
  datatype Polarity = Pos | Neg

  /** One of the 44 per-subcategory counters of the feature record. */
  datatype Field = Field(polarity: Polarity, sub: Subcategory)

  function PolarityTag(pol: Polarity): string
  {
    match pol
    case Pos => "pos"
    case Neg => "neg"
  }

  function PillarTag(p: Pillar): string
  {
    match p
    case Environmental => "env"
    case Social => "social"
    case Governance => "gov"
  }

  /**
   * The record key of a counter, `pos_env_climate_action` and so on: the
   * polarity, the tag of the pillar that the mapping assigns to the
   * subcategory, and the subcategory's name.
   */
  function ColumnName(f: Field): string
  {
    PolarityTag(f.polarity) + "_" + PillarTag(PillarOf(f.sub)) + "_" + SubName(f.sub)
  }

  /**
   * The order in which the feature record declares, the counting chain tests
   * and the aggregation sums the subcategories of each pillar.
   */
  function FeatureOrder(p: Pillar): seq<Subcategory>
  {
    match p
    case Environmental =>
      [Env(ClimateAction), Env(EnergyTransition), Env(WaterStewardship), Env(BiodiversityNature),
       Env(PollutionPrevention), Env(CircularEconomy), Env(SustainablePractices)]
    case Social =>
      [Soc(DiversityInclusion), Soc(WorkforceDevelopment), Soc(HealthSafety), Soc(HumanRights),
       Soc(CommunityEngagement), Soc(CustomerStakeholder), Soc(FinancialInclusion)]
    case Governance =>
      [Gov(CorporateGovernance), Gov(EthicsIntegrity), Gov(TransparencyDisclosure), Gov(RiskManagement),
       Gov(ComplianceLegal), Gov(StakeholderRelations), Gov(InnovationTechnology), Gov(CybersecurityData)]
  }

  predicate Distinct<T(==)>(s: seq<T>)
  {
    forall i, j :: 0 <= i < j < |s| ==> s[i] != s[j]
  }

  /**
   * The record's per-pillar lists agree with the mapping: each holds exactly
   * the subcategories the mapping assigns to the pillar, each once, seven for
   * Environmental and Social and eight for Governance.
   */
  lemma FeatureOrderMatchesMapping(p: Pillar)
    ensures Distinct(FeatureOrder(p)) && Distinct(CategoryMapping(p))
    ensures forall s :: s in FeatureOrder(p) <==> PillarOf(s) == p
    ensures |FeatureOrder(p)| == (if p == Governance then 8 else 7)
  {
    match p
    case Environmental => EnvironmentalOrder();
    case Social => SocialOrder();
    case Governance => GovernanceOrder();
  }

  lemma EnvironmentalOrder()
    ensures Distinct(FeatureOrder(Environmental)) && Distinct(CategoryMapping(Environmental))
    ensures forall s :: s in FeatureOrder(Environmental) <==> PillarOf(s) == Environmental
  {
    forall s ensures s in FeatureOrder(Environmental) <==> PillarOf(s) == Environmental {
      MappingCovers(s);
    }
  }

  lemma SocialOrder()
    ensures Distinct(FeatureOrder(Social)) && Distinct(CategoryMapping(Social))
    ensures forall s :: s in FeatureOrder(Social) <==> PillarOf(s) == Social
  {
    forall s ensures s in FeatureOrder(Social) <==> PillarOf(s) == Social {
      MappingCovers(s);
    }
  }

  lemma GovernanceOrder()
    ensures Distinct(FeatureOrder(Governance)) && Distinct(CategoryMapping(Governance))
    ensures forall s :: s in FeatureOrder(Governance) <==> PillarOf(s) == Governance
  {
    forall s ensures s in FeatureOrder(Governance) <==> PillarOf(s) == Governance {
      MappingCovers(s);
    }
  }

  /** The 44 counters in the order the feature record declares them, `pos_` before `neg_`. */
  function RecordColumns(): seq<Field>
  {
    Interleave(FeatureOrder(Environmental) + FeatureOrder(Social) + FeatureOrder(Governance))
  }

  function Interleave(subs: seq<Subcategory>): (fs: seq<Field>)
    ensures |fs| == 2 * |subs|
    ensures forall f :: f in fs <==> f.sub in subs
  {
    if subs == [] then []
    else
      var rest := Interleave(subs[1..]);
      var head := [Field(Pos, subs[0]), Field(Neg, subs[0])];
      assert forall s :: s in subs <==> s == subs[0] || s in subs[1..];
      assert forall f: Field :: f in head <==> f.sub == subs[0] by {
        forall f: Field ensures f in head <==> f.sub == subs[0] {
          if f.sub == subs[0] {
            assert f == head[if f.polarity == Pos then 0 else 1];
          }
        }
      }
      head + rest
  }

  /** Every counter is declared by the record, and the record declares 44. */
  lemma RecordColumnsComplete(f: Field)
    ensures f in RecordColumns()
    ensures |RecordColumns()| == 44
  {
    FeatureOrderMatchesMapping(PillarOf(f.sub));
    FeatureOrderMatchesMapping(Environmental);
    FeatureOrderMatchesMapping(Social);
    FeatureOrderMatchesMapping(Governance);
  }
}
