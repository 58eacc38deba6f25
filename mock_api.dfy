/** `utils/mockApi.ts`: the in-browser copy of the analysis, over the full
    tables of `RoleSkillDatabase`, with a four-skill fallback list, two or
    four messages per tier and a roadmap search that falls back to substring
    matching. */
module MockApi {
  import opened Text
  import SkillGap
  import opened RoleSkillDatabase

  /** The required list of a role that resolves to no key. */
  const FallbackSkills: seq<string> := ["HTML", "JavaScript", "Git", "Problem Solving"]

  const Tiers: SkillGap.TierMessages := SkillGap.TierMessages(
    ["You are fully qualified! Focus on building unique projects.",
     "Start applying to Senior or Lead positions."],
    ["You are ready for junior roles, but keep learning."],
    ["Build small projects to demonstrate what you learn.",
     "Join online communities and participate in code reviews"])

  /** `getGenericRoadmap`. */
  const Generic: SkillGap.GenericRoadmap := SkillGap.GenericRoadmap(
    "1-2 months",
    ["Core Language Syntax", "Basic Tools", "Environment Setup", "Version Control"],
    "Start with the absolute fundamentals.",
    [SkillGap.RoadmapPhase("Phase 2: Intermediate Skills", "2 months",
       ["Frameworks", "Database Interaction", "API usage", "Debugging"],
       "Start building small, functional applications."),
     SkillGap.RoadmapPhase("Phase 3: Advanced Concepts", "2 months",
       ["Performance", "Security", "Deployment", "Best Practices"],
       "Refine your code for professional standards.")])

  const Cfg: SkillGap.Config := SkillGap.Config(SkillAliases, RoleSkills, FallbackSkills, Tiers)

  /** The roadmap lookup falls back to substring matching. */
  const RoadmapCfg: SkillGap.RoadmapConfig := SkillGap.RoadmapConfig(Roadmaps, true, Generic)

  lemma CfgWellFormed()
    ensures SkillGap.WellFormed(Cfg)
  {
    RoleKeysWellFormed();
    RoleSkillListsProper();
  }

  /** `normalizeSkill`: the alias of the trimmed, lower-cased skill when
      there is one, the trimmed skill otherwise; never padded. */
  function NormalizeSkill(skill: string): (r: string)
    ensures Lower(Trim(skill)) in SkillAliases ==> r == SkillAliases[Lower(Trim(skill))]
    ensures Lower(Trim(skill)) !in SkillAliases ==> r == Trim(skill)
    ensures IsTrimmed(r)
  {
    AliasKeysCanonical();
    AliasesAreClosed();
    var r := SkillGap.NormalizeSkill(SkillAliases, skill);
    assert r == Trim(skill) || SkillGap.ClosedValue(SkillAliases, r);
    r
  }

  /** Normalising an already normalised skill changes nothing. */
  lemma NormalizeIdempotent(skill: string)
    ensures NormalizeSkill(NormalizeSkill(skill)) == NormalizeSkill(skill)
  {
    AliasesAreClosed();
    SkillGap.NormalizeIdempotent(SkillAliases, skill);
  }

  /** `analyzeSkillGap` without the simulated delay. */
  method AnalyzeSkillGap(data: SkillGap.SkillGapRequest) returns (r: SkillGap.SkillGapResponse)
    ensures SkillGap.WellFormed(Cfg) && r == SkillGap.Analysis(Cfg, data.role, data.skills)
    ensures 0 <= r.matchPercentage <= 100
    ensures r.matchPercentage == 100 ==> r.recommendations == Tiers.qualified
    ensures 50 < r.matchPercentage < 100 ==>
      |r.recommendations| == 2 && r.recommendations[1] == "You are ready for junior roles, but keep learning."
    ensures r.matchPercentage <= 50 ==>
      |r.recommendations| == 4 && r.recommendations[1..3] == Tiers.beginner
    ensures data.skills == [] ==> r.matchPercentage == 0 && r.matchedSkills == []
  {
    CfgWellFormed();
    r := SkillGap.AnalyzeSkillGap(Cfg, data.role, data.skills);
    SkillGap.AnalysisPercentage(Cfg, data.role, data.skills);
    TierShapes(r.matchPercentage, r.missingSkills);
  }

  /** The length of each tier's list, and its fixed messages. */
  lemma TierShapes(p: int, missing: seq<string>)
    ensures var rs := SkillGap.Recommendations(Tiers, p, missing);
      && (p == 100 ==> rs == Tiers.qualified)
      && (50 < p < 100 ==> |rs| == 2 && rs[1] == "You are ready for junior roles, but keep learning.")
      && (p <= 50 ==> |rs| == 4 && rs[1..3] == Tiers.beginner)
  {
    SkillGap.RecommendationCount(Tiers, p, missing);
  }

  /** A role that neither equals nor contains any key is measured against
      the fallback list. */
  lemma UnresolvedRoleFallback(role: string)
    requires forall j :: 0 <= j < |RoleSkills| ==> !Contains(Lower(role), Lower(RoleSkills[j].0))
    ensures SkillGap.WellFormed(Cfg) && SkillGap.RequiredSkills(Cfg, role) == FallbackSkills
  {
    CfgWellFormed();
    SkillGap.RequiredSkillsResolution(Cfg, role);
  }

  /** `generateRoadmap` without the simulated delay: a stored roadmap when the
      role equals or contains a key, the generic one otherwise; always three
      phases. */
  function GenerateRoadmap(role: string): (r: SkillGap.RoadmapResponse)
    ensures |r.phases| == 3
    ensures (exists j :: 0 <= j < |Roadmaps| && r == SkillGap.RoadmapResponse(Roadmaps[j].0, Roadmaps[j].1))
      || (r.role == role && r.phases[0].phase == "Phase 1: " + role + " Basics" && r.phases[1..] == Generic.laterPhases)
    ensures (forall j :: 0 <= j < |Roadmaps| ==> !Contains(Lower(role), Lower(Roadmaps[j].0))) ==>
      r.role == role && r.phases == SkillGap.GenericPhases(Generic, role)
  {
    RoadmapsProper();
    SkillGap.GenerateRoadmapLength(RoadmapCfg, role);
    SkillGap.UncontainedRoadmap(RoadmapCfg, role);
    SkillGap.GenerateRoadmap(RoadmapCfg, role)
  }

  // ---------------------------------------------------------------------
  // Scenarios
  // ---------------------------------------------------------------------

  /** "js" and "JavaScript" are the same skill, for every role and in any
      casing and padding. */
  lemma AliasSpellingsAgree(role: string, a: string, b: string)
    requires Lower(Trim(a)) == "js" && Lower(Trim(b)) == "javascript"
    ensures SkillGap.WellFormed(Cfg)
    ensures SkillGap.Analysis(Cfg, role, [a]) == SkillGap.Analysis(Cfg, role, [b])
  {
    CfgWellFormed();
    JsIsJavaScript(a, b);
    SkillGap.AnalysisSameSkill(Cfg, role, a, b);
  }

  /** A role shorter than every key ("Chef", say) gets the fallback list. */
  lemma ShortRoleFallback(role: string)
    requires |role| < 11
    ensures SkillGap.WellFormed(Cfg) && SkillGap.RequiredSkills(Cfg, role) == FallbackSkills
  {
    KeyLengths();
    forall j | 0 <= j < |RoleSkills| ensures !Contains(Lower(role), Lower(RoleSkills[j].0)) {
      NotContainsLonger(Lower(role), Lower(RoleSkills[j].0));
    }
    UnresolvedRoleFallback(role);
  }

  /** The stored roadmap of "frontend developer", under its canonical key. */
  lemma FrontendRoadmap()
    ensures GenerateRoadmap("frontend developer") == SkillGap.RoadmapResponse("Frontend Developer", Roadmaps[0].1)
  {
    assert SkillGap.KeyMatches(SkillGap.Exact, Roadmaps[0].0, "frontend developer");
  }

  /** So "Senior Backend Developer", in any casing, gets the stored Backend
      roadmap. */
  lemma SeniorBackendRoadmap(role: string)
    requires Lower(role) == "senior backend developer"
    ensures GenerateRoadmap(role) == SkillGap.RoadmapResponse("Backend Developer", Roadmaps[1].1)
  {
    SeniorBackendRoadmapKeys(Lower(role));
    SkillGap.GenerateRoadmapBySubstring(RoadmapCfg, role, 1);
  }

  /** A role shorter than every roadmap key gets the generic roadmap,
      labelled with it. */
  lemma ShortRoleRoadmap(role: string)
    requires |role| < 14
    ensures GenerateRoadmap(role) == SkillGap.RoadmapResponse(role, SkillGap.GenericPhases(Generic, role))
  {
    KeyLengths();
    forall j | 0 <= j < |Roadmaps| ensures !Contains(Lower(role), Lower(Roadmaps[j].0)) {
      NotContainsLonger(Lower(role), Lower(Roadmaps[j].0));
    }
  }

  /** An unknown role with no skills: the fallback list, all of it missing,
      nothing matched, 0%. */
  lemma UnknownRoleNoSkills(role: string)
    requires Lower(role) == "unknown role xyz"
    ensures SkillGap.WellFormed(Cfg)
    ensures var r := SkillGap.Analysis(Cfg, role, []);
      r.matchedSkills == [] && r.missingSkills == FallbackSkills && r.matchPercentage == 0
  {
    NoRoleKeyWithout(Lower(role));
    UnresolvedRoleFallback(role);
    SkillGap.AnalysisPercentage(Cfg, role, []);
  }

  /** The matched and missing lists never repeat a skill, since no required
      list does. */
  lemma AnalysisListsDistinct(role: string, skills: seq<string>)
    ensures SkillGap.WellFormed(Cfg)
    ensures var r := SkillGap.Analysis(Cfg, role, skills);
      SkillGap.NoDuplicates(r.matchedSkills) && SkillGap.NoDuplicates(r.missingSkills)
  {
    CfgWellFormed();
    RoleSkillListsProper();
    assert SkillGap.NoDuplicates(FallbackSkills);
    SkillGap.DistinctPartition(Cfg.aliases, SkillGap.RequiredSkills(Cfg, role), SkillGap.UserSkillKeys(Cfg.aliases, skills));
  }
}
