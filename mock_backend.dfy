/** `services/mockBackend.ts`: an older in-browser copy of the analysis,
    with a 13-entry alias table (no "ux", "ui" or "k8s"), the first ten roles
    and the first two roadmaps of the shared tables, a five-skill fallback
    list, and the same tiers and roadmap search as `utils/mockApi.ts`. */
module MockBackend {
  import opened Text
  import SkillGap
  import RoleSkillDatabase
  import MockApi

  const SkillAliases: map<string, string> := map[
    "js" := "JavaScript",
    "ts" := "TypeScript",
    "react.js" := "React",
    "reactjs" := "React",
    "node" := "Node.js",
    "nodejs" := "Node.js",
    "py" := "Python",
    "golang" := "Go",
    "aws" := "AWS",
    "c#" := "C#",
    "csharp" := "C#",
    "cpp" := "C++",
    "c++" := "C++"
  ]

  /** The ten roles of this copy are the first ten of the shared table, in
      the same order and with the same lists. */
  const RoleSkills: SkillGap.Table<seq<string>> := RoleSkillDatabase.RoleSkills[..10]

  /** Only the Frontend and Backend roadmaps. */
  const Roadmaps: SkillGap.Table<seq<SkillGap.RoadmapPhase>> := RoleSkillDatabase.Roadmaps[..2]

  const FallbackSkills: seq<string> := ["HTML", "JavaScript", "Git", "Communication", "Problem Solving"]

  const Cfg: SkillGap.Config := SkillGap.Config(SkillAliases, RoleSkills, FallbackSkills, MockApi.Tiers)

  const RoadmapCfg: SkillGap.RoadmapConfig := SkillGap.RoadmapConfig(Roadmaps, true, MockApi.Generic)

  lemma CfgWellFormed()
    ensures SkillGap.WellFormed(Cfg)
  {
    RoleSkillDatabase.RoleKeysWellFormed();
    RoleSkillDatabase.RoleSkillListsProper();
  }

  /** Every alias key is trimmed and lower-case, and every alias is a
      non-empty string. */
  lemma AliasKeysCanonical()
    ensures forall k :: k in SkillAliases ==> IsTrimmed(k) && Lower(k) == k && SkillAliases[k] != ""
  {
  }

  /** Every alias is trimmed. */
  lemma AliasValuesTrimmed()
    ensures forall k :: k in SkillAliases ==> IsTrimmed(SkillAliases[k])
  {
  }

  /** `normalizeSkill` over this copy's alias table. */
  function NormalizeSkill(skill: string): (r: string)
    ensures Lower(Trim(skill)) in SkillAliases ==> r == SkillAliases[Lower(Trim(skill))]
    ensures Lower(Trim(skill)) !in SkillAliases ==> r == Trim(skill)
    ensures IsTrimmed(r)
  {
    AliasKeysCanonical();
    AliasValuesTrimmed();
    SkillGap.NormalizeSkill(SkillAliases, skill)
  }

  /** "k8s", in any casing and padding, has no alias here, so it stays as
      typed (the shared table maps it to "Kubernetes"). */
  lemma NoKubernetesAlias(skill: string)
    requires Lower(Trim(skill)) == "k8s"
    ensures NormalizeSkill(skill) == Trim(skill)
    ensures MockApi.NormalizeSkill(skill) == "Kubernetes"
  {
    KubernetesKeys();
  }

  lemma KubernetesKeys()
    ensures "k8s" !in SkillAliases
    ensures "k8s" in RoleSkillDatabase.SkillAliases && RoleSkillDatabase.SkillAliases["k8s"] == "Kubernetes"
  {
  }

  /** `analyzeSkillGap` without the simulated delay. */
  method AnalyzeSkillGap(data: SkillGap.SkillGapRequest) returns (r: SkillGap.SkillGapResponse)
    ensures SkillGap.WellFormed(Cfg) && r == SkillGap.Analysis(Cfg, data.role, data.skills)
    ensures 0 <= r.matchPercentage <= 100
    ensures r.matchPercentage == 100 ==> r.recommendations == MockApi.Tiers.qualified
    ensures 50 < r.matchPercentage < 100 ==>
      |r.recommendations| == 2 && r.recommendations[1] == "You are ready for junior roles, but keep learning."
    ensures r.matchPercentage <= 50 ==>
      |r.recommendations| == 4 && r.recommendations[1..3] == MockApi.Tiers.beginner
    ensures data.skills == [] ==> r.matchPercentage == 0 && r.matchedSkills == []
  {
    CfgWellFormed();
    r := SkillGap.AnalyzeSkillGap(Cfg, data.role, data.skills);
    SkillGap.AnalysisPercentage(Cfg, data.role, data.skills);
    MockApi.TierShapes(r.matchPercentage, r.missingSkills);
  }

  /** A role that neither equals nor contains any of the ten keys is measured
      against the five-skill fallback list. */
  lemma UnresolvedRoleFallback(role: string)
    requires forall j :: 0 <= j < |RoleSkills| ==> !Contains(Lower(role), Lower(RoleSkills[j].0))
    ensures SkillGap.WellFormed(Cfg) && SkillGap.RequiredSkills(Cfg, role) == FallbackSkills
  {
    CfgWellFormed();
    SkillGap.RequiredSkillsResolution(Cfg, role);
  }

  /** `generateRoadmap` without the simulated delay: the Frontend or Backend
      roadmap when the role equals or contains that key, the generic one
      otherwise; always three phases. */
  function GenerateRoadmap(role: string): (r: SkillGap.RoadmapResponse)
    ensures |r.phases| == 3
    ensures (exists j :: 0 <= j < 2 && r == SkillGap.RoadmapResponse(Roadmaps[j].0, Roadmaps[j].1))
      || (r.role == role && r.phases[0].phase == "Phase 1: " + role + " Basics" && r.phases[1..] == MockApi.Generic.laterPhases)
    ensures (forall j :: 0 <= j < 2 ==> !Contains(Lower(role), Lower(Roadmaps[j].0))) ==>
      r.role == role && r.phases == SkillGap.GenericPhases(MockApi.Generic, role)
  {
    RoleSkillDatabase.RoadmapsProper();
    SkillGap.GenerateRoadmapLength(RoadmapCfg, role);
    SkillGap.UncontainedRoadmap(RoadmapCfg, role);
    SkillGap.GenerateRoadmap(RoadmapCfg, role)
  }

  /** Any role shorter than "Backend Developer" gets the generic roadmap,
      so "Data Analyst", a role of the skill table, does too. */
  lemma ShortRoleRoadmap(role: string)
    requires |role| < 17
    ensures GenerateRoadmap(role) == SkillGap.RoadmapResponse(role, SkillGap.GenericPhases(MockApi.Generic, role))
  {
    forall j | 0 <= j < 2 ensures !Contains(Lower(role), Lower(Roadmaps[j].0)) {
      NotContainsLonger(Lower(role), Lower(Roadmaps[j].0));
    }
  }

  lemma DataAnalystRoadmap()
    ensures RoleSkills[3].0 == "Data Analyst"
    ensures GenerateRoadmap("Data Analyst").role == "Data Analyst"
    ensures GenerateRoadmap("Data Analyst").phases == SkillGap.GenericPhases(MockApi.Generic, "Data Analyst")
  {
    ShortRoleRoadmap("Data Analyst");
  }

  // ---------------------------------------------------------------------
  // formatSkill
  // ---------------------------------------------------------------------

  /** `formatSkill`: the first character upper-cased, the rest unchanged. */
  function FormatSkill(skill: string): (r: string)
    ensures |r| == |skill|
    ensures skill != [] ==> r[0] == UpperChar(skill[0]) && r[1..] == skill[1..]
    ensures skill == [] ==> r == []
  {
    if skill == [] then [] else [UpperChar(skill[0])] + skill[1..]
  }

  /** Formatting twice is formatting once, and changes nothing up to case. */
  lemma FormatSkillProperties(skill: string)
    ensures FormatSkill(FormatSkill(skill)) == FormatSkill(skill)
    ensures Lower(FormatSkill(skill)) == Lower(skill)
  {
    if skill != [] {
      var r := FormatSkill(skill);
      assert LowerChar(UpperChar(skill[0])) == LowerChar(skill[0]);
      assert forall i :: 0 <= i < |skill| ==> Lower(r)[i] == Lower(skill)[i];
    }
  }

  /** The matched and missing lists never repeat a skill, since no required
      list does. */
  lemma AnalysisListsDistinct(role: string, skills: seq<string>)
    ensures SkillGap.WellFormed(Cfg)
    ensures var r := SkillGap.Analysis(Cfg, role, skills);
      SkillGap.NoDuplicates(r.matchedSkills) && SkillGap.NoDuplicates(r.missingSkills)
  {
    CfgWellFormed();
    RoleSkillDatabase.RoleSkillListsProper();
    assert SkillGap.NoDuplicates(FallbackSkills);
    SkillGap.DistinctPartition(Cfg.aliases, SkillGap.RequiredSkills(Cfg, role), SkillGap.UserSkillKeys(Cfg.aliases, skills));
  }
}
