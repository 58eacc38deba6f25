/** `backend/controllers/skillGapController.js`: the server copy of the
    analysis over the shared tables.  It checks that the request names a role
    and carries a skill list, gives one or two messages per tier, and finds
    roadmaps by exact key only, falling back to a short generic roadmap.
    The Express response object is replaced by a returned `Response`. */
module SkillGapController {
  import opened Text
  import SkillGap
  import opened RoleSkillDatabase

  /** `res.json(body)` or `res.status(400).json({ error })`. */
  datatype Response<T> = Ok(body: T) | BadRequest(error: string)

  /** `req.body` of the analysis route: either field may be absent. */
  datatype AnalyzeBody = AnalyzeBody(role: SkillGap.Option<string>, skills: SkillGap.Option<seq<string>>)

  /** `req.body` of the roadmap route. */
  datatype RoadmapBody = RoadmapBody(role: SkillGap.Option<string>)

  const FallbackSkills: seq<string> := ["HTML", "JavaScript", "Git", "Problem Solving"]

  /** One message for a full match, none beside the generated ones otherwise. */
  const Tiers: SkillGap.TierMessages := SkillGap.TierMessages(
    ["You are fully qualified! Focus on building unique projects."], [], [])

  /** The generic roadmap of `getRoadmap`: two topics per phase. */
  const Generic: SkillGap.GenericRoadmap := SkillGap.GenericRoadmap(
    "1-2 months", ["Fundamentals", "Tools"], "Start with the basics.",
    [SkillGap.RoadmapPhase("Phase 2: Intermediate", "2 months", ["Frameworks", "Databases"], "Build applications."),
     SkillGap.RoadmapPhase("Phase 3: Advanced", "2 months", ["Deployment", "Security"], "Professional skills.")])

  const Cfg: SkillGap.Config := SkillGap.Config(SkillAliases, RoleSkills, FallbackSkills, Tiers)

  /** Exact matching only. */
  const RoadmapCfg: SkillGap.RoadmapConfig := SkillGap.RoadmapConfig(Roadmaps, false, Generic)

  lemma CfgWellFormed()
    ensures SkillGap.WellFormed(Cfg)
  {
    RoleKeysWellFormed();
    RoleSkillListsProper();
  }

  /** `!role`: an absent or empty role. */
  predicate MissingRole(role: SkillGap.Option<string>) {
    role.None? || role.value == ""
  }

  /** `analyzeSkillGap`: a 400 answer when the role is absent or empty or the
      skill list is absent (an empty list is accepted), and the analysis
      otherwise. */
  method AnalyzeSkillGap(body: AnalyzeBody) returns (res: Response<SkillGap.SkillGapResponse>)
    ensures res.BadRequest? <==> MissingRole(body.role) || body.skills.None?
    ensures res.BadRequest? ==> res.error == "Role and skills are required"
    ensures res.Ok? ==> SkillGap.WellFormed(Cfg) && res.body == SkillGap.Analysis(Cfg, body.role.value, body.skills.value)
    ensures res.Ok? ==> 0 <= res.body.matchPercentage <= 100
    ensures res.Ok? && res.body.matchPercentage == 100 ==>
      res.body.recommendations == ["You are fully qualified! Focus on building unique projects."]
    ensures res.Ok? && 50 < res.body.matchPercentage < 100 ==>
      |res.body.recommendations| == 1 && |res.body.missingSkills| > 0
    ensures res.Ok? && res.body.matchPercentage <= 50 ==>
      |res.body.recommendations| == 2
      && res.body.recommendations[1] == "Focus on " + NatToString(|res.body.missingSkills|) + " missing core skills"
  {
    if MissingRole(body.role) || body.skills.None? {
      return BadRequest("Role and skills are required");
    }
    CfgWellFormed();
    var r := SkillGap.AnalyzeSkillGap(Cfg, body.role.value, body.skills.value);
    SkillGap.AnalysisPercentage(Cfg, body.role.value, body.skills.value);
    assert r.recommendations == SkillGap.Recommendations(Tiers, r.matchPercentage, r.missingSkills);
    res := Ok(r);
  }

  /** `getRoadmap`: a 400 answer without a role; otherwise the stored roadmap
      of the key equal to the role ignoring case, or else the generic roadmap
      echoing the role.  There is no substring search. */
  function GetRoadmap(body: RoadmapBody): (res: Response<SkillGap.RoadmapResponse>)
    ensures res.BadRequest? <==> MissingRole(body.role)
    ensures res.BadRequest? ==> res.error == "Role is required"
    ensures res.Ok? ==> |res.body.phases| == 3
    ensures res.Ok? ==>
      var role := body.role.value;
      if exists j :: 0 <= j < |Roadmaps| && Lower(Roadmaps[j].0) == Lower(role) then
        exists j :: 0 <= j < |Roadmaps| && Lower(Roadmaps[j].0) == Lower(role)
          && res.body == SkillGap.RoadmapResponse(Roadmaps[j].0, Roadmaps[j].1)
      else
        res.body == SkillGap.RoadmapResponse(role, SkillGap.GenericPhases(Generic, role))
  {
    if MissingRole(body.role) then BadRequest("Role is required")
    else
      RoadmapsProper();
      SkillGap.GenerateRoadmapLength(RoadmapCfg, body.role.value);
      Ok(SkillGap.GenerateRoadmap(RoadmapCfg, body.role.value))
  }

  /** "Senior Backend Developer" (in any casing) is measured against the
      Backend list, as the analysis finds roles by substring ... */
  lemma SeniorBackendSkills(role: string)
    requires Lower(role) == "senior backend developer"
    ensures SkillGap.WellFormed(Cfg) && SkillGap.RequiredSkills(Cfg, role) == RoleSkills[1].1
  {
    CfgWellFormed();
    RoleKeysDiffer(Lower(role));
    LeadingRoleKeys();
    LowerLeadingKeys();
    SeniorBackendSkipsFrontend(Lower(role));
    SeniorBackendContainsBackend(Lower(role));
    SkillGap.RequiredSkillsResolution(Cfg, role);
  }

  /** ... but gets the generic roadmap, as the roadmap search does not. */
  lemma SeniorBackendRoadmap(role: string)
    requires Lower(role) == "senior backend developer"
    ensures GetRoadmap(RoadmapBody(SkillGap.Some(role))) ==
      Ok(SkillGap.RoadmapResponse(role, SkillGap.GenericPhases(Generic, role)))
  {
    RoadmapKeysDiffer(Lower(role));
    assert role != "";
  }

  /** The matched and missing lists never repeat a skill, since no required
      list does. */
  lemma AnalysisListsDistinct(role: string, skills: seq<string>)
    ensures SkillGap.WellFormed(Cfg)
    ensures var r := SkillGap.Analysis(Cfg, role, skills);
      SkillGap.NoDuplicates(r.matchedSkills) && SkillGap.NoDuplicates(r.missingSkills)
  {
    CfgWellFormed();
    RoleSkillListsProper();
    assert SkillGap.NoDuplicates(FallbackSkills);
    SkillGap.DistinctPartition(Cfg.aliases, SkillGap.RequiredSkills(Cfg, role), SkillGap.UserSkillKeys(Cfg.aliases, skills));
  }
}
