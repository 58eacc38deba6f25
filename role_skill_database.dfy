/** The shared reference tables of `backend/utils/roleSkillDatabase.js`
    (`SKILL_ALIASES`, `ROLE_SKILL_DATABASE`, `ROADMAP_DATABASE`), kept in
    their declaration order, and the facts about them the matching logic
    relies on without checking. */
module RoleSkillDatabase {
  import opened Text
  import opened SkillGap

  const SkillAliases: map<string, string> := map[
    "js" := "JavaScript",
    "ts" := "TypeScript",
    "react.js" := "React",
    "reactjs" := "React",
    "node" := "Node.js",
    "nodejs" := "Node.js",
    "py" := "Python",
    "golang" := "Go",
    "aws" := "AWS",
    "c#" := "C#",
    "csharp" := "C#",
    "cpp" := "C++",
    "c++" := "C++",
    "ux" := "User Experience",
    "ui" := "User Interface",
    "k8s" := "Kubernetes"
  ]

  const RoleSkills: Table<seq<string>> := [
    ("Frontend Developer", ["HTML", "CSS", "JavaScript", "React", "TypeScript", "Tailwind", "Git", "Jest", "Web Performance"]),
    ("Backend Developer", ["Java", "Spring Boot", "SQL", "APIs", "Git", "Docker", "System Design", "Microservices", "Redis"]),
    ("Full Stack Developer", ["JavaScript", "React", "Node.js", "SQL", "Git", "Docker", "AWS", "Express", "MongoDB"]),
    ("Data Analyst", ["Excel", "SQL", "Python", "Tableau", "Statistics", "PowerBI", "Data Cleaning"]),
    ("Data Scientist", ["Python", "Machine Learning", "SQL", "Pandas", "NumPy", "Statistics", "Deep Learning"]),
    ("DevOps Engineer", ["Linux", "AWS", "Docker", "Kubernetes", "CI/CD", "Terraform", "Bash", "Monitoring"]),
    ("Mobile Developer", ["React Native", "iOS", "Android", "Swift", "Kotlin", "Firebase", "APIs"]),
    ("QA Engineer", ["Selenium", "Cypress", "JavaScript", "Python", "Manual Testing", "Automation", "SQL"]),
    ("Game Developer", ["C++", "C#", "Unity", "Unreal Engine", "Mathematics", "3D Graphics"]),
    ("Blockchain Developer", ["Solidity", "Ethereum", "Smart Contracts", "Cryptography", "JavaScript", "Web3.js"]),
    ("UI/UX Designer", ["Figma", "Adobe XD", "User Research", "Wireframing", "Prototyping", "CSS", "HTML", "Accessibility", "Information Architecture"]),
    ("Product Manager", ["Agile", "Scrum", "Jira", "User Stories", "Roadmapping", "A/B Testing", "Data Analysis", "Stakeholder Management", "Communication"]),
    ("Cloud Engineer", ["AWS", "Azure", "Google Cloud", "Docker", "Kubernetes", "Terraform", "Linux", "Python", "Networking", "Security"]),
    ("Cyber Security Analyst", ["Network Security", "Python", "Linux", "Firewalls", "Penetration Testing", "SIEM", "Cryptography", "Risk Assessment"]),
    ("Site Reliability Engineer", ["Linux", "Python", "Go", "AWS", "Kubernetes", "Terraform", "Prometheus", "Grafana", "Incident Response"])
  ]

  const Roadmaps: Table<seq<RoadmapPhase>> := [
    ("Frontend Developer", [
      RoadmapPhase("Phase 1: Foundations", "1-2 months",
        ["HTML & CSS fundamentals", "JavaScript basics", "DOM manipulation", "Git version control", "Responsive design"],
        "Master the core languages of the web."),
      RoadmapPhase("Phase 2: Modern Framework", "2-3 months",
        ["React fundamentals", "Component architecture", "State management", "React hooks", "API integration"],
        "Build dynamic, interactive applications."),
      RoadmapPhase("Phase 3: Advanced & Projects", "2 months",
        ["Testing with Jest", "Performance optimization", "Build real projects", "Portfolio website", "Deploy applications"],
        "Polish your skills for production environments.")]),
    ("Backend Developer", [
      RoadmapPhase("Phase 1: Core Logic", "2 months",
        ["Language syntax (Java/Python)", "OOP Principles", "Data Structures", "Git"],
        "Strong programming foundations are key."),
      RoadmapPhase("Phase 2: Server & DB", "2-3 months",
        ["Relational Databases (SQL)", "RESTful APIs", "Authentication", "Web Frameworks"],
        "Learn how to handle data and requests."),
      RoadmapPhase("Phase 3: Scale", "2 months",
        ["Docker & Containers", "System Design basics", "Caching", "Cloud Basics"],
        "Prepare for enterprise-scale applications.")]),
    ("UI/UX Designer", [
      RoadmapPhase("Phase 1: Design Basics", "1-2 months",
        ["Design Theory", "Typography & Color", "Figma Basics", "User Empathy"],
        "Learn the visual language of design."),
      RoadmapPhase("Phase 2: UX Process", "2-3 months",
        ["User Research", "Wireframing", "Prototyping", "Usability Testing", "Information Architecture"],
        "Understand how to solve user problems."),
      RoadmapPhase("Phase 3: Professional Portfolio", "2 months",
        ["High-fidelity Mockups", "Design Systems", "Case Studies", "Basic HTML/CSS"],
        "Build a portfolio that gets you hired.")]),
    ("Product Manager", [
      RoadmapPhase("Phase 1: Product Fundamentals", "1-2 months",
        ["Product Lifecycle", "Agile/Scrum", "User Stories", "Market Research"],
        "Understand how products are built."),
      RoadmapPhase("Phase 2: Strategy & Data", "2 months",
        ["Roadmapping", "KPIs & Metrics", "A/B Testing", "Data Analysis"],
        "Learn to make data-driven decisions."),
      RoadmapPhase("Phase 3: Leadership", "2 months",
        ["Stakeholder Management", "Product Vision", "Launch Strategy", "Negotiation"],
        "Lead teams without authority.")]),
    ("Cloud Engineer", [
      RoadmapPhase("Phase 1: Systems Basics", "2 months",
        ["Linux Command Line", "Networking (DNS, HTTP, TCP/IP)", "Python/Bash Scripting"],
        "Master the underlying operating systems."),
      RoadmapPhase("Phase 2: Cloud Provider", "2-3 months",
        ["AWS/Azure Core Services", "IAM & Security", "Virtual Machines", "Storage S3/Blob"],
        "Get certified in a major cloud provider."),
      RoadmapPhase("Phase 3: Infrastructure as Code", "2-3 months",
        ["Terraform", "Docker", "Kubernetes", "CI/CD Pipelines"],
        "Automate infrastructure deployment.")]),
    ("Cyber Security Analyst", [
      RoadmapPhase("Phase 1: Networking & OS", "2 months",
        ["Network Protocols", "Linux Administration", "Windows Administration", "Bash"],
        "Understand what you are protecting."),
      RoadmapPhase("Phase 2: Security Core", "3 months",
        ["Vulnerability Assessment", "Firewalls", "SIEM Tools", "Cryptography Basics"],
        "Learn how to detect and prevent attacks."),
      RoadmapPhase("Phase 3: Advanced & Compliance", "2 months",
        ["Penetration Testing", "Incident Response", "Compliance (GDPR/HIPAA)", "Python for Security"],
        "Specialize in offensive or defensive security.")]),
    ("Site Reliability Engineer", [
      RoadmapPhase("Phase 1: Dev & Ops Intersection", "2 months",
        ["Coding (Python/Go)", "Linux Internals", "Git", "CI/CD"],
        "Bridge the gap between code and infrastructure."),
      RoadmapPhase("Phase 2: Containerization", "2 months",
        ["Docker", "Kubernetes Administration", "Helm", "Container Security"],
        "Master modern deployment orchestration."),
      RoadmapPhase("Phase 3: Observability", "2 months",
        ["Prometheus", "Grafana", "SLOs/SLIs", "Incident Management"],
        "Ensure reliability and rapid recovery.")])
  ]

  /** Every alias key is already trimmed and lower-case, and every alias is
      a non-empty string. */
  lemma AliasKeysCanonical()
    ensures forall k :: k in SkillAliases ==> IsTrimmed(k) && Lower(k) == k && SkillAliases[k] != ""
  {
  }

  /** So `normalizeSkill` reaches every alias, from any spelling that differs
      from its key only in case and surrounding white space. */
  lemma AliasKeysReachable(k: string, skill: string)
    requires k in SkillAliases && Lower(Trim(skill)) == Lower(k)
    ensures NormalizeSkill(SkillAliases, skill) == SkillAliases[k]
  {
    AliasKeysCanonical();
  }

  /** A trimmed skill whose lower-case form is no alias key normalises to
      itself. */
  lemma NormalizeKept(skill: string)
    requires IsTrimmed(skill) && Lower(skill) !in SkillAliases
    ensures NormalizeSkill(SkillAliases, skill) == skill
  {
    TrimOfTrimmed(skill);
  }

  /** Every spelling of "js" normalises to "JavaScript", and every spelling
      of "javascript" to its own trimmed form. */
  lemma JsIsJavaScript(a: string, b: string)
    requires Lower(Trim(a)) == "js" && Lower(Trim(b)) == "javascript"
    ensures NormalizeSkill(SkillAliases, a) == "JavaScript"
    ensures NormalizeSkill(SkillAliases, b) == Trim(b)
    ensures Lower("JavaScript") == "javascript"
  {
    JsAlias();
    JavaScriptUnaliased();
  }

  lemma JsAlias()
    ensures "js" in SkillAliases && SkillAliases["js"] == "JavaScript"
  {
  }

  lemma JavaScriptUnaliased()
    ensures "javascript" !in SkillAliases && Lower("JavaScript") == "javascript"
  {
  }

  // The twelve distinct alias values, one lemma each (together they are too
  // much for one proof).

  lemma AliasValueClosed0()
    ensures ClosedValue(SkillAliases, "JavaScript")
  {
  }

  lemma AliasValueClosed1()
    ensures ClosedValue(SkillAliases, "TypeScript")
  {
  }

  lemma AliasValueClosed2()
    ensures ClosedValue(SkillAliases, "React")
  {
  }

  lemma AliasValueClosed3()
    ensures ClosedValue(SkillAliases, "Node.js")
  {
  }

  lemma AliasValueClosed4()
    ensures ClosedValue(SkillAliases, "Python")
  {
  }

  lemma AliasValueClosed5()
    ensures ClosedValue(SkillAliases, "Go")
  {
  }

  lemma AliasValueClosed6()
    ensures ClosedValue(SkillAliases, "AWS")
  {
  }

  lemma AliasValueClosed7()
    ensures ClosedValue(SkillAliases, "C#")
  {
  }

  lemma AliasValueClosed8()
    ensures ClosedValue(SkillAliases, "C++")
  {
  }

  lemma AliasValueClosed9()
    ensures ClosedValue(SkillAliases, "User Experience")
  {
  }

  lemma AliasValueClosed10()
    ensures ClosedValue(SkillAliases, "User Interface")
  {
  }

  lemma AliasValueClosed11()
    ensures ClosedValue(SkillAliases, "Kubernetes")
  {
  }

  /** Every alias value is trimmed and is an alias of itself ("AWS", "C#",
      "C++") or no key at all, so normalising twice changes nothing. */
  lemma AliasesAreClosed()
    ensures AliasesClosed(SkillAliases)
  {
    AliasValueClosed0(); AliasValueClosed1(); AliasValueClosed2(); AliasValueClosed3(); AliasValueClosed4(); AliasValueClosed5(); AliasValueClosed6(); AliasValueClosed7(); AliasValueClosed8(); AliasValueClosed9(); AliasValueClosed10(); AliasValueClosed11();
  }

  /** Every role has a non-empty required list without duplicates. */
  lemma RoleSkillListsProper()
    ensures forall i :: 0 <= i < |RoleSkills| ==> RoleSkills[i].1 != [] && NoDuplicates(RoleSkills[i].1)
  {
    RoleSkillListsProper0();
    RoleSkillListsProper3();
    RoleSkillListsProper6();
    RoleSkillListsProper9();
    RoleSkillListsProper12();
  }

  // The lists three at a time (one proof for all fifteen is too much).

  lemma RoleSkillListsProper0()
    ensures forall i :: 0 <= i < 3 ==> RoleSkills[i].1 != [] && NoDuplicates(RoleSkills[i].1)
  {
  }

  lemma RoleSkillListsProper3()
    ensures forall i :: 3 <= i < 6 ==> RoleSkills[i].1 != [] && NoDuplicates(RoleSkills[i].1)
  {
  }

  lemma RoleSkillListsProper6()
    ensures forall i :: 6 <= i < 9 ==> RoleSkills[i].1 != [] && NoDuplicates(RoleSkills[i].1)
  {
  }

  lemma RoleSkillListsProper9()
    ensures forall i :: 9 <= i < 12 ==> RoleSkills[i].1 != [] && NoDuplicates(RoleSkills[i].1)
  {
  }

  lemma RoleSkillListsProper12()
    ensures forall i :: 12 <= i < 15 ==> RoleSkills[i].1 != [] && NoDuplicates(RoleSkills[i].1)
  {
  }

  /** Every roadmap belongs to a role of the skill table and has three phases. */
  lemma RoadmapsProper()
    ensures forall i :: 0 <= i < |Roadmaps| ==>
      |Roadmaps[i].1| == 3 && exists j :: 0 <= j < |RoleSkills| && RoleSkills[j].0 == Roadmaps[i].0
  {
    forall i | 0 <= i < |Roadmaps|
      ensures exists j :: 0 <= j < |RoleSkills| && RoleSkills[j].0 == Roadmaps[i].0
    {
      var j := [0, 1, 10, 11, 12, 13, 14][i];
      assert RoleSkills[j].0 == Roadmaps[i].0;
    }
  }

  /** The shortest role key, "QA Engineer", has 11 characters; the shortest
      roadmap key, "Cloud Engineer", has 14. */
  lemma KeyLengths()
    ensures forall j :: 0 <= j < |RoleSkills| ==> |RoleSkills[j].0| >= 11
    ensures forall j :: 0 <= j < |Roadmaps| ==> |Roadmaps[j].0| >= 14
  {
  }

  /** No key of either table is empty. */
  lemma RoleKeysWellFormed()
    ensures KeysWellFormed(RoleSkills)
  {
  }

  // "senior backend developer" equals no key of either table, does not
  // contain the first key of either, "Frontend Developer", and contains the
  // second, "Backend Developer".

  /** No role key has as many characters (24) as "Senior Backend Developer". */
  lemma RoleKeysDiffer(lower: string)
    requires |lower| == 24
    ensures forall j :: 0 <= j < |RoleSkills| ==> Lower(RoleSkills[j].0) != lower
  {
    forall j | 0 <= j < |RoleSkills| ensures |RoleSkills[j].0| != 24 {
    }
  }

  lemma RoadmapKeysDiffer(lower: string)
    requires |lower| == 24
    ensures forall j :: 0 <= j < |Roadmaps| ==> Lower(Roadmaps[j].0) != lower
  {
    forall j | 0 <= j < |Roadmaps| ensures |Roadmaps[j].0| != 24 {
    }
  }

  lemma LeadingRoleKeys()
    ensures RoleSkills[0].0 == "Frontend Developer" && RoleSkills[1].0 == "Backend Developer"
  {
  }

  lemma LeadingRoadmapKeys()
    ensures Roadmaps[0].0 == "Frontend Developer" && Roadmaps[1].0 == "Backend Developer"
  {
  }

  lemma LowerLeadingKeys()
    ensures Lower("Frontend Developer") == "frontend developer"
    ensures Lower("Backend Developer") == "backend developer"
  {
  }

  lemma SeniorBackendSkipsFrontend(lower: string)
    requires lower == "senior backend developer"
    ensures !Contains(lower, "frontend developer")
  {
    NotContainsMissingChar(lower, "frontend developer", 'f');
  }

  lemma SeniorBackendContainsBackend(lower: string)
    requires lower == "senior backend developer"
    ensures Contains(lower, "backend developer")
  {
    assert OccursAt(lower, "backend developer", 7);
    ContainsAt(lower, "backend developer");
  }

  /** Of the roadmap keys, "senior backend developer" equals none, contains
      the second and not the first. */
  lemma SeniorBackendRoadmapKeys(lower: string)
    requires lower == "senior backend developer"
    ensures forall i :: 0 <= i < |Roadmaps| ==> Lower(Roadmaps[i].0) != lower
    ensures Contains(lower, Lower(Roadmaps[1].0))
    ensures forall i :: 0 <= i < 1 ==> !Contains(lower, Lower(Roadmaps[i].0))
  {
    RoadmapKeysDiffer(lower);
    LeadingRoadmapKeys();
    LowerLeadingKeys();
    SeniorBackendSkipsFrontend(lower);
    SeniorBackendContainsBackend(lower);
  }

  /** Every role key has an 'a', an 'i' or a 't'. */
  lemma RoleKeyLetters()
    ensures forall j :: 0 <= j < |RoleSkills| ==>
      'a' in RoleSkills[j].0 || 'i' in RoleSkills[j].0 || 't' in RoleSkills[j].0
  {
  }

  /** So a role with none of those letters in lower case contains no role key. */
  lemma NoRoleKeyWithout(lower: string)
    requires 'a' !in lower && 'i' !in lower && 't' !in lower
    ensures forall j :: 0 <= j < |RoleSkills| ==> !Contains(lower, Lower(RoleSkills[j].0))
  {
    RoleKeyLetters();
    forall j | 0 <= j < |RoleSkills| ensures !Contains(lower, Lower(RoleSkills[j].0)) {
      var k := RoleSkills[j].0;
      var c := if 'a' in k then 'a' else if 'i' in k then 'i' else 't';
      LowerKeeps(k, c);
      NotContainsMissingChar(lower, Lower(k), c);
    }
  }
}
