/** The skill-gap and roadmap logic shared by the three copies of it in the
    repository (`utils/mockApi.ts`, `services/mockBackend.ts` and
    `backend/controllers/skillGapController.js`).  The copies differ only in
    their tables and in a few constants; those are gathered in a `Config`,
    and each copy is one instance of it. */
module SkillGap {
  import opened Text

  datatype Option<T> = None | Some(value: T)

  /** One stage of a learning plan (`RoadmapPhase` in `types.ts`). */
  datatype RoadmapPhase = RoadmapPhase(phase: string, duration: string, topics: seq<string>, description: string)

  /** The body of a skill-gap question (`SkillGapRequest` in `types.ts`). */
  datatype SkillGapRequest = SkillGapRequest(role: string, skills: seq<string>)

  /** The body of a skill-gap answer (`SkillGapResponse` in `types.ts`). */
  datatype SkillGapResponse = SkillGapResponse(
    matchedSkills: seq<string>,
    missingSkills: seq<string>,
    matchPercentage: int,
    recommendations: seq<string>,
    suggestedLearningOrder: seq<string>)

  /** The body of a roadmap answer (`RoadmapResponse` in `types.ts`). */
  datatype RoadmapResponse = RoadmapResponse(role: string, phases: seq<RoadmapPhase>)

  /** A JavaScript object used as a dictionary, in key insertion order, which
      is the order `Object.keys` enumerates it in. */
  type Table<V> = seq<(string, V)>

  /** The fixed recommendation texts of each tier.  `qualified` is the whole
      list for a 100% match; `junior` follows the "Focus on ..." message of the
      51-99% tier; `beginner` stands between the "Start with foundational
      topics" message and the missing-count message of the lowest tier. */
  datatype TierMessages = TierMessages(qualified: seq<string>, junior: seq<string>, beginner: seq<string>)

  /** The generated roadmap for an unknown role: the first phase is labelled
      with the role, the later phases are fixed. */
  datatype GenericRoadmap = GenericRoadmap(
    firstDuration: string, firstTopics: seq<string>, firstDescription: string,
    laterPhases: seq<RoadmapPhase>)

  /** Everything in which the copies' analyses differ. */
  datatype Config = Config(
    aliases: map<string, string>,
    roleSkills: Table<seq<string>>,
    fallbackSkills: seq<string>,
    tiers: TierMessages)

  /** Everything in which the copies' roadmap lookups differ. */
  datatype RoadmapConfig = RoadmapConfig(
    roadmaps: Table<seq<RoadmapPhase>>,
    bySubstring: bool,
    generic: GenericRoadmap)

  /** Every key is a non-empty string, so a key that `find` returns is truthy. */
  predicate KeysWellFormed<V>(table: Table<V>) {
    forall i :: 0 <= i < |table| ==> table[i].0 != ""
  }

  /** What the analysis silently relies on: no key is the empty string, and no
      required-skill list is empty, so the percentage never divides by zero. */
  predicate WellFormed(cfg: Config) {
    && KeysWellFormed(cfg.roleSkills)
    && (forall i :: 0 <= i < |cfg.roleSkills| ==> cfg.roleSkills[i].1 != [])
    && cfg.fallbackSkills != []
  }

  // ---------------------------------------------------------------------
  // Skill normalisation
  // ---------------------------------------------------------------------

  /** `normalizeSkill`: the alias of the trimmed, lower-cased skill when the
      table has a (truthy, i.e. non-empty) one, and otherwise the trimmed skill
      in its own casing. */
  function NormalizeSkill(aliases: map<string, string>, skill: string): (r: string)
    ensures r == Trim(skill) || r in aliases.Values
    ensures Lower(Trim(skill)) in aliases && aliases[Lower(Trim(skill))] != "" ==> r == aliases[Lower(Trim(skill))]
    ensures Lower(Trim(skill)) !in aliases || aliases[Lower(Trim(skill))] == "" ==> r == Trim(skill)
  {
    var lower := Lower(Trim(skill));
    if lower in aliases && aliases[lower] != "" then aliases[lower] else Trim(skill)
  }

  /** An alias table is closed when every value is already trimmed and, looked
      up again in lower case, is either no key or an alias of itself. */
  ghost predicate AliasesClosed(aliases: map<string, string>) {
    forall k :: k in aliases ==> ClosedValue(aliases, aliases[k])
  }

  ghost predicate ClosedValue(aliases: map<string, string>, v: string) {
    IsTrimmed(v) && (Lower(v) in aliases ==> aliases[Lower(v)] == v)
  }

  /** Over a closed table normalisation is idempotent. */
  lemma NormalizeIdempotent(aliases: map<string, string>, skill: string)
    requires AliasesClosed(aliases)
    ensures NormalizeSkill(aliases, NormalizeSkill(aliases, skill)) == NormalizeSkill(aliases, skill)
  {
    var lower := Lower(Trim(skill));
    if lower in aliases && aliases[lower] != "" {
      var v := aliases[lower];
      assert ClosedValue(aliases, v);
      TrimOfTrimmed(v);
    } else {
      TrimIdempotent(skill);
    }
  }

  /** Skills that agree up to surrounding white space and case normalise to the
      same alias whenever one of them is a known alias. */
  lemma NormalizeInsensitive(aliases: map<string, string>, a: string, b: string)
    requires Lower(Trim(a)) == Lower(Trim(b))
    requires Lower(Trim(a)) in aliases && aliases[Lower(Trim(a))] != ""
    ensures NormalizeSkill(aliases, a) == NormalizeSkill(aliases, b) == aliases[Lower(Trim(a))]
  {
  }

  // ---------------------------------------------------------------------
  // Role resolution
  // ---------------------------------------------------------------------

  /** The two `find` predicates: the key equals the role ignoring case, or the
      lower-cased role includes the lower-cased key. */
  datatype MatchMode = Exact | Substring

  predicate KeyMatches(mode: MatchMode, key: string, role: string) {
    match mode
    case Exact => Lower(key) == Lower(role)
    case Substring => Contains(Lower(role), Lower(key))
  }

  /** `Object.keys(table).find(...)`: the position of the first key, in table
      order, that matches. */
  function FindKey<V>(table: Table<V>, mode: MatchMode, role: string): (r: Option<nat>)
    ensures r.Some? ==> r.value < |table| && KeyMatches(mode, table[r.value].0, role)
    ensures r.Some? ==> forall j :: 0 <= j < r.value ==> !KeyMatches(mode, table[j].0, role)
    ensures r.None? <==> forall j :: 0 <= j < |table| ==> !KeyMatches(mode, table[j].0, role)
    decreases |table|
  {
    if |table| == 0 then None
    else if KeyMatches(mode, table[0].0, role) then Some(0)
    else match FindKey(table[1..], mode, role)
      case None => None
      case Some(i) => Some(i + 1)
  }

  /** The exact search, then (when `bySubstring`) the substring search. */
  function ResolveRole<V>(table: Table<V>, role: string, bySubstring: bool): (r: Option<nat>)
    ensures r.Some? ==>
      && r.value < |table|
      && (KeyMatches(Exact, table[r.value].0, role) || (bySubstring && KeyMatches(Substring, table[r.value].0, role)))
    ensures r.None? <==>
      forall j :: 0 <= j < |table| ==>
        (!KeyMatches(Exact, table[j].0, role) && (bySubstring ==> !KeyMatches(Substring, table[j].0, role)))
  {
    var exact := FindKey(table, Exact, role);
    if exact.Some? || !bySubstring then exact else FindKey(table, Substring, role)
  }

  /** An exact match always wins, however many keys are substrings of the
      role and wherever they stand in the table; only without one is the first
      contained key taken, and only when substring search is on. */
  lemma ResolveRoleOrder<V>(table: Table<V>, role: string, bySubstring: bool)
    ensures (exists j :: 0 <= j < |table| && Lower(table[j].0) == Lower(role)) ==>
      var r := ResolveRole(table, role, bySubstring);
      r.Some? && r.value < |table| && Lower(table[r.value].0) == Lower(role)
      && forall j :: 0 <= j < r.value ==> Lower(table[j].0) != Lower(role)
    ensures (forall j :: 0 <= j < |table| ==> Lower(table[j].0) != Lower(role)) ==>
      ResolveRole(table, role, bySubstring) == (if bySubstring then FindKey(table, Substring, role) else None)
  {
    if exists j :: 0 <= j < |table| && Lower(table[j].0) == Lower(role) {
      var j :| 0 <= j < |table| && Lower(table[j].0) == Lower(role);
      assert KeyMatches(Exact, table[j].0, role);
    }
  }

  /** Resolution only sees the role in lower case. */
  lemma {:induction false} FindKeyCaseInsensitive<V>(table: Table<V>, mode: MatchMode, a: string, b: string)
    requires Lower(a) == Lower(b)
    ensures FindKey(table, mode, a) == FindKey(table, mode, b)
    decreases |table|
  {
    if |table| > 0 {
      FindKeyCaseInsensitive(table[1..], mode, a, b);
    }
  }

  lemma ResolveRoleCaseInsensitive<V>(table: Table<V>, a: string, b: string, bySubstring: bool)
    requires Lower(a) == Lower(b)
    ensures ResolveRole(table, a, bySubstring) == ResolveRole(table, b, bySubstring)
  {
    FindKeyCaseInsensitive(table, Exact, a, b);
    FindKeyCaseInsensitive(table, Substring, a, b);
  }

  /** A role whose lower-cased form contains no key of the table, and equals
      none, resolves to nothing. */
  lemma UnresolvedRole<V>(table: Table<V>, role: string, bySubstring: bool)
    ensures (forall j :: 0 <= j < |table| ==> !Contains(Lower(role), Lower(table[j].0))) ==>
      ResolveRole(table, role, bySubstring) == None
  {
    forall j | 0 <= j < |table| && Lower(table[j].0) == Lower(role)
      ensures Contains(Lower(role), Lower(table[j].0))
    {
      ContainsSelf(Lower(role));
    }
  }

  /** The skills a role is measured against: those of the resolved key, or the
      fallback list (`requiredSkills`). */
  function RequiredSkills(cfg: Config, role: string): (r: seq<string>)
    requires WellFormed(cfg)
    ensures r != []
    ensures r == cfg.fallbackSkills || exists i :: 0 <= i < |cfg.roleSkills| && r == cfg.roleSkills[i].1
  {
    match ResolveRole(cfg.roleSkills, role, true)
    case Some(i) => cfg.roleSkills[i].1
    case None => cfg.fallbackSkills
  }

  /** The fallback list is used exactly when the role neither equals nor
      contains any key; otherwise the list of the first equal key, or failing
      that of the first contained key, is used. */
  lemma RequiredSkillsResolution(cfg: Config, role: string)
    requires WellFormed(cfg)
    ensures (forall j :: 0 <= j < |cfg.roleSkills| ==> !Contains(Lower(role), Lower(cfg.roleSkills[j].0))) ==>
      RequiredSkills(cfg, role) == cfg.fallbackSkills
    ensures forall j ::
      (&& 0 <= j < |cfg.roleSkills| && Lower(cfg.roleSkills[j].0) == Lower(role)
       && (forall i :: 0 <= i < j ==> Lower(cfg.roleSkills[i].0) != Lower(role))) ==>
      RequiredSkills(cfg, role) == cfg.roleSkills[j].1
    ensures forall j ::
      (&& 0 <= j < |cfg.roleSkills|
       && (forall i :: 0 <= i < |cfg.roleSkills| ==> Lower(cfg.roleSkills[i].0) != Lower(role))
       && Contains(Lower(role), Lower(cfg.roleSkills[j].0))
       && (forall i :: 0 <= i < j ==> !Contains(Lower(role), Lower(cfg.roleSkills[i].0)))) ==>
      RequiredSkills(cfg, role) == cfg.roleSkills[j].1
  {
    UnresolvedRole(cfg.roleSkills, role, true);
    forall j |
      (&& 0 <= j < |cfg.roleSkills| && Lower(cfg.roleSkills[j].0) == Lower(role)
       && (forall i :: 0 <= i < j ==> Lower(cfg.roleSkills[i].0) != Lower(role)))
      ensures RequiredSkills(cfg, role) == cfg.roleSkills[j].1
    {
      assert KeyMatches(Exact, cfg.roleSkills[j].0, role);
      FirstMatchFound(cfg.roleSkills, Exact, role, j);
    }
    forall j |
      (&& 0 <= j < |cfg.roleSkills|
       && (forall i :: 0 <= i < |cfg.roleSkills| ==> Lower(cfg.roleSkills[i].0) != Lower(role))
       && Contains(Lower(role), Lower(cfg.roleSkills[j].0))
       && (forall i :: 0 <= i < j ==> !Contains(Lower(role), Lower(cfg.roleSkills[i].0))))
      ensures RequiredSkills(cfg, role) == cfg.roleSkills[j].1
    {
      assert KeyMatches(Substring, cfg.roleSkills[j].0, role);
      assert FindKey(cfg.roleSkills, Exact, role).None?;
      FirstMatchFound(cfg.roleSkills, Substring, role, j);
    }
  }

  /** The search finds the first matching key. */
  lemma FirstMatchFound<V>(table: Table<V>, mode: MatchMode, role: string, j: nat)
    requires j < |table| && KeyMatches(mode, table[j].0, role)
    requires forall i :: 0 <= i < j ==> !KeyMatches(mode, table[i].0, role)
    ensures FindKey(table, mode, role) == Some(j)
  {
    var r := FindKey(table, mode, role);
    assert r.Some?;
    assert !(r.value < j);
    assert !(j < r.value);
  }

  // ---------------------------------------------------------------------
  // Matching
  // ---------------------------------------------------------------------

  /** Some skill of the user normalises to `key` once lower-cased. */
  ghost predicate HasSkillKey(aliases: map<string, string>, skills: seq<string>, key: string) {
    exists u :: u in skills && key == Lower(NormalizeSkill(aliases, u))
  }

  /** `skills.map(normalizeSkill).map(s => s.toLowerCase())`: the user's skills
      as comparison keys. */
  function UserSkillKeys(aliases: map<string, string>, skills: seq<string>): (r: seq<string>)
    ensures |r| == |skills|
    ensures forall x :: x in r <==> HasSkillKey(aliases, skills, x)
  {
    var r := seq(|skills|, i requires 0 <= i < |skills| => Lower(NormalizeSkill(aliases, skills[i])));
    assert forall i :: 0 <= i < |skills| ==> r[i] == Lower(NormalizeSkill(aliases, skills[i]));
    r
  }

  /** A required skill is matched when its normalised, lower-cased form is one
      of the user's keys. */
  predicate IsMatched(aliases: map<string, string>, required: string, userKeys: seq<string>) {
    Lower(NormalizeSkill(aliases, required)) in userKeys
  }

  /** `a` is `b` with some elements left out, in `b`'s order. */
  ghost predicate IsSubsequence(a: seq<string>, b: seq<string>)
    decreases |b|
  {
    a == [] || (b != [] && if a[0] == b[0] then IsSubsequence(a[1..], b[1..]) else IsSubsequence(a, b[1..]))
  }

  /** `matchedSkills`: the required skills, in table order and in their table
      spelling, that are matched. */
  function Matched(aliases: map<string, string>, required: seq<string>, userKeys: seq<string>): (r: seq<string>)
    ensures forall x :: x in r <==> x in required && IsMatched(aliases, x, userKeys)
    ensures IsSubsequence(r, required)
    decreases |required|
  {
    if required == [] then []
    else
      var rest := Matched(aliases, required[1..], userKeys);
      assert forall x :: x in required <==> x == required[0] || x in required[1..];
      if IsMatched(aliases, required[0], userKeys) then [required[0]] + rest else rest
  }

  /** `missingSkills`: the required skills, in table order and in their table
      spelling, that are not matched. */
  function Missing(aliases: map<string, string>, required: seq<string>, userKeys: seq<string>): (r: seq<string>)
    ensures forall x :: x in r <==> x in required && !IsMatched(aliases, x, userKeys)
    ensures IsSubsequence(r, required)
    decreases |required|
  {
    if required == [] then []
    else
      var rest := Missing(aliases, required[1..], userKeys);
      assert forall x :: x in required <==> x == required[0] || x in required[1..];
      if !IsMatched(aliases, required[0], userKeys) then [required[0]] + rest else rest
  }

  /** Matched and missing split the required list: every entry, counted with
      its multiplicity, lands in exactly one of them. */
  lemma Partition(aliases: map<string, string>, required: seq<string>, userKeys: seq<string>)
    ensures multiset(Matched(aliases, required, userKeys)) + multiset(Missing(aliases, required, userKeys)) == multiset(required)
    ensures |Matched(aliases, required, userKeys)| + |Missing(aliases, required, userKeys)| == |required|
  {
    var m, x := Matched(aliases, required, userKeys), Missing(aliases, required, userKeys);
    PartitionMultiset(aliases, required, userKeys);
    assert |multiset(m) + multiset(x)| == |multiset(required)|;
  }

  lemma {:induction false} PartitionMultiset(aliases: map<string, string>, required: seq<string>, userKeys: seq<string>)
    ensures multiset(Matched(aliases, required, userKeys)) + multiset(Missing(aliases, required, userKeys)) == multiset(required)
    decreases |required|
  {
    if required != [] {
      var h, t := required[0], required[1..];
      var m, x := Matched(aliases, t, userKeys), Missing(aliases, t, userKeys);
      PartitionMultiset(aliases, t, userKeys);
      assert multiset(required) == multiset{h} + multiset(t) by {
        assert required == [h] + t;
      }
      if IsMatched(aliases, h, userKeys) {
        assert Matched(aliases, required, userKeys) == [h] + m;
        assert Missing(aliases, required, userKeys) == x;
        assert multiset([h] + m) == multiset{h} + multiset(m);
      } else {
        assert Matched(aliases, required, userKeys) == m;
        assert Missing(aliases, required, userKeys) == [h] + x;
        assert multiset([h] + x) == multiset{h} + multiset(x);
      }
    }
  }

  predicate NoDuplicates(s: seq<string>) {
    forall i, j :: 0 <= i < j < |s| ==> s[i] != s[j]
  }

  /** A subsequence of a list without duplicates has none either. */
  lemma {:induction false} SubsequenceNoDuplicates(a: seq<string>, b: seq<string>)
    requires IsSubsequence(a, b) && NoDuplicates(b)
    ensures NoDuplicates(a)
    decreases |b|
  {
    if a != [] {
      if a[0] == b[0] {
        SubsequenceNoDuplicates(a[1..], b[1..]);
        SubsequenceElements(a[1..], b[1..]);
        forall j | 0 < j < |a| ensures a[0] != a[j] {
          assert a[j] == a[1..][j - 1];
          assert a[j] in b[1..];
          var k :| 0 <= k < |b| - 1 && b[1..][k] == a[j];
          assert b[k + 1] == a[j];
        }
      } else {
        SubsequenceNoDuplicates(a, b[1..]);
      }
    }
  }

  lemma {:induction false} SubsequenceElements(a: seq<string>, b: seq<string>)
    requires IsSubsequence(a, b)
    ensures forall x :: x in a ==> x in b
    decreases |b|
  {
    if a != [] {
      if a[0] == b[0] {
        SubsequenceElements(a[1..], b[1..]);
        assert a == [a[0]] + a[1..];
      } else {
        SubsequenceElements(a, b[1..]);
      }
    }
  }

  /** A required list without duplicates gives matched and missing lists
      without duplicates, and no skill is both matched and missing. */
  lemma DistinctPartition(aliases: map<string, string>, required: seq<string>, userKeys: seq<string>)
    requires NoDuplicates(required)
    ensures NoDuplicates(Matched(aliases, required, userKeys))
    ensures NoDuplicates(Missing(aliases, required, userKeys))
    ensures forall x :: x in Matched(aliases, required, userKeys) ==> x !in Missing(aliases, required, userKeys)
  {
    SubsequenceNoDuplicates(Matched(aliases, required, userKeys), required);
    SubsequenceNoDuplicates(Missing(aliases, required, userKeys), required);
  }

  /** Only which keys the user has matters, not their order or multiplicity. */
  lemma {:induction false} MatchedDependsOnKeySet(aliases: map<string, string>, required: seq<string>, u1: seq<string>, u2: seq<string>)
    requires forall x :: x in u1 <==> x in u2
    ensures Matched(aliases, required, u1) == Matched(aliases, required, u2)
    ensures Missing(aliases, required, u1) == Missing(aliases, required, u2)
    decreases |required|
  {
    if required != [] {
      MatchedDependsOnKeySet(aliases, required[1..], u1, u2);
    }
  }

  /** With no user skills nothing is matched and everything is missing. */
  lemma NothingMatchedWithoutSkills(aliases: map<string, string>, required: seq<string>)
    ensures Matched(aliases, required, []) == []
    ensures Missing(aliases, required, []) == required
  {
    var m := Matched(aliases, required, []);
    assert forall x :: x !in m;
    AllMissingWithoutSkills(aliases, required);
  }

  lemma {:induction false} AllMissingWithoutSkills(aliases: map<string, string>, required: seq<string>)
    ensures Missing(aliases, required, []) == required
    decreases |required|
  {
    if required != [] {
      AllMissingWithoutSkills(aliases, required[1..]);
    }
  }

  // ---------------------------------------------------------------------
  // Percentage
  // ---------------------------------------------------------------------

  /** `Math.round(m / n * 100)` computed exactly: the nearest integer to
      100m/n, halves rounded up.  The source divides and multiplies in double
      precision; the two agree for every `n` below 40 (23/40 is the first
      ratio where the double product falls just short of a half). */
  function RoundPercent(m: nat, n: nat): (p: int)
    requires 0 < n && m <= n
    ensures 0 <= p <= 100
    ensures 2 * n * p <= 200 * m + n < 2 * n * (p + 1)
  {
    var a, d := 200 * m + n, 2 * n;
    var p := a / d;
    DivBounds(a, d);
    Distribute(d, p);
    DivBelow(a, d, 101);
    p
  }

  lemma DivBelow(a: nat, d: nat, k: int)
    requires 0 < d && a < d * k
    ensures a / d < k
  {
    DivBounds(a, d);
    if a / d >= k {
      MulMonotone(d, k, a / d);
    }
  }

  lemma MulMonotone(c: int, a: int, b: int)
    requires c >= 0 && a <= b
    ensures c * a <= c * b
  {
    assert c * b - c * a == c * (b - a);
  }

  lemma DivBounds(a: nat, d: nat)
    requires 0 < d
    ensures d * (a / d) <= a < d * (a / d) + d
  {
  }

  lemma Distribute(d: int, q: int)
    ensures d * (q + 1) == d * q + d
  {
  }

  /** The percentage is 0 exactly when fewer than one in 200 skills match, and
      100 exactly when at most one in 200 is missing; so for lists shorter than
      200 it is 100 exactly when nothing is missing, and 0 when nothing is
      matched. */
  lemma RoundPercentExtremes(m: nat, n: nat)
    requires 0 < n && m <= n
    ensures RoundPercent(m, n) == 0 <==> 200 * m < n
    ensures RoundPercent(m, n) == 100 <==> 200 * m >= 199 * n
    ensures n < 200 ==> (RoundPercent(m, n) == 100 <==> m == n)
    ensures m == 0 ==> RoundPercent(m, n) == 0
    ensures RoundPercent(m, n) < 100 ==> m < n
  {
    var p := RoundPercent(m, n);
    var d := 2 * n;
    Distribute(d, p);
    if p >= 1 {
      MulMonotone(d, 1, p);
    }
    if p <= 99 {
      MulMonotone(d, p + 1, 100);
    }
  }

  // ---------------------------------------------------------------------
  // Recommendations
  // ---------------------------------------------------------------------

  /** `${missingSkills[0]}` renders a missing element as "undefined". */
  function ElementText(s: seq<string>, i: nat): string {
    if i < |s| then s[i] else "undefined"
  }

  /** `` `Focus on ${missingSkills[0]} and ${missingSkills[1] || 'advanced concepts'}.` `` */
  function FocusMessage(missing: seq<string>): string {
    var second := if |missing| > 1 && missing[1] != "" then missing[1] else "advanced concepts";
    "Focus on " + ElementText(missing, 0) + " and " + second + "."
  }

  /** `` `Start with foundational topics: ${missingSkills.slice(0, 2).join(', ')}` `` */
  function FoundationsMessage(missing: seq<string>): string {
    "Start with foundational topics: " + Join(missing[..if |missing| < 2 then |missing| else 2], ", ")
  }

  /** `` `Focus on ${missingSkills.length} missing core skills` `` */
  function CountMessage(missing: seq<string>): string {
    "Focus on " + NatToString(|missing|) + " missing core skills"
  }

  /** The recommendation list of each tier: 100, above 50, the rest. */
  function Recommendations(tiers: TierMessages, percentage: int, missing: seq<string>): seq<string> {
    if percentage == 100 then tiers.qualified
    else if percentage > 50 then [FocusMessage(missing)] + tiers.junior
    else [FoundationsMessage(missing)] + tiers.beginner + [CountMessage(missing)]
  }

  /** How many messages each tier holds. */
  lemma RecommendationCount(tiers: TierMessages, percentage: int, missing: seq<string>)
    ensures |Recommendations(tiers, percentage, missing)| ==
      if percentage == 100 then |tiers.qualified|
      else if percentage > 50 then 1 + |tiers.junior|
      else 2 + |tiers.beginner|
  {
  }

  // ---------------------------------------------------------------------
  // The analysis
  // ---------------------------------------------------------------------

  /** The `recommendations.push(...)` sequence of `analyzeSkillGap`. */
  method PushRecommendations(tiers: TierMessages, matchPercentage: int, missingSkills: seq<string>)
    returns (recommendations: seq<string>)
    ensures recommendations == Recommendations(tiers, matchPercentage, missingSkills)
  {
    recommendations := [];
    if matchPercentage == 100 {
      recommendations := recommendations + tiers.qualified;
      assert recommendations == tiers.qualified;
    } else if matchPercentage > 50 {
      recommendations := recommendations + [FocusMessage(missingSkills)];
      recommendations := recommendations + tiers.junior;
      assert recommendations == [FocusMessage(missingSkills)] + tiers.junior;
    } else {
      recommendations := recommendations + [FoundationsMessage(missingSkills)];
      recommendations := recommendations + tiers.beginner;
      recommendations := recommendations + [CountMessage(missingSkills)];
      assert recommendations == [FoundationsMessage(missingSkills)] + tiers.beginner + [CountMessage(missingSkills)];
    }
  }

  /** What `analyzeSkillGap` answers for `role` and the user's `skills`. */
  function Analysis(cfg: Config, role: string, skills: seq<string>): (r: SkillGapResponse)
    requires WellFormed(cfg)
  {
    var required := RequiredSkills(cfg, role);
    var userKeys := UserSkillKeys(cfg.aliases, skills);
    var matched := Matched(cfg.aliases, required, userKeys);
    var missing := Missing(cfg.aliases, required, userKeys);
    Partition(cfg.aliases, required, userKeys);
    var percentage := RoundPercent(|matched|, |required|);
    SkillGapResponse(matched, missing, percentage, Recommendations(cfg.tiers, percentage, missing), missing)
  }

  /** `analyzeSkillGap` as the source runs it: the role key is searched for,
      and searched for again by substring when the first search fails; the
      recommendations are pushed one by one. */
  method AnalyzeSkillGap(cfg: Config, role: string, skills: seq<string>) returns (r: SkillGapResponse)
    requires WellFormed(cfg)
    ensures r == Analysis(cfg, role, skills)
  {
    var targetKey := FindKey(cfg.roleSkills, Exact, role);
    if targetKey.None? {
      targetKey := FindKey(cfg.roleSkills, Substring, role);
    }
    var requiredSkills := if targetKey.Some? then cfg.roleSkills[targetKey.value].1 else cfg.fallbackSkills;
    assert requiredSkills == RequiredSkills(cfg, role);
    var userSkills := UserSkillKeys(cfg.aliases, skills);
    var matchedSkills := Matched(cfg.aliases, requiredSkills, userSkills);
    var missingSkills := Missing(cfg.aliases, requiredSkills, userSkills);
    Partition(cfg.aliases, requiredSkills, userSkills);
    var matchPercentage := RoundPercent(|matchedSkills|, |requiredSkills|);
    var recommendations := PushRecommendations(cfg.tiers, matchPercentage, missingSkills);
    r := SkillGapResponse(matchedSkills, missingSkills, matchPercentage, recommendations, missingSkills);
  }

  /** The lists an analysis answers with: matched and missing partition the
      required skills of the resolved role, in table order, in the table's
      spelling; a required skill is matched exactly when some user skill has
      the same normalised, lower-cased form; the learning order is the missing
      list. */
  lemma AnalysisLists(cfg: Config, role: string, skills: seq<string>)
    requires WellFormed(cfg)
    ensures var r := Analysis(cfg, role, skills);
      var required := RequiredSkills(cfg, role);
      && IsSubsequence(r.matchedSkills, required)
      && IsSubsequence(r.missingSkills, required)
      && multiset(r.matchedSkills) + multiset(r.missingSkills) == multiset(required)
      && (forall x :: x in r.matchedSkills <==>
            (x in required && HasSkillKey(cfg.aliases, skills, Lower(NormalizeSkill(cfg.aliases, x)))))
      && (forall x :: x in r.missingSkills <==>
            (x in required && !HasSkillKey(cfg.aliases, skills, Lower(NormalizeSkill(cfg.aliases, x)))))
      && r.suggestedLearningOrder == r.missingSkills
  {
    var required := RequiredSkills(cfg, role);
    Partition(cfg.aliases, required, UserSkillKeys(cfg.aliases, skills));
  }

  /** The percentage is the rounded share of matched required skills; it is 0
      without user skills (and then everything is missing), and, for required
      lists shorter than 200, 100 exactly when nothing is missing. */
  lemma AnalysisPercentage(cfg: Config, role: string, skills: seq<string>)
    requires WellFormed(cfg)
    ensures var r := Analysis(cfg, role, skills);
      var n := |RequiredSkills(cfg, role)|;
      && 0 <= r.matchPercentage <= 100
      && 2 * n * r.matchPercentage <= 200 * |r.matchedSkills| + n < 2 * n * (r.matchPercentage + 1)
      && (n < 200 ==> (r.matchPercentage == 100 <==> r.missingSkills == []))
      && (r.matchPercentage < 100 ==> r.missingSkills != [])
      && (skills == [] ==> r.matchPercentage == 0 && r.matchedSkills == [] && r.missingSkills == RequiredSkills(cfg, role))
  {
    var required := RequiredSkills(cfg, role);
    var userKeys := UserSkillKeys(cfg.aliases, skills);
    var r := Analysis(cfg, role, skills);
    assert r.matchedSkills == Matched(cfg.aliases, required, userKeys);
    assert r.missingSkills == Missing(cfg.aliases, required, userKeys);
    Partition(cfg.aliases, required, userKeys);
    RoundPercentExtremes(|r.matchedSkills|, |required|);
    if skills == [] {
      assert userKeys == [];
      NothingMatchedWithoutSkills(cfg.aliases, required);
    }
  }

  /** The recommendation tiers.  Below 100% something is always missing, so
      the "Focus on" message always names a real skill, and the foundational
      message names the first one or two missing skills. */
  lemma AnalysisRecommendations(cfg: Config, role: string, skills: seq<string>)
    requires WellFormed(cfg)
    ensures var r := Analysis(cfg, role, skills);
      var missing := r.missingSkills;
      && (r.matchPercentage == 100 ==> r.recommendations == cfg.tiers.qualified)
      && (50 < r.matchPercentage < 100 ==>
            && |missing| > 0
            && r.recommendations == ["Focus on " + missing[0] + " and "
                 + (if |missing| > 1 && missing[1] != "" then missing[1] else "advanced concepts") + "."]
                 + cfg.tiers.junior)
      && (r.matchPercentage <= 50 ==>
            && |missing| > 0
            && r.recommendations == ["Start with foundational topics: "
                 + (if |missing| == 1 then missing[0] else missing[0] + ", " + missing[1])]
                 + cfg.tiers.beginner
                 + ["Focus on " + NatToString(|missing|) + " missing core skills"])
  {
    AnalysisPercentage(cfg, role, skills);
    var r := Analysis(cfg, role, skills);
    RecommendationTexts(cfg.tiers, r.matchPercentage, r.missingSkills);
  }

  /** The messages of each tier, spelled out, when something is missing
      below 100%. */
  lemma RecommendationTexts(tiers: TierMessages, p: int, missing: seq<string>)
    requires p < 100 ==> missing != []
    ensures p == 100 ==> Recommendations(tiers, p, missing) == tiers.qualified
    ensures 50 < p < 100 ==>
      Recommendations(tiers, p, missing) == ["Focus on " + missing[0] + " and "
        + (if |missing| > 1 && missing[1] != "" then missing[1] else "advanced concepts") + "."]
        + tiers.junior
    ensures p <= 50 ==>
      Recommendations(tiers, p, missing) == ["Start with foundational topics: "
        + (if |missing| == 1 then missing[0] else missing[0] + ", " + missing[1])]
        + tiers.beginner
        + ["Focus on " + NatToString(|missing|) + " missing core skills"]
  {
    if p < 100 {
      FocusText(missing);
      FoundationsText(missing);
    }
  }

  lemma FocusText(missing: seq<string>)
    requires missing != []
    ensures FocusMessage(missing) == "Focus on " + missing[0] + " and "
      + (if |missing| > 1 && missing[1] != "" then missing[1] else "advanced concepts") + "."
  {
  }

  lemma FoundationsText(missing: seq<string>)
    requires missing != []
    ensures FoundationsMessage(missing) == "Start with foundational topics: "
      + (if |missing| == 1 then missing[0] else missing[0] + ", " + missing[1])
  {
    if |missing| >= 2 {
      assert missing[..2] == [missing[0], missing[1]];
      assert missing[..2][1..] == [missing[1]];
    } else {
      assert missing[..1] == [missing[0]];
    }
  }

  /** Permuting or repeating the user's skills, or replacing one by another of
      the same normalised, lower-cased form, changes nothing. */
  lemma AnalysisSkillSetOnly(cfg: Config, role: string, s1: seq<string>, s2: seq<string>)
    requires WellFormed(cfg)
    requires forall x :: HasSkillKey(cfg.aliases, s1, x) <==> HasSkillKey(cfg.aliases, s2, x)
    ensures Analysis(cfg, role, s1) == Analysis(cfg, role, s2)
  {
    MatchedDependsOnKeySet(cfg.aliases, RequiredSkills(cfg, role),
      UserSkillKeys(cfg.aliases, s1), UserSkillKeys(cfg.aliases, s2));
  }

  /** Two single skills with the same normalised, lower-cased form give the
      same analysis. */
  lemma AnalysisSameSkill(cfg: Config, role: string, a: string, b: string)
    requires WellFormed(cfg)
    requires Lower(NormalizeSkill(cfg.aliases, a)) == Lower(NormalizeSkill(cfg.aliases, b))
    ensures Analysis(cfg, role, [a]) == Analysis(cfg, role, [b])
  {
    forall x ensures HasSkillKey(cfg.aliases, [a], x) <==> HasSkillKey(cfg.aliases, [b], x) {
      assert a in [a] && b in [b];
    }
    AnalysisSkillSetOnly(cfg, role, [a], [b]);
  }

  lemma AnalysisPermutationInvariant(cfg: Config, role: string, s1: seq<string>, s2: seq<string>)
    requires WellFormed(cfg)
    requires forall u :: u in s1 <==> u in s2
    ensures Analysis(cfg, role, s1) == Analysis(cfg, role, s2)
  {
    AnalysisSkillSetOnly(cfg, role, s1, s2);
  }

  /** No two entries of a required list share a comparison key. */
  ghost predicate KeysDistinct(aliases: map<string, string>, xs: seq<string>) {
    forall i, j :: 0 <= i < j < |xs| ==> SkillKey(aliases, xs[i]) != SkillKey(aliases, xs[j])
  }

  /** The comparison key of a skill: normalised, then lower-cased. */
  function SkillKey(aliases: map<string, string>, skill: string): string {
    Lower(NormalizeSkill(aliases, skill))
  }

  /** A list without duplicates has as many distinct elements as entries. */
  lemma {:induction false} DistinctCount(xs: seq<string>)
    requires NoDuplicates(xs)
    ensures |set x | x in xs| == |xs|
  {
    if xs != [] {
      var rest := xs[1..];
      assert NoDuplicates(rest);
      DistinctCount(rest);
      assert (set x | x in xs) == {xs[0]} + (set x | x in rest);
      assert xs[0] !in (set x | x in rest);
    }
  }

  /** A subset of a required list whose entries have distinct comparison
      keys matches exactly itself, and as many entries as it has. */
  lemma MatchedSubset(aliases: map<string, string>, required: seq<string>, s: seq<string>)
    requires KeysDistinct(aliases, required)
    requires forall u :: u in s ==> u in required
    ensures forall x :: x in Matched(aliases, required, UserSkillKeys(aliases, s)) <==> x in s
    ensures NoDuplicates(s) ==> |Matched(aliases, required, UserSkillKeys(aliases, s))| == |s|
  {
    var m := Matched(aliases, required, UserSkillKeys(aliases, s));
    forall x | x in m ensures x in s {
      MatchedOnlySubset(aliases, required, s, x);
    }
    forall x | x in s ensures x in m {
      SubsetIsMatched(aliases, required, s, x);
    }
    if NoDuplicates(s) {
      KeysDistinctNoDuplicates(aliases, required);
      DistinctPartition(aliases, required, UserSkillKeys(aliases, s));
      SameElementsSameLength(m, s);
    }
  }

  lemma SubsetIsMatched(aliases: map<string, string>, required: seq<string>, s: seq<string>, x: string)
    requires x in s && x in required
    ensures x in Matched(aliases, required, UserSkillKeys(aliases, s))
  {
    assert HasSkillKey(aliases, s, Lower(NormalizeSkill(aliases, x)));
  }

  /** Two lists without duplicates and with the same elements are equally long. */
  lemma SameElementsSameLength(a: seq<string>, b: seq<string>)
    requires NoDuplicates(a) && NoDuplicates(b)
    requires forall x :: x in a <==> x in b
    ensures |a| == |b|
  {
    assert (set x | x in a) == (set x | x in b);
    DistinctCount(a);
    DistinctCount(b);
  }

  lemma MatchedOnlySubset(aliases: map<string, string>, required: seq<string>, s: seq<string>, x: string)
    requires KeysDistinct(aliases, required)
    requires forall u :: u in s ==> u in required
    requires x in required && HasSkillKey(aliases, s, Lower(NormalizeSkill(aliases, x)))
    ensures x in s
  {
    var u :| u in s && Lower(NormalizeSkill(aliases, x)) == Lower(NormalizeSkill(aliases, u));
    KeyShared(aliases, required, x, u);
  }

  lemma KeyShared(aliases: map<string, string>, xs: seq<string>, x: string, u: string)
    requires KeysDistinct(aliases, xs) && x in xs && u in xs
    requires SkillKey(aliases, x) == SkillKey(aliases, u)
    ensures x == u
  {
    var i :| 0 <= i < |xs| && xs[i] == x;
    var j :| 0 <= j < |xs| && xs[j] == u;
    assert SkillKey(aliases, xs[i]) == SkillKey(aliases, xs[j]);
  }

  lemma KeysDistinctNoDuplicates(aliases: map<string, string>, xs: seq<string>)
    requires KeysDistinct(aliases, xs)
    ensures NoDuplicates(xs)
  {
  }

  /** Given a subset of the required skills whose entries have distinct
      comparison keys, the analysis matches exactly that subset, in table
      order, and the percentage is the share of its size, rounded. */
  lemma AnalysisSubset(cfg: Config, role: string, s: seq<string>)
    requires WellFormed(cfg)
    requires KeysDistinct(cfg.aliases, RequiredSkills(cfg, role))
    requires forall u :: u in s ==> u in RequiredSkills(cfg, role)
    ensures var r := Analysis(cfg, role, s);
      var n := |RequiredSkills(cfg, role)|;
      && IsSubsequence(r.matchedSkills, RequiredSkills(cfg, role))
      && (forall x :: x in r.matchedSkills <==> x in s)
      && (NoDuplicates(s) ==> |r.matchedSkills| == |s| && 2 * n * r.matchPercentage <= 200 * |s| + n < 2 * n * (r.matchPercentage + 1))
  {
    MatchedSubset(cfg.aliases, RequiredSkills(cfg, role), s);
  }

  // ---------------------------------------------------------------------
  // Roadmaps
  // ---------------------------------------------------------------------

  /** `getGenericRoadmap(role)`. */
  function GenericPhases(g: GenericRoadmap, role: string): (r: seq<RoadmapPhase>)
    ensures |r| == 1 + |g.laterPhases| && r[1..] == g.laterPhases
    ensures r[0].phase == "Phase 1: " + role + " Basics"
    ensures r[0].topics == g.firstTopics
  {
    [RoadmapPhase("Phase 1: " + role + " Basics", g.firstDuration, g.firstTopics, g.firstDescription)] + g.laterPhases
  }

  /** `generateRoadmap` (and the roadmap half of the controller): the exact
      search, then, when `bySubstring`, the substring search.  A found key
      answers its stored roadmap, under that key, only when it is non-empty
      (the source tests the key's truthiness); otherwise the generic roadmap
      for the raw role is answered. */
  function GenerateRoadmap(rc: RoadmapConfig, role: string): (r: RoadmapResponse)
    ensures (exists j :: 0 <= j < |rc.roadmaps| && rc.roadmaps[j].0 != ""
               && r == RoadmapResponse(rc.roadmaps[j].0, rc.roadmaps[j].1))
         || r == RoadmapResponse(role, GenericPhases(rc.generic, role))
    ensures role != "" && (exists j :: 0 <= j < |rc.roadmaps| && Lower(rc.roadmaps[j].0) == Lower(role)) ==>
      exists j :: 0 <= j < |rc.roadmaps| && Lower(rc.roadmaps[j].0) == Lower(role)
        && (forall i :: 0 <= i < j ==> Lower(rc.roadmaps[i].0) != Lower(role))
        && r == RoadmapResponse(rc.roadmaps[j].0, rc.roadmaps[j].1)
    ensures (forall j :: 0 <= j < |rc.roadmaps| ==>
              Lower(rc.roadmaps[j].0) != Lower(role)
              && (rc.bySubstring ==> !Contains(Lower(role), Lower(rc.roadmaps[j].0)))) ==>
      r == RoadmapResponse(role, GenericPhases(rc.generic, role))
    ensures role == "" ==> r == RoadmapResponse(role, GenericPhases(rc.generic, role))
  {
    var exact := FindKey(rc.roadmaps, Exact, role);
    if exact.Some? && rc.roadmaps[exact.value].0 != "" then
      assert |Lower(rc.roadmaps[exact.value].0)| == |rc.roadmaps[exact.value].0|;
      RoadmapResponse(rc.roadmaps[exact.value].0, rc.roadmaps[exact.value].1)
    else
      var partial := if rc.bySubstring then FindKey(rc.roadmaps, Substring, role) else None;
      if partial.Some? && rc.roadmaps[partial.value].0 != "" then
        EmptyContainsOnlyEmpty(Lower(role), Lower(rc.roadmaps[partial.value].0));
        RoadmapResponse(rc.roadmaps[partial.value].0, rc.roadmaps[partial.value].1)
      else
        RoadmapResponse(role, GenericPhases(rc.generic, role))
  }

  /** When every stored roadmap has as many phases as the generic one, so has
      every answer. */
  lemma GenerateRoadmapLength(rc: RoadmapConfig, role: string)
    requires forall j :: 0 <= j < |rc.roadmaps| ==> |rc.roadmaps[j].1| == 1 + |rc.generic.laterPhases|
    ensures |GenerateRoadmap(rc, role).phases| == 1 + |rc.generic.laterPhases|
  {
  }

  /** A role that contains no key, and so equals none, gets the generic
      roadmap, whether or not substring search is on. */
  lemma UncontainedRoadmap(rc: RoadmapConfig, role: string)
    ensures (forall j :: 0 <= j < |rc.roadmaps| ==> !Contains(Lower(role), Lower(rc.roadmaps[j].0))) ==>
      GenerateRoadmap(rc, role) == RoadmapResponse(role, GenericPhases(rc.generic, role))
  {
    forall j | 0 <= j < |rc.roadmaps| && Lower(rc.roadmaps[j].0) == Lower(role)
      ensures Contains(Lower(role), Lower(rc.roadmaps[j].0))
    {
      ContainsSelf(Lower(role));
    }
  }

  /** The empty role contains only the empty key. */
  lemma EmptyContainsOnlyEmpty(s: string, k: string)
    ensures s == [] && Contains(s, k) ==> k == []
  {
  }

  /** With no equal key, a role gets the roadmap of the first key it
      contains when substring search is on, provided that key is non-empty;
      an empty first contained key sends it to the generic roadmap. */
  lemma GenerateRoadmapBySubstring(rc: RoadmapConfig, role: string, j: nat)
    requires rc.bySubstring && j < |rc.roadmaps|
    requires forall i :: 0 <= i < |rc.roadmaps| ==> Lower(rc.roadmaps[i].0) != Lower(role)
    requires Contains(Lower(role), Lower(rc.roadmaps[j].0))
    requires forall i :: 0 <= i < j ==> !Contains(Lower(role), Lower(rc.roadmaps[i].0))
    ensures GenerateRoadmap(rc, role) ==
      if rc.roadmaps[j].0 != "" then RoadmapResponse(rc.roadmaps[j].0, rc.roadmaps[j].1)
      else RoadmapResponse(role, GenericPhases(rc.generic, role))
  {
    assert KeyMatches(Substring, rc.roadmaps[j].0, role);
  }
}
