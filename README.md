# Skill-gap analysis: a Dafny model

This project models the decision logic of the Skill-Gap-Analysis-Tool and proves properties of it. The logic answers two questions about a target job role:

- **Skill gap.** Which of the role's required skills the user already has, and what percentage that is. The answer also carries a short list of recommendations.
- **Roadmap.** A phased learning plan for the role.

The repository holds this logic three times:

- `utils/mockApi.ts`, the in-browser copy;
- `services/mockBackend.ts`, an older in-browser copy;
- `backend/controllers/skillGapController.js`, the Express server.

All three read the same kind of tables: skill aliases, required skills per role, and stored roadmaps. The model also covers the skill-chip form of `components/CareerGoalInput.tsx`, where the user types the role and the skills.

## Modules

- **`Text`** (`text.dfy`) models the JavaScript string operations the logic uses:
  - `trim`, including the Unicode white space JavaScript strips;
  - `toLowerCase` and `toUpperCase`, for ASCII letters;
  - `includes` and `join`;
  - the decimal rendering of a count.
- **`SkillGap`** (`skill_gap.dfy`) holds the algorithm once. Two values gather everything in which the copies differ. A `Config` serves the analysis:
  - the alias table;
  - the role table, as an ordered association list, because `Object.keys` enumerates non-numeric keys such as these in insertion order;
  - the fallback skill list;
  - the fixed messages of each recommendation tier.

  A `RoadmapConfig` serves the roadmap lookup:
  - the roadmap table, also an ordered association list;
  - whether the lookup falls back to substring matching;
  - the generic roadmap.

  `analyzeSkillGap` is a method. It reassigns the found key and builds the recommendations in one step per tier. At 100% they are the tier's fixed messages alone. Above 50% they are the "Focus on" message computed from the missing skills, then the tier's fixed messages. Otherwise they are the foundations message computed from the missing skills, then the tier's fixed messages, then the count of missing skills. It is proved equal to the specification function `Analysis`, and the properties are lemmas about `Analysis`.
- **`RoleSkillDatabase`** (`role_skill_database.dfy`) holds the tables of `backend/utils/roleSkillDatabase.js` as constants, with the facts the logic relies on without checking them.

  The tables at `utils/mockApi.ts:6-69` are the same text. Both files are modelled by these constants.
- **`MockApi`**, **`MockBackend`** and **`SkillGapController`** are one `Config` and one `RoadmapConfig` instance each, with that copy's own contracts and scenarios.

  The table portions of `services/mockBackend.ts` are modelled by reusing the shared constants: its 10 roles are the first ten of the shared role table, and its 2 roadmaps the first two of the shared roadmap table, in the same order and with the same contents. Its 13-entry alias table is written out.
- **`CareerGoalForm`** (`career_goal_input.dfy`) models the form as a class.
  - Its three fields are `role`, `skillInput` and `skills`.
  - Each handler is a method whose new state is a pure transition function of the old state.
  - The lemmas prove the invariant: no duplicate, empty or padded skill chips.

### Behaviour followed where a reading could differ

- **The role is not trimmed.** Roles are matched exactly as given, only lower-cased. A role with surrounding spaces does not match a key exactly. It can still match one by substring.
- **Falsy values are treated as the code treats them.**
  - An alias that is the empty string counts as no alias.
  - `missingSkills[1] || 'advanced concepts'` also replaces an empty second skill.
  - An absent `missingSkills[0]` is rendered as `undefined`.
  - A roadmap key that is found but empty counts as not found: the exact search falls through to the substring search, and then to the generic roadmap.
- **`Math.round(m / n * 100)`** is modelled as the exact integer `(200*m + n) / (2*n)`: the nearest integer to 100m/n, halves up. The source computes in double precision. The two agree for every list of fewer than 40 required skills, and every shipped list has 4 to 10.

## Model

| member | source | states |
|---|---|---|
| `Text.Trim` | utils/mockApi.ts:79 | `trim` drops white space only at either end: the result is an infix, everything cut off is white space, and neither end of the result is white space |
| `Text.TrimIdempotent` | utils/mockApi.ts:79 | trimming twice is trimming once |
| `Text.Lower` | utils/mockApi.ts:79 | `toLowerCase` keeps the length and maps every character through ASCII lower-casing |
| `Text.LowerIdempotent` | utils/mockApi.ts:79 | lower-casing twice is lower-casing once |
| `Text.LowerKeeps` | utils/mockApi.ts:79 | a lower-case letter (or any non-letter) of a string is still in its lower-cased form |
| `Text.ContainsAt` | utils/mockApi.ts:89 | `includes` holds exactly when the key occurs at some position |
| `Text.Contains` | utils/mockApi.ts:89 | `includes`, defined as a prefix at the start or an occurrence further on; `ContainsAt` relates it to positions |
| `Text.UpperChar` | services/mockBackend.ts:51 | `toUpperCase` on one character, for ASCII letters |
| `Text.Join` | utils/mockApi.ts:117 | `join` of one element is that element, and of none is the empty string |
| `Text.NatToString` | utils/mockApi.ts:120 | `${n}` is a non-empty string of decimal digits with no leading zero |
| `Text.NatToStringValue` | utils/mockApi.ts:120 | those digits denote `n` |
| `Text.NotContainsLonger` | utils/mockApi.ts:89 | a key longer than the role is never included in it |
| `SkillGap.NormalizeSkill` | utils/mockApi.ts:78-81 | the result is the alias of the lower-cased trimmed skill when that is a key with a non-empty alias, and the trimmed skill otherwise |
| `SkillGap.NormalizeIdempotent` | utils/mockApi.ts:78-81 | over a closed alias table, normalising twice is normalising once |
| `SkillGap.NormalizeInsensitive` | utils/mockApi.ts:78-81 | skills that agree up to case and surrounding white space get the same alias |
| `SkillGap.FindKey` | utils/mockApi.ts:86 | `find` returns the first key in table order that matches, and nothing exactly when no key matches |
| `SkillGap.KeyMatches` | utils/mockApi.ts:86-89 | the two tests of the searches: equal when lower-cased, and lower-cased key included in the lower-cased role |
| `SkillGap.ResolveRole` | utils/mockApi.ts:86-90 | a found key matches exactly, or by substring when that search is on; nothing is found exactly when no key matches either way |
| `SkillGap.ResolveRoleOrder` | utils/mockApi.ts:86-90 | a key equal to the role ignoring case always wins, the first such in order; only without one is the substring search used |
| `SkillGap.FindKeyCaseInsensitive` | utils/mockApi.ts:86-90 | the search depends on the role only through its lower-cased form |
| `SkillGap.ResolveRoleCaseInsensitive` | utils/mockApi.ts:86-90 | so does the exact-then-substring resolution |
| `SkillGap.UnresolvedRole` | utils/mockApi.ts:86-90 | a role containing no key resolves to nothing |
| `SkillGap.RequiredSkills` | utils/mockApi.ts:92 | the required list is never empty, and it is the fallback or one of the table's lists |
| `SkillGap.RequiredSkillsResolution` | utils/mockApi.ts:86-92 | the fallback list is used when the role contains no key; otherwise the list of the first equal key is used, or, without one, the list of the first contained key |
| `SkillGap.UserSkillKeys` | utils/mockApi.ts:94 | one comparison key per user skill; a key is present exactly when some user skill normalises and lower-cases to it |
| `SkillGap.Matched` | utils/mockApi.ts:97-100 | the matched skills are exactly the required skills whose normalised lower-cased form is a user key, kept in table order |
| `SkillGap.Missing` | utils/mockApi.ts:102-105 | the missing skills are exactly the required skills that are not matched, kept in table order |
| `SkillGap.Partition` | utils/mockApi.ts:97-105 | matched and missing together are the required list, counted with multiplicity, and their lengths add up |
| `SkillGap.DistinctPartition` | utils/mockApi.ts:97-105 | a duplicate-free required list gives duplicate-free, disjoint matched and missing lists |
| `SkillGap.MatchedDependsOnKeySet` | utils/mockApi.ts:94-105 | only the set of user keys matters, not their order or how often they occur |
| `SkillGap.NothingMatchedWithoutSkills` | utils/mockApi.ts:94-105 | with no user skills nothing is matched and everything is missing |
| `SkillGap.AllMissingWithoutSkills` | utils/mockApi.ts:100-105 | with no user skills the missing list is the whole required list, in order |
| `SkillGap.RoundPercent` | utils/mockApi.ts:107 | the percentage lies in 0..100 and is the nearest integer to 100m/n, halves rounded up |
| `SkillGap.RoundPercentExtremes` | utils/mockApi.ts:107 | the percentage is 0 exactly when 200m < n and 100 exactly when 200m >= 199n; for lists shorter than 200 it is 100 exactly when every skill matched |
| `SkillGap.ElementText` | utils/mockApi.ts:114 | `${missingSkills[i]}`: the element, or `undefined` past the end |
| `SkillGap.FocusMessage` | utils/mockApi.ts:114 | the "Focus on" template; `FocusText` spells it out |
| `SkillGap.FoundationsMessage` | utils/mockApi.ts:117 | the foundational template; `FoundationsText` spells it out |
| `SkillGap.CountMessage` | utils/mockApi.ts:120 | the missing-count template, with the count rendered by `NatToString` |
| `SkillGap.Recommendations` | utils/mockApi.ts:109-121 | the message list of each tier: 100, above 50, the rest; `RecommendationCount` and `RecommendationTexts` state its shape |
| `SkillGap.RecommendationCount` | utils/mockApi.ts:109-121 | messages per tier: all fixed messages at 100; one plus the junior messages above 50; two plus the beginner messages otherwise |
| `SkillGap.PushRecommendations` | utils/mockApi.ts:109-121 | the successive pushes build exactly the tier's message list |
| `SkillGap.Analysis` | utils/mockApi.ts:83-130 | the response of `analyzeSkillGap` as a function of the configuration, role and skills; `AnalysisLists`, `AnalysisPercentage` and `AnalysisRecommendations` state its properties |
| `SkillGap.AnalyzeSkillGap` | utils/mockApi.ts:83-130 | the imperative analysis (key search, reassigned key, pushes) answers exactly `Analysis` |
| `SkillGap.AnalysisLists` | utils/mockApi.ts:94-129 | both lists are subsequences of the required list that partition it; a required skill is matched exactly when some user skill has its normalised lower-cased form; the learning order is the missing list |
| `SkillGap.AnalysisPercentage` | utils/mockApi.ts:107 | the percentage is the rounded share of matched skills; below 100 something is missing; for lists under 200 it is 100 exactly when nothing is missing; without user skills it is 0 and everything is missing |
| `SkillGap.MatchedSubset` | utils/mockApi.ts:94-99 | when no two required skills share a comparison key and the user lists a subset of them, the matched list holds exactly that subset; with no repeats in the subset, it has the same size |
| `SkillGap.AnalysisSubset` | utils/mockApi.ts:86-107 | under the same condition on the resolved list, the matched list is that subset in table order, and the percentage is the subset's size over the list's size, rounded |
| `SkillGap.AnalysisRecommendations` | utils/mockApi.ts:109-121 | 100 gives the qualified messages; above 50 gives "Focus on" naming the first missing skill and the second one or "advanced concepts"; otherwise the first one or two missing skills, then the missing count |
| `SkillGap.RecommendationTexts` | utils/mockApi.ts:109-121 | whenever something is missing below 100, each tier's list spelled out in full from the template strings |
| `SkillGap.FocusText` | utils/mockApi.ts:114 | the "Focus on" message names the first missing skill and the second one, or "advanced concepts" when there is no non-empty second |
| `SkillGap.FoundationsText` | utils/mockApi.ts:117 | the foundational message joins the first one or two missing skills with ", " |
| `SkillGap.AnalysisSkillSetOnly` | utils/mockApi.ts:94-99 | user skill lists with the same normalised lower-cased keys give the same analysis |
| `SkillGap.AnalysisSameSkill` | utils/mockApi.ts:94-99 | two single skills with the same normalised lower-cased form give the same analysis |
| `SkillGap.AnalysisPermutationInvariant` | utils/mockApi.ts:94-99 | permuting or repeating the user's skills changes nothing |
| `SkillGap.GenericPhases` | utils/mockApi.ts:72-76 | the generic roadmap is one phase labelled "Phase 1: <role> Basics" with the configured topics, then the fixed later phases |
| `SkillGap.GenerateRoadmap` | utils/mockApi.ts:132-146 | the answer is a stored roadmap under its own non-empty key, or the generic roadmap for the raw role; for a non-empty role an equal key wins, the first such; with no equal key, and no contained key when substring search is on, the answer is generic; the empty role always gets the generic roadmap |
| `SkillGap.GenerateRoadmapBySubstring` | utils/mockApi.ts:140-143 | with no equal key, the first contained key's roadmap is answered when that key is non-empty, and the generic roadmap when it is empty |
| `SkillGap.GenerateRoadmapLength` | utils/mockApi.ts:132-146 | when every stored roadmap has as many phases as the generic one, so has every answer |
| `SkillGap.UncontainedRoadmap` | utils/mockApi.ts:132-146 | a role containing no key gets the generic roadmap, with or without substring search |
| `RoleSkillDatabase.AliasKeysCanonical` | backend/utils/roleSkillDatabase.js:2-7 | every alias key is trimmed and lower-case, and every alias value is non-empty |
| `RoleSkillDatabase.AliasKeysReachable` | backend/utils/roleSkillDatabase.js:2-7 | so every alias is reached from any spelling of its key that differs only in case and surrounding white space |
| `RoleSkillDatabase.NormalizeKept` | backend/utils/roleSkillDatabase.js:2-7 | a trimmed skill that is no alias key normalises to itself |
| `RoleSkillDatabase.AliasesAreClosed` | backend/utils/roleSkillDatabase.js:2-7 | every alias value is trimmed, and its lower-case form is no key or a key mapping back to it ("AWS", "C#", "C++") |
| `RoleSkillDatabase.RoleSkillListsProper` | backend/utils/roleSkillDatabase.js:9-25 | every required-skill list is non-empty and duplicate-free |
| `RoleSkillDatabase.RoadmapsProper` | backend/utils/roleSkillDatabase.js:27-63 | every stored roadmap has three phases, and its key is also a role key |
| `RoleSkillDatabase.KeyLengths` | backend/utils/roleSkillDatabase.js:9-63 | role keys have at least 11 characters and roadmap keys at least 14 |
| `RoleSkillDatabase.RoleKeysWellFormed` | backend/utils/roleSkillDatabase.js:9-25 | no role key is empty |
| `RoleSkillDatabase.JsIsJavaScript` | backend/utils/roleSkillDatabase.js:2-7 | any spelling of "js" normalises to "JavaScript", and any spelling of "javascript" is kept as typed, trimmed |
| `RoleSkillDatabase.RoleKeysDiffer` | backend/utils/roleSkillDatabase.js:9-25 | no role key lower-cases to a 24-character string such as "senior backend developer" |
| `RoleSkillDatabase.RoleKeyLetters` | backend/utils/roleSkillDatabase.js:9-25 | every role key has an "a", an "i" or a "t" |
| `RoleSkillDatabase.NoRoleKeyWithout` | backend/utils/roleSkillDatabase.js:9-25 | a lower-cased role without those three letters contains no lower-cased role key |
| `RoleSkillDatabase.SeniorBackendRoadmapKeys` | backend/utils/roleSkillDatabase.js:27-63 | "senior backend developer" equals no roadmap key, contains the second ("Backend Developer") and not the first ("Frontend Developer") |
| `MockApi.CfgWellFormed` | utils/mockApi.ts:6-92 | this copy's tables and fallback meet what the analysis relies on |
| `MockApi.NormalizeSkill` | utils/mockApi.ts:78-81 | the alias of the lower-cased trimmed skill when it is a key, otherwise the trimmed skill in its own case; never padded |
| `MockApi.NormalizeIdempotent` | utils/mockApi.ts:78-81 | normalising an already normalised skill changes nothing |
| `MockApi.AnalyzeSkillGap` | utils/mockApi.ts:83-130 | the analysis; the percentage is in 0..100; 100 gives the two fixed messages, above 50 gives two messages ending in the junior message, otherwise four with the two fixed beginner messages in the middle; without skills, 0% |
| `MockApi.UnresolvedRoleFallback` | utils/mockApi.ts:86-92 | a role that contains no key is measured against ["HTML", "JavaScript", "Git", "Problem Solving"] |
| `MockApi.TierShapes` | utils/mockApi.ts:109-121 | two fixed messages at 100; above 50 two messages ending in the junior message; otherwise four with the two beginner messages in the middle |
| `MockApi.AliasSpellingsAgree` | utils/mockApi.ts:94-105 | any spelling of "js" and any spelling of "javascript" give the same analysis for every role |
| `MockApi.ShortRoleFallback` | utils/mockApi.ts:86-92 | any role shorter than every key (such as "Chef") gets the fallback list |
| `MockApi.UnknownRoleNoSkills` | utils/mockApi.ts:86-107 | "Unknown Role Xyz" with no skills gets the fallback list, all of it missing, nothing matched, 0% |
| `MockApi.AnalysisListsDistinct` | utils/mockApi.ts:88-105 | for every role and skill list, neither the matched nor the missing list repeats a skill |
| `MockApi.GenerateRoadmap` | utils/mockApi.ts:132-146 | always three phases; a stored roadmap under its key, or the raw role with "Phase 1: <role> Basics" and the fixed later phases; generic whenever the role contains no roadmap key |
| `MockApi.FrontendRoadmap` | utils/mockApi.ts:135-138 | "frontend developer" gets the stored roadmap under the canonical key "Frontend Developer" |
| `MockApi.SeniorBackendRoadmap` | utils/mockApi.ts:140-143 | "Senior Backend Developer", in any casing, gets the stored Backend roadmap by substring |
| `MockApi.ShortRoleRoadmap` | utils/mockApi.ts:145 | a role shorter than every roadmap key gets the generic roadmap labelled with it |
| `MockBackend.CfgWellFormed` | services/mockBackend.ts:11-68 | this copy's tables and fallback meet what the analysis relies on |
| `MockBackend.AliasKeysCanonical` | services/mockBackend.ts:5-9 | every alias key is trimmed and lower-case, and every alias is non-empty |
| `MockBackend.AliasValuesTrimmed` | services/mockBackend.ts:5-9 | every alias is trimmed |
| `MockBackend.NormalizeSkill` | services/mockBackend.ts:44-47 | the alias of the lower-cased trimmed skill when it is one of the 13 keys, otherwise the trimmed skill in its own case |
| `MockBackend.NoKubernetesAlias` | services/mockBackend.ts:5-9 | any spelling of "k8s" is kept here as typed, trimmed, while the shared table maps it to "Kubernetes" |
| `MockBackend.AnalyzeSkillGap` | services/mockBackend.ts:54-107 | the analysis; the percentage is in 0..100; 2, 2 and 4 messages per tier as in the in-browser copy; without skills, 0% |
| `MockBackend.AnalysisListsDistinct` | services/mockBackend.ts:57-82 | for every role and skill list, neither the matched nor the missing list repeats a skill |
| `MockBackend.UnresolvedRoleFallback` | services/mockBackend.ts:57-68 | a role that contains none of the ten keys is measured against the five-skill list ending in "Communication", "Problem Solving" |
| `MockBackend.GenerateRoadmap` | services/mockBackend.ts:109-126 | always three phases; the Frontend or Backend roadmap, or the generic one for the raw role; generic whenever the role contains neither key |
| `MockBackend.ShortRoleRoadmap` | services/mockBackend.ts:109-126 | any role shorter than "Backend Developer" gets the generic roadmap |
| `MockBackend.DataAnalystRoadmap` | services/mockBackend.ts:15 | "Data Analyst" is a known skill role, yet it gets the generic roadmap echoing "Data Analyst" |
| `MockBackend.FormatSkill` | services/mockBackend.ts:50-52 | same length; the first character upper-cased and the rest unchanged; "" stays "" |
| `MockBackend.FormatSkillProperties` | services/mockBackend.ts:50-52 | formatting is idempotent and changes nothing up to case |
| `SkillGapController.CfgWellFormed` | backend/controllers/skillGapController.js:16-23 | the server's configuration meets what the analysis relies on |
| `SkillGapController.AnalyzeSkillGap` | backend/controllers/skillGapController.js:9-57 | 400 "Role and skills are required" exactly when the role is absent or empty or the skills are absent (an empty list passes); otherwise the analysis, with one message at 100, one above 50, and two otherwise, the second being the missing count |
| `SkillGapController.AnalysisListsDistinct` | backend/controllers/skillGapController.js:16-36 | for every role and skill list, neither the matched nor the missing list repeats a skill |
| `SkillGapController.GetRoadmap` | backend/controllers/skillGapController.js:59-77 | 400 "Role is required" exactly without a role; otherwise three phases: the stored roadmap of an equal key, or else the two-topic generic roadmap for the raw role, with no substring search |
| `SkillGapController.SeniorBackendSkills` | backend/controllers/skillGapController.js:16-23 | "Senior Backend Developer", in any casing, is measured against the Backend list |
| `SkillGapController.SeniorBackendRoadmap` | backend/controllers/skillGapController.js:63-76 | but it gets the generic roadmap, echoing the role |
| `CareerGoalForm.AddSkill` | components/CareerGoalInput.tsx:21-27 | the list changes exactly when the trimmed input is non-empty and not yet present; then it is appended and the box cleared; otherwise nothing changes |
| `CareerGoalForm.AddSkillIdempotent` | components/CareerGoalInput.tsx:21-27 | adding twice in a row adds once |
| `CareerGoalForm.AddSkillKeepsProper` | components/CareerGoalInput.tsx:21-27 | adding keeps the list duplicate-free, with no empty or padded entry |
| `CareerGoalForm.KeyDown` | components/CareerGoalInput.tsx:29-36 | the key handler; `AddKeys` and `OtherKeys` state what each key does |
| `CareerGoalForm.AddKeys` | components/CareerGoalInput.tsx:30-32 | Enter and ',' are exactly an add |
| `CareerGoalForm.OtherKeys` | components/CareerGoalInput.tsx:29-36 | Backspace in an empty box with skills present drops exactly the last skill; every other key press that is not Enter or ',' changes nothing, including Backspace with no chips |
| `CareerGoalForm.KeyDownKeepsProper` | components/CareerGoalInput.tsx:29-36 | every key press keeps the list proper |
| `CareerGoalForm.Without` | components/CareerGoalInput.tsx:38-40 | `filter` removes every copy of the skill and keeps the rest in order and with their multiplicity |
| `CareerGoalForm.Remove` | components/CareerGoalInput.tsx:38-40 | only the list changes; every copy of the skill goes and everything else stays, counted with multiplicity |
| `CareerGoalForm.RemoveKeepsProper` | components/CareerGoalInput.tsx:38-40 | removing keeps the list proper |
| `CareerGoalForm.FinalSkills` | components/CareerGoalInput.tsx:42-46 | the submitted list is the chips plus the trimmed pending input when that is non-empty, and just the chips otherwise |
| `CareerGoalForm.SubmitMayDuplicate` | components/CareerGoalInput.tsx:42-46 | a proper list can be submitted with a duplicate: a skill both added and still typed |
| `CareerGoalForm.CanSubmit` | components/CareerGoalInput.tsx:149 | the negated `disabled` condition on a form state; `SubmitEnabledWhen` states it plainly |
| `CareerGoalForm.SubmitEnabledWhen` | components/CareerGoalInput.tsx:149 | submit is enabled exactly when not loading, a role is given, and there are chips or untrimmed text; with only white space typed, the chips alone are sent |
| `CareerGoalForm.WhitespaceSubmit` | components/CareerGoalInput.tsx:149 | a single space in the box enables submit with no chips, and the empty list is sent |
| `CareerGoalForm.CareerGoalInput.constructor` | components/CareerGoalInput.tsx:10-13 | the three fields start empty, and the list is proper |
| `CareerGoalForm.CareerGoalInput.SetRole` | components/CareerGoalInput.tsx:77 | only the role changes |
| `CareerGoalForm.CareerGoalInput.SetSkillInput` | components/CareerGoalInput.tsx:129 | only the box changes |
| `CareerGoalForm.CareerGoalInput.HandleAddSkill` | components/CareerGoalInput.tsx:21-27 | the new state is `AddSkill` of the old one; a proper list stays proper |
| `CareerGoalForm.CareerGoalInput.HandleSkillKeyDown` | components/CareerGoalInput.tsx:29-36 | the new state is `KeyDown` of the old one; a proper list stays proper |
| `CareerGoalForm.CareerGoalInput.RemoveSkill` | components/CareerGoalInput.tsx:38-40 | the new state is `Remove` of the old one; a proper list stays proper |
| `CareerGoalForm.CareerGoalInput.HandleSubmit` | components/CareerGoalInput.tsx:42-46 | hands on the role and `FinalSkills` of the chips and the box |
| `CareerGoalForm.CareerGoalInput.SubmitEnabled` | components/CareerGoalInput.tsx:149 | the negated `disabled` condition is `CanSubmit` of the current state: not loading, a role given, and chips or any text in the box |

## Left out

- SkillGap.RoundPercent: computes `Math.round(m / n * 100)` exactly in integers. The source's double-precision product can fall just short of a half and round down, first at 23 of 40 (57 where the model gives 58). So the model agrees with the source only for required lists of fewer than 40 entries. Every shipped list is shorter.
- SkillGap.AnalysisLists: the subset property (the matched list is the user's subset in table order, with the rounded share as percentage) is proved in `SkillGap.AnalysisSubset` for any list whose skills have pairwise different comparison keys. That condition is not proved for the shipped role lists, because normalising every pair of their literal entries is too costly for the verifier. So the worked case of "Frontend Developer" with "HTML", "CSS" and "Git" giving 33% is not proved.
- The simulated delays and the `async`/`Promise` wrapping (`utils/mockApi.ts:84`, `utils/mockApi.ts:133`, `services/mockBackend.ts:55`, `services/mockBackend.ts:110`): the operations are synchronous.
- Express plumbing: `res.status(...).json(...)` is replaced by a returned `Response` value. `backend/server.js` and `backend/routes/skillGapRoutes.js` only wire routes and are not part of this model.
- An empty required list, which would make the percentage `NaN`: the shared analysis requires `WellFormed` (non-empty keys, non-empty lists). Every shipped configuration is proved to meet it.
- Distinct table keys: `Object` keys cannot repeat. The model's lists allow repeats, and resolution takes the first match.
- `toLowerCase`, `toUpperCase` and `trim`: case mapping covers ASCII letters only. Trimming covers the full JavaScript white-space set.
- JavaScript object quirks: a lookup of an inherited key such as `"constructor"` in the alias object is modelled as plain map membership.
- Non-string input: a non-string role that throws on `.toLowerCase()`, non-string skills, and a non-array `skills` in the server request body. The server fields are modelled as present-or-absent strings and string lists.
- MockBackend.NormalizeSkill: idempotence is not proved for the 13-entry table. It is proved for the shared 16-entry table in `MockApi.NormalizeIdempotent`.
- `formatSkill` (`services/mockBackend.ts:50-52`) is modelled and proved, although nothing calls it.
- React details: event objects, `preventDefault`, focus handling, and the asynchronous batching of state setters. The handlers update the three fields in sequence.
- `services/hackerNewsService.ts`, `components/Dashboard.tsx`, `components/TechNewsWidget.tsx`, `components/SkillGapResults.tsx`, `components/RoadmapCard.tsx` and `App.tsx` are network, clock or rendering code and are not part of this model.
