/** The skill-chip form of `components/CareerGoalInput.tsx`: a role, the text
    being typed into the skill box, and the list of skills added so far.  The
    transitions are stated as functions on a `FormState` value; the class
    keeps the three fields and updates them in place as the component's state
    setters do. */
module CareerGoalForm {
  import opened Text
  import SkillGap

  datatype FormState = FormState(role: string, skillInput: string, skills: seq<string>)

  /** What the skill list keeps as long as it changes only through the form:
      no entry twice, none empty, none with white space at either end. */
  ghost predicate ProperSkills(skills: seq<string>) {
    && SkillGap.NoDuplicates(skills)
    && forall i :: 0 <= i < |skills| ==> skills[i] != "" && IsTrimmed(skills[i])
  }

  /** What `handleAddSkill` admits: the trimmed input, when it is non-empty
      and not yet in the list (compared exactly, case included). */
  predicate Addable(st: FormState) {
    Trim(st.skillInput) != "" && Trim(st.skillInput) !in st.skills
  }

  /** `handleAddSkill`: appends the trimmed input and clears the box when the
      input is addable, and changes nothing otherwise. */
  function AddSkill(st: FormState): (r: FormState)
    ensures r.role == st.role
    ensures r.skills != st.skills <==> Addable(st)
    ensures Addable(st) ==> r.skills == st.skills + [Trim(st.skillInput)] && r.skillInput == ""
    ensures !Addable(st) ==> r == st
  {
    var trimmed := Trim(st.skillInput);
    if trimmed != "" && trimmed !in st.skills then st.(skills := st.skills + [trimmed], skillInput := "")
    else st
  }

  /** `handleSkillKeyDown`: Enter and ',' add; Backspace in an empty box drops
      the last skill; every other key changes nothing. */
  function KeyDown(st: FormState, key: string): (r: FormState) {
    if key == "Enter" || key == "," then AddSkill(st)
    else if key == "Backspace" && st.skillInput == "" && |st.skills| > 0 then st.(skills := st.skills[..|st.skills| - 1])
    else st
  }

  /** `skills.filter(s => s !== x)`. */
  function Without(skills: seq<string>, x: string): (r: seq<string>)
    ensures x !in r
    ensures SkillGap.IsSubsequence(r, skills)
    ensures multiset(r) == multiset(skills)[x := 0]
    decreases |skills|
  {
    if skills == [] then []
    else
      assert skills == [skills[0]] + skills[1..];
      if skills[0] == x then Without(skills[1..], x) else [skills[0]] + Without(skills[1..], x)
  }

  /** `removeSkill(x)`. */
  function Remove(st: FormState, x: string): (r: FormState)
    ensures r.role == st.role && r.skillInput == st.skillInput
    ensures x !in r.skills && multiset(r.skills) == multiset(st.skills)[x := 0]
  {
    st.(skills := Without(st.skills, x))
  }

  /** The skill list `handleSubmit` passes on: the pending input, trimmed, is
      appended when non-empty, with no check for duplicates. */
  function FinalSkills(skills: seq<string>, skillInput: string): (r: seq<string>)
    ensures Trim(skillInput) != "" ==> r == skills + [Trim(skillInput)]
    ensures Trim(skillInput) == "" ==> r == skills
  {
    if Trim(skillInput) != "" then skills + [Trim(skillInput)] else skills
  }

  /** The submit button is enabled unless loading, when a role is given and
      there is a skill or any (even white-space) text in the skill box. */
  predicate CanSubmit(isLoading: bool, st: FormState) {
    !(isLoading || st.role == "" || (|st.skills| == 0 && st.skillInput == ""))
  }

  // ---------------------------------------------------------------------
  // Properties of the transitions
  // ---------------------------------------------------------------------

  /** Adding twice in a row adds once: the box is empty after a successful add. */
  lemma AddSkillIdempotent(st: FormState)
    ensures AddSkill(AddSkill(st)) == AddSkill(st)
  {
    if Addable(st) {
      TrimOfTrimmed("");
    }
  }

  lemma AddSkillKeepsProper(st: FormState)
    requires ProperSkills(st.skills)
    ensures ProperSkills(AddSkill(st).skills)
  {
    if Addable(st) {
      AppendProper(st.skills, Trim(st.skillInput));
    }
  }

  /** Appending a new, non-empty, trimmed entry keeps a list proper. */
  lemma AppendProper(s: seq<string>, t: string)
    requires ProperSkills(s) && t != "" && IsTrimmed(t) && t !in s
    ensures ProperSkills(s + [t])
  {
    var r := s + [t];
    forall i, j | 0 <= i < j < |r| ensures r[i] != r[j] {
      if j == |s| {
        assert r[i] == s[i] && r[j] == t;
      }
    }
  }

  /** Enter and ',' are exactly `handleAddSkill`. */
  lemma AddKeys(st: FormState)
    ensures KeyDown(st, "Enter") == AddSkill(st) && KeyDown(st, ",") == AddSkill(st)
  {
  }

  /** Backspace in an empty box removes exactly the last skill; any key
      other than Enter, ',' and Backspace leaves the state alone. */
  lemma OtherKeys(st: FormState, key: string)
    ensures key == "Backspace" && st.skillInput == "" && |st.skills| > 0 ==>
      KeyDown(st, key) == st.(skills := st.skills[..|st.skills| - 1])
      && st.skills == KeyDown(st, key).skills + [st.skills[|st.skills| - 1]]
    ensures !(key == "Enter" || key == "," || (key == "Backspace" && st.skillInput == "" && |st.skills| > 0)) ==>
      KeyDown(st, key) == st
  {
  }

  lemma {:induction false} PrefixProper(skills: seq<string>, n: nat)
    requires ProperSkills(skills) && n <= |skills|
    ensures ProperSkills(skills[..n])
  {
  }

  lemma KeyDownKeepsProper(st: FormState, key: string)
    requires ProperSkills(st.skills)
    ensures ProperSkills(KeyDown(st, key).skills)
  {
    if key == "Enter" || key == "," {
      AddSkillKeepsProper(st);
    } else if key == "Backspace" && st.skillInput == "" && |st.skills| > 0 {
      PrefixProper(st.skills, |st.skills| - 1);
    }
  }

  lemma {:induction false} SubsequenceProper(a: seq<string>, b: seq<string>)
    requires SkillGap.IsSubsequence(a, b) && ProperSkills(b)
    ensures ProperSkills(a)
  {
    SkillGap.SubsequenceNoDuplicates(a, b);
    SkillGap.SubsequenceElements(a, b);
    forall i | 0 <= i < |a| ensures a[i] != "" && IsTrimmed(a[i]) {
      assert a[i] in b;
    }
  }

  /** Removing keeps every other skill, in order and as often as before, and
      keeps the list proper. */
  lemma RemoveKeepsProper(st: FormState, x: string)
    requires ProperSkills(st.skills)
    ensures ProperSkills(Remove(st, x).skills)
  {
    SubsequenceProper(Without(st.skills, x), st.skills);
  }

  /** Submitting may hand on a duplicate: a skill added and the same skill
      typed again ("Git" and "Git", say). */
  lemma SubmitMayDuplicate(skill: string)
    requires skill != "" && IsTrimmed(skill)
    ensures ProperSkills([skill])
    ensures FinalSkills([skill], skill) == [skill, skill]
    ensures !SkillGap.NoDuplicates(FinalSkills([skill], skill))
  {
    TrimOfTrimmed(skill);
    assert FinalSkills([skill], skill)[0] == FinalSkills([skill], skill)[1];
  }

  /** White space alone in the box enables submit, yet no skill is sent. */
  lemma WhitespaceSubmit(role: string)
    requires role != ""
    ensures CanSubmit(false, FormState(role, " ", []))
    ensures FinalSkills([], " ") == []
  {
    assert TrimStart(" ") == [];
  }

  /** Submit is enabled exactly when something, possibly only white space, is
      there to send. */
  lemma SubmitEnabledWhen(isLoading: bool, st: FormState)
    ensures CanSubmit(isLoading, st) <==>
      !isLoading && st.role != "" && (st.skills != [] || st.skillInput != "")
    ensures CanSubmit(isLoading, st) && Trim(st.skillInput) == "" ==>
      FinalSkills(st.skills, st.skillInput) == st.skills
  {
  }

  // ---------------------------------------------------------------------
  // The component
  // ---------------------------------------------------------------------

  class CareerGoalInput {
    var role: string
    var skillInput: string
    var skills: seq<string>

    function State(): FormState
      reads this
    {
      FormState(role, skillInput, skills)
    }

    ghost predicate Valid()
      reads this
    {
      ProperSkills(skills)
    }

    /** The three `useState` hooks, all empty. */
    constructor()
      ensures State() == FormState("", "", [])
      ensures Valid()
    {
      role, skillInput, skills := "", "", [];
    }

    /** `setRole`, from the role box or a popular-role chip. */
    method SetRole(value: string)
      modifies this
      ensures State() == old(State()).(role := value)
      ensures old(Valid()) ==> Valid()
    {
      role := value;
    }

    /** `setSkillInput`, from the skill box. */
    method SetSkillInput(value: string)
      modifies this
      ensures State() == old(State()).(skillInput := value)
      ensures old(Valid()) ==> Valid()
    {
      skillInput := value;
    }

    /** `handleAddSkill`, also run by the "+" button and on leaving the box. */
    method HandleAddSkill()
      modifies this
      ensures State() == AddSkill(old(State()))
      ensures old(Valid()) ==> Valid()
    {
      ghost var st := State();
      var trimmed := Trim(skillInput);
      if trimmed != "" && trimmed !in skills {
        skills := skills + [trimmed];
        skillInput := "";
      }
      if ProperSkills(st.skills) {
        AddSkillKeepsProper(st);
      }
    }

    /** `handleSkillKeyDown`. */
    method HandleSkillKeyDown(key: string)
      modifies this
      ensures State() == KeyDown(old(State()), key)
      ensures old(Valid()) ==> Valid()
    {
      ghost var st := State();
      if key == "Enter" || key == "," {
        HandleAddSkill();
      } else if key == "Backspace" && skillInput == "" && |skills| > 0 {
        skills := skills[..|skills| - 1];
      }
      if ProperSkills(st.skills) {
        KeyDownKeepsProper(st, key);
      }
    }

    /** `removeSkill`, from a chip's close button. */
    method RemoveSkill(skillToRemove: string)
      modifies this
      ensures State() == Remove(old(State()), skillToRemove)
      ensures old(Valid()) ==> Valid()
    {
      ghost var st := State();
      skills := Without(skills, skillToRemove);
      if ProperSkills(st.skills) {
        RemoveKeepsProper(st, skillToRemove);
      }
    }

    /** `handleSubmit`: what `onSubmit` receives; the state is left as it is. */
    method HandleSubmit() returns (submittedRole: string, finalSkills: seq<string>)
      ensures submittedRole == role
      ensures finalSkills == FinalSkills(skills, skillInput)
    {
      var trimmed := Trim(skillInput);
      submittedRole := role;
      finalSkills := if trimmed != "" then skills + [trimmed] else skills;
    }

    /** The `disabled` condition of the submit button, negated. */
    function SubmitEnabled(isLoading: bool): (r: bool)
      reads this
      ensures r <==> CanSubmit(isLoading, State())
      ensures r <==> !isLoading && role != "" && (skills != [] || skillInput != "")
    {
      SubmitEnabledWhen(isLoading, State());
      CanSubmit(isLoading, State())
    }
  }
}
