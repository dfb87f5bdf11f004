/**
  * The employer signup: company details first, then an optional first job post
  * whose skills are typed in (trimmed, no duplicates) and whose courses and
  * years are toggled.
  */
module EmployerSignup {
  import opened Text
  import opened Lists

  datatype Phase = SignupPhase | PostJobPhase

  datatype SignupData = SignupData(companyName: string, email: string, role: string)

  /** The inputs of the company form. */
  datatype SignupField = CompanyName | Email | Role

  datatype JobType = Intern | FullTime

  datatype JobData = JobData(
    title: string, kind: JobType, skills: seq<string>, courses: seq<string>, years: seq<string>,
    startDate: string)

  /** What the flow hands to `onComplete`: the company details and whether a job was posted. */
  datatype Completion = Completion(companyName: string, email: string, role: string, jobPosted: bool)

  const InitialJobData := JobData("", Intern, [], [], [], "")

  /** Each skill is distinct, non-empty and already trimmed (see `TrimmedIffFixed`). */
  predicate CleanSkills(skills: seq<string>) {
    Distinct(skills) && forall i :: 0 <= i < |skills| ==> skills[i] != "" && Trimmed(skills[i])
  }

  /**
    * What adding the typed skill does to the skill list and the input box: the
    * trimmed text is appended and the box cleared, unless it is blank or
    * already listed, in which case both stay as they are.
    */
  function AddSkillTo(skills: seq<string>, input: string): (r: (seq<string>, string))
    ensures Trim(input) != "" ==> Trim(input) in r.0
    ensures |skills| <= |r.0| <= |skills| + 1 && r.0[..|skills|] == skills
    ensures Trim(input) != "" && Trim(input) !in skills ==> r == (skills + [Trim(input)], "")
    ensures Trim(input) == "" || Trim(input) in skills ==> r == (skills, input)
  {
    var skill := Trim(input);
    if skill != "" && skill !in skills then (skills + [skill], "") else (skills, input)
  }

  /** Adding keeps the skills clean. */
  lemma AddSkillKeepsClean(skills: seq<string>, input: string)
    requires CleanSkills(skills)
    ensures CleanSkills(AddSkillTo(skills, input).0)
  {
    var t := Trim(input);
    if t != "" && t !in skills {
      var r := skills + [t];
      assert r == AddSkillTo(skills, input).0;
      forall i, j | 0 <= i < j < |r| ensures r[i] != r[j] {
        assert r[i] == skills[i];
        if j == |skills| {
          assert r[i] in skills;
        }
      }
      forall i | 0 <= i < |r| ensures r[i] != "" && Trimmed(r[i]) {
        if i < |skills| {
          assert r[i] == skills[i];
        }
      }
    }
  }

  /** Removing keeps the skills clean, and the removed skill is gone. */
  lemma RemoveSkillKeepsClean(skills: seq<string>, skill: string)
    requires CleanSkills(skills)
    ensures CleanSkills(Without(skills, skill)) && skill !in Without(skills, skill)
  {
    WithoutDistinct(skills, skill);
    var r := Without(skills, skill);
    forall i | 0 <= i < |r| ensures r[i] != "" && Trimmed(r[i]) {
      assert r[i] in skills;
    }
  }

  class EmployerSignupFlow {
    var step: Phase
    var signupData: SignupData
    var jobData: JobData
    var skillInput: string

    /** Skills stay clean; courses and years are never selected twice. */
    ghost predicate Valid()
      reads this
    {
      CleanSkills(jobData.skills) && Distinct(jobData.courses) && Distinct(jobData.years)
    }

    constructor ()
      ensures Valid()
      ensures step == SignupPhase && signupData == SignupData("", "", "")
      ensures jobData == InitialJobData && skillInput == ""
    {
      step := SignupPhase;
      signupData := SignupData("", "", "");
      jobData := InitialJobData;
      skillInput := "";
    }

    method SetSignupField(field: SignupField, value: string)
      modifies this`signupData
      ensures signupData == match field
        case CompanyName => old(signupData).(companyName := value)
        case Email => old(signupData).(email := value)
        case Role => old(signupData).(role := value)
    {
      match field
      case CompanyName => signupData := signupData.(companyName := value);
      case Email => signupData := signupData.(email := value);
      case Role => signupData := signupData.(role := value);
    }

    method SetTitle(value: string)
      requires Valid()
      modifies this`jobData
      ensures Valid() && jobData == old(jobData).(title := value)
    {
      jobData := jobData.(title := value);
    }

    method SetJobType(kind: JobType)
      requires Valid()
      modifies this`jobData
      ensures Valid() && jobData == old(jobData).(kind := kind)
    {
      jobData := jobData.(kind := kind);
    }

    method SetStartDate(value: string)
      requires Valid()
      modifies this`jobData
      ensures Valid() && jobData == old(jobData).(startDate := value)
    {
      jobData := jobData.(startDate := value);
    }

    method SetSkillInput(value: string)
      modifies this`skillInput
      ensures skillInput == value
    {
      skillInput := value;
    }

    /** Submitting the company form moves on to the job post. */
    method HandleSignup()
      modifies this`step
      ensures step == PostJobPhase
    {
      step := PostJobPhase;
    }

    /** Posting the job completes the signup with the company details only. */
    method HandleJobPost() returns (completion: Completion)
      ensures completion == Completion(signupData.companyName, signupData.email, signupData.role, true)
    {
      completion := Completion(signupData.companyName, signupData.email, signupData.role, true);
    }

    /** Skipping completes the signup the same way, marked as no job posted. */
    method HandleSkipJobPost() returns (completion: Completion)
      ensures completion == Completion(signupData.companyName, signupData.email, signupData.role, false)
    {
      completion := Completion(signupData.companyName, signupData.email, signupData.role, false);
    }

    method AddSkill()
      requires Valid()
      modifies this`jobData, this`skillInput
      ensures Valid()
      ensures (jobData.skills, skillInput) == AddSkillTo(old(jobData.skills), old(skillInput))
      ensures jobData == old(jobData).(skills := jobData.skills)
    {
      var skills, input := jobData.skills, skillInput;
      var added := AddSkillTo(skills, input);
      AddSkillKeepsClean(skills, input);
      assert CleanSkills(added.0);
      jobData := jobData.(skills := added.0);
      skillInput := added.1;
      assert (jobData.skills, skillInput) == added;
    }

    method RemoveSkill(skill: string)
      requires Valid()
      modifies this`jobData
      ensures Valid() && skill !in jobData.skills
      ensures jobData == old(jobData).(skills := Without(old(jobData.skills), skill))
    {
      RemoveSkillKeepsClean(jobData.skills, skill);
      jobData := jobData.(skills := Without(jobData.skills, skill));
    }

    method ToggleCourse(course: string)
      requires Valid()
      modifies this`jobData
      ensures Valid()
      ensures jobData == old(jobData).(courses := Toggle(old(jobData.courses), course))
    {
      ToggleDistinct(jobData.courses, course);
      jobData := jobData.(courses := Toggle(jobData.courses, course));
    }

    method ToggleYear(year: string)
      requires Valid()
      modifies this`jobData
      ensures Valid()
      ensures jobData == old(jobData).(years := Toggle(old(jobData.years), year))
    {
      ToggleDistinct(jobData.years, year);
      jobData := jobData.(years := Toggle(jobData.years, year));
    }
  }
}
