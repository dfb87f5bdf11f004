/**
  * The three-step student signup: account details, college details, then
  * skills; a step counter kept between 1 and 3 and a skill picker that toggles.
  */
module StudentSignup {
  import opened Options
  import opened Lists

  datatype StudentForm = StudentForm(
    name: string, email: string, password: string, college: string, course: string, year: string,
    skills: seq<string>, resume: string)

  /** The text inputs and selects of the form. */
  datatype FormField = Name | Email | Password | College | Course | Year | Resume

  const EmptyForm := StudentForm("", "", "", "", "", "", [], "")

  /** Step 1 (name, email, password) is filled in. */
  predicate Step1Valid(f: StudentForm) {
    f.name != "" && f.email != "" && f.password != ""
  }

  /** Step 2 (college, course, year) is filled in. */
  predicate Step2Valid(f: StudentForm) {
    f.college != "" && f.course != "" && f.year != ""
  }

  /** Step 3 needs one skill, although the page asks for at least three. */
  predicate Step3Valid(f: StudentForm) {
    |f.skills| > 0
  }

  /** The step's primary button (Continue, or Complete Profile on the last step) is enabled. */
  predicate PrimaryEnabled(step: int, f: StudentForm) {
    || (step == 1 && Step1Valid(f))
    || (step == 2 && Step2Valid(f))
    || (step == 3 && Step3Valid(f))
  }

  /** A single selected skill already completes the profile. */
  lemma OneSkillCompletes(f: StudentForm, skill: string)
    requires f.skills == [skill]
    ensures PrimaryEnabled(3, f)
  {
  }

  /** The form after one input changes. */
  function WithField(f: StudentForm, field: FormField, value: string): (r: StudentForm)
    ensures r.skills == f.skills
  {
    match field
    case Name => f.(name := value)
    case Email => f.(email := value)
    case Password => f.(password := value)
    case College => f.(college := value)
    case Course => f.(course := value)
    case Year => f.(year := value)
    case Resume => f.(resume := value)
  }

  class StudentSignupFlow {
    var step: int
    var formData: StudentForm

    /** The step stays within 1..3 and no skill is selected twice. */
    ghost predicate Valid()
      reads this
    {
      1 <= step <= 3 && Distinct(formData.skills)
    }

    constructor ()
      ensures Valid() && step == 1 && formData == EmptyForm
    {
      step := 1;
      formData := EmptyForm;
    }

    method SetField(field: FormField, value: string)
      requires Valid()
      modifies this`formData
      ensures Valid() && formData == WithField(old(formData), field, value)
    {
      formData := WithField(formData, field, value);
    }

    /** Clicking a skill chip selects it, or deselects it when already selected. */
    method HandleSkillToggle(skill: string)
      requires Valid()
      modifies this`formData
      ensures Valid()
      ensures formData == old(formData).(skills := Toggle(old(formData).skills, skill))
    {
      ToggleDistinct(formData.skills, skill);
      formData := formData.(skills := Toggle(formData.skills, skill));
    }

    method HandleNext()
      requires Valid()
      modifies this`step
      ensures Valid()
      ensures step == if old(step) < 3 then old(step) + 1 else old(step)
    {
      if step < 3 {
        step := step + 1;
      }
    }

    method HandleBack()
      requires Valid()
      modifies this`step
      ensures Valid()
      ensures step == if old(step) > 1 then old(step) - 1 else old(step)
    {
      if step > 1 {
        step := step - 1;
      }
    }

    /** Submitting hands over the whole form as it stands. */
    method HandleSubmit() returns (submitted: StudentForm)
      ensures submitted == formData
    {
      submitted := formData;
    }

    /**
      * Pressing the step's primary button: nothing while it is disabled, the
      * next step on steps 1 and 2, and the completed form on step 3.
      */
    method PressPrimary() returns (submitted: Option<StudentForm>)
      requires Valid()
      modifies this`step
      ensures Valid()
      ensures !PrimaryEnabled(old(step), formData) ==> step == old(step) && submitted == None
      ensures PrimaryEnabled(old(step), formData) && old(step) < 3 ==> step == old(step) + 1 && submitted == None
      ensures PrimaryEnabled(old(step), formData) && old(step) == 3 ==> step == 3 && submitted == Some(formData)
    {
      submitted := None;
      if PrimaryEnabled(step, formData) {
        if step < 3 {
          HandleNext();
        } else {
          var form := HandleSubmit();
          submitted := Some(form);
        }
      }
    }
  }
}
