/**
  * The session controller of the application root: the screen that is showing
  * and the three role profiles, updated by the handlers each screen calls back.
  */
module Session {
  import opened Options

  /** The eleven screens; exactly one shows at a time. */
  datatype Screen =
    | Landing | Signup | SignIn | Dashboard
    | EmployerLanding | EmployerSignup | EmployerDashboard
    | StudentLanding | StudentSignIn | StudentSignup | StudentDashboard

  datatype UniversityData = UniversityData(name: string, email: string, universityName: string, designation: string)

  datatype EmployerData = EmployerData(companyName: string, email: string, role: string)

  datatype StudentData = StudentData(
    name: string, email: string, college: string, course: string, year: string, skills: seq<string>)

  /** What the university sign-in screen hands over. */
  datatype SignInCredentials = SignInCredentials(email: string, password: string)

  /** What the employer signup flow hands over. */
  datatype EmployerCompletion = EmployerCompletion(companyName: string, email: string, role: string, jobPosted: bool)

  /** What the student sign-in screen hands over. */
  datatype StudentCredentials = StudentCredentials(email: string, password: string, college: string)

  /** What the student signup flow hands over. */
  datatype StudentSignupData = StudentSignupData(
    name: string, email: string, college: string, course: string, year: string,
    skills: seq<string>, resume: string)

  /** What the root renders: one presenter with the props it receives, or nothing at all. */
  datatype View =
    | LandingPage | SignupFlow | SignInForm
    | UniversityDashboardView(universityName: string, userName: string)
    | EmployerLandingPage | EmployerSignupFlow
    | EmployerDashboardView(companyName: string)
    | StudentLandingPage | StudentSignInForm | StudentSignupFlow
    | StudentDashboardView(studentName: string, collegeName: string)
    | Nothing

  /** A dashboard screen is selected while its profile slot is still null. */
  predicate DeadScreen(screen: Screen, uni: Option<UniversityData>, emp: Option<EmployerData>, stu: Option<StudentData>) {
    || (screen == Dashboard && uni == None)
    || (screen == EmployerDashboard && emp == None)
    || (screen == StudentDashboard && stu == None)
  }

  /**
    * The root's conditional rendering. Each screen shows its own presenter; a
    * dashboard is guarded by its profile slot and renders nothing without it.
    */
  function Render(screen: Screen, uni: Option<UniversityData>, emp: Option<EmployerData>, stu: Option<StudentData>): (v: View)
    ensures v == Nothing <==> DeadScreen(screen, uni, emp, stu)
    ensures screen == Dashboard && uni.Some? ==> v == UniversityDashboardView(uni.value.universityName, uni.value.name)
    ensures screen == EmployerDashboard && emp.Some? ==> v == EmployerDashboardView(emp.value.companyName)
    ensures screen == StudentDashboard && stu.Some? ==> v == StudentDashboardView(stu.value.name, stu.value.college)
  {
    match screen
    case Landing => LandingPage
    case Signup => SignupFlow
    case SignIn => SignInForm
    case Dashboard => if uni.Some? then UniversityDashboardView(uni.value.universityName, uni.value.name) else Nothing
    case EmployerLanding => EmployerLandingPage
    case EmployerSignup => EmployerSignupFlow
    case EmployerDashboard => if emp.Some? then EmployerDashboardView(emp.value.companyName) else Nothing
    case StudentLanding => StudentLandingPage
    case StudentSignIn => StudentSignInForm
    case StudentSignup => StudentSignupFlow
    case StudentDashboard => if stu.Some? then StudentDashboardView(stu.value.name, stu.value.college) else Nothing
  }

  /**
    * The mock university sign-in: a fixed profile that takes only the email from
    * the credentials; the password is never read.
    */
  function SignInProfile(data: SignInCredentials): (u: UniversityData)
    ensures u.email == data.email
  {
    UniversityData("Dr. Rajesh Kumar", data.email, "Indian Institute of Technology, Delhi", "Placement Officer")
  }

  /**
    * The mock student sign-in: a fixed profile that takes only the email and the
    * college from the credentials; the password is never read.
    */
  function StudentSignInProfile(data: StudentCredentials): (u: StudentData)
    ensures u.email == data.email && u.college == data.college
  {
    StudentData("Priya Sharma", data.email, data.college, "B.Tech Computer Science", "4th Year / Final Year",
                ["Python", "Java", "React"])
  }

  /** Any two university sign-ins with the same email store the same profile, whatever the passwords. */
  lemma SignInIgnoresPassword(a: SignInCredentials, b: SignInCredentials)
    requires a.email == b.email
    ensures SignInProfile(a) == SignInProfile(b)
  {
  }

  /** Any two student sign-ins with the same email and college store the same profile, whatever the passwords. */
  lemma StudentSignInIgnoresPassword(a: StudentCredentials, b: StudentCredentials)
    requires a.email == b.email && a.college == b.college
    ensures StudentSignInProfile(a) == StudentSignInProfile(b)
  {
  }

  class App {
    var currentScreen: Screen
    var universityData: Option<UniversityData>
    var employerData: Option<EmployerData>
    var studentData: Option<StudentData>

    /** The handlers never select a dashboard whose profile slot is null. */
    ghost predicate Valid()
      reads this
    {
      !DeadScreen(currentScreen, universityData, employerData, studentData)
    }

    /** The profile slots, read together. */
    function Slots(): (Option<UniversityData>, Option<EmployerData>, Option<StudentData>)
      reads this
    {
      (universityData, employerData, studentData)
    }

    constructor ()
      ensures Valid()
      ensures currentScreen == StudentLanding
      ensures universityData == None && employerData == None && studentData == None
    {
      currentScreen := StudentLanding;
      universityData, employerData, studentData := None, None, None;
    }

    /** What is on screen; in every state the handlers can reach it is a presenter, never nothing. */
    function Rendered(): (v: View)
      reads this
      requires Valid()
      ensures v != Nothing
      ensures currentScreen == Dashboard ==> v == UniversityDashboardView(universityData.value.universityName, universityData.value.name)
      ensures currentScreen == EmployerDashboard ==> v == EmployerDashboardView(employerData.value.companyName)
      ensures currentScreen == StudentDashboard ==> v == StudentDashboardView(studentData.value.name, studentData.value.college)
    {
      Render(currentScreen, universityData, employerData, studentData)
    }

    method HandleGetStarted()
      requires Valid()
      modifies this`currentScreen
      ensures Valid() && currentScreen == Signup && Slots() == old(Slots())
    {
      currentScreen := Signup;
    }

    /** Shows an alert and changes nothing. */
    method HandleBookDemo() returns (alertMessage: string)
      ensures alertMessage == "Demo booking coming soon! For now, try the Get Started flow."
    {
      alertMessage := "Demo booking coming soon! For now, try the Get Started flow.";
    }

    method HandleEmployers()
      requires Valid()
      modifies this`currentScreen
      ensures Valid() && currentScreen == EmployerLanding && Slots() == old(Slots())
    {
      currentScreen := EmployerLanding;
    }

    /** Stores the completed university signup as it is and opens the dashboard. */
    method HandleSignupComplete(data: UniversityData)
      requires Valid()
      modifies this`currentScreen, this`universityData
      ensures Valid() && currentScreen == Dashboard
      ensures universityData == Some(data)
      ensures employerData == old(employerData) && studentData == old(studentData)
    {
      universityData := Some(data);
      currentScreen := Dashboard;
    }

    /** Mock sign-in: stores a fabricated profile carrying the given email; the password is dropped. */
    method HandleSignIn(data: SignInCredentials)
      requires Valid()
      modifies this`currentScreen, this`universityData
      ensures Valid() && currentScreen == Dashboard
      ensures universityData == Some(SignInProfile(data))
      ensures employerData == old(employerData) && studentData == old(studentData)
    {
      universityData := Some(SignInProfile(data));
      currentScreen := Dashboard;
    }

    method HandleSwitchToSignIn()
      requires Valid()
      modifies this`currentScreen
      ensures Valid() && currentScreen == SignIn && Slots() == old(Slots())
    {
      currentScreen := SignIn;
    }

    method HandleSwitchToSignup()
      requires Valid()
      modifies this`currentScreen
      ensures Valid() && currentScreen == Signup && Slots() == old(Slots())
    {
      currentScreen := Signup;
    }

    method HandleEmployerPostJob()
      requires Valid()
      modifies this`currentScreen
      ensures Valid() && currentScreen == EmployerSignup && Slots() == old(Slots())
    {
      currentScreen := EmployerSignup;
    }

    /** Shows an alert and changes nothing. */
    method HandleEmployerRequestDemo() returns (alertMessage: string)
      ensures alertMessage == "Employer demo booking coming soon!"
    {
      alertMessage := "Employer demo booking coming soon!";
    }

    /** Keeps company name, email and role; whether a job was posted is discarded. */
    method HandleEmployerSignupComplete(data: EmployerCompletion)
      requires Valid()
      modifies this`currentScreen, this`employerData
      ensures Valid() && currentScreen == EmployerDashboard
      ensures employerData == Some(EmployerData(data.companyName, data.email, data.role))
      ensures universityData == old(universityData) && studentData == old(studentData)
    {
      employerData := Some(EmployerData(data.companyName, data.email, data.role));
      currentScreen := EmployerDashboard;
    }

    method HandleStudentJoin()
      requires Valid()
      modifies this`currentScreen
      ensures Valid() && currentScreen == StudentSignup && Slots() == old(Slots())
    {
      currentScreen := StudentSignup;
    }

    /** Mock sign-in: a fabricated profile with the given email and college; the password is dropped. */
    method HandleStudentSignIn(data: StudentCredentials)
      requires Valid()
      modifies this`currentScreen, this`studentData
      ensures Valid() && currentScreen == StudentDashboard
      ensures studentData == Some(StudentSignInProfile(data))
      ensures universityData == old(universityData) && employerData == old(employerData)
    {
      studentData := Some(StudentSignInProfile(data));
      currentScreen := StudentDashboard;
    }

    /** Copies every field of the completed signup except the resume. */
    method HandleStudentSignupComplete(data: StudentSignupData)
      requires Valid()
      modifies this`currentScreen, this`studentData
      ensures Valid() && currentScreen == StudentDashboard
      ensures studentData == Some(StudentData(data.name, data.email, data.college, data.course, data.year, data.skills))
      ensures universityData == old(universityData) && employerData == old(employerData)
    {
      studentData := Some(StudentData(data.name, data.email, data.college, data.course, data.year, data.skills));
      currentScreen := StudentDashboard;
    }

    method HandleSwitchToStudentSignIn()
      requires Valid()
      modifies this`currentScreen
      ensures Valid() && currentScreen == StudentSignIn && Slots() == old(Slots())
    {
      currentScreen := StudentSignIn;
    }

    method HandleSwitchToStudentSignup()
      requires Valid()
      modifies this`currentScreen
      ensures Valid() && currentScreen == StudentSignup && Slots() == old(Slots())
    {
      currentScreen := StudentSignup;
    }
  }

  /**
    * A student joins from the landing page and completes the signup: the
    * dashboard shows, and the stored profile matches the form without its resume.
    */
  method JoinAndSignUpExample() returns (screen: Screen, profile: Option<StudentData>, view: View)
    ensures screen == StudentDashboard
    ensures profile == Some(StudentData("Ana", "a@x.edu", "IIT Delhi", "B.Tech CSE", "3rd Year", ["Python", "SQL"]))
    ensures view == StudentDashboardView("Ana", "IIT Delhi")
  {
    var app := new App();
    app.HandleStudentJoin();
    assert app.Rendered() == StudentSignupFlow;
    app.HandleStudentSignupComplete(
      StudentSignupData("Ana", "a@x.edu", "IIT Delhi", "B.Tech CSE", "3rd Year", ["Python", "SQL"], ""));
    screen, profile, view := app.currentScreen, app.studentData, app.Rendered();
  }
}
