# OnCampus front end: screens, signup flows, community posts and the university dashboard

OnCampus is a single-page React prototype of a campus-placement platform. It has three audiences:
universities, employers and students. All state lives in memory in component state hooks. There is
no back end: the sign-ins are mocks, and finishing a signup only hands the entered data to the parent.

This Dafny project models the parts of that front end that decide behaviour:

- **`Session`** (`App.dfy`): the top-level screen machine. It has eleven screens and one optional
  profile per audience. Each of the fifteen handlers is a method of the `App` class. `Render` says
  which screen component is mounted. The class invariant proves that a dashboard is never selected
  without its profile, so the page is never blank.
- **`Community`** (`CommunityPostModal.dfy`): the "post to community" dialog. It has a message tab and
  a poll tab with two to five options. The guard that decides whether the dialog can post is modelled
  as a specification function, `Submission`. It is proved equivalent to the disabled state of the
  Post button.
- **`University`** (`UniversityDashboard.dfy`): the dashboard's notifications and unread badge, its
  community feed, its offline-placement form and its poll percentages. Feed ids are
  `String(count + 1)`, and posts are prepended; the model proves the ids stay unique. The percentages
  of a poll with votes are proved to add up to exactly 100, using exact rationals.
- **`StudentSignup`**, **`EmployerSignup`**, **`UniversitySignup`** and **`StudentAuth`**: the four
  forms with behaviour.
  - Student signup: a three-step wizard gated by per-step validity, with a skill picker.
  - Employer signup: company details, then a job post whose skills are trimmed and de-duplicated, and
    whose courses and years are toggled.
  - University signup: after the account form, a simulated "students joined" counter that a timer
    raises by 0 to 2 per tick and stops at 50.
  - Student sign-in: submits only when every field is filled in.
- **Helper modules**:
  - `Text`: JavaScript's `String.prototype.trim` over the ECMAScript white-space and line-terminator
    code points, and the decimal `String(n)` of a natural number together with its parse.
  - `Lists`: `filter(x => x !== v)` and the includes-then-filter-or-append "toggle" idiom, over lists
    of strings.
  - `Options`.

Each component that keeps state is a class with one field per state hook. Each handler is a method
that states its whole new state, either in terms of a pure function or by saying which fields it
changes. Randomness and timers become parameters: `Tick(k)` is one timer firing with
`k = floor(random * 3)`, which is in `0..2`.

Three facts about the code that the model keeps as the code has them:

- The student skills step says "Select at least 3 skills" but only requires one. The model enables
  the button at one skill, and `StudentSignup.OneSkillCompletes` records this.
- The mock sign-ins ignore the password: university sign-in uses only the email, and student
  sign-in only the email and college. `Session.SignInIgnoresPassword` and
  `Session.StudentSignInIgnoresPassword` record this.
- The `Screen` union has a `landing` screen, which shows `LandingPage` and is the only way into the
  university and employer flows. But `App` starts on `student_landing` (src/app/App.tsx:50), and
  no handler in src/app/App.tsx:55-152 sets `landing`. From the initial state, only the student
  screens can be reached: student landing, student sign-in, student signup and student dashboard.
  The model keeps every handler callable, so it still covers the university and employer screens.

## Model

| member | source | states |
|---|---|---|
| Text.Trim | src/app/components/CommunityPostModal.tsx:41-46 | `trim()` keeps the slice of the input that starts where the leading white space ends and is followed only by white space; the result is empty exactly when the input is all white space; otherwise it neither starts nor ends with white space |
| Text.LeadingEnd | src/app/components/CommunityPostModal.tsx:41 | the first index at or after `i` that does not hold white space: everything skipped is white space, and the character found (if any) is not |
| Text.TrailingStart | src/app/components/CommunityPostModal.tsx:41 | scanning back from `j` to `k`, the index just past the last character that is not white space: everything skipped is white space |
| Text.TrimmedIffFixed | src/app/components/employer/EmployerSignupFlow.tsx:62-67 | a string neither starts nor ends with white space exactly when trimming leaves it unchanged |
| Text.TrimIdempotent | src/app/components/employer/EmployerSignupFlow.tsx:62-67 | trimming an already trimmed string changes nothing, so a skill added as `skillInput.trim()` stays trimmed |
| Text.NatToString | src/app/components/UniversityDashboard.tsx:199 | `String(n)` is a non-empty string of decimal digits with no leading zero |
| Text.ParseNatToString | src/app/components/UniversityDashboard.tsx:199 | reading the decimal digits of `String(n)` back gives `n` |
| Text.NatToStringInjective | src/app/components/UniversityDashboard.tsx:199 | distinct post counts give distinct ids |
| Lists.Without | src/app/components/employer/EmployerSignupFlow.tsx:69-71 | `filter(s => s !== x)` removes every copy of `x` and keeps every other element, with the same multiplicity and in order |
| Lists.WithoutConcat | src/app/components/employer/EmployerSignupFlow.tsx:69-71 | filtering distributes over concatenation |
| Lists.WithoutDistinct | src/app/components/employer/EmployerSignupFlow.tsx:69-71 | filtering a list without duplicates leaves a list without duplicates |
| Lists.Toggle | src/app/components/student/StudentSignupFlow.tsx:57-64 | includes-then-filter-or-append flips whether the value is present and leaves every other value's presence alone |
| Lists.ToggleDistinct | src/app/components/employer/EmployerSignupFlow.tsx:73-89 | toggling never creates a duplicate |
| Lists.ToggleTwiceAbsent | src/app/components/student/StudentSignupFlow.tsx:57-64 | selecting and then deselecting a value restores the list exactly |
| Lists.ToggleTwicePresent | src/app/components/student/StudentSignupFlow.tsx:57-64 | deselecting and then reselecting a value moves it to the end: same elements, new order |
| Session.Render | src/app/App.tsx:154-231 | nothing is mounted exactly when a dashboard screen lacks its profile; each dashboard receives the props taken from its profile |
| Session.SignInProfile | src/app/App.tsx:73-82 | the mock university profile carries the email that was entered |
| Session.StudentSignInProfile | src/app/App.tsx:113-124 | the mock student profile carries the email and college that were entered |
| Session.SignInIgnoresPassword | src/app/App.tsx:73-82 | two university sign-ins with the same email give the same profile, whatever the passwords |
| Session.StudentSignInIgnoresPassword | src/app/App.tsx:113-124 | two student sign-ins with the same email and college give the same profile, whatever the passwords |
| Session.App.constructor | src/app/App.tsx:50-53 | the app starts on the student landing page with no profile |
| Session.App.Rendered | src/app/App.tsx:178-229 | in every reachable state some screen is mounted, and the university, employer and student dashboards show the stored profile |
| Session.App.HandleGetStarted | src/app/App.tsx:55-57 | opens the university signup; the profiles are unchanged |
| Session.App.HandleBookDemo | src/app/App.tsx:59-62 | only shows the demo alert, with its exact text |
| Session.App.HandleEmployers | src/app/App.tsx:64-66 | opens the employer landing page; the profiles are unchanged |
| Session.App.HandleSignupComplete | src/app/App.tsx:68-71 | stores the university profile as given and opens its dashboard; the other profiles are unchanged |
| Session.App.HandleSignIn | src/app/App.tsx:73-82 | stores `SignInProfile` of the credentials (the fixed mock profile with the given email) and opens the dashboard |
| Session.App.HandleSwitchToSignIn | src/app/App.tsx:84-86 | opens the university sign-in; the profiles are unchanged |
| Session.App.HandleSwitchToSignup | src/app/App.tsx:88-90 | opens the university signup; the profiles are unchanged |
| Session.App.HandleEmployerPostJob | src/app/App.tsx:92-94 | opens the employer signup; the profiles are unchanged |
| Session.App.HandleEmployerRequestDemo | src/app/App.tsx:96-98 | only shows the employer demo alert, with its exact text |
| Session.App.HandleEmployerSignupComplete | src/app/App.tsx:100-107 | stores company, email and role (dropping `jobPosted`) and opens the employer dashboard |
| Session.App.HandleStudentJoin | src/app/App.tsx:109-111 | opens the student signup; the profiles are unchanged |
| Session.App.HandleStudentSignIn | src/app/App.tsx:113-124 | stores `StudentSignInProfile` of the credentials (the fixed mock profile with the given email and college) and opens the student dashboard |
| Session.App.HandleStudentSignupComplete | src/app/App.tsx:126-144 | stores the entered profile (dropping the resume) and opens the student dashboard |
| Session.App.HandleSwitchToStudentSignIn | src/app/App.tsx:146-148 | opens the student sign-in; the profiles are unchanged |
| Session.App.HandleSwitchToStudentSignup | src/app/App.tsx:150-152 | opens the student signup; the profiles are unchanged |
| Session.JoinAndSignUpExample | src/app/App.tsx:109-144 | from the start, joining and completing the student signup shows that student's dashboard with the entered profile |
| Community.FilledOptions | src/app/components/CommunityPostModal.tsx:46 | `filter(opt => opt.trim())` keeps exactly the non-blank options (a value is in the result iff it is a non-blank option) and, behind the every-option-filled guard of line 45, keeps the whole list in order |
| Community.CanPost | src/app/components/CommunityPostModal.tsx:41-45 | the post handler's guard: on the message tab the message is non-blank; on the poll tab the question and every option are non-blank |
| Community.PostDisabled | src/app/components/CommunityPostModal.tsx:176-179 | the Post button's `disabled` expression: the active tab's trimmed message, or trimmed question, is empty, or (poll tab) some option trims to empty |
| Community.Submission | src/app/components/CommunityPostModal.tsx:40-51 | a post is emitted exactly when the active tab's text (and, for a poll, every option) is non-blank, exactly when the Post button is enabled; it carries the message or the question and options |
| Community.RemoveAt | src/app/components/CommunityPostModal.tsx:30 | `filter((_, i) => i !== index)` deletes the element at an index in range and changes nothing otherwise |
| Community.CommunityPostModal.constructor | src/app/components/CommunityPostModal.tsx:17-20 | the dialog starts on the message tab with empty texts and two empty options |
| Community.CommunityPostModal.SetActiveTab | src/app/components/CommunityPostModal.tsx:17 | switches tab only |
| Community.CommunityPostModal.SetMessageContent | src/app/components/CommunityPostModal.tsx:18 | sets the message only |
| Community.CommunityPostModal.SetPollQuestion | src/app/components/CommunityPostModal.tsx:19 | sets the question only |
| Community.CommunityPostModal.HandleAddPollOption | src/app/components/CommunityPostModal.tsx:22-26 | appends an empty option below five and keeps the count within two to five |
| Community.CommunityPostModal.HandleRemovePollOption | src/app/components/CommunityPostModal.tsx:28-32 | removes the indexed option only above two and keeps the count within two to five |
| Community.CommunityPostModal.HandlePollOptionChange | src/app/components/CommunityPostModal.tsx:34-38 | replaces one option's text |
| Community.CommunityPostModal.IsPostDisabled | src/app/components/CommunityPostModal.tsx:176-179 | the Post button is disabled exactly when the active tab cannot post |
| Community.CommunityPostModal.HandlePost | src/app/components/CommunityPostModal.tsx:40-51 | emits the submission and requests closing exactly when it posts; resets only the active tab's fields; otherwise changes nothing |
| Community.OptionBoundsExample | src/app/components/CommunityPostModal.tsx:22-32 | at two options a remove leaves two; four adds from two stop at five |
| Community.PollSubmission | src/app/components/CommunityPostModal.tsx:45-49 | a poll with a filled question and filled options is emitted unchanged |
| Community.PollComposeExample | src/app/components/CommunityPostModal.tsx:40-51 | for any filled question and two filled options, composing the poll and pressing Post emits exactly that poll and closes the dialog |
| University.Unread | src/app/components/UniversityDashboard.tsx:140 | `filter(n => !n.read)` keeps exactly the unread notifications |
| University.UnreadCount | src/app/components/UniversityDashboard.tsx:140 | the badge count is at most the number of notifications and is zero exactly when all are read |
| University.UnreadCountCons | src/app/components/UniversityDashboard.tsx:140 | the badge counts the first notification when unread plus the badge of the rest |
| University.MarkRead | src/app/components/UniversityDashboard.tsx:213-215 | marks read exactly the notifications with the given id and leaves the rest as they were |
| University.MarkAllRead | src/app/components/UniversityDashboard.tsx:217-219 | marks every notification read and keeps their order and content |
| University.MarkReadLowersUnread | src/app/components/UniversityDashboard.tsx:213-215 | marking one read never raises the badge, and lowers it when an unread notification has that id |
| University.MarkAllReadClearsBadge | src/app/components/UniversityDashboard.tsx:217-219 | marking all read clears the badge and is idempotent |
| University.ZeroVotes | src/app/components/UniversityDashboard.tsx:206-208 | every option of a new poll starts with zero votes, in order |
| University.NewPost | src/app/components/UniversityDashboard.tsx:197-210 | the new post's id is `String(count + 1)`, its author is the user, it has no likes or comments, and it is a poll exactly when options were given |
| University.NextIdIsFresh | src/app/components/UniversityDashboard.tsx:199 | `String(length + 1)` differs from every id of a feed numbered 1 to its length |
| University.PrependFreshKeepsUnique | src/app/components/UniversityDashboard.tsx:210 | prepending a post whose id is new keeps the ids distinct |
| University.PrependKeepsNumbered | src/app/components/UniversityDashboard.tsx:197-210 | prepending a post numbered one past the length keeps every id numbered within the new length |
| University.PrependKeepsIdsUnique | src/app/components/UniversityDashboard.tsx:197-211 | prepending a post numbered one past the feed length keeps the ids numbered and unique |
| University.Share | src/app/components/UniversityDashboard.tsx:654 | an option's percentage is between 0 and 100, and is 0 when nobody has voted |
| University.TotalVotes | src/app/components/UniversityDashboard.tsx:653 | `reduce((sum, opt) => sum + opt.votes, 0)`: the sum of the options' votes |
| University.Shares | src/app/components/UniversityDashboard.tsx:652-654 | the percentages a poll renders: each option's share against the poll's own total |
| University.SharesOf | src/app/components/UniversityDashboard.tsx:653-654 | each option's percentage is its own share of the total |
| University.SumSharesOf | src/app/components/UniversityDashboard.tsx:653-654 | the percentages add up to 100 times the sum of votes over the total |
| University.VotesWithinTotal | src/app/components/UniversityDashboard.tsx:653 | no option has more votes than the total |
| University.SharesSumTo100 | src/app/components/UniversityDashboard.tsx:653-654 | a poll with votes shows percentages adding up to exactly 100; a poll without votes shows 0 everywhere |
| University.SharesExample | src/app/components/UniversityDashboard.tsx:653-654 | votes 3, 1, 0, 0 show 75, 25, 0, 0; no votes show zeros |
| University.SeedFacts | src/app/components/UniversityDashboard.tsx:98-130 | the seeded data has four notifications, two of them unread, and two posts with ids "1" and "2" |
| University.UniversityDashboard.constructor | src/app/components/UniversityDashboard.tsx:92-138 | the dashboard starts with exactly the seeded notifications and posts, an empty offline form and both dialogs closed |
| University.UniversityDashboard.MarkNotificationAsRead | src/app/components/UniversityDashboard.tsx:213-215 | the notifications become `MarkRead` of the old ones |
| University.UniversityDashboard.MarkAllAsRead | src/app/components/UniversityDashboard.tsx:217-219 | all notifications become read and the badge is zero |
| University.UniversityDashboard.SetShowCommunityModal | src/app/components/UniversityDashboard.tsx:95 | opens or closes the community dialog only |
| University.UniversityDashboard.HandleCommunityPost | src/app/components/UniversityDashboard.tsx:197-211 | the new post goes first and the rest of the feed is unchanged; the ids stay numbered and unique |
| University.UniversityDashboard.SetShowAddOfflineDialog | src/app/components/UniversityDashboard.tsx:92 | opens or closes the offline dialog only |
| University.UniversityDashboard.SetOfflineField | src/app/components/UniversityDashboard.tsx:132-138 | changes one field of the offline form |
| University.UniversityDashboard.HandleAddOfflinePlacement | src/app/components/UniversityDashboard.tsx:184-195 | logs the form as entered, closes the dialog and resets the form to its initial values; no list changes |
| University.PollPostExample | src/app/components/UniversityDashboard.tsx:197-211 | any filled two-option poll composed in the dialog becomes post "3" at the top of the seeded feed, with both options at zero votes and 0 % each |
| StudentSignup.Step1Valid | src/app/components/student/StudentSignupFlow.tsx:79 | `name && email && password`: all three are non-empty |
| StudentSignup.Step2Valid | src/app/components/student/StudentSignupFlow.tsx:80 | `college && course && year`: all three are non-empty |
| StudentSignup.Step3Valid | src/app/components/student/StudentSignupFlow.tsx:81 | `skills.length > 0`: at least one skill is selected |
| StudentSignup.PrimaryEnabled | src/app/components/student/StudentSignupFlow.tsx:200-204 | the current step's primary button is enabled exactly when that step is valid (`disabled={!isStepNValid}`, also at lines 304 and 389) |
| StudentSignup.OneSkillCompletes | src/app/components/student/StudentSignupFlow.tsx:81 | one selected skill already enables Complete Profile |
| StudentSignup.WithField | src/app/components/student/StudentSignupFlow.tsx:156-361 | editing a text field never touches the skills |
| StudentSignup.StudentSignupFlow.constructor | src/app/components/student/StudentSignupFlow.tsx:45-55 | the wizard starts on step 1 with an empty form |
| StudentSignup.StudentSignupFlow.SetField | src/app/components/student/StudentSignupFlow.tsx:156-361 | changes one field of the form |
| StudentSignup.StudentSignupFlow.HandleSkillToggle | src/app/components/student/StudentSignupFlow.tsx:57-64 | toggles one skill, keeps the skills free of duplicates and changes no other field |
| StudentSignup.StudentSignupFlow.HandleNext | src/app/components/student/StudentSignupFlow.tsx:66-68 | advances one step below step 3; the step stays within 1 to 3 |
| StudentSignup.StudentSignupFlow.HandleBack | src/app/components/student/StudentSignupFlow.tsx:70-72 | goes back one step above step 1; the step stays within 1 to 3 |
| StudentSignup.StudentSignupFlow.HandleSubmit | src/app/components/student/StudentSignupFlow.tsx:74-77 | emits the whole form as it stands |
| StudentSignup.StudentSignupFlow.PressPrimary | src/app/components/student/StudentSignupFlow.tsx:79-81 | a disabled button does nothing; an enabled Continue advances; an enabled Complete Profile emits the form |
| EmployerSignup.AddSkillTo | src/app/components/employer/EmployerSignupFlow.tsx:62-67 | a non-blank trimmed input that is not yet listed is appended and the input box cleared; a blank or already listed one leaves the list and the input box exactly as they were |
| EmployerSignup.AddSkillKeepsClean | src/app/components/employer/EmployerSignupFlow.tsx:62-67 | adding keeps the skills distinct, non-empty and trimmed |
| EmployerSignup.RemoveSkillKeepsClean | src/app/components/employer/EmployerSignupFlow.tsx:69-71 | removing keeps the skills clean, and the removed skill is gone |
| EmployerSignup.EmployerSignupFlow.constructor | src/app/components/employer/EmployerSignupFlow.tsx:26-40 | the flow starts at the company form, with empty data, an intern job type and no skills, courses or years |
| EmployerSignup.EmployerSignupFlow.SetSignupField | src/app/components/employer/EmployerSignupFlow.tsx:126-147 | changes one company field |
| EmployerSignup.EmployerSignupFlow.SetTitle | src/app/components/employer/EmployerSignupFlow.tsx:215 | changes the job title only |
| EmployerSignup.EmployerSignupFlow.SetJobType | src/app/components/employer/EmployerSignupFlow.tsx:226-237 | changes the job type only |
| EmployerSignup.EmployerSignupFlow.SetStartDate | src/app/components/employer/EmployerSignupFlow.tsx:336 | changes the start date only |
| EmployerSignup.EmployerSignupFlow.SetSkillInput | src/app/components/employer/EmployerSignupFlow.tsx:256 | changes the skill input box |
| EmployerSignup.EmployerSignupFlow.HandleSignup | src/app/components/employer/EmployerSignupFlow.tsx:42-45 | moves on to the job post |
| EmployerSignup.EmployerSignupFlow.HandleJobPost | src/app/components/employer/EmployerSignupFlow.tsx:47-53 | completes with the company details and a job posted |
| EmployerSignup.EmployerSignupFlow.HandleSkipJobPost | src/app/components/employer/EmployerSignupFlow.tsx:55-60 | completes with the company details and no job posted |
| EmployerSignup.EmployerSignupFlow.AddSkill | src/app/components/employer/EmployerSignupFlow.tsx:62-67 | skills and input become `AddSkillTo` of the old ones; no other job field changes; the skills stay clean |
| EmployerSignup.EmployerSignupFlow.RemoveSkill | src/app/components/employer/EmployerSignupFlow.tsx:69-71 | filters the skill out, changes no other job field, and the skill is no longer listed |
| EmployerSignup.EmployerSignupFlow.ToggleCourse | src/app/components/employer/EmployerSignupFlow.tsx:73-80 | toggles one course, changes no other job field and keeps the courses distinct |
| EmployerSignup.EmployerSignupFlow.ToggleYear | src/app/components/employer/EmployerSignupFlow.tsx:82-89 | toggles one year, changes no other job field and keeps the years distinct |
| UniversitySignup.NextCount | src/app/components/SignupFlow.tsx:41-48 | one tick never exceeds 50, reaches 50 exactly when the sum does, never lowers the count, and below 50 adds exactly the increment |
| UniversitySignup.RunTicks | src/app/components/SignupFlow.tsx:40-49 | the counter after the timer has fired with the given increments, firing no more once it reaches 50 |
| UniversitySignup.RunTicksBounds | src/app/components/SignupFlow.tsx:40-49 | over any run of ticks of at most 2, the counter never decreases, never passes 50, and grows by at most 2 per tick |
| UniversitySignup.TicksToFill | src/app/components/SignupFlow.tsx:40-49 | reaching 50 from 0 takes at least 25 ticks |
| UniversitySignup.SignupFlow.constructor | src/app/components/SignupFlow.tsx:26-34 | the flow starts at the account form with an empty form, no students and no timer |
| UniversitySignup.SignupFlow.SetField | src/app/components/SignupFlow.tsx:95-130 | changes one field of the account form |
| UniversitySignup.SignupFlow.HandleSignup | src/app/components/SignupFlow.tsx:36-50 | opens the invite screen and starts the timer with the counter at 0 |
| UniversitySignup.SignupFlow.Tick | src/app/components/SignupFlow.tsx:40-49 | a running timer moves the counter to `NextCount` and stops at 50; a stopped timer changes nothing; the counter never decreases |
| UniversitySignup.SignupFlow.HandleComplete | src/app/components/SignupFlow.tsx:52-54 | emits the account form as entered |
| UniversitySignup.SignupFlow.CopyInviteLink | src/app/components/SignupFlow.tsx:33-58 | copies the fixed invite link |
| StudentAuth.StudentSignIn.constructor | src/app/components/student/StudentSignIn.tsx:31-33 | all three fields start empty |
| StudentAuth.StudentSignIn.SetEmail | src/app/components/student/StudentSignIn.tsx:102 | sets the email |
| StudentAuth.StudentSignIn.SetPassword | src/app/components/student/StudentSignIn.tsx:117 | sets the password |
| StudentAuth.StudentSignIn.SetCollege | src/app/components/student/StudentSignIn.tsx:82 | sets the college |
| StudentAuth.StudentSignIn.HandleSubmit | src/app/components/student/StudentSignIn.tsx:35-40 | signs in exactly when email, password and college are all non-empty, with exactly those three values, and changes no field |

## Left out

- Rendering, styling, animation, icons and `toFixed(0)` rounding of the percentages are left out. The
  model keeps the exact percentages, and a `View` records only which component is mounted and the
  props the dashboards receive.
- Browser side effects are left out: `alert` (the handlers return the alert text), `console.log`
  (the handler returns what it would log), `navigator.clipboard` (the handler returns the copied
  text), `window.scrollTo` and `e.preventDefault`.
- HTML `required` validation is left out. It is browser behaviour outside the components.
  `SignupFlow.HandleSignup` and `EmployerSignupFlow.HandleSignup` therefore accept any form, as the
  handlers themselves do.
- `setInterval`, `Math.random` and the two-second period are left out: a tick is a call to
  `Tick(k)` with `k` in `0..2`. Submitting the signup form twice would start a second interval;
  the form is gone after the first submit, so the model allows `HandleSignup` only in the signup
  phase.
- `UniversitySignup.RunTicks` describes runs of ticks as a function; the class is not tied to it
  beyond `Tick`'s contract.
- Community.CommunityPostModal.HandlePollOptionChange: an index outside the options, which
  JavaScript would turn into an append or a sparse array, is excluded by its precondition. The
  inputs only pass indexes of rendered options.
- The seeded notifications and posts keep the fields the handlers use. The posts' texts, the seeded
  students, the metrics, the notification and profile popovers, the tab selection and the
  student-detail dialog are static display data.
- The landing pages, `SignIn.tsx` (university sign-in), `EmployerDashboard.tsx` and
  `StudentDashboard.tsx` are not part of this model. `App` records only that they are mounted and
  with which profile props.
- React's batching of state updates is not modelled: each handler is one atomic state change.
