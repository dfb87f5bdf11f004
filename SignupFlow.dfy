/**
  * The university signup: the account form, then an invite screen whose
  * "students joined" counter is advanced by a timer until it reaches 50.
  */
module UniversitySignup {

  datatype Phase = SignupPhase | InvitePhase

  datatype UniversityForm = UniversityForm(name: string, email: string, universityName: string, designation: string)

  /** The inputs of the account form. */
  datatype FormField = Name | Email | UniversityName | Designation

  /** The counter's ceiling; the timer stops once it is reached. */
  const JoinCap: nat := 50

  const InviteLink := "https://oncampus.app/join/iit-delhi-2026"

  /** One timer tick adding `k` students: the sum, clamped to the ceiling. */
  function NextCount(prev: nat, k: nat): (r: nat)
    ensures r <= JoinCap
    ensures r == JoinCap <==> prev + k >= JoinCap
    ensures r < JoinCap ==> r == prev + k
    ensures prev <= JoinCap ==> prev <= r
  {
    if prev + k >= JoinCap then JoinCap else prev + k
  }

  /** The counter after the timer fires with increments `ks`; it stops firing at the ceiling. */
  function RunTicks(count: nat, ks: seq<nat>): nat
    decreases |ks|
  {
    if ks == [] || count >= JoinCap then count else RunTicks(NextCount(count, ks[0]), ks[1..])
  }

  /**
    * With increments of at most two, the counter never decreases, never passes
    * the ceiling, and grows by at most two per tick.
    */
  lemma {:induction false} RunTicksBounds(count: nat, ks: seq<nat>)
    requires count <= JoinCap
    requires forall i :: 0 <= i < |ks| ==> ks[i] <= 2
    ensures count <= RunTicks(count, ks) <= JoinCap
    ensures RunTicks(count, ks) <= count + 2 * |ks|
    decreases |ks|
  {
    if ks != [] && count < JoinCap {
      RunTicksBounds(NextCount(count, ks[0]), ks[1..]);
    }
  }

  /** Starting from zero, the counter needs at least 25 ticks to reach 50. */
  lemma TicksToFill(ks: seq<nat>)
    requires forall i :: 0 <= i < |ks| ==> ks[i] <= 2
    requires RunTicks(0, ks) == JoinCap
    ensures |ks| >= 25
  {
    RunTicksBounds(0, ks);
  }

  class SignupFlow {
    var step: Phase
    var formData: UniversityForm
    var studentsJoined: nat
    var timerRunning: bool

    /** The counter stays at most 50; a running timer has not reached it; nothing runs before signup. */
    ghost predicate Valid()
      reads this
    {
      && studentsJoined <= JoinCap
      && (timerRunning ==> studentsJoined < JoinCap)
      && (step == SignupPhase ==> !timerRunning && studentsJoined == 0)
    }

    constructor ()
      ensures Valid()
      ensures step == SignupPhase && formData == UniversityForm("", "", "", "")
      ensures studentsJoined == 0 && !timerRunning
    {
      step := SignupPhase;
      formData := UniversityForm("", "", "", "");
      studentsJoined := 0;
      timerRunning := false;
    }

    method SetField(field: FormField, value: string)
      modifies this`formData
      ensures formData == match field
        case Name => old(formData).(name := value)
        case Email => old(formData).(email := value)
        case UniversityName => old(formData).(universityName := value)
        case Designation => old(formData).(designation := value)
    {
      match field
      case Name => formData := formData.(name := value);
      case Email => formData := formData.(email := value);
      case UniversityName => formData := formData.(universityName := value);
      case Designation => formData := formData.(designation := value);
    }

    /** Submitting the account form (shown only in the signup phase) opens the invite screen and starts the timer. */
    method HandleSignup()
      requires Valid() && step == SignupPhase
      modifies this`step, this`timerRunning
      ensures Valid()
      ensures step == InvitePhase && timerRunning && studentsJoined == 0
    {
      step := InvitePhase;
      timerRunning := true;
    }

    /**
      * One firing of the timer, adding `k` (0, 1 or 2) students. At the ceiling
      * the timer is cleared; a cleared timer no longer fires.
      */
    method Tick(k: nat)
      requires Valid() && k <= 2
      modifies this`studentsJoined, this`timerRunning
      ensures Valid()
      ensures old(studentsJoined) <= studentsJoined
      ensures old(timerRunning) ==>
        studentsJoined == NextCount(old(studentsJoined), k) && (timerRunning <==> studentsJoined < JoinCap)
      ensures !old(timerRunning) ==> studentsJoined == old(studentsJoined) && !timerRunning
    {
      if timerRunning {
        studentsJoined := NextCount(studentsJoined, k);
        if studentsJoined >= JoinCap {
          timerRunning := false;
        }
      }
    }

    /** Finishing hands over the account form as it stands. */
    method HandleComplete() returns (data: UniversityForm)
      ensures data == formData
    {
      data := formData;
    }

    /** The text put on the clipboard. */
    method CopyInviteLink() returns (copied: string)
      ensures copied == InviteLink
    {
      copied := InviteLink;
    }
  }
}
