/**
 * The KYC progress bar: four fixed steps whose completion is read off the
 * user's flags, the number completed, and the percentage shown.
 */
module KycProgress {
  import opened Wrappers
  import opened AuthContext

  datatype Step = Step(id: nat, title: string, completed: bool)

  /** The `steps` array, in display order; `user?.flag` of a missing user completes nothing. */
  function Steps(user: Option<User>): (r: seq<Step>)
    ensures |r| == 4
    ensures user.None? ==> forall i :: 0 <= i < |r| ==> !r[i].completed
  {
    [ Step(1, "Email Verified", user.Some? && user.value.emailVerified),
      Step(2, "Profile Completed", user.Some? && user.value.profileCompleted),
      Step(3, "Documents Uploaded", user.Some? && user.value.documentsUploaded),
      Step(4, "KYC Approved", user.Some? && user.value.kycStatus == Approved) ]
  }

  /** `steps.filter(step => step.completed === true).length` */
  function CountCompleted(steps: seq<Step>): (n: nat)
    ensures n <= |steps|
    ensures n == |steps| <==> forall i :: 0 <= i < |steps| ==> steps[i].completed
    ensures n == 0 <==> forall i :: 0 <= i < |steps| ==> !steps[i].completed
  {
    if steps == [] then 0
    else
      var rest := CountCompleted(steps[1..]);
      assert forall i :: 1 <= i < |steps| ==> steps[i] == steps[1..][i - 1];
      (if steps[0].completed then 1 else 0) + rest
  }

  /** The number of completed steps: at most four. */
  function CompletedSteps(user: Option<User>): (n: nat)
    ensures n <= 4
  {
    CountCompleted(Steps(user))
  }

  /** `(completedSteps / steps.length) * 100`, exact for four steps. */
  function ProgressPercentage(user: Option<User>): (p: int)
    ensures p == 25 * CompletedSteps(user) && 0 <= p <= 100
    ensures p == 100 <==> user.Some? && user.value.emailVerified && user.value.profileCompleted
                          && user.value.documentsUploaded && user.value.kycStatus == Approved
  {
    var steps := Steps(user);
    assert steps[0].completed && steps[1].completed && steps[2].completed && steps[3].completed
           <==> forall i :: 0 <= i < |steps| ==> steps[i].completed;
    CompletedSteps(user) * 100 / |steps|
  }

  /** Exactly four steps, identified 1 to 4, in the order email, profile, documents, KYC. */
  lemma StepsFixed(user: Option<User>)
    ensures |Steps(user)| == 4
    ensures forall i :: 0 <= i < 4 ==> Steps(user)[i].id == i + 1
    ensures Steps(user)[0].title == "Email Verified" && Steps(user)[1].title == "Profile Completed"
    ensures Steps(user)[2].title == "Documents Uploaded" && Steps(user)[3].title == "KYC Approved"
  {
  }

  /** The KYC step counts only an approved status; pending and rejected do not. */
  lemma KycStepNeedsApproval(user: Option<User>)
    ensures Steps(user)[3].completed <==> user.Some? && user.value.kycStatus == Approved
    ensures user.Some? && user.value.kycStatus in {Pending, Rejected} ==> !Steps(user)[3].completed
  {
  }

  /** Without a user every step is open and nothing is completed. */
  lemma {:induction false} NoUserNoProgress()
    ensures forall i :: 0 <= i < |Steps(None)| ==> !Steps(None)[i].completed
    ensures CompletedSteps(None) == 0 && ProgressPercentage(None) == 0
  {
  }

  /** The completed count is one step per flag that holds. */
  lemma {:induction false} CompletedStepsCountsFlags(user: Option<User>)
    requires user.Some?
    ensures var u := user.value;
      CompletedSteps(user) ==
        (if u.emailVerified then 1 else 0) + (if u.profileCompleted then 1 else 0)
        + (if u.documentsUploaded then 1 else 0) + (if u.kycStatus == Approved then 1 else 0)
  {
    var s := Steps(user);
    var one, two, three := s[1..], s[1..][1..], s[1..][1..][1..];
    assert one == [s[1], s[2], s[3]] && two == [s[2], s[3]] && three == [s[3]] && three[1..] == [];
    assert CountCompleted(three) == if s[3].completed then 1 else 0;
    assert CountCompleted(two) == (if s[2].completed then 1 else 0) + CountCompleted(three);
    assert CountCompleted(one) == (if s[1].completed then 1 else 0) + CountCompleted(two);
    assert CountCompleted(s) == (if s[0].completed then 1 else 0) + CountCompleted(one);
  }
}
