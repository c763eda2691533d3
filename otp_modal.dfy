/**
 * The verification-code dialog.  It keeps the typed code and a busy flag,
 * submits the code through the session store, and asks its owner to close
 * it by returning `true` where the source calls its `onClose` callback.
 */
module OtpModal {
  import opened AuthContext

  const OtpLength: nat := 6

  class OtpDialog {
    var otp: string
    var isLoading: bool

    constructor ()
      ensures otp == "" && !isLoading
    {
      otp := "";
      isLoading := false;
    }

    /** `disabled={otp.length !== 6 || isLoading}`: a busy dialog or an empty code cannot be submitted. */
    predicate SubmitDisabled()
      reads this
      ensures isLoading ==> SubmitDisabled()
      ensures otp == "" ==> SubmitDisabled()
    {
      |otp| != OtpLength || isLoading
    }

    /** The code input's `onChange`. */
    method OnOtpChange(value: string)
      modifies this
      ensures otp == value && isLoading == old(isLoading)
    {
      otp := value;
    }

    /**
     * `handleSubmit`: a code of the wrong length does nothing; otherwise the
     * code is verified for `email` exactly as typed.  Success asks to close the
     * dialog; failure clears the code and keeps the dialog open.  Either way
     * the dialog is no longer busy afterwards.
     */
    method HandleSubmit(session: Session, email: string, suffix: string,
                        resp: Response<VerifyBody>, fetchResp: Response<User>) returns (closeRequested: bool)
      requires session.Valid()
      modifies this, session
      ensures session.Valid()
      ensures |old(otp)| != OtpLength ==>
        !closeRequested && otp == old(otp) && isLoading == old(isLoading) && session.Snapshot() == old(session.Snapshot())
      ensures |old(otp)| == OtpLength ==>
        var t := VerifyOtpStep(old(session.Snapshot()), email, old(otp), suffix, resp, fetchResp);
        && session.Snapshot() == t.next
        && closeRequested == t.result.Done?
        && otp == (if t.result.Done? then old(otp) else "")
        && !isLoading
    {
      if |otp| != OtpLength {
        return false;
      }
      isLoading := true;
      var result := session.VerifyOTP(email, otp, suffix, resp, fetchResp);
      if result.Done? {
        closeRequested := true;
      } else {
        otp := "";
        closeRequested := false;
      }
      isLoading := false;
    }

    /** `handleClose`: clear the code and the busy flag, then ask to close. */
    method HandleClose() returns (closeRequested: bool)
      modifies this
      ensures otp == "" && !isLoading && closeRequested
    {
      otp := "";
      isLoading := false;
      closeRequested := true;
    }
  }

  /** An enabled submit button means a full-length code and an idle dialog, so a click passes the gate. */
  lemma EnabledSubmitPassesGate(d: OtpDialog)
    requires !d.SubmitDisabled()
    ensures |d.otp| == OtpLength && !d.isLoading
  {
  }
}
