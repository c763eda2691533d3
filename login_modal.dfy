/**
 * The sign-in dialog: the e-mail pattern, the dialog's fields, and the
 * verification-code dialog it owns and opens once a code has been sent.
 */
module LoginModal {
  import opened JsText
  import opened AuthContext
  import opened OtpModal

  /** A character of the class `[^\s@]`. */
  predicate AddressChar(c: char)
  {
    !IsJsWhitespace(c) && c != '@'
  }

  /** `[^\s@]+` */
  predicate AddressRun(s: string)
  {
    s != [] && forall i :: 0 <= i < |s| ==> AddressChar(s[i])
  }

  /**
   * `/^[^\s@]+@[^\s@]+\.[^\s@]+$/.test(email)`: the whole string splits as a
   * run, `@`, a run, `.`, a run.  An accepted address has at least five
   * characters and neither starts nor ends with whitespace or `@`.
   */
  predicate IsValidEmail(email: string)
    ensures IsValidEmail(email) ==> 5 <= |email| && AddressChar(email[0]) && AddressChar(email[|email| - 1])
  {
    exists at, dot | 0 < at < dot < |email| ::
      && email[at] == '@' && email[dot] == '.'
      && AddressRun(email[..at]) && AddressRun(email[at + 1..dot]) && AddressRun(email[dot + 1..])
  }

  /**
   * The reading of the pattern in words: no whitespace, exactly one `@`, a
   * non-empty part before it, and a `.` after it that is neither the first nor
   * the last character of the part after the `@`.
   */
  predicate WellFormedAddress(email: string)
  {
    && (forall i :: 0 <= i < |email| ==> !IsJsWhitespace(email[i]))
    && exists at | 0 < at < |email| ::
         && email[at] == '@'
         && (forall k :: 0 <= k < |email| && k != at ==> email[k] != '@')
         && (exists dot | at + 1 < dot < |email| - 1 :: email[dot] == '.')
  }

  lemma {:induction false} ValidEmailIsWellFormed(email: string)
    requires IsValidEmail(email)
    ensures WellFormedAddress(email)
  {
    var at, dot :| 0 < at < dot < |email| && email[at] == '@' && email[dot] == '.'
      && AddressRun(email[..at]) && AddressRun(email[at + 1..dot]) && AddressRun(email[dot + 1..]);
    forall k | 0 <= k < |email| && k != at ensures AddressChar(email[k]) {
      if k < at {
        assert email[k] == email[..at][k];
      } else if k < dot {
        assert email[k] == email[at + 1..dot][k - at - 1];
      } else if k > dot {
        assert email[k] == email[dot + 1..][k - dot - 1];
      }
    }
    assert at + 1 < dot < |email| - 1 by {
      assert email[at + 1..dot] != [] && email[dot + 1..] != [];
    }
  }

  lemma {:induction false} WellFormedIsValidEmail(email: string)
    requires WellFormedAddress(email)
    ensures IsValidEmail(email)
  {
    var at :| 0 < at < |email| && email[at] == '@'
      && (forall k :: 0 <= k < |email| && k != at ==> email[k] != '@')
      && (exists dot | at + 1 < dot < |email| - 1 :: email[dot] == '.');
    var dot :| at + 1 < dot < |email| - 1 && email[dot] == '.';
    var local, domain, top := email[..at], email[at + 1..dot], email[dot + 1..];
    forall i | 0 <= i < |local| ensures AddressChar(local[i]) {
      assert local[i] == email[i];
    }
    forall i | 0 <= i < |domain| ensures AddressChar(domain[i]) {
      assert domain[i] == email[at + 1 + i];
    }
    forall i | 0 <= i < |top| ensures AddressChar(top[i]) {
      assert top[i] == email[dot + 1 + i];
    }
  }

  /** The pattern accepts exactly the well-formed addresses. */
  lemma ValidEmailIff(email: string)
    ensures IsValidEmail(email) <==> WellFormedAddress(email)
  {
    if IsValidEmail(email) {
      ValidEmailIsWellFormed(email);
    }
    if WellFormedAddress(email) {
      WellFormedIsValidEmail(email);
    }
  }

  class LoginDialog {
    var email: string
    var isLoading: bool
    var showOTP: bool
    const otpModal: OtpDialog

    constructor ()
      ensures email == "" && !isLoading && !showOTP
      ensures fresh(otpModal) && otpModal.otp == "" && !otpModal.isLoading
    {
      email := "";
      isLoading := false;
      showOTP := false;
      otpModal := new OtpDialog();
    }

    /** The sign-in panel is rendered while the dialog is open and no code is awaited; a closed dialog renders nothing. */
    predicate DialogVisible(isOpen: bool)
      reads this
      ensures !isOpen ==> !DialogVisible(isOpen)
    {
      isOpen && !showOTP
    }

    /** The `isOpen` passed to the verification-code dialog: open exactly when the sign-in panel is hidden however `isOpen` is set. */
    predicate OtpModalOpen()
      reads this
      ensures OtpModalOpen() <==> forall isOpen :: !DialogVisible(isOpen)
    {
      assert DialogVisible(true) <==> !showOTP;
      showOTP
    }

    /** `disabled={!isValidEmail || isLoading}`: a busy dialog or an empty address cannot be submitted. */
    predicate SubmitDisabled()
      reads this
      ensures isLoading ==> SubmitDisabled()
      ensures email == "" ==> SubmitDisabled()
    {
      !IsValidEmail(email) || isLoading
    }

    /** The e-mail input's `onChange`. */
    method OnEmailChange(value: string)
      modifies this
      ensures email == value && isLoading == old(isLoading) && showOTP == old(showOTP)
    {
      email := value;
    }

    /**
     * `handleSubmit`: an address the pattern rejects does nothing and sends
     * nothing; otherwise `login` runs for it, a success opens the code dialog,
     * a failure leaves `showOTP` as it was, and the dialog ends not busy.
     */
    method HandleSubmit(session: Session, suffix: string, resp: Response<()>)
      requires session.Valid()
      modifies this, session
      ensures session.Valid() && email == old(email)
      ensures !IsValidEmail(old(email)) ==>
        isLoading == old(isLoading) && showOTP == old(showOTP) && session.Snapshot() == old(session.Snapshot())
      ensures IsValidEmail(old(email)) ==>
        var t := LoginStep(old(session.Snapshot()), old(email), suffix, resp);
        && session.Snapshot() == t.next
        && !isLoading
        && showOTP == (t.result.Done? || old(showOTP))
    {
      if !IsValidEmail(email) {
        return;
      }
      isLoading := true;
      var result := session.Login(email, suffix, resp);
      if result.Done? {
        showOTP := true;
      }
      isLoading := false;
    }

    /** `handleClose`: reset the fields, then call the owner's `onClose` (returned as `true`). */
    method HandleClose() returns (closeRequested: bool)
      modifies this
      ensures email == "" && !isLoading && !showOTP && closeRequested
    {
      email := "";
      isLoading := false;
      showOTP := false;
      closeRequested := true;
    }

    /** `handleToggleSignUp`: close as `handleClose` does, then ask the owner to show the sign-up dialog. */
    method HandleToggleSignUp() returns (closeRequested: bool, signUpRequested: bool)
      modifies this
      ensures email == "" && !isLoading && !showOTP && closeRequested && signUpRequested
    {
      closeRequested := HandleClose();
      signUpRequested := true;
    }

    /** `handleOTPClose`, the code dialog's `onClose`: hide the code dialog, keep the address. */
    method HandleOTPClose()
      modifies this
      ensures !showOTP && email == old(email) && isLoading == old(isLoading)
    {
      showOTP := false;
    }

    /** A code submitted in the owned dialog, for this dialog's address; a success hides the code dialog. */
    method SubmitOtp(session: Session, suffix: string, resp: Response<VerifyBody>, fetchResp: Response<User>)
      requires session.Valid()
      modifies otpModal, session, this
      ensures session.Valid() && email == old(email) && isLoading == old(isLoading)
      ensures |old(otpModal.otp)| == OtpLength ==>
        var t := VerifyOtpStep(old(session.Snapshot()), old(email), old(otpModal.otp), suffix, resp, fetchResp);
        && session.Snapshot() == t.next
        && (showOTP <==> old(showOTP) && t.result.Threw?)
        && otpModal.otp == (if t.result.Done? then old(otpModal.otp) else "")
        && !otpModal.isLoading
      ensures |old(otpModal.otp)| != OtpLength ==>
        && session.Snapshot() == old(session.Snapshot()) && showOTP == old(showOTP)
        && otpModal.otp == old(otpModal.otp) && otpModal.isLoading == old(otpModal.isLoading)
    {
      var close := otpModal.HandleSubmit(session, email, suffix, resp, fetchResp);
      if close {
        HandleOTPClose();
      }
    }

    /** The code dialog's own close button. */
    method CloseOtp()
      modifies otpModal, this
      ensures !showOTP && email == old(email) && isLoading == old(isLoading)
      ensures otpModal.otp == "" && !otpModal.isLoading
    {
      var close := otpModal.HandleClose();
      if close {
        HandleOTPClose();
      }
    }
  }

  /** The sign-in panel and the code dialog are never shown together. */
  lemma NeverBothShown(d: LoginDialog, isOpen: bool)
    ensures !(d.DialogVisible(isOpen) && d.OtpModalOpen())
  {
  }

  /** An enabled submit button means an address the pattern accepts and an idle dialog. */
  lemma EnabledSubmitSendsLogin(d: LoginDialog)
    requires !d.SubmitDisabled()
    ensures IsValidEmail(d.email) && !d.isLoading
  {
  }
}
