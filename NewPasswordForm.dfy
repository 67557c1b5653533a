/**
 * The forced password change of components/NewPasswordForm.tsx: two local
 * checks in a fixed order, then a single call of the context's password
 * challenge, followed by a toast.
 *
 * The challenge call belongs to a context member that the authentication
 * context in this repository does not declare; its outcome is a parameter.
 * With that context the member is `undefined`, so invoking it throws, which
 * is the `Threw` outcome.
 * `contextError` is the context's `error` as captured when the form was last
 * drawn, which is the value `handleSubmit` reads after the call.
 */
module NewPasswordForm {
  import opened Outcomes

  const MismatchError := "Passwords do not match"
  const TooShortError := "Password must be at least 8 characters"
  const MinPasswordLength := 8

  datatype Toast = Toast(title: string, description: string, destructive: bool)

  const SuccessToast := Toast("Password changed", "Your password has been updated successfully.", false)

  function FailureToast(error: string): Toast {
    Toast("Password change failed", error, true)
  }

  /**
   * The local error the two checks produce, if any: a mismatch is reported
   * before the length, whatever the length.
   */
  function LocalCheck(newPassword: string, confirmPassword: string): (err: Option<string>)
    ensures err.None? <==> newPassword == confirmPassword && |newPassword| >= MinPasswordLength
    ensures newPassword != confirmPassword ==> err == Some(MismatchError)
    ensures newPassword == confirmPassword && |newPassword| < MinPasswordLength ==> err == Some(TooShortError)
  {
    if newPassword != confirmPassword then Some(MismatchError)
    else if |newPassword| < MinPasswordLength then Some(TooShortError)
    else None
  }

  class NewPasswordForm {
    var newPassword: string
    var confirmPassword: string
    var localError: string
    /** The passwords the challenge was invoked with, oldest first, whether or not the invocation threw. */
    var challengeCalls: seq<string>
    /** The toasts shown, oldest first. */
    var toasts: seq<Toast>

    constructor ()
      ensures newPassword == "" && confirmPassword == "" && localError == ""
      ensures challengeCalls == [] && toasts == []
    {
      newPassword := "";
      confirmPassword := "";
      localError := "";
      challengeCalls := [];
      toasts := [];
    }

    method SetNewPassword(text: string)
      modifies this`newPassword
      ensures newPassword == text
    {
      newPassword := text;
    }

    method SetConfirmPassword(text: string)
      modifies this`confirmPassword
      ensures confirmPassword == text
    {
      confirmPassword := text;
    }

    /**
     * `handleSubmit`: a failed check sets its message and makes no call;
     * otherwise the local error is cleared and the challenge is invoked once
     * with the new password. When it resolves, a toast follows on success,
     * or on failure when the context reports an error; when it throws, the
     * handler rejects with that error and no toast is shown.
     */
    method HandleSubmit(contextError: string, challenge: Call<bool>) returns (r: Call<()>)
      modifies this`localError, this`challengeCalls, this`toasts
      ensures LocalCheck(newPassword, confirmPassword).Some? ==>
                r == Returned(()) && localError == LocalCheck(newPassword, confirmPassword).value
                && challengeCalls == old(challengeCalls) && toasts == old(toasts)
      ensures LocalCheck(newPassword, confirmPassword).None? ==>
                localError == "" && challengeCalls == old(challengeCalls) + [newPassword]
      ensures LocalCheck(newPassword, confirmPassword).None? && challenge.Returned? ==>
                r == Returned(())
                && toasts == old(toasts) + (if challenge.value then [SuccessToast]
                                            else if contextError != "" then [FailureToast(contextError)]
                                            else [])
      ensures LocalCheck(newPassword, confirmPassword).None? && challenge.Threw? ==>
                r == Threw(challenge.message) && toasts == old(toasts)
    {
      if newPassword != confirmPassword {
        localError := MismatchError;
        return Returned(());
      }
      if |newPassword| < MinPasswordLength {
        localError := TooShortError;
        return Returned(());
      }
      localError := "";
      challengeCalls := challengeCalls + [newPassword];
      if challenge.Threw? {
        return Threw(challenge.message);
      }
      if challenge.value {
        toasts := toasts + [SuccessToast];
      } else if contextError != "" {
        toasts := toasts + [FailureToast(contextError)];
      }
      r := Returned(());
    }

    /** `(error || localError) && <Alert>{error || localError}</Alert>`: the context error wins. */
    function AlertText(contextError: string): (alert: Option<string>)
      reads this
      ensures alert.Some? <==> contextError != "" || localError != ""
      ensures alert.Some? ==> alert.value != ""
      ensures contextError != "" ==> alert == Some(contextError)
      ensures contextError == "" && localError != "" ==> alert == Some(localError)
    {
      if contextError != "" then Some(contextError)
      else if localError != "" then Some(localError)
      else None
    }
  }
}
