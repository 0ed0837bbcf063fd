/** The password change form (app/change-password.tsx:21-51): a chain of checks
    on the three fields, then the call that would change the password. */
module ChangePassword {
  import opened Common

  const FieldsRequired := "Semua field harus diisi"
  const PasswordMismatch := "Password baru dan konfirmasi password tidak cocok"
  const NewPasswordTooShort := "Password baru minimal 6 karakter"
  const ChangeFailed := "Gagal mengubah password. Silakan coba lagi."

  /** The message that stops a password change, if any. The checks run in a
      fixed order: all three fields filled, then the new password equal to its
      confirmation, then its length; the first that fails decides the message. */
  function ChangePasswordError(oldPassword: string, newPassword: string, confirmPassword: string): (r: Option<string>)
    ensures r == None <==>
      oldPassword != "" && newPassword != "" && confirmPassword != ""
      && newPassword == confirmPassword && |newPassword| >= MinPasswordLength
    ensures oldPassword == "" || newPassword == "" || confirmPassword == "" ==> r == Some(FieldsRequired)
    ensures oldPassword != "" && newPassword != "" && confirmPassword != "" && newPassword != confirmPassword ==>
      r == Some(PasswordMismatch)
    ensures (oldPassword != "" && newPassword != "" && confirmPassword != "" && newPassword == confirmPassword &&
      |newPassword| < MinPasswordLength) ==> r == Some(NewPasswordTooShort)
    ensures r == Some(NewPasswordTooShort) ==>
      oldPassword != "" && newPassword == confirmPassword && |newPassword| < MinPasswordLength
  {
    if oldPassword == "" || newPassword == "" || confirmPassword == "" then Some(FieldsRequired)
    else if newPassword != confirmPassword then Some(PasswordMismatch)
    else if |newPassword| < MinPasswordLength then Some(NewPasswordTooShort)
    else None
  }

  /** The old password is only required to be non-empty: the form never compares
      it with anything, so any two non-empty old passwords get the same verdict. */
  lemma OldPasswordNotChecked(old1: string, old2: string, newPassword: string, confirmPassword: string)
    requires old1 != "" && old2 != ""
    ensures ChangePasswordError(old1, newPassword, confirmPassword) == ChangePasswordError(old2, newPassword, confirmPassword)
  {
  }

  class ChangePasswordScreen {
    var oldPassword: string
    var newPassword: string
    var confirmPassword: string
    var error: string
    var isLoading: bool

    constructor ()
      ensures oldPassword == "" && newPassword == "" && confirmPassword == ""
      ensures error == "" && !isLoading
    {
      oldPassword, newPassword, confirmPassword := "", "", "";
      error, isLoading := "", false;
    }

    /** `handleSave()`. A refused form calls nothing. Otherwise the old and the
        new password are handed on as typed, and the screen goes back only when
        the call succeeds. */
    method HandleSave(attempt: Outcome<()>) returns (sent: Option<(string, string)>, navigated: bool)
      modifies this`error, this`isLoading
      ensures ChangePasswordError(oldPassword, newPassword, confirmPassword).Some? ==>
        && sent == None && !navigated
        && error == ChangePasswordError(oldPassword, newPassword, confirmPassword).value
        && isLoading == old(isLoading)
      ensures ChangePasswordError(oldPassword, newPassword, confirmPassword).None? ==>
        && sent == Some((oldPassword, newPassword))
        && !isLoading
        && navigated == attempt.Resolved?
        && error == if attempt.Resolved? then "" else DisplayMessage(attempt.thrown, ChangeFailed)
    {
      var refusal := ChangePasswordError(oldPassword, newPassword, confirmPassword);
      if refusal.Some? {
        error := refusal.value;
        return None, false;
      }
      error := "";
      isLoading := true;
      sent := Some((oldPassword, newPassword));
      match attempt {
        case Resolved(_) =>
          navigated := true;
        case Rejected(t) =>
          error := DisplayMessage(t, ChangeFailed);
          navigated := false;
      }
      isLoading := false;
    }
  }
}
