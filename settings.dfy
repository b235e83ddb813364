/** The password-change form of the settings page (src/pages/SettingsPage.tsx). */
module Settings {
  import opened Wrappers

  const MinPasswordLength: nat := 6

  /** Which way the submit handler leaves before or at the update call. */
  datatype PasswordCheck = Mismatch | TooShort | Accepted

  /** The two checks, in the order the handler runs them. A mismatch is
      reported whatever the length; a too-short password only when the two
      entries agree; the update goes ahead only when both checks pass. */
  function CheckPasswords(newPassword: string, confirmation: string): (r: PasswordCheck)
    ensures r == Mismatch <==> newPassword != confirmation
    ensures r == TooShort <==> newPassword == confirmation && |newPassword| < MinPasswordLength
    ensures r == Accepted <==> newPassword == confirmation && |newPassword| >= MinPasswordLength
  {
    if newPassword != confirmation then Mismatch
    else if |newPassword| < MinPasswordLength then TooShort
    else Accepted
  }

  /** The password fields of the settings page. */
  class SettingsPage {
    var currentPassword: string
    var newPassword: string
    var confirmNewPassword: string
    var loadingPasswordChange: bool

    constructor ()
      ensures currentPassword == "" && newPassword == "" && confirmNewPassword == ""
      ensures !loadingPasswordChange
    {
      currentPassword, newPassword, confirmNewPassword := "", "", "";
      loadingPasswordChange := false;
    }

    method SetNewPassword(v: string)
      modifies this`newPassword
      ensures newPassword == v
    {
      newPassword := v;
    }

    method SetConfirmNewPassword(v: string)
      modifies this`confirmNewPassword
      ensures confirmNewPassword == v
    {
      confirmNewPassword := v;
    }

    /** handlePasswordChange up to its await. A rejected submission returns
        early: no update request, and the loading flag is not touched. An
        accepted one raises the loading flag and requests the new password. */
    method SubmitPasswordChange() returns (check: PasswordCheck, request: Option<string>)
      modifies this`loadingPasswordChange
      ensures check == CheckPasswords(newPassword, confirmNewPassword)
      ensures request == if check == Accepted then Some(newPassword) else None
      ensures loadingPasswordChange == if check == Accepted then true else old(loadingPasswordChange)
    {
      if newPassword != confirmNewPassword {
        return Mismatch, None;
      }
      if |newPassword| < MinPasswordLength {
        return TooShort, None;
      }
      loadingPasswordChange := true;
      check, request := Accepted, Some(newPassword);
    }

    /** handlePasswordChange after the update answers (`error` is its failure
        message, if any). Success clears the three password fields; failure
        leaves them. The loading flag drops either way. */
    method FinishPasswordChange(error: Option<string>)
      modifies this`currentPassword, this`newPassword, this`confirmNewPassword, this`loadingPasswordChange
      ensures !loadingPasswordChange
      ensures error.None? ==> currentPassword == "" && newPassword == "" && confirmNewPassword == ""
      ensures error.Some? ==> currentPassword == old(currentPassword) && newPassword == old(newPassword)
                              && confirmNewPassword == old(confirmNewPassword)
    {
      if error.None? {
        currentPassword := "";
        newPassword := "";
        confirmNewPassword := "";
      }
      loadingPasswordChange := false;
    }
  }
}
