/** The password form of the security settings (components/settings/security-settings.tsx).
    The password change itself is a stub in the component; what it does is
    check that the two new passwords agree, then clear the form. */
module SecuritySettings {
  import opened Backend

  datatype PasswordForm = PasswordForm(currentPassword: string, newPassword: string, confirmPassword: string)

  const EmptyForm := PasswordForm("", "", "")
  const MismatchToast := Toast("Error", "New passwords do not match.", true)
  const UpdatedToast := Toast("Password updated", "Your password has been changed successfully.", false)

  /** The form is accepted exactly when the new password and its
      confirmation agree. */
  function Accepts(form: PasswordForm): (ok: bool)
    ensures ok <==> form.newPassword == form.confirmPassword
  {
    form.newPassword == form.confirmPassword
  }

  /** The current password plays no part in the check. */
  lemma CurrentPasswordIrrelevant(form: PasswordForm, current: string)
    ensures Accepts(form.(currentPassword := current)) == Accepts(form)
  {
  }

  class SecurityPanel {
    var isLoading: bool
    var passwordData: PasswordForm
    var toasts: seq<Toast>

    constructor ()
      ensures !isLoading && passwordData == EmptyForm && toasts == []
    {
      isLoading, passwordData, toasts := false, EmptyForm, [];
    }

    /** `handlePasswordChange` */
    method HandlePasswordChange()
      modifies this
      ensures !Accepts(old(passwordData)) ==>
        passwordData == old(passwordData) && isLoading == old(isLoading) && toasts == old(toasts) + [MismatchToast]
      ensures Accepts(old(passwordData)) ==>
        passwordData == EmptyForm && !isLoading && toasts == old(toasts) + [UpdatedToast]
    {
      if passwordData.newPassword != passwordData.confirmPassword {
        toasts := toasts + [MismatchToast];
        return;
      }
      isLoading := true;
      toasts := toasts + [UpdatedToast];
      passwordData := PasswordForm("", "", "");
      isLoading := false;
    }
  }
}
