/** The forgot-password page (app/auth/forgot-password/page.tsx): one email
    field and a submit handler that asks the auth provider for a reset link. */
module ForgotPassword {
  import opened Common
  import opened Backend
  import AuthContext

  const EmptyEmail := "Please enter your email address"
  const Unexpected := "An unexpected error occurred. Please try again."
  const SentToast := Toast("Reset link sent!", "Check your email for password reset instructions.", false)

  class ForgotPasswordPage {
    var email: string
    var isLoading: bool
    var error: string
    var isSubmitted: bool
    /** Addresses handed to `resetPassword`. */
    var resetRequests: seq<string>
    var toasts: seq<Toast>

    constructor ()
      ensures email == "" && !isLoading && error == "" && !isSubmitted && resetRequests == [] && toasts == []
    {
      email, isLoading, error, isSubmitted, resetRequests, toasts := "", false, "", false, [], [];
    }

    /** `handleSubmit`. `answer` is what the provider's resetPassword
        resolves to, or that it threw. */
    method HandleSubmit(answer: Call<AuthContext.GatewayResult>)
      modifies this
      ensures email == old(email)
      ensures old(isSubmitted) ==> isSubmitted
      ensures email == "" ==>
        error == EmptyEmail && resetRequests == old(resetRequests)
        && isSubmitted == old(isSubmitted) && isLoading == old(isLoading)
      ensures email != "" ==> resetRequests == old(resetRequests) + [email] && !isLoading
      ensures email != "" && answer.Returned? && answer.value.error.Some? ==>
        error == answer.value.error.value.message && isSubmitted == old(isSubmitted) && toasts == old(toasts)
      ensures email != "" && answer.Returned? && answer.value.error.None? ==>
        error == "" && isSubmitted && toasts == old(toasts) + [SentToast]
      ensures email != "" && answer.Threw? ==>
        error == Unexpected && isSubmitted == old(isSubmitted) && toasts == old(toasts)
      ensures email == "" ==> toasts == old(toasts)
    {
      error := "";
      if email == "" {
        error := EmptyEmail;
        return;
      }
      isLoading := true;
      resetRequests := resetRequests + [email];
      match answer {
        case Threw(_) =>
          error := Unexpected;
        case Returned(result) =>
          if result.error.Some? {
            error := result.error.value.message;
          } else {
            isSubmitted := true;
            toasts := toasts + [SentToast];
          }
      }
      isLoading := false;
    }
  }

  /** With the provider's client missing, a submission reports the
      provider's "not available" message and the page stays on its form. */
  method SubmitWithoutClient(address: string) returns (error: string, submitted: bool)
    requires address != ""
    ensures error == AuthContext.Unavailable && !submitted
  {
    var provider := new AuthContext.AuthProvider();
    var result, _ := provider.ResetPassword(address, None);
    var page := new ForgotPasswordPage();
    page.email := address;
    page.HandleSubmit(Returned(result));
    error, submitted := page.error, page.isSubmitted;
  }
}
