/**
 * The reset-password page: the token from the link is verified on mount,
 * the form checks that both passwords agree and are at least eight
 * characters before it sends the new password, and a successful reset
 * clears the login page's failed-attempt entries.
 */
module ResetPassword {
  import opened Common
  import Login

  /** `data.msg || fallback`. */
  function MessageOr(msg: Option<string>, fallback: string): (r: string)
    ensures msg.Some? && msg.value != "" ==> r == msg.value
    ensures !(msg.Some? && msg.value != "") ==> r == fallback
  {
    if msg.Some? && msg.value != "" then msg.value else fallback
  }

  /** How the verify-reset-token request ended. */
  datatype VerifyResponse = TokenOk(email: Option<string>) | TokenRejected(msg: Option<string>) | VerifyNetworkError

  /** How the reset-password request ended. */
  datatype ResetResponse = ResetOk | ResetRejected(msg: Option<string>) | ResetNetworkError

  /** Which of the four screens the page renders. */
  datatype View = Verifying | Invalid | Succeeded | Form

  const MinLength: int := 8

  const MismatchMessage: string := "Passwords do not match"
  const TooShortMessage: string := "Password must be at least 8 characters long"
  const InvalidLinkMessage: string := "Invalid reset link"
  const ExpiredLinkMessage: string := "Invalid or expired reset link"
  const NetworkErrorMessage: string := "Network error. Please try again."
  const ResetFailedMessage: string := "Failed to reset password"

  /** The validation handleSubmit does before any request: mismatch first, then length. */
  function Validate(password: string, confirmPassword: string): (r: Option<string>)
    ensures r.None? <==> password == confirmPassword && |password| >= MinLength
    ensures password != confirmPassword ==> r == Some(MismatchMessage)
    ensures password == confirmPassword && |password| < MinLength ==>
      r == Some(TooShortMessage)
  {
    if password != confirmPassword then Some(MismatchMessage)
    else if |password| < MinLength then Some(TooShortMessage)
    else None
  }

  class ResetPasswordPage {
    /** The `token` search parameter; None when absent. */
    var token: Option<string>
    var password: string
    var confirmPassword: string
    var isLoading: bool
    var error: string
    var success: bool
    /** null until the verification answers. */
    var tokenValid: Option<bool>
    var userEmail: string
    /** The browser's localStorage. */
    var storage: map<string, string>
    /** The tokens sent to verify-reset-token, in order. */
    var verifications: seq<string>
    /** The (token, password) pairs sent to reset-password, in order. */
    var resets: seq<(string, string)>
    /** Whether the delayed redirect to /login has been scheduled. */
    var redirectScheduled: bool

    constructor(linkToken: Option<string>, saved: map<string, string>)
      ensures token == linkToken && storage == saved
      ensures password == "" && confirmPassword == "" && !isLoading && error == "" && !success
      ensures tokenValid == None && userEmail == "" && verifications == [] && resets == [] && !redirectScheduled
    {
      token := linkToken;
      storage := saved;
      password := "";
      confirmPassword := "";
      isLoading := false;
      error := "";
      success := false;
      tokenValid := None;
      userEmail := "";
      verifications := [];
      resets := [];
      redirectScheduled := false;
    }

    predicate HasToken()
      reads this
    {
      token.Some? && token.value != ""
    }

    /**
     * The mount effect. Without a token it marks the link invalid and sends
     * nothing; otherwise it sends the token and applies `response`.
     */
    method Mount(response: VerifyResponse)
      modifies this
      ensures !old(HasToken()) ==>
        error == InvalidLinkMessage && tokenValid == Some(false)
        && verifications == old(verifications) && userEmail == old(userEmail)
      ensures old(HasToken()) ==> verifications == old(verifications) + [old(token).value]
      ensures old(HasToken()) && response.TokenOk? ==>
        tokenValid == Some(true) && userEmail == MessageOr(response.email, "") && error == old(error)
      ensures old(HasToken()) && response.TokenRejected? ==>
        tokenValid == Some(false) && error == MessageOr(response.msg, ExpiredLinkMessage)
        && userEmail == old(userEmail)
      ensures old(HasToken()) && response.VerifyNetworkError? ==>
        tokenValid == Some(false) && error == NetworkErrorMessage && userEmail == old(userEmail)
      ensures token == old(token) && password == old(password) && confirmPassword == old(confirmPassword)
      ensures isLoading == old(isLoading) && success == old(success) && storage == old(storage)
      ensures resets == old(resets) && redirectScheduled == old(redirectScheduled)
    {
      if !(token.Some? && token.value != "") {
        error := InvalidLinkMessage;
        tokenValid := Some(false);
        return;
      }
      verifications := verifications + [token.value];
      match response {
        case TokenOk(email) =>
          tokenValid := Some(true);
          userEmail := MessageOr(email, "");
        case TokenRejected(msg) =>
          tokenValid := Some(false);
          error := MessageOr(msg, ExpiredLinkMessage);
        case VerifyNetworkError =>
          tokenValid := Some(false);
          error := NetworkErrorMessage;
      }
    }

    method SetPassword(value: string)
      modifies this`password
      ensures password == value
      ensures confirmPassword == old(confirmPassword) && error == old(error) && resets == old(resets)
      ensures token == old(token) && tokenValid == old(tokenValid) && success == old(success)
      ensures isLoading == old(isLoading) && storage == old(storage)
    {
      password := value;
    }

    method SetConfirmPassword(value: string)
      modifies this`confirmPassword
      ensures confirmPassword == value
      ensures password == old(password) && error == old(error) && resets == old(resets)
      ensures token == old(token) && tokenValid == old(tokenValid) && success == old(success)
      ensures isLoading == old(isLoading) && storage == old(storage)
    {
      confirmPassword := value;
    }

    /**
     * handleSubmit. A request goes out exactly when the two passwords agree
     * and are long enough; `response` is what it returns.
     */
    method HandleSubmit(response: ResetResponse)
      modifies this`isLoading, this`resets, this`success, this`storage, this`redirectScheduled, this`error
      ensures Validate(old(password), old(confirmPassword)).Some? ==>
        error == Validate(old(password), old(confirmPassword)).value
        && resets == old(resets) && success == old(success) && storage == old(storage)
        && isLoading == old(isLoading) && redirectScheduled == old(redirectScheduled)
      ensures Validate(old(password), old(confirmPassword)).None? ==>
        resets == old(resets) + [((if old(token).Some? then old(token).value else ""), old(password))] && !isLoading
      ensures Validate(old(password), old(confirmPassword)).None? && response == ResetOk ==>
        success && error == "" && storage == Login.Cleared(old(storage)) && redirectScheduled
      ensures Validate(old(password), old(confirmPassword)).None? && response.ResetRejected? ==>
        error == MessageOr(response.msg, ResetFailedMessage)
        && success == old(success) && storage == old(storage) && redirectScheduled == old(redirectScheduled)
      ensures Validate(old(password), old(confirmPassword)).None? && response == ResetNetworkError ==>
        error == NetworkErrorMessage
        && success == old(success) && storage == old(storage) && redirectScheduled == old(redirectScheduled)
    {
      error := "";
      var rejection := Validate(password, confirmPassword);
      if rejection.Some? {
        error := rejection.value;
        return;
      }
      SendReset(response);
    }

    /** The try/catch/finally of handleSubmit: the request goes out and `response` is handled. */
    method SendReset(response: ResetResponse)
      modifies this`isLoading, this`resets, this`success, this`storage, this`redirectScheduled, this`error
      ensures resets == old(resets) + [((if token.Some? then token.value else ""), password)] && !isLoading
      ensures response == ResetOk ==>
        success && error == old(error) && storage == Login.Cleared(old(storage)) && redirectScheduled
      ensures response.ResetRejected? ==>
        error == MessageOr(response.msg, ResetFailedMessage)
        && success == old(success) && storage == old(storage) && redirectScheduled == old(redirectScheduled)
      ensures response == ResetNetworkError ==>
        error == NetworkErrorMessage
        && success == old(success) && storage == old(storage) && redirectScheduled == old(redirectScheduled)
    {
      isLoading := true;
      resets := resets + [((if token.Some? then token.value else ""), password)];
      match response {
        case ResetOk =>
          success := true;
          Login.RemoveBoth(storage);
          storage := storage - {Login.AttemptsKey};
          storage := storage - {Login.TimestampKey};
          redirectScheduled := true;
        case ResetRejected(msg) =>
          error := MessageOr(msg, ResetFailedMessage);
        case ResetNetworkError =>
          error := NetworkErrorMessage;
      }
      isLoading := false;
    }

    /** The screen: verifying while tokenValid is null, then invalid, then success, else the form. */
    function CurrentView(): (v: View)
      reads this
      ensures v == Verifying <==> tokenValid.None?
      ensures v == Invalid <==> tokenValid == Some(false)
      ensures v == Succeeded <==> tokenValid == Some(true) && success
      ensures v == Form <==> tokenValid == Some(true) && !success
    {
      if tokenValid.None? then Verifying
      else if !tokenValid.value then Invalid
      else if success then Succeeded
      else Form
    }

    /** The submit button's disabled state. */
    predicate SubmitDisabled()
      reads this
    {
      isLoading || password == "" || confirmPassword == ""
    }
  }
}
