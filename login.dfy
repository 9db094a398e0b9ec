/**
 * The sign-in screen (screens/Login.js): the guard before signing in, the
 * password-reset dialog and the show-password toggle.
 */
module Login {

  const FillOutAllFields: string := "Please fill out all fields."
  const EnterEmailAddress: string := "Please enter your email address."

  /** What a press of "Login" does. */
  datatype LoginOutcome =
    | LoginError(message: string)                 // alert, no sign-in attempted
    | SignIn(email: string, password: string)     // `signInWithEmailAndPassword(auth, email, password)`

  /** `handleLogin`'s guard. */
  function HandleLogin(email: string, password: string): LoginOutcome
  {
    if email != "" && password != "" then SignIn(email, password) else LoginError(FillOutAllFields)
  }

  /** Sign-in is attempted, with exactly the typed credentials, iff both fields are filled. */
  lemma HandleLoginSpec(email: string, password: string)
    ensures HandleLogin(email, password).SignIn? <==> email != "" && password != ""
    ensures HandleLogin(email, password).SignIn? ==> HandleLogin(email, password) == SignIn(email, password)
    ensures !HandleLogin(email, password).SignIn? ==> HandleLogin(email, password) == LoginError(FillOutAllFields)
  {
  }

  /** What a press of "Send" in the reset dialog ends in. */
  datatype ResetOutcome =
    | ResetError(message: string)   // alert, nothing sent
    | ResetSent                     // the reset email was sent
    | ResetFailed                   // sending threw; alert with its message

  /** `handleSendPasswordResetEmail`'s decision, with the send's fate as an input. */
  function ResetDecision(resetEmail: string, sendOk: bool): (r: ResetOutcome)
    ensures r == ResetError(EnterEmailAddress) <==> resetEmail == ""
    ensures r == ResetSent <==> resetEmail != "" && sendOk
  {
    if resetEmail == "" then ResetError(EnterEmailAddress)
    else if sendOk then ResetSent
    else ResetFailed
  }

  /** The screen's state fields. */
  class LoginScreen {
    var email: string
    var password: string
    var showPassword: bool
    var dialogVisible: bool
    var resetEmail: string

    constructor ()
      ensures email == "" && password == "" && !showPassword && !dialogVisible && resetEmail == ""
    {
      email, password, showPassword, dialogVisible, resetEmail := "", "", false, false, "";
    }

    /** The eye icon: `setShowPassword(!showPassword)`. */
    method ToggleShowPassword()
      modifies this`showPassword
      ensures showPassword == !old(showPassword)
    {
      showPassword := !showPassword;
    }

    /** `handleForgotPassword`: only opens the dialog. */
    method HandleForgotPassword()
      modifies this`dialogVisible
      ensures dialogVisible
    {
      dialogVisible := true;
    }

    /** The dialog's "Cancel": hides it, keeping what was typed. */
    method CancelDialog()
      modifies this`dialogVisible
      ensures !dialogVisible
    {
      dialogVisible := false;
    }

    /** `handleSendPasswordResetEmail`: only a successful send closes and clears the dialog. */
    method HandleSendPasswordResetEmail(sendOk: bool) returns (outcome: ResetOutcome)
      modifies this`dialogVisible, this`resetEmail
      ensures outcome == ResetDecision(old(resetEmail), sendOk)
      ensures outcome == ResetSent ==> !dialogVisible && resetEmail == ""
      ensures outcome != ResetSent ==> dialogVisible == old(dialogVisible) && resetEmail == old(resetEmail)
    {
      if resetEmail == "" {
        return ResetError(EnterEmailAddress);
      }
      if !sendOk {
        return ResetFailed;
      }
      dialogVisible := false;
      resetEmail := "";
      outcome := ResetSent;
    }
  }

  /** Pressing the eye icon twice shows the password as before. */
  method ToggleTwice(screen: LoginScreen)
    modifies screen`showPassword
    ensures screen.showPassword == old(screen.showPassword)
  {
    screen.ToggleShowPassword();
    screen.ToggleShowPassword();
  }
}
