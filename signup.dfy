/**
 * The sign-up decision (`handleSignup` in screens/Signup.js): all four
 * fields must be filled and the two passwords equal before an account is
 * requested with the email and password.
 */
module Signup {

  const FillOutAllFields: string := "Please fill out all fields."
  const PasswordsDoNotMatch: string := "Your passwords do not match."

  /** The three ways a press of "Sign up" can go. */
  datatype SignupOutcome =
    | SignupError(message: string)                 // alert, no account requested
    | CreateAccount(email: string, password: string) // `createUserWithEmailAndPassword(auth, email, password)`

  function HandleSignup(fullName: string, email: string, password: string, confirmPassword: string): SignupOutcome
  {
    if fullName != "" && email != "" && password != "" && confirmPassword != "" then
      if password == confirmPassword then CreateAccount(email, password)
      else SignupError(PasswordsDoNotMatch)
    else SignupError(FillOutAllFields)
  }

  /**
   * An empty field gives the fill-out error, and that error takes priority
   * over a mismatch; with every field filled, unequal passwords give the
   * mismatch error and equal ones request the account for exactly
   * `(email, password)`.
   */
  lemma HandleSignupSpec(fullName: string, email: string, password: string, confirmPassword: string)
    ensures var o := HandleSignup(fullName, email, password, confirmPassword);
            (o == SignupError(FillOutAllFields) <==>
               fullName == "" || email == "" || password == "" || confirmPassword == "")
            && (o == SignupError(PasswordsDoNotMatch) <==>
                  fullName != "" && email != "" && password != "" && confirmPassword != ""
                  && password != confirmPassword)
            && (o.CreateAccount? <==>
                  fullName != "" && email != "" && password != "" && password == confirmPassword)
            && (o.CreateAccount? ==> o.email == email && o.password == password)
  {
  }

  /** The full name only gates the request; which non-empty name was typed does not matter. */
  lemma FullNameNotPassed(name1: string, name2: string, email: string, password: string, confirmPassword: string)
    requires name1 != "" && name2 != ""
    ensures HandleSignup(name1, email, password, confirmPassword) == HandleSignup(name2, email, password, confirmPassword)
  {
  }
}
