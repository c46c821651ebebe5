/**
 * The partner login screen: `invalidate()` only requires both fields, and the Login
 * button signs in through auth only when the form is valid, showing the validation
 * message, not an auth message, when it is not.
 */
module LoginPartner {
  import opened Base
  import opened FormRules

  const SignedInMessage: string := "You've signed in!"

  function LoginFields(email: string, password: string): seq<Field>
  {
    [Field(Email, email), Field(Password, password)]
  }

  /** The verdict of `invalidate()`: required fields only; a valid form leaves `redFields` alone. */
  function LoginVerdict(email: string, password: string): (v: Verdict)
    ensures v.problem == Some(MissingFields) <==> email == "" || password == ""
    ensures v.problem.None? <==> email != "" && password != ""
    ensures v.problem.Some? ==>
              v.red == Some((if email == "" then [Email] else []) + (if password == "" then [Password] else []))
    ensures v.problem.None? ==> v.red.None?
    ensures !v.clearConfirm
  {
    var blank := Blank(LoginFields(email, password));
    assert LoginFields(email, password) == [Field(Email, email)] + [Field(Password, password)];
    BlankAppend([Field(Email, email)], [Field(Password, password)]);
    assert Blank([Field(Password, password)]) == (if password == "" then [Password] else []);
    if blank != [] then Verdict(Some(MissingFields), Some(blank), false)
    else Verdict(None, None, false)
  }

  class LoginScreen {
    var email: string
    var password: string
    var redFields: seq<FieldName>
    var errorMsg: string
    var successMsg: string
    /** The credentials sign-in has been attempted with, and whether Boot was pushed. */
    var signInAttempts: seq<(string, string)>
    var pushedBoot: bool

    constructor ()
      ensures email == "" && password == "" && redFields == [] && errorMsg == "" && successMsg == ""
      ensures signInAttempts == [] && !pushedBoot
    {
      email, password := "", "";
      redFields, errorMsg, successMsg := [], "", "";
      signInAttempts, pushedBoot := [], false;
    }

    /** `invalidate()`: push the empty fields' names, set them only when there is one. */
    method Invalidate() returns (msg: Option<string>)
      modifies this
      ensures var v := LoginVerdict(old(email), old(password));
              msg == Message(v.problem) && redFields == (if v.red.Some? then v.red.value else old(redFields))
      ensures email == old(email) && password == old(password) && errorMsg == old(errorMsg)
      ensures successMsg == old(successMsg) && signInAttempts == old(signInAttempts) && pushedBoot == old(pushedBoot)
    {
      var red: seq<FieldName> := [];
      if email == "" { red := red + [Email]; }
      if password == "" { red := red + [Password]; }
      if |red| > 0 {
        redFields := red;
        return Some(Text(MissingFields));
      }
      msg := None;
    }

    /**
     * The Login button. `authError` is what `handleAuthErrorAnonymous` makes of a rejected
     * sign-in (message and red fields); None means the sign-in succeeds.
     */
    method OnPress(authError: Option<(string, seq<FieldName>)>)
      modifies this
      ensures var v := LoginVerdict(old(email), old(password));
              && (v.problem.Some? ==>
                    && signInAttempts == old(signInAttempts) && pushedBoot == old(pushedBoot)
                    && errorMsg == RequiredMessage && successMsg == "" && redFields == v.red.value)
              && (v.problem.None? ==>
                    && signInAttempts == old(signInAttempts) + [(email, password)]
                    && (authError.None? ==> successMsg == SignedInMessage && errorMsg == "" && pushedBoot && redFields == [])
                    && (authError.Some? ==>
                          && errorMsg == authError.value.0 && redFields == authError.value.1
                          && successMsg == "" && pushedBoot == old(pushedBoot)))
      ensures email == old(email) && password == old(password)
    {
      redFields := [];
      errorMsg := "";
      successMsg := "";
      var msg := Invalidate();
      if msg.Some? {
        errorMsg := msg.value;
        return;
      }
      signInAttempts := signInAttempts + [(email, password)];
      if authError.Some? {
        redFields := authError.value.1;
        errorMsg := authError.value.0;
        return;
      }
      successMsg := SignedInMessage;
      pushedBoot := true;
    }
  }
}
