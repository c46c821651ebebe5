/**
 * The sign-up screen: `invalidate()` checks the form in a fixed order (required fields,
 * then matching passwords, then password strength) and the Sign Up button either shows
 * the validation message or submits the account with type `user`.
 */
module SignUp {
  import opened Base
  import opened FormRules

  const SignedUpMessage: string := "You've been signed up!"

  /** `s.match(/[A-Z]/g)` is truthy. */
  predicate HasUpper(s: string)
  {
    exists i :: 0 <= i < |s| && 'A' <= s[i] <= 'Z'
  }

  /** `s.match(/[a-z]/g)` is truthy. */
  predicate HasLower(s: string)
  {
    exists i :: 0 <= i < |s| && 'a' <= s[i] <= 'z'
  }

  /** The strength rule: at least 8 characters, an upper-case and a lower-case letter. */
  predicate Strong(p: string)
  {
    |p| >= 8 && HasUpper(p) && HasLower(p)
  }

  function SignUpFields(first: string, last: string, email: string, password: string,
                        confirm: string): seq<Field>
  {
    [Field(First, first), Field(Last, last), Field(Email, email),
     Field(Password, password), Field(PasswordConfirm, confirm)]
  }

  /** The verdict of `invalidate()` on the form's five fields. */
  function SignUpVerdict(first: string, last: string, email: string, password: string,
                         confirm: string): Verdict
  {
    var blank := Blank(SignUpFields(first, last, email, password, confirm));
    if blank != [] then Verdict(Some(MissingFields), Some(blank), false)
    else if password != confirm then Verdict(Some(PasswordMismatch), Some([Password, PasswordConfirm]), true)
    else if !Strong(password) then Verdict(Some(WeakPassword), Some([Password, PasswordConfirm]), false)
    else Verdict(None, None, false)
  }

  /**
   * The checks run in order and the first failing one decides: an empty field gives the
   * required-fields message with exactly the empty fields red; only a filled form can
   * fail the match (clearing the confirmation) or the strength rule; only a filled,
   * matching, strong form passes, leaving `redFields` alone.
   */
  lemma SignUpVerdictCases(first: string, last: string, email: string, password: string, confirm: string)
    ensures var v := SignUpVerdict(first, last, email, password, confirm);
            var blank := Blank(SignUpFields(first, last, email, password, confirm));
            && (v.problem == Some(MissingFields) <==> blank != [])
            && (blank != [] ==> v.red == Some(blank) && !v.clearConfirm)
    ensures var v := SignUpVerdict(first, last, email, password, confirm);
            var filled := first != "" && last != "" && email != "" && password != "" && confirm != "";
            && (v.problem == Some(PasswordMismatch) <==> filled && password != confirm)
            && (filled && password != confirm ==> v.red == Some([Password, PasswordConfirm]) && v.clearConfirm)
            && (v.problem == Some(WeakPassword) <==> filled && password == confirm && !Strong(password))
            && (v.problem == Some(WeakPassword) ==> v.red == Some([Password, PasswordConfirm]) && !v.clearConfirm)
            && (v.problem == None <==> filled && password == confirm && Strong(password))
            && (v.problem == None ==> v.red == None && !v.clearConfirm)
  {
    var fs := SignUpFields(first, last, email, password, confirm);
    BlankMembers(fs);
    assert fs[0].text == first && fs[1].text == last && fs[2].text == email;
    assert fs[3].text == password && fs[4].text == confirm;
  }

  /**
   * The five `if (!field) redFields.push(name)` steps: the names of the empty fields, in
   * form order.
   */
  method RequiredMarks(first: string, last: string, email: string, password: string, confirm: string)
    returns (red: seq<FieldName>)
    ensures red == Blank(SignUpFields(first, last, email, password, confirm))
  {
    var f0, f1, f2, f3, f4 := Field(First, first), Field(Last, last), Field(Email, email),
                              Field(Password, password), Field(PasswordConfirm, confirm);
    red := [];
    if first == "" { red := red + [First]; }
    assert red == Mark(f0);
    if last == "" { red := red + [Last]; }
    assert red == Mark(f0) + Mark(f1);
    if email == "" { red := red + [Email]; }
    assert red == Mark(f0) + Mark(f1) + Mark(f2);
    if password == "" { red := red + [Password]; }
    assert red == Mark(f0) + Mark(f1) + Mark(f2) + Mark(f3);
    if confirm == "" { red := red + [PasswordConfirm]; }
    BlankOfFive(f0, f1, f2, f3, f4);
  }

  /** What the Sign Up button submits to `initializeAccount`. */
  datatype SignUpRequest = SignUpRequest(first: string, last: string, email: string, password: string,
                                         accountType: string)

  class SignUpScreen {
    var first: string
    var last: string
    var email: string
    var password: string
    var passwordConfirm: string
    var redFields: seq<FieldName>
    var errorMsg: string
    var successMsg: string
    /** The accounts submitted so far, and whether the screen has moved on to Boot. */
    var requests: seq<SignUpRequest>
    var navigatedToBoot: bool

    constructor ()
      ensures first == "" && last == "" && email == "" && password == "" && passwordConfirm == ""
      ensures redFields == [] && errorMsg == "" && successMsg == ""
      ensures requests == [] && !navigatedToBoot
    {
      first, last, email, password, passwordConfirm := "", "", "", "", "";
      redFields, errorMsg, successMsg := [], "", "";
      requests, navigatedToBoot := [], false;
    }

    /** `invalidate()`: collect the empty fields one by one, then the two password checks. */
    method Invalidate() returns (msg: Option<string>)
      modifies this
      ensures var v := SignUpVerdict(old(first), old(last), old(email), old(password), old(passwordConfirm));
              && msg == Message(v.problem)
              && redFields == (if v.red.Some? then v.red.value else old(redFields))
              && passwordConfirm == (if v.clearConfirm then "" else old(passwordConfirm))
      ensures first == old(first) && last == old(last) && email == old(email) && password == old(password)
      ensures errorMsg == old(errorMsg) && successMsg == old(successMsg)
      ensures requests == old(requests) && navigatedToBoot == old(navigatedToBoot)
    {
      var p, c := password, passwordConfirm;
      ghost var v := SignUpVerdict(first, last, email, p, c);
      var red := RequiredMarks(first, last, email, p, c);
      if |red| > 0 {
        assert v == Verdict(Some(MissingFields), Some(red), false);
        redFields := red;
        return Some(Text(MissingFields));
      }
      if p != c {
        assert v == Verdict(Some(PasswordMismatch), Some([Password, PasswordConfirm]), true);
        redFields := [Password, PasswordConfirm];
        passwordConfirm := "";
        return Some(Text(PasswordMismatch));
      }
      if |p| < 8 || !HasUpper(p) || !HasLower(p) {
        assert v == Verdict(Some(WeakPassword), Some([Password, PasswordConfirm]), false);
        redFields := [Password, PasswordConfirm];
        return Some(Text(WeakPassword));
      }
      assert v == Verdict(None, None, false);
      msg := None;
    }

    /**
     * The Sign Up button: reset the messages, validate, and only on a clean form submit the
     * account as a `user`. `authError` is what `handleAuthError` makes of a rejected
     * submission (message and red fields); None means the submission succeeds.
     */
    method OnPress(authError: Option<(string, seq<FieldName>)>)
      modifies this
      ensures var v := SignUpVerdict(old(first), old(last), old(email), old(password), old(passwordConfirm));
              && (v.problem.Some? ==>
                    && requests == old(requests) && navigatedToBoot == old(navigatedToBoot)
                    && errorMsg == Text(v.problem.value) && successMsg == ""
                    && redFields == v.red.value
                    && passwordConfirm == (if v.clearConfirm then "" else old(passwordConfirm)))
              && (v.problem.None? ==>
                    && requests == old(requests) + [SignUpRequest(first, last, email, password, "user")]
                    && passwordConfirm == old(passwordConfirm)
                    && (authError.None? ==>
                          successMsg == SignedUpMessage && errorMsg == "" && navigatedToBoot && redFields == [])
                    && (authError.Some? ==>
                          && errorMsg == authError.value.0 && redFields == authError.value.1
                          && successMsg == "" && navigatedToBoot == old(navigatedToBoot)))
      ensures first == old(first) && last == old(last) && email == old(email) && password == old(password)
    {
      ghost var v := SignUpVerdict(first, last, email, password, passwordConfirm);
      redFields, errorMsg, successMsg := [], "", "";
      var msg := Invalidate();
      assert msg == Message(v.problem);
      if msg.Some? {
        errorMsg := msg.value;
      } else {
        Submit(authError);
      }
    }

    /** The `initializeAccount` call of a valid form and what its outcome shows. */
    method Submit(authError: Option<(string, seq<FieldName>)>)
      modifies this
      ensures requests == old(requests) + [SignUpRequest(first, last, email, password, "user")]
      ensures authError.None? ==>
                successMsg == SignedUpMessage && errorMsg == old(errorMsg) && navigatedToBoot && redFields == old(redFields)
      ensures authError.Some? ==>
                && errorMsg == authError.value.0 && redFields == authError.value.1
                && successMsg == old(successMsg) && navigatedToBoot == old(navigatedToBoot)
      ensures first == old(first) && last == old(last) && email == old(email) && password == old(password)
      ensures passwordConfirm == old(passwordConfirm)
    {
      var request := SignUpRequest(first, last, email, password, "user");
      requests := requests + [request];
      if authError.Some? {
        redFields := authError.value.1;
        errorMsg := authError.value.0;
        return;
      }
      successMsg := SignedUpMessage;
      navigatedToBoot := true;
    }
  }
}
