/**
 * The login page: a form checked by a schema of length rules, and a two-step
 * submit (send an OTP, then verify it) driven by the otpSent flag.
 */
module Login {

  /** The submitted form values. */
  datatype Form = Form(countryCode: string, phone: string, otp: string)

  const CountryError: string := "Select a country"
  const PhoneError: string := "Enter valid phone"

  /** Where a verified user is sent: the first sample room. */
  const VerifiedRoute: string := "/chat/1752930361512"

  /** What one submit shows the user. */
  datatype Outcome =
    | SchemaRejected(errors: set<string>)
    | OtpSent(notice: string)
    | Navigated(path: string)
    | OtpRejected

  /** The schema's messages for a form; the OTP field is any string. */
  function SchemaErrors(f: Form): (errors: set<string>)
    ensures errors <= {CountryError, PhoneError}
    ensures CountryError in errors <==> f.countryCode == ""
    ensures PhoneError in errors <==> |f.phone| < 10
  {
    (if |f.countryCode| < 1 then {CountryError} else {}) + (if |f.phone| < 10 then {PhoneError} else {})
  }

  /**
   * One submit from a given otpSent flag: the next flag and what is shown.
   * A form the schema rejects changes nothing. The first accepted submit only
   * raises the flag; once it is up, an OTP of exactly six characters, whatever
   * they are, navigates, and any other length is refused with the flag kept up.
   */
  function Step(otpSent: bool, f: Form): (r: (bool, Outcome))
    ensures r.0 == (otpSent || SchemaErrors(f) == {})
    ensures r.1.SchemaRejected? <==> SchemaErrors(f) != {}
    ensures r.1.SchemaRejected? ==> r.1.errors == SchemaErrors(f)
    ensures r.1.OtpSent? <==> !otpSent && SchemaErrors(f) == {}
    ensures r.1.OtpSent? ==> r.1.notice == "OTP sent to " + f.countryCode + " " + f.phone
    ensures r.1.Navigated? <==> otpSent && SchemaErrors(f) == {} && |f.otp| == 6
    ensures r.1.Navigated? ==> r.1.path == VerifiedRoute
  {
    var errors := SchemaErrors(f);
    if errors != {} then (otpSent, SchemaRejected(errors))
    else if !otpSent then (true, OtpSent("OTP sent to " + f.countryCode + " " + f.phone))
    else if |f.otp| == 6 then (true, Navigated(VerifiedRoute))
    else (true, OtpRejected)
  }

  /** A run of submits from a given flag: the final flag and the outcome of each submit. */
  function Replay(otpSent: bool, forms: seq<Form>): (r: (bool, seq<Outcome>))
    ensures |r.1| == |forms|
    decreases forms
  {
    if forms == [] then (otpSent, [])
    else
      var first := Step(otpSent, forms[0]);
      var rest := Replay(first.0, forms[1..]);
      (rest.0, [first.1] + rest.1)
  }

  /** otpSent never goes back down: once raised, it stays raised through any run of submits. */
  lemma {:induction false} OtpSentIsMonotone(otpSent: bool, forms: seq<Form>)
    requires otpSent
    ensures Replay(otpSent, forms).0
  {
    if forms != [] {
      OtpSentIsMonotone(Step(otpSent, forms[0]).0, forms[1..]);
    }
  }

  /**
   * From a fresh page, a submit navigates only after an earlier submit that the
   * schema accepted (the one that sent the OTP).
   */
  lemma {:induction false} NavigationNeedsEarlierSend(forms: seq<Form>, k: nat)
    requires k < |forms|
    requires Replay(false, forms).1[k].Navigated?
    ensures exists j :: 0 <= j < k && SchemaErrors(forms[j]) == {}
  {
    var first := Step(false, forms[0]);
    if first.0 {
      assert SchemaErrors(forms[0]) == {};
    } else {
      assert Replay(false, forms).1[k] == Replay(false, forms[1..]).1[k - 1];
      NavigationNeedsEarlierSend(forms[1..], k - 1);
      var j :| 0 <= j < k - 1 && SchemaErrors(forms[1..][j]) == {};
      assert forms[j + 1] == forms[1..][j];
    }
  }

  /** The page's state. */
  class LoginPage {
    var otpSent: bool

    constructor ()
      ensures !otpSent
    {
      otpSent := false;
    }

    /** A form submit: the schema check, then onSubmit. */
    method Submit(f: Form) returns (outcome: Outcome)
      modifies this
      ensures (otpSent, outcome) == Step(old(otpSent), f)
    {
      var errors := SchemaErrors(f);
      if errors != {} {
        return SchemaRejected(errors);
      }
      if !otpSent {
        outcome := OtpSent("OTP sent to " + f.countryCode + " " + f.phone);
        otpSent := true;
      } else {
        if |f.otp| == 6 {
          outcome := Navigated(VerifiedRoute);
        } else {
          outcome := OtpRejected;
        }
      }
    }
  }
}
