/** The login page (app/login/page.tsx): a two-step form that asks for a phone number, then an OTP,
    and on success stores a mock token and role and goes to the home page. The one-second delay
    before the OTP step is taken as immediate; session storage and the router are fields here. */
module Login {
  import opened Wrappers

  datatype Step = PhoneStep | OtpStep

  const PHONE_ERROR := "Please enter a valid phone number"
  const OTP_ERROR := "Please enter a valid OTP"
  const TOKEN_PREFIX := "mock-jwt-token-"
  const PUBLIC_USER := "PUBLIC_USER"

  /** The OTP input's `maxLength`. */
  const OTP_MAX_LENGTH := 6

  /** `!phoneNumber || phoneNumber.length < 10` rejects; nothing looks at the characters. */
  predicate PhoneAccepted(phoneNumber: string) {
    phoneNumber != "" && |phoneNumber| >= 10
  }

  /** `!otp || otp.length < 4` rejects. */
  predicate OtpAccepted(otp: string) {
    otp != "" && |otp| >= 4
  }

  class LoginPage {
    var step: Step
    var phoneNumber: string
    var otp: string
    var loading: bool
    var error: string
    /** `sessionStorage` 'authToken' and 'userRole', and the path handed to `router.push`. */
    var authToken: Option<string>
    var userRole: Option<string>
    var navigatedTo: Option<string>

    /** The OTP step is only ever reached with an accepted phone number, and the OTP input holds at
        most six characters. */
    predicate Valid()
      reads this
    {
      (step == OtpStep ==> PhoneAccepted(phoneNumber)) && |otp| <= OTP_MAX_LENGTH
    }

    constructor ()
      ensures Valid()
      ensures step == PhoneStep && phoneNumber == "" && otp == "" && !loading && error == ""
      ensures authToken == None && userRole == None && navigatedTo == None
    {
      step := PhoneStep;
      phoneNumber := "";
      otp := "";
      loading := false;
      error := "";
      authToken := None;
      userRole := None;
      navigatedTo := None;
    }

    /** Typing into the phone input, shown on the phone step and disabled while loading. */
    method SetPhoneNumber(value: string)
      requires Valid() && step == PhoneStep && !loading
      modifies this
      ensures Valid()
      ensures phoneNumber == value
      ensures step == old(step) && otp == old(otp) && loading == old(loading) && error == old(error)
      ensures authToken == old(authToken) && userRole == old(userRole) && navigatedTo == old(navigatedTo)
    {
      phoneNumber := value;
    }

    /** Typing into the OTP input, shown on the OTP step, disabled while loading, at most six
        characters long. */
    method SetOtp(value: string)
      requires Valid() && step == OtpStep && !loading && |value| <= OTP_MAX_LENGTH
      modifies this
      ensures Valid()
      ensures otp == value
      ensures step == old(step) && phoneNumber == old(phoneNumber) && loading == old(loading) && error == old(error)
      ensures authToken == old(authToken) && userRole == old(userRole) && navigatedTo == old(navigatedTo)
    {
      otp := value;
    }

    /** `handleSendOTP`, behind the 'Send OTP' button (phone step, enabled when not loading). */
    method SendOtp()
      requires Valid() && step == PhoneStep && !loading
      modifies this
      ensures Valid()
      ensures phoneNumber == old(phoneNumber) && otp == old(otp) && !loading
      ensures authToken == old(authToken) && userRole == old(userRole) && navigatedTo == old(navigatedTo)
      ensures !PhoneAccepted(phoneNumber) ==> step == PhoneStep && error == PHONE_ERROR
      ensures PhoneAccepted(phoneNumber) ==> step == OtpStep && error == ""
    {
      loading := true;
      error := "";
      if phoneNumber == "" || |phoneNumber| < 10 {
        error := PHONE_ERROR;
        loading := false;
        return;
      }
      step := OtpStep;
      loading := false;
    }

    /** `handleVerifyOTP`, behind the 'Verify & Login' button; `now` stands for `Date.now()`
        written in decimal. On success `loading` is left set: the page is navigating away. */
    method VerifyOtp(now: string)
      requires Valid() && step == OtpStep && !loading
      modifies this
      ensures Valid()
      ensures step == old(step) && phoneNumber == old(phoneNumber) && otp == old(otp)
      ensures !OtpAccepted(otp) ==>
                error == OTP_ERROR && !loading
                && authToken == old(authToken) && userRole == old(userRole) && navigatedTo == old(navigatedTo)
      ensures OtpAccepted(otp) ==>
                error == "" && loading
                && authToken == Some(TOKEN_PREFIX + now) && userRole == Some(PUBLIC_USER) && navigatedTo == Some("/")
    {
      loading := true;
      error := "";
      if otp == "" || |otp| < 4 {
        error := OTP_ERROR;
        loading := false;
        return;
      }
      authToken := Some(TOKEN_PREFIX + now);
      userRole := Some(PUBLIC_USER);
      navigatedTo := Some("/");
    }

    /** The 'Change Phone' button of the OTP step: back to the phone step with the error cleared;
        the typed phone number and OTP are kept. */
    method ChangePhone()
      requires Valid() && step == OtpStep
      modifies this
      ensures Valid()
      ensures step == PhoneStep && error == ""
      ensures phoneNumber == old(phoneNumber) && otp == old(otp) && loading == old(loading)
      ensures authToken == old(authToken) && userRole == old(userRole) && navigatedTo == old(navigatedTo)
    {
      step := PhoneStep;
      error := "";
    }
  }

  /** Only the length is checked: any ten characters pass as a phone number, nine never do. */
  lemma PhoneContentNotChecked(s: string)
    ensures |s| >= 10 ==> PhoneAccepted(s)
    ensures |s| < 10 ==> !PhoneAccepted(s)
  {
  }

  /** A whole login run: a phone number of ten or more characters and an OTP of four to six lead
      to the token, the role and the home page, whatever the characters are. */
  method LoginRun(phone: string, code: string, now: string) returns (page: LoginPage)
    requires |phone| >= 10 && 4 <= |code| <= OTP_MAX_LENGTH
    ensures page.authToken == Some(TOKEN_PREFIX + now) && page.userRole == Some(PUBLIC_USER)
    ensures page.navigatedTo == Some("/") && page.error == ""
  {
    page := new LoginPage();
    page.SetPhoneNumber(phone);
    page.SendOtp();
    page.SetOtp(code);
    page.VerifyOtp(now);
  }

  /** A phone number of fewer than ten characters never reaches the OTP step: the page stays on the
      phone step showing the phone error, with no token stored. */
  method ShortPhoneRun(phone: string) returns (page: LoginPage)
    requires |phone| < 10
    ensures page.step == PhoneStep && page.error == PHONE_ERROR && !page.loading
    ensures page.authToken == None && page.navigatedTo == None
  {
    page := new LoginPage();
    page.SetPhoneNumber(phone);
    page.SendOtp();
  }
}
