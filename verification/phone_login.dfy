/**
 * The phone login form: a country selector whose choice fills in the dial
 * code, a phone field, and a two-step submit (send the OTP, then verify it),
 * each step completing after a one-second timer, modelled as a separate event.
 */
module PhoneLogin {
  import opened Wrappers
  import Countries
  import Auth
  import Routes

  type Country = Countries.Country

  /** The form fields. */
  datatype FormValues = FormValues(country: string, dialCode: string, phone: string, otp: string)

  /** The form's default values, also what `reset()` restores. */
  const Defaults: FormValues := FormValues("", "", "", "")

  /** The form schema: a country is chosen and the phone has at least 8 characters.
    * The dial code and the OTP are not checked. */
  predicate SchemaAccepts(v: FormValues) {
    |v.country| >= 1 && |v.phone| >= 8
  }

  /** A pending one-second timer: the "OTP sent" step, or the "verified" step, which
    * closes over the values that were submitted. */
  datatype Timer = OtpSentTimer | VerifiedTimer(submitted: FormValues)

  /** `countries.find((c) => c.code === code)`: the first country with that code. */
  function FindByCode(countries: seq<Country>, code: string): (r: Option<Country>)
    ensures r.None? <==> forall i :: 0 <= i < |countries| ==> countries[i].code != code
    ensures r.Some? ==> exists i :: 0 <= i < |countries| && countries[i] == r.value && r.value.code == code
                                    && forall j :: 0 <= j < i ==> countries[j].code != code
  {
    if countries == [] then None
    else if countries[0].code == code then Some(countries[0])
    else
      var r := FindByCode(countries[1..], code);
      assert r.Some? ==> exists i :: 0 <= i < |countries[1..]| && countries[1..][i] == r.value
                                    && forall j :: 0 <= j < i ==> countries[1..][j].code != code;
      r
  }

  /** The dial-code effect: when the selected code belongs to a loaded country, its dial
    * code is copied into the form; otherwise the values stay as they are. */
  function SyncDialCode(v: FormValues, countries: seq<Country>): FormValues {
    match FindByCode(countries, v.country)
    case Some(c) => v.(dialCode := c.dialCode)
    case None => v
  }

  class PhoneLoginForm {
    var countries: seq<Country>
    var isOtpSent: bool
    var values: FormValues

    constructor ()
      ensures countries == [] && !isOtpSent && values == Defaults
    {
      countries, isOtpSent, values := [], false, Defaults;
    }

    /** The country list has arrived; the dial-code effect runs on it. */
    method CountriesLoaded(loaded: seq<Country>)
      modifies this
      ensures countries == loaded && isOtpSent == old(isOtpSent)
      ensures values == SyncDialCode(old(values), loaded)
    {
      countries := loaded;
      values := SyncDialCode(values, countries);
    }

    /** A country is chosen; the dial-code effect sets the dial code of the matching loaded
      * country and leaves it unchanged when none matches. */
    method SelectCountry(code: string)
      modifies this
      ensures countries == old(countries) && isOtpSent == old(isOtpSent)
      ensures values.country == code && values.phone == old(values.phone) && values.otp == old(values.otp)
      ensures FindByCode(countries, code).Some? ==> values.dialCode == FindByCode(countries, code).value.dialCode
      ensures FindByCode(countries, code).None? ==> values.dialCode == old(values.dialCode)
    {
      values := SyncDialCode(values.(country := code), countries);
    }

    method EnterPhone(phone: string)
      modifies this
      ensures values == old(values).(phone := phone)
      ensures countries == old(countries) && isOtpSent == old(isOtpSent)
    {
      values := values.(phone := phone);
    }

    method EnterOtp(otp: string)
      modifies this
      ensures values == old(values).(otp := otp)
      ensures countries == old(countries) && isOtpSent == old(isOtpSent)
    {
      values := values.(otp := otp);
    }

    /** Submitting changes no state: values the schema rejects schedule nothing; accepted
      * values schedule the "OTP sent" step before the OTP was sent and the "verified" step
      * after, whatever the OTP field holds. */
    method Submit() returns (timer: Option<Timer>)
      ensures timer.None? <==> !SchemaAccepts(values)
      ensures timer.Some? ==> (timer.value.OtpSentTimer? <==> !isOtpSent)
      ensures timer.Some? && timer.value.VerifiedTimer? ==> timer.value.submitted == values
    {
      if !SchemaAccepts(values) {
        return None;
      }
      if !isOtpSent {
        timer := Some(OtpSentTimer);
      } else {
        timer := Some(VerifiedTimer(values));
      }
    }

    /** A step's timer fires. "OTP sent" reveals the OTP field. "Verified" resets the form
      * (after which the dial-code effect runs for the emptied country) and hides the OTP
      * field again; it does not touch the auth store. */
    method TimerFires(timer: Timer)
      modifies this
      ensures countries == old(countries)
      ensures timer.OtpSentTimer? ==> isOtpSent && values == old(values)
      ensures timer.VerifiedTimer? ==> !isOtpSent && values == SyncDialCode(Defaults, countries)
      ensures timer.VerifiedTimer? && FindByCode(countries, "").None? ==> values == Defaults
    {
      match timer
      case OtpSentTimer =>
        isOtpSent := true;
      case VerifiedTimer(_) =>
        values := SyncDialCode(Defaults, countries);
        isOtpSent := false;
    }

    /** The "verified" step as evidently intended: it logs the submitted user in before
      * resetting the form. */
    method TimerFiresWithLogin(timer: Timer, auth: Auth.AuthStore)
      modifies this, auth, auth.storage
      ensures countries == old(countries)
      ensures timer.OtpSentTimer? ==> isOtpSent && values == old(values) && unchanged(auth, auth.storage)
      ensures timer.VerifiedTimer? ==>
        && !isOtpSent && values == SyncDialCode(Defaults, countries)
        && auth.isLoggedIn && auth.Mirrored()
        && auth.phone == timer.submitted.phone && auth.dialCode == timer.submitted.dialCode
        && auth.country == timer.submitted.country
    {
      match timer
      case OtpSentTimer =>
        isOtpSent := true;
      case VerifiedTimer(data) =>
        auth.Login(Auth.AuthData(data.phone, data.dialCode, data.country));
        values := SyncDialCode(Defaults, countries);
        isOtpSent := false;
    }
  }

  /** The two-step login as written: both steps complete, yet the user stays logged out,
    * so the dashboard still redirects to the login page. */
  method CompleteOtpFlow(form: PhoneLoginForm, auth: Auth.AuthStore)
    requires SchemaAccepts(form.values) && !form.isOtpSent && !auth.isLoggedIn
    modifies form
    ensures !form.isOtpSent && !auth.isLoggedIn
    ensures Routes.Route(Routes.DashboardPath, auth.isLoggedIn) == Routes.Redirect(Routes.AuthPath)
  {
    var sendOtp := form.Submit();
    form.TimerFires(sendOtp.value);
    var verify := form.Submit();
    form.TimerFires(verify.value);
  }

  /** The two-step login with the corrected "verified" step: the submitted phone is now the
    * session's, and the dashboard shows the chatroom list. */
  method CompleteOtpFlowWithLogin(form: PhoneLoginForm, auth: Auth.AuthStore)
    requires SchemaAccepts(form.values) && !form.isOtpSent
    modifies form, auth, auth.storage
    ensures !form.isOtpSent && auth.isLoggedIn
    ensures auth.phone == old(form.values.phone) && auth.country == old(form.values.country)
    ensures Routes.Route(Routes.DashboardPath, auth.isLoggedIn) == Routes.ChatroomListPage
  {
    var sendOtp := form.Submit();
    form.TimerFiresWithLogin(sendOtp.value, auth);
    var verify := form.Submit();
    form.TimerFiresWithLogin(verify.value, auth);
  }
}
