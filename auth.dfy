/**
 * The authentication page: tourist and authority registration and login. The two registration
 * validators are guard chains (a pure function returning the first error); the four submit
 * handlers are methods of the page, which clear the banners, validate, and only then toggle
 * `loading` around the one request they send.
 */
module Auth {

  import opened Wrappers
  import opened Text
  import opened Email
  import opened Requests
  import opened FormErrors

  // Banners after a request, and the fallbacks when a failed request carries no message.
  const TouristRegistered := "Registration complete! Welcome to the Tourist Safety Portal."
  const AuthorityRegistered := "Access request submitted. Your details will be verified by an administrator shortly."
  const LoggedIn := "Login successful! Redirecting..."
  const RegistrationFailed := "Registration failed. Please try again."
  const TouristLoginFailed := "Invalid email or password"
  const AuthorityLoginFailed := "Invalid credentials"

  datatype TouristRegistration = TouristRegistration(
    fullName: string,
    email: string,
    password: string,
    confirmPassword: string,
    nationality: string,
    currentLocation: string,
    profilePhoto: Option<Photo>,
    termsAccepted: bool)

  datatype AuthorityRegistration = AuthorityRegistration(
    fullName: string,
    officialEmail: string,
    password: string,
    confirmPassword: string,
    agencyType: string,
    agencyName: string,
    authorityId: string)

  datatype TouristLogin = TouristLogin(email: string, password: string, rememberMe: bool)

  datatype AuthorityLogin = AuthorityLogin(officialEmail: string, password: string)

  const EmptyTouristRegistration := TouristRegistration("", "", "", "", "", "", None, false)
  const EmptyAuthorityRegistration := AuthorityRegistration("", "", "", "", "", "", "")

  /** `validateTouristRegistration`: the error it sets, or `None` when it returns true. */
  function ValidateTouristRegistration(f: TouristRegistration): (r: Option<FormError>)
  {
    if IsBlank(f.fullName) then Some(FullNameRequired)
    else if IsBlank(f.email) then Some(EmailRequired)
    else if !MatchesPattern(f.email) then Some(InvalidEmail)
    else if Utf16Length(f.password) < MinPasswordLength then Some(PasswordTooShort)
    else if f.password != f.confirmPassword then Some(PasswordsDoNotMatch)
    else if f.nationality == "" then Some(NationalityRequired)
    else if IsBlank(f.currentLocation) then Some(CurrentLocationRequired)
    else if f.profilePhoto.None? then Some(ProfilePhotoRequired)
    else if !f.termsAccepted then Some(TermsRequired)
    else None
  }

  /** The nine guards of the tourist registration run in a fixed order and the first that fails
      decides the message: each message is reported exactly when its own guard fails and every
      guard before it passes; the form is accepted exactly when all nine pass. */
  lemma TouristRegistrationVerdict(f: TouristRegistration)
    ensures ValidateTouristRegistration(f).None? <==>
      && !IsBlank(f.fullName) && !IsBlank(f.email) && MatchesPattern(f.email)
      && Utf16Length(f.password) >= MinPasswordLength && f.password == f.confirmPassword
      && f.nationality != "" && !IsBlank(f.currentLocation)
      && f.profilePhoto.Some? && f.termsAccepted
    ensures ValidateTouristRegistration(f) == Some(FullNameRequired) <==> IsBlank(f.fullName)
    ensures ValidateTouristRegistration(f) == Some(EmailRequired) <==> !IsBlank(f.fullName) && IsBlank(f.email)
    ensures ValidateTouristRegistration(f) == Some(InvalidEmail) <==>
      !IsBlank(f.fullName) && !IsBlank(f.email) && !MatchesPattern(f.email)
    ensures ValidateTouristRegistration(f) == Some(PasswordTooShort) <==>
      !IsBlank(f.fullName) && !IsBlank(f.email) && MatchesPattern(f.email)
      && Utf16Length(f.password) < MinPasswordLength
    ensures ValidateTouristRegistration(f) == Some(PasswordsDoNotMatch) <==>
      !IsBlank(f.fullName) && !IsBlank(f.email) && MatchesPattern(f.email)
      && Utf16Length(f.password) >= MinPasswordLength && f.password != f.confirmPassword
    ensures ValidateTouristRegistration(f) == Some(NationalityRequired) <==>
      !IsBlank(f.fullName) && !IsBlank(f.email) && MatchesPattern(f.email)
      && Utf16Length(f.password) >= MinPasswordLength && f.password == f.confirmPassword
      && f.nationality == ""
    ensures ValidateTouristRegistration(f) == Some(CurrentLocationRequired) <==>
      !IsBlank(f.fullName) && !IsBlank(f.email) && MatchesPattern(f.email)
      && Utf16Length(f.password) >= MinPasswordLength && f.password == f.confirmPassword
      && f.nationality != "" && IsBlank(f.currentLocation)
    ensures ValidateTouristRegistration(f) == Some(ProfilePhotoRequired) <==>
      !IsBlank(f.fullName) && !IsBlank(f.email) && MatchesPattern(f.email)
      && Utf16Length(f.password) >= MinPasswordLength && f.password == f.confirmPassword
      && f.nationality != "" && !IsBlank(f.currentLocation) && f.profilePhoto.None?
    ensures ValidateTouristRegistration(f) == Some(TermsRequired) <==>
      !IsBlank(f.fullName) && !IsBlank(f.email) && MatchesPattern(f.email)
      && Utf16Length(f.password) >= MinPasswordLength && f.password == f.confirmPassword
      && f.nationality != "" && !IsBlank(f.currentLocation) && f.profilePhoto.Some?
      && !f.termsAccepted
  {
  }

  /** `validateAuthorityRegistration`: the error it sets, or `None` when it returns true. */
  function ValidateAuthorityRegistration(f: AuthorityRegistration): (r: Option<FormError>)
  {
    if IsBlank(f.fullName) then Some(FullNameRequired)
    else if IsBlank(f.officialEmail) then Some(OfficialEmailRequired)
    else if !MatchesPattern(f.officialEmail) then Some(InvalidEmail)
    else if Utf16Length(f.password) < MinPasswordLength then Some(PasswordTooShort)
    else if f.password != f.confirmPassword then Some(PasswordsDoNotMatch)
    else if f.agencyType == "" then Some(AgencyTypeRequired)
    else if IsBlank(f.agencyName) then Some(AgencyNameRequired)
    else if IsBlank(f.authorityId) then Some(AuthorityIdRequired)
    else None
  }

  /** The eight guards of the authority registration run in a fixed order and the first that fails
      decides the message; the form is accepted exactly when all eight pass. */
  lemma AuthorityRegistrationVerdict(f: AuthorityRegistration)
    ensures ValidateAuthorityRegistration(f).None? <==>
      && !IsBlank(f.fullName) && !IsBlank(f.officialEmail) && MatchesPattern(f.officialEmail)
      && Utf16Length(f.password) >= MinPasswordLength && f.password == f.confirmPassword
      && f.agencyType != "" && !IsBlank(f.agencyName) && !IsBlank(f.authorityId)
    ensures ValidateAuthorityRegistration(f) == Some(FullNameRequired) <==> IsBlank(f.fullName)
    ensures ValidateAuthorityRegistration(f) == Some(OfficialEmailRequired) <==> !IsBlank(f.fullName) && IsBlank(f.officialEmail)
    ensures ValidateAuthorityRegistration(f) == Some(InvalidEmail) <==>
      !IsBlank(f.fullName) && !IsBlank(f.officialEmail) && !MatchesPattern(f.officialEmail)
    ensures ValidateAuthorityRegistration(f) == Some(PasswordTooShort) <==>
      !IsBlank(f.fullName) && !IsBlank(f.officialEmail) && MatchesPattern(f.officialEmail)
      && Utf16Length(f.password) < MinPasswordLength
    ensures ValidateAuthorityRegistration(f) == Some(PasswordsDoNotMatch) <==>
      !IsBlank(f.fullName) && !IsBlank(f.officialEmail) && MatchesPattern(f.officialEmail)
      && Utf16Length(f.password) >= MinPasswordLength && f.password != f.confirmPassword
    ensures ValidateAuthorityRegistration(f) == Some(AgencyTypeRequired) <==>
      !IsBlank(f.fullName) && !IsBlank(f.officialEmail) && MatchesPattern(f.officialEmail)
      && Utf16Length(f.password) >= MinPasswordLength && f.password == f.confirmPassword
      && f.agencyType == ""
    ensures ValidateAuthorityRegistration(f) == Some(AgencyNameRequired) <==>
      !IsBlank(f.fullName) && !IsBlank(f.officialEmail) && MatchesPattern(f.officialEmail)
      && Utf16Length(f.password) >= MinPasswordLength && f.password == f.confirmPassword
      && f.agencyType != "" && IsBlank(f.agencyName)
    ensures ValidateAuthorityRegistration(f) == Some(AuthorityIdRequired) <==>
      !IsBlank(f.fullName) && !IsBlank(f.officialEmail) && MatchesPattern(f.officialEmail)
      && Utf16Length(f.password) >= MinPasswordLength && f.password == f.confirmPassword
      && f.agencyType != "" && !IsBlank(f.agencyName) && IsBlank(f.authorityId)
  {
  }

  /** The pre-check of `handleTouristLogin`: both fields present. It does not trim. */
  function CheckTouristLogin(l: TouristLogin): (r: Option<FormError>)
    ensures r.Some? <==> l.email == "" || l.password == ""
    ensures r.Some? ==> r.value == TouristLoginRequired
  {
    if l.email == "" || l.password == "" then Some(TouristLoginRequired) else None
  }

  /** The pre-check of `handleAuthorityLogin`: both fields present. It does not trim. */
  function CheckAuthorityLogin(l: AuthorityLogin): (r: Option<FormError>)
    ensures r.Some? <==> l.officialEmail == "" || l.password == ""
    ensures r.Some? ==> r.value == AuthorityLoginRequired
  {
    if l.officialEmail == "" || l.password == "" then Some(AuthorityLoginRequired) else None
  }

  /** The multipart body of the tourist registration. */
  function TouristRegistrationRequest(f: TouristRegistration): (r: Request)
    requires f.profilePhoto.Some?
  {
    Request(Post, "/auth/tourist/register/", Multipart([
      ("full_name", TextValue(f.fullName)),
      ("email", TextValue(f.email)),
      ("password", TextValue(f.password)),
      ("nationality", TextValue(f.nationality)),
      ("current_location", TextValue(f.currentLocation)),
      ("profile_photo", File(f.profilePhoto.value))]))
  }

  function AuthorityRegistrationRequest(f: AuthorityRegistration): (r: Request) {
    Request(Post, "/auth/authority/register/", Json(map[
      "full_name" := f.fullName,
      "official_email" := f.officialEmail,
      "password" := f.password,
      "agency_type" := f.agencyType,
      "agency_name" := f.agencyName,
      "authority_id" := f.authorityId]))
  }

  function TouristLoginRequest(l: TouristLogin): (r: Request) {
    Request(Post, "/auth/tourist/login/", Json(map["email" := l.email, "password" := l.password]))
  }

  function AuthorityLoginRequest(l: AuthorityLogin): (r: Request) {
    Request(Post, "/auth/authority/login/", Json(map["official_email" := l.officialEmail, "password" := l.password]))
  }

  /** Whatever passes the registration chain has a well-formed address (exactly one `@`, no white
      space, a non-empty local part, a dotted domain) and a confirmed password of at least eight
      code units: no registration is sent without them. */
  lemma AcceptedRegistrationsAreWellFormed(t: TouristRegistration, a: AuthorityRegistration)
    ensures ValidateTouristRegistration(t).None? ==>
      WellFormedAddress(t.email) && Utf16Length(t.password) >= MinPasswordLength && t.password == t.confirmPassword
    ensures ValidateAuthorityRegistration(a).None? ==>
      WellFormedAddress(a.officialEmail) && Utf16Length(a.password) >= MinPasswordLength && a.password == a.confirmPassword
  {
    TouristRegistrationVerdict(t);
    AuthorityRegistrationVerdict(a);
    PatternCharacterization(t.email);
    PatternCharacterization(a.officialEmail);
  }

  /** A short password is reported before the confirmation is looked at: whatever the confirmation,
      once name and e-mail pass, the length guard wins. */
  lemma ShortPasswordWinsOverMismatch(f: TouristRegistration, confirm: string)
    requires !IsBlank(f.fullName) && !IsBlank(f.email) && MatchesPattern(f.email)
    requires Utf16Length(f.password) < MinPasswordLength
    ensures ValidateTouristRegistration(f) == Some(PasswordTooShort)
    ensures ValidateTouristRegistration(f.(confirmPassword := confirm)) == Some(PasswordTooShort)
  {
    TouristRegistrationVerdict(f);
    TouristRegistrationVerdict(f.(confirmPassword := confirm));
  }

  /** Once name and e-mail pass, a long enough tourist password that differs from its confirmation
      is reported as a mismatch, whatever the later fields hold. */
  lemma TouristMismatchReported(t: TouristRegistration)
    requires !IsBlank(t.fullName) && !IsBlank(t.email) && MatchesPattern(t.email)
    requires Utf16Length(t.password) >= MinPasswordLength && t.password != t.confirmPassword
    ensures ValidateTouristRegistration(t) == Some(PasswordsDoNotMatch)
  {
    TouristRegistrationVerdict(t);
  }

  /** The same for the authority registration. */
  lemma AuthorityMismatchReported(a: AuthorityRegistration)
    requires !IsBlank(a.fullName) && !IsBlank(a.officialEmail) && MatchesPattern(a.officialEmail)
    requires Utf16Length(a.password) >= MinPasswordLength && a.password != a.confirmPassword
    ensures ValidateAuthorityRegistration(a) == Some(PasswordsDoNotMatch)
  {
    AuthorityRegistrationVerdict(a);
  }

  /** The tourist login's own check is not trimmed: it lets a non-empty e-mail made only of white
      space through to the request, while the registration chain stops the same address, after any
      non-blank name, with "Email is required". */
  lemma LoginPrecheckDoesNotTrim(l: TouristLogin, f: TouristRegistration)
    requires l.email != "" && IsBlank(l.email) && l.password != ""
    requires !IsBlank(f.fullName) && f.email == l.email
    ensures CheckTouristLogin(l).None?
    ensures ValidateTouristRegistration(f) == Some(EmailRequired)
  {
    TouristRegistrationVerdict(f);
  }

  /** The same for the authority login: its own check lets a non-empty official e-mail made only of
      white space through, while the authority registration stops it with "Official Email is
      required". */
  lemma AuthorityLoginPrecheckDoesNotTrim(l: AuthorityLogin, f: AuthorityRegistration)
    requires l.officialEmail != "" && IsBlank(l.officialEmail) && l.password != ""
    requires !IsBlank(f.fullName) && f.officialEmail == l.officialEmail
    ensures CheckAuthorityLogin(l).None?
    ensures ValidateAuthorityRegistration(f) == Some(OfficialEmailRequired)
  {
    AuthorityRegistrationVerdict(f);
  }

  /** The state of the authentication page that its submit handlers read and write. */
  class AuthPage {
    var touristReg: TouristRegistration
    var touristLogin: TouristLogin
    var authorityReg: AuthorityRegistration
    var authorityLogin: AuthorityLogin
    var loading: bool
    var error: string
    var success: string
    /** Every request the page has sent, oldest first. */
    var sent: seq<Request>

    constructor ()
      ensures touristReg == EmptyTouristRegistration && authorityReg == EmptyAuthorityRegistration
      ensures touristLogin == TouristLogin("", "", false) && authorityLogin == AuthorityLogin("", "")
      ensures !loading && error == "" && success == "" && sent == []
    {
      touristReg := EmptyTouristRegistration;
      touristLogin := TouristLogin("", "", false);
      authorityReg := EmptyAuthorityRegistration;
      authorityLogin := AuthorityLogin("", "");
      loading := false;
      error, success := "", "";
      sent := [];
    }

    /** The forms are what the user typed; no handler changes them. */
    twostate predicate FormsUnchanged()
      reads this
    {
      && touristReg == old(touristReg) && touristLogin == old(touristLogin)
      && authorityReg == old(authorityReg) && authorityLogin == old(authorityLogin)
    }

    /** A handler whose guard failed: the guard's message shows, nothing was sent, `loading` was
        never touched. */
    twostate predicate Refused(message: string)
      reads this
    {
      error == message && success == "" && loading == old(loading) && sent == old(sent)
    }

    /** A handler whose guards passed: exactly `request` was sent, `loading` is off again, and the
        banner reflects the reply. */
    twostate predicate Settled(request: Request, reply: Reply, succeeded: string, fallback: string)
      reads this
    {
      && sent == old(sent) + [request]
      && !loading
      && (reply.Accepted? ==> error == "" && success == succeeded)
      && (reply.Rejected? ==> error == ErrorText(reply.failure, fallback) && success == "")
    }

    /** The `try`/`catch`/`finally` every handler wraps around its request. */
    method Submit(request: Request, reply: Reply, succeeded: string, fallback: string)
      requires error == "" && success == ""
      modifies this
      ensures FormsUnchanged() && Settled(request, reply, succeeded, fallback)
    {
      loading := true;
      sent := sent + [request];
      if reply.Accepted? {
        success := succeeded;
      } else {
        error := ErrorText(reply.failure, fallback);
      }
      loading := false;
    }

    /** `handleTouristRegister`, with the server's reply as a parameter. */
    method HandleTouristRegister(reply: Reply)
      modifies this
      ensures FormsUnchanged()
      ensures var v := ValidateTouristRegistration(old(touristReg));
        if v.Some? then Refused(Message(v.value))
        else (old(touristReg).profilePhoto.Some?
          && Settled(TouristRegistrationRequest(old(touristReg)), reply, TouristRegistered, RegistrationFailed))
    {
      error, success := "", "";
      var v := ValidateTouristRegistration(touristReg);
      if v.Some? {
        error := Message(v.value);
        return;
      }
      TouristRegistrationVerdict(touristReg);
      Submit(TouristRegistrationRequest(touristReg), reply, TouristRegistered, RegistrationFailed);
    }

    /** `handleTouristLogin`, with the server's reply as a parameter. */
    method HandleTouristLogin(reply: Reply)
      modifies this
      ensures FormsUnchanged()
      ensures if CheckTouristLogin(old(touristLogin)).Some? then Refused(Message(TouristLoginRequired))
        else Settled(TouristLoginRequest(old(touristLogin)), reply, LoggedIn, TouristLoginFailed)
    {
      error, success := "", "";
      if touristLogin.email == "" || touristLogin.password == "" {
        error := Message(TouristLoginRequired);
        return;
      }
      Submit(TouristLoginRequest(touristLogin), reply, LoggedIn, TouristLoginFailed);
    }

    /** `handleAuthorityRegister`, with the server's reply as a parameter. */
    method HandleAuthorityRegister(reply: Reply)
      modifies this
      ensures FormsUnchanged()
      ensures var v := ValidateAuthorityRegistration(old(authorityReg));
        if v.Some? then Refused(Message(v.value))
        else Settled(AuthorityRegistrationRequest(old(authorityReg)), reply, AuthorityRegistered, RegistrationFailed)
    {
      error, success := "", "";
      var v := ValidateAuthorityRegistration(authorityReg);
      if v.Some? {
        error := Message(v.value);
        return;
      }
      Submit(AuthorityRegistrationRequest(authorityReg), reply, AuthorityRegistered, RegistrationFailed);
    }

    /** `handleAuthorityLogin`, with the server's reply as a parameter. */
    method HandleAuthorityLogin(reply: Reply)
      modifies this
      ensures FormsUnchanged()
      ensures if CheckAuthorityLogin(old(authorityLogin)).Some? then Refused(Message(AuthorityLoginRequired))
        else Settled(AuthorityLoginRequest(old(authorityLogin)), reply, LoggedIn, AuthorityLoginFailed)
    {
      error, success := "", "";
      if authorityLogin.officialEmail == "" || authorityLogin.password == "" {
        error := Message(AuthorityLoginRequired);
        return;
      }
      Submit(AuthorityLoginRequest(authorityLogin), reply, LoggedIn, AuthorityLoginFailed);
    }
  }
}
