/**
 * The authority profile editor: it loads the stored officer profile into the form, validates the
 * form with a guard chain in which the password is optional, and saves it as a JSON object that
 * gains the password fields only when a password was entered.
 */
module AuthorityProfile {

  import opened Wrappers
  import opened Text
  import opened Email
  import opened FormErrors
  import opened Requests

  const Saved := "Authority Profile saved successfully!"
  const SaveFailed := "Failed to save profile. Please try again."

  /** The editor's `formData`. */
  datatype ProfileForm = ProfileForm(
    fullName: string,
    officialEmail: string,
    phoneNumber: string,
    password: string,
    confirmPassword: string,
    officerId: string)

  const EmptyForm := ProfileForm("", "", "", "", "", "")

  /** The profile the server returns; any field may be missing. */
  datatype ServerProfile = ServerProfile(
    fullName: Option<string>,
    officialEmail: Option<string>,
    phone: Option<string>,
    authorityId: Option<string>)

  /** The five guards on the profile fields. */
  predicate FieldsPass(f: ProfileForm) {
    && !IsBlank(f.fullName) && !IsBlank(f.officialEmail) && MatchesPattern(f.officialEmail)
    && !IsBlank(f.phoneNumber) && !IsBlank(f.officerId)
  }

  /** The two password guards: a password, if entered, is long enough, and the confirmation equals it
      (also when both are blank). */
  predicate PasswordPasses(f: ProfileForm) {
    (f.password == "" || Utf16Length(f.password) >= MinPasswordLength) && f.password == f.confirmPassword
  }

  /** `validateForm`: the error it sets, or `None` when it returns true. */
  function ValidateForm(f: ProfileForm): (r: Option<FormError>) {
    if IsBlank(f.fullName) then Some(FullNameRequired)
    else if IsBlank(f.officialEmail) then Some(OfficialEmailRequired)
    else if !MatchesPattern(f.officialEmail) then Some(InvalidEmail)
    else if IsBlank(f.phoneNumber) then Some(PhoneRequired)
    else if IsBlank(f.officerId) then Some(OfficerIdRequired)
    else if f.password != "" && Utf16Length(f.password) < MinPasswordLength then Some(PasswordTooShort)
    else if f.password != f.confirmPassword then Some(PasswordsDoNotMatch)
    else None
  }

  /** The form is accepted exactly when all seven guards pass, and the first guard that fails decides
      the message: each message is reported exactly when its own guard fails and every guard before
      it passes. */
  lemma ProfileVerdict(f: ProfileForm)
    ensures ValidateForm(f).None? <==> FieldsPass(f) && PasswordPasses(f)
    ensures ValidateForm(f) == Some(FullNameRequired) <==> IsBlank(f.fullName)
    ensures ValidateForm(f) == Some(OfficialEmailRequired) <==> !IsBlank(f.fullName) && IsBlank(f.officialEmail)
    ensures ValidateForm(f) == Some(InvalidEmail) <==>
      !IsBlank(f.fullName) && !IsBlank(f.officialEmail) && !MatchesPattern(f.officialEmail)
    ensures ValidateForm(f) == Some(PhoneRequired) <==>
      !IsBlank(f.fullName) && !IsBlank(f.officialEmail) && MatchesPattern(f.officialEmail)
      && IsBlank(f.phoneNumber)
    ensures ValidateForm(f) == Some(OfficerIdRequired) <==>
      !IsBlank(f.fullName) && !IsBlank(f.officialEmail) && MatchesPattern(f.officialEmail)
      && !IsBlank(f.phoneNumber) && IsBlank(f.officerId)
    ensures ValidateForm(f) == Some(PasswordTooShort) <==>
      FieldsPass(f) && f.password != "" && Utf16Length(f.password) < MinPasswordLength
    ensures ValidateForm(f) == Some(PasswordsDoNotMatch) <==>
      FieldsPass(f) && (f.password == "" || Utf16Length(f.password) >= MinPasswordLength)
      && f.password != f.confirmPassword
  {
  }

  /** A blank password passes the length guard but not the match guard: once the fields pass, a
      blank password is accepted exactly when the confirmation is blank too. */
  lemma BlankPasswordNeedsBlankConfirmation(f: ProfileForm)
    requires FieldsPass(f) && f.password == ""
    ensures ValidateForm(f) != Some(PasswordTooShort)
    ensures ValidateForm(f).None? <==> f.confirmPassword == ""
    ensures f.confirmPassword != "" ==> ValidateForm(f) == Some(PasswordsDoNotMatch)
  {
    ProfileVerdict(f);
  }

  /** `loadProfile`'s mapping: missing fields become `""`, the server's `phone` fills the phone
      number and its `authority_id` fills the officer id, and both password fields are reset. */
  function FormFromServer(p: ServerProfile): (f: ProfileForm)
    ensures FilledFrom(f.fullName, p.fullName) && FilledFrom(f.officialEmail, p.officialEmail)
    ensures FilledFrom(f.phoneNumber, p.phone) && FilledFrom(f.officerId, p.authorityId)
    ensures f.password == "" && f.confirmPassword == ""
  {
    ProfileForm(OrEmpty(p.fullName), OrEmpty(p.officialEmail), OrEmpty(p.phone), "", "", OrEmpty(p.authorityId))
  }

  /** The keys `handleSubmit` always sends. */
  const BaseKeys: set<string> := {"user_id", "full_name", "official_email", "phone_number", "officer_id"}

  /** The `submitData` object of `handleSubmit`: the five base keys, then `password` and
      `confirm_password` set on it when a password was entered. */
  function SubmitObject(userId: string, f: ProfileForm): (r: map<string, string>) {
    var base := map[
      "user_id" := userId, "full_name" := f.fullName, "official_email" := f.officialEmail,
      "phone_number" := f.phoneNumber, "officer_id" := f.officerId];
    if f.password != "" then base["password" := f.password]["confirm_password" := f.confirmPassword]
    else base
  }

  /** The object always carries the user id and the four profile fields under their keys, and the
      password pair exactly when a password was entered. */
  lemma SubmitObjectShape(userId: string, f: ProfileForm)
    ensures SubmitObject(userId, f).Keys ==
      BaseKeys + (if f.password != "" then {"password", "confirm_password"} else {})
    ensures SubmitObject(userId, f)["user_id"] == userId
    ensures SubmitObject(userId, f)["full_name"] == f.fullName
    ensures SubmitObject(userId, f)["official_email"] == f.officialEmail
    ensures SubmitObject(userId, f)["phone_number"] == f.phoneNumber
    ensures SubmitObject(userId, f)["officer_id"] == f.officerId
    ensures f.password != "" ==>
      SubmitObject(userId, f)["password"] == f.password
      && SubmitObject(userId, f)["confirm_password"] == f.confirmPassword
  {
    assert "password" !in BaseKeys && "confirm_password" !in BaseKeys;
  }

  /** Loading and then saving without edits sends exactly the five base keys, each stored value
      under the editor's own key (the stored `phone` as `phone_number`, the stored `authority_id` as
      `officer_id`), a missing one as `""`, and leaves the password alone. */
  lemma LoadThenSaveSendsStoredValues(userId: string, p: ServerProfile)
    ensures SubmitObject(userId, FormFromServer(p)).Keys == BaseKeys
    ensures "password" !in SubmitObject(userId, FormFromServer(p))
    ensures "confirm_password" !in SubmitObject(userId, FormFromServer(p))
    ensures SubmitObject(userId, FormFromServer(p))["user_id"] == userId
    ensures FilledFrom(SubmitObject(userId, FormFromServer(p))["full_name"], p.fullName)
    ensures FilledFrom(SubmitObject(userId, FormFromServer(p))["official_email"], p.officialEmail)
    ensures FilledFrom(SubmitObject(userId, FormFromServer(p))["phone_number"], p.phone)
    ensures FilledFrom(SubmitObject(userId, FormFromServer(p))["officer_id"], p.authorityId)
    ensures FieldsPass(FormFromServer(p)) ==> ValidateForm(FormFromServer(p)).None?
  {
    SubmitObjectShape(userId, FormFromServer(p));
    ProfileVerdict(FormFromServer(p));
  }

  /** The state of the authority profile page. */
  class AuthorityProfilePage {
    const userId: string
    var formData: ProfileForm
    var loading: bool
    var error: string
    var success: string
    /** Every request the page has sent, oldest first. */
    var sent: seq<Request>

    constructor (userId: string)
      ensures this.userId == userId && formData == EmptyForm
      ensures !loading && error == "" && success == "" && sent == []
    {
      this.userId := userId;
      formData := EmptyForm;
      loading := false;
      error, success := "", "";
      sent := [];
    }

    /** The effect that runs `loadProfile` when there is a user id, with the server's answer as a
        parameter (`None` when the request fails, which leaves the form as it was). */
    method LoadProfile(reply: Option<ServerProfile>)
      modifies this
      ensures loading == old(loading) && error == old(error) && success == old(success)
      ensures userId == "" ==> formData == old(formData) && sent == old(sent)
      ensures userId != "" ==>
        && sent == old(sent) + [Request(Get, "/profile/authority/?user_id=" + userId, NoBody)]
        && formData == (if reply.Some? then FormFromServer(reply.value) else old(formData))
    {
      if userId == "" {
        return;
      }
      sent := sent + [Request(Get, "/profile/authority/?user_id=" + userId, NoBody)];
      if reply.Some? {
        formData := FormFromServer(reply.value);
      }
    }

    /** A submit whose guard failed: the guard's message shows, nothing was sent, `loading` was
        never touched. */
    twostate predicate Refused(message: string)
      reads this
    {
      error == message && success == "" && loading == old(loading) && sent == old(sent)
    }

    /** A submit whose guards passed: exactly `request` was sent, `loading` is off again, and the
        banner reflects the reply. */
    twostate predicate Settled(request: Request, reply: Reply)
      reads this
    {
      && sent == old(sent) + [request]
      && !loading
      && (reply.Accepted? ==> error == "" && success == Saved)
      && (reply.Rejected? ==> error == ErrorText(reply.failure, SaveFailed) && success == "")
    }

    /** The `try`/`catch`/`finally` around the PUT. */
    method Save(request: Request, reply: Reply)
      requires error == "" && success == ""
      modifies this
      ensures formData == old(formData)
      ensures Settled(request, reply)
    {
      loading := true;
      sent := sent + [request];
      if reply.Accepted? {
        success := Saved;
      } else {
        error := ErrorText(reply.failure, SaveFailed);
      }
      loading := false;
    }

    /** `handleSubmit`, with the server's reply as a parameter. */
    method HandleSubmit(reply: Reply)
      modifies this
      ensures formData == old(formData)
      ensures var v := ValidateForm(old(formData));
        if v.Some? then Refused(Message(v.value))
        else Settled(Request(Put, "/profile/authority/", Json(SubmitObject(userId, old(formData)))), reply)
    {
      error, success := "", "";
      var v := ValidateForm(formData);
      if v.Some? {
        error := Message(v.value);
        return;
      }
      var submitData := map[
        "user_id" := userId, "full_name" := formData.fullName, "official_email" := formData.officialEmail,
        "phone_number" := formData.phoneNumber, "officer_id" := formData.officerId];
      if formData.password != "" {
        submitData := submitData["password" := formData.password];
        submitData := submitData["confirm_password" := formData.confirmPassword];
      }
      Save(Request(Put, "/profile/authority/", Json(submitData)), reply);
    }
  }
}
