/**
 * The tourist profile editor: it loads the stored profile into the form, validates the form with
 * a guard chain in which the password is optional (blank means "keep the current one"), and saves
 * it as a multipart body that carries the password only when one was entered.
 */
module TouristProfile {

  import opened Wrappers
  import opened Text
  import opened Email
  import opened FormErrors
  import opened Requests

  const Saved := "Tourist Profile saved successfully!"
  const SaveFailed := "Failed to save profile. Please try again."

  /** The editor's `formData`. */
  datatype ProfileForm = ProfileForm(
    fullName: string,
    email: string,
    phoneNumber: string,
    password: string,
    confirmPassword: string,
    fromAddress: string,
    toAddress: string,
    arrivalDate: string,
    departureDate: string,
    hotelName: string,
    hotelAddress: string,
    profilePhoto: Option<Photo>)

  const EmptyForm := ProfileForm("", "", "", "", "", "", "", "", "", "", "", None)

  /** The profile the server returns; any field may be missing. `profilePhoto` is a URL. */
  datatype ServerProfile = ServerProfile(
    name: Option<string>,
    email: Option<string>,
    phone: Option<string>,
    fromAddress: Option<string>,
    toAddress: Option<string>,
    arrivalDate: Option<string>,
    departureDate: Option<string>,
    hotelName: Option<string>,
    hotelAddress: Option<string>,
    profilePhoto: Option<string>)

  /** The ten guards on the profile fields, before the two password guards. */
  predicate FieldsPass(f: ProfileForm) {
    && !IsBlank(f.fullName) && !IsBlank(f.email) && MatchesPattern(f.email)
    && !IsBlank(f.phoneNumber) && !IsBlank(f.fromAddress) && !IsBlank(f.toAddress)
    && f.arrivalDate != "" && f.departureDate != ""
    && !IsBlank(f.hotelName) && !IsBlank(f.hotelAddress)
  }

  /** The two password guards: a password, if entered, is long enough, and the confirmation equals it
      (also when both are blank). */
  predicate PasswordPasses(f: ProfileForm) {
    (f.password == "" || Utf16Length(f.password) >= MinPasswordLength) && f.password == f.confirmPassword
  }

  /** The first four guards of `validateForm`: name, e-mail present, e-mail shape, phone. */
  function ContactError(f: ProfileForm): (r: Option<FormError>) {
    if IsBlank(f.fullName) then Some(FullNameRequired)
    else if IsBlank(f.email) then Some(EmailRequired)
    else if !MatchesPattern(f.email) then Some(InvalidEmail)
    else if IsBlank(f.phoneNumber) then Some(PhoneRequired)
    else None
  }

  /** The next six: origin, destination, both dates (presence only), hotel name and address. */
  function TripError(f: ProfileForm): (r: Option<FormError>) {
    if IsBlank(f.fromAddress) then Some(FromAddressRequired)
    else if IsBlank(f.toAddress) then Some(ToAddressRequired)
    else if f.arrivalDate == "" then Some(ArrivalDateRequired)
    else if f.departureDate == "" then Some(DepartureDateRequired)
    else if IsBlank(f.hotelName) then Some(HotelNameRequired)
    else if IsBlank(f.hotelAddress) then Some(HotelAddressRequired)
    else None
  }

  /** The last two: the length of a password that was entered, then the confirmation. */
  function PasswordError(f: ProfileForm): (r: Option<FormError>) {
    if f.password != "" && Utf16Length(f.password) < MinPasswordLength then Some(PasswordTooShort)
    else if f.password != f.confirmPassword then Some(PasswordsDoNotMatch)
    else None
  }

  /** `validateForm`: the error it sets, or `None` when it returns true. The twelve guards run in
      source order, so the first group with a failing guard decides. */
  function ValidateForm(f: ProfileForm): (r: Option<FormError>) {
    var contact := ContactError(f);
    if contact.Some? then contact
    else
      var trip := TripError(f);
      if trip.Some? then trip else PasswordError(f)
  }

  /** Each contact message is reported exactly when its own guard fails and the guards before it pass. */
  lemma ContactVerdict(f: ProfileForm)
    ensures ContactError(f).None? <==>
      !IsBlank(f.fullName) && !IsBlank(f.email) && MatchesPattern(f.email) && !IsBlank(f.phoneNumber)
    ensures ContactError(f) == Some(FullNameRequired) <==> IsBlank(f.fullName)
    ensures ContactError(f) == Some(EmailRequired) <==> !IsBlank(f.fullName) && IsBlank(f.email)
    ensures ContactError(f) == Some(InvalidEmail) <==>
      !IsBlank(f.fullName) && !IsBlank(f.email) && !MatchesPattern(f.email)
    ensures ContactError(f) == Some(PhoneRequired) <==>
      !IsBlank(f.fullName) && !IsBlank(f.email) && MatchesPattern(f.email) && IsBlank(f.phoneNumber)
  {
  }

  /** Each trip message is reported exactly when its own guard fails and the trip guards before it pass. */
  lemma TripVerdict(f: ProfileForm)
    ensures TripError(f).None? <==>
      !IsBlank(f.fromAddress) && !IsBlank(f.toAddress) && f.arrivalDate != "" && f.departureDate != ""
      && !IsBlank(f.hotelName) && !IsBlank(f.hotelAddress)
    ensures TripError(f) == Some(FromAddressRequired) <==> IsBlank(f.fromAddress)
    ensures TripError(f) == Some(ToAddressRequired) <==> !IsBlank(f.fromAddress) && IsBlank(f.toAddress)
    ensures TripError(f) == Some(ArrivalDateRequired) <==>
      !IsBlank(f.fromAddress) && !IsBlank(f.toAddress) && f.arrivalDate == ""
    ensures TripError(f) == Some(DepartureDateRequired) <==>
      !IsBlank(f.fromAddress) && !IsBlank(f.toAddress) && f.arrivalDate != "" && f.departureDate == ""
    ensures TripError(f) == Some(HotelNameRequired) <==>
      !IsBlank(f.fromAddress) && !IsBlank(f.toAddress) && f.arrivalDate != "" && f.departureDate != ""
      && IsBlank(f.hotelName)
    ensures TripError(f) == Some(HotelAddressRequired) <==>
      !IsBlank(f.fromAddress) && !IsBlank(f.toAddress) && f.arrivalDate != "" && f.departureDate != ""
      && !IsBlank(f.hotelName) && IsBlank(f.hotelAddress)
  {
  }

  /** The password guards: a blank password skips the length guard but not the match guard. */
  lemma PasswordVerdict(f: ProfileForm)
    ensures PasswordError(f).None? <==> PasswordPasses(f)
    ensures PasswordError(f) == Some(PasswordTooShort) <==>
      f.password != "" && Utf16Length(f.password) < MinPasswordLength
    ensures PasswordError(f) == Some(PasswordsDoNotMatch) <==>
      (f.password == "" || Utf16Length(f.password) >= MinPasswordLength) && f.password != f.confirmPassword
  {
  }

  /** The form is accepted exactly when all twelve guards pass. */
  lemma ProfileAccepted(f: ProfileForm)
    ensures ValidateForm(f).None? <==> FieldsPass(f) && PasswordPasses(f)
  {
    ContactVerdict(f);
    TripVerdict(f);
    PasswordVerdict(f);
  }

  /** A trip message is reported exactly when the contact guards pass and the trip group reports it. */
  lemma TripReportedAfterContact(f: ProfileForm, e: FormError)
    requires TripError(f) == Some(e)
    ensures ValidateForm(f) == Some(e) <==> ContactError(f).None?
  {
    TripVerdict(f);
    ContactVerdict(f);
    if ContactError(f).Some? {
      assert e != ContactError(f).value;
    }
  }

  /** The password messages are reported exactly when all ten field guards pass and the password
      guards fail in that way. */
  lemma PasswordReportedAfterFields(f: ProfileForm)
    ensures ValidateForm(f) == Some(PasswordTooShort) <==>
      FieldsPass(f) && f.password != "" && Utf16Length(f.password) < MinPasswordLength
    ensures ValidateForm(f) == Some(PasswordsDoNotMatch) <==>
      FieldsPass(f) && (f.password == "" || Utf16Length(f.password) >= MinPasswordLength)
      && f.password != f.confirmPassword
  {
    ContactVerdict(f);
    TripVerdict(f);
    PasswordVerdict(f);
  }

  /** A blank password passes the length guard but not the match guard: once the fields pass, a
      blank password is accepted exactly when the confirmation is blank too. */
  lemma BlankPasswordNeedsBlankConfirmation(f: ProfileForm)
    requires FieldsPass(f) && f.password == ""
    ensures ValidateForm(f) != Some(PasswordTooShort)
    ensures ValidateForm(f).None? <==> f.confirmPassword == ""
    ensures f.confirmPassword != "" ==> ValidateForm(f) == Some(PasswordsDoNotMatch)
  {
    ProfileAccepted(f);
    PasswordReportedAfterFields(f);
  }

  /** The dates are only checked for presence: changing them to any other non-empty strings, in
      either order, never changes the verdict. */
  lemma DatesNotCompared(f: ProfileForm, arrival: string, departure: string)
    requires f.arrivalDate != "" && f.departureDate != ""
    requires arrival != "" && departure != ""
    ensures ValidateForm(f.(arrivalDate := arrival, departureDate := departure)) == ValidateForm(f)
  {
    var g := f.(arrivalDate := arrival, departureDate := departure);
    assert ContactError(g) == ContactError(f);
    assert PasswordError(g) == PasswordError(f);
    TripVerdict(f);
    TripVerdict(g);
    if TripError(f).None? {
      assert TripError(g).None?;
    } else {
      assert TripError(g) == TripError(f);
    }
  }

  /** `loadProfile`'s mapping: each stored field fills its form field (the stored `name` the full
      name, the stored `phone` the phone number), a missing or empty one becomes `""`, both password
      fields are reset, and no photo is selected. */
  function FormFromServer(p: ServerProfile): (f: ProfileForm)
    ensures FilledFrom(f.fullName, p.name) && FilledFrom(f.email, p.email) && FilledFrom(f.phoneNumber, p.phone)
    ensures FilledFrom(f.fromAddress, p.fromAddress) && FilledFrom(f.toAddress, p.toAddress)
    ensures FilledFrom(f.arrivalDate, p.arrivalDate) && FilledFrom(f.departureDate, p.departureDate)
    ensures FilledFrom(f.hotelName, p.hotelName) && FilledFrom(f.hotelAddress, p.hotelAddress)
    ensures f.password == "" && f.confirmPassword == "" && f.profilePhoto.None?
  {
    ProfileForm(
      OrEmpty(p.name), OrEmpty(p.email), OrEmpty(p.phone), "", "",
      OrEmpty(p.fromAddress), OrEmpty(p.toAddress), OrEmpty(p.arrivalDate), OrEmpty(p.departureDate),
      OrEmpty(p.hotelName), OrEmpty(p.hotelAddress), None)
  }

  /** The keys `handleSubmit` always appends, in order. */
  const BaseKeys := ["user_id", "full_name", "email", "phone_number", "from_address", "to_address",
                     "arrival_date", "departure_date", "hotel_name", "hotel_address"]

  /** The ten parts `handleSubmit` always appends. */
  function BaseParts(userId: string, f: ProfileForm): (r: seq<Part>) {
    [("user_id", TextValue(userId)), ("full_name", TextValue(f.fullName)), ("email", TextValue(f.email)),
     ("phone_number", TextValue(f.phoneNumber)), ("from_address", TextValue(f.fromAddress)),
     ("to_address", TextValue(f.toAddress)), ("arrival_date", TextValue(f.arrivalDate)),
     ("departure_date", TextValue(f.departureDate)), ("hotel_name", TextValue(f.hotelName)),
     ("hotel_address", TextValue(f.hotelAddress))]
  }

  /** The password pair, appended only when a password was entered. */
  function PasswordParts(f: ProfileForm): (r: seq<Part>) {
    if f.password != "" then [("password", TextValue(f.password)), ("confirm_password", TextValue(f.confirmPassword))]
    else []
  }

  /** The photo, appended only when one was selected. */
  function PhotoParts(f: ProfileForm): (r: seq<Part>) {
    if f.profilePhoto.Some? then [("profile_photo", File(f.profilePhoto.value))] else []
  }

  /** The `FormData` body of `handleSubmit`, in append order. */
  function SubmitParts(userId: string, f: ProfileForm): (r: seq<Part>) {
    BaseParts(userId, f) + PasswordParts(f) + PhotoParts(f)
  }

  /** `handleSubmit`'s `new FormData()` and its appends, in source order. */
  method BuildSubmitData(userId: string, f: ProfileForm) returns (data: FormData)
    ensures fresh(data) && data.parts == SubmitParts(userId, f)
  {
    data := new FormData();
    data.Append("user_id", TextValue(userId));
    data.Append("full_name", TextValue(f.fullName));
    data.Append("email", TextValue(f.email));
    data.Append("phone_number", TextValue(f.phoneNumber));
    data.Append("from_address", TextValue(f.fromAddress));
    assert data.parts == BaseParts(userId, f)[..5];
    data.Append("to_address", TextValue(f.toAddress));
    data.Append("arrival_date", TextValue(f.arrivalDate));
    data.Append("departure_date", TextValue(f.departureDate));
    data.Append("hotel_name", TextValue(f.hotelName));
    data.Append("hotel_address", TextValue(f.hotelAddress));
    assert data.parts == BaseParts(userId, f);
    if f.password != "" {
      data.Append("password", TextValue(f.password));
      data.Append("confirm_password", TextValue(f.confirmPassword));
    }
    assert data.parts == BaseParts(userId, f) + PasswordParts(f);
    if f.profilePhoto.Some? {
      data.Append("profile_photo", File(f.profilePhoto.value));
    }
  }

  /** The value the body should carry under each key: the matching form field. */
  function WireValue(userId: string, f: ProfileForm, key: string): (v: Value) {
    if key == "user_id" then TextValue(userId)
    else if key == "full_name" then TextValue(f.fullName)
    else if key == "email" then TextValue(f.email)
    else if key == "phone_number" then TextValue(f.phoneNumber)
    else if key == "from_address" then TextValue(f.fromAddress)
    else if key == "to_address" then TextValue(f.toAddress)
    else if key == "arrival_date" then TextValue(f.arrivalDate)
    else if key == "departure_date" then TextValue(f.departureDate)
    else if key == "hotel_name" then TextValue(f.hotelName)
    else if key == "hotel_address" then TextValue(f.hotelAddress)
    else if key == "password" then TextValue(f.password)
    else if key == "confirm_password" then TextValue(f.confirmPassword)
    else if key == "profile_photo" && f.profilePhoto.Some? then File(f.profilePhoto.value)
    else TextValue("")
  }

  /** The body starts with the user id and the nine profile fields, in that order; it carries the
      password pair exactly when a password was entered and the photo exactly when one was
      selected; every key appears once. */
  lemma SubmitKeysByCase(userId: string, f: ProfileForm)
    ensures Keys(SubmitParts(userId, f))[..|BaseKeys|] == BaseKeys
    ensures "password" in Keys(SubmitParts(userId, f)) <==> f.password != ""
    ensures "confirm_password" in Keys(SubmitParts(userId, f)) <==> f.password != ""
    ensures "profile_photo" in Keys(SubmitParts(userId, f)) <==> f.profilePhoto.Some?
    ensures |Keys(SubmitParts(userId, f))| == |BaseKeys| + (if f.password != "" then 2 else 0)
      + (if f.profilePhoto.Some? then 1 else 0)
  {
    var base, pw, photo := BaseParts(userId, f), PasswordParts(f), PhotoParts(f);
    KeysConcat(base + pw, photo);
    KeysConcat(base, pw);
    BaseKeysOnly(userId, f);
    var extra := (if f.password != "" then ["password", "confirm_password"] else [])
      + (if f.profilePhoto.Some? then ["profile_photo"] else []);
    assert Keys(pw) + Keys(photo) == extra;
    var ks := Keys(SubmitParts(userId, f));
    assert ks == BaseKeys + extra;
    assert ks[..|BaseKeys|] == BaseKeys;
    assert forall k :: k in ks <==> k in BaseKeys || k in extra;
  }

  lemma BaseKeysOnly(userId: string, f: ProfileForm)
    ensures Keys(BaseParts(userId, f)) == BaseKeys
    ensures "password" !in BaseKeys && "confirm_password" !in BaseKeys && "profile_photo" !in BaseKeys
  {
  }

  /** Every part carries the form field that belongs to its key. */
  lemma SubmitValuesMatchForm(userId: string, f: ProfileForm)
    ensures forall i | 0 <= i < |SubmitParts(userId, f)| ::
      SubmitParts(userId, f)[i].1 == WireValue(userId, f, SubmitParts(userId, f)[i].0)
  {
    var base, pw, photo := BaseParts(userId, f), PasswordParts(f), PhotoParts(f);
    assert forall i | 0 <= i < |base| :: base[i].1 == WireValue(userId, f, base[i].0);
    assert forall i | 0 <= i < |pw| :: pw[i].1 == WireValue(userId, f, pw[i].0);
    assert forall i | 0 <= i < |photo| :: photo[i].1 == WireValue(userId, f, photo[i].0);
  }

  /** Saving a freshly loaded profile without edits sends exactly the ten base parts, each stored
      value under the editor's own key (the stored `name` as `full_name`, the stored `phone` as
      `phone_number`), a missing or empty one as `""` (see `OrEmpty`), and neither the password
      nor the photo; when the stored fields pass their guards the form is accepted as it is. */
  lemma LoadThenSaveSendsStoredValues(userId: string, p: ServerProfile)
    ensures |SubmitParts(userId, FormFromServer(p))| == |BaseKeys|
    ensures Keys(SubmitParts(userId, FormFromServer(p))) == BaseKeys
    ensures "password" !in Keys(SubmitParts(userId, FormFromServer(p)))
    ensures "profile_photo" !in Keys(SubmitParts(userId, FormFromServer(p)))
    ensures SubmitParts(userId, FormFromServer(p)) == BaseParts(userId, FormFromServer(p))
    ensures SubmitParts(userId, FormFromServer(p))[0] == ("user_id", TextValue(userId))
    ensures SubmitParts(userId, FormFromServer(p))[1] == ("full_name", TextValue(OrEmpty(p.name)))
    ensures SubmitParts(userId, FormFromServer(p))[2] == ("email", TextValue(OrEmpty(p.email)))
    ensures SubmitParts(userId, FormFromServer(p))[3] == ("phone_number", TextValue(OrEmpty(p.phone)))
    ensures SubmitParts(userId, FormFromServer(p))[4] == ("from_address", TextValue(OrEmpty(p.fromAddress)))
    ensures SubmitParts(userId, FormFromServer(p))[5] == ("to_address", TextValue(OrEmpty(p.toAddress)))
    ensures SubmitParts(userId, FormFromServer(p))[6] == ("arrival_date", TextValue(OrEmpty(p.arrivalDate)))
    ensures SubmitParts(userId, FormFromServer(p))[7] == ("departure_date", TextValue(OrEmpty(p.departureDate)))
    ensures SubmitParts(userId, FormFromServer(p))[8] == ("hotel_name", TextValue(OrEmpty(p.hotelName)))
    ensures SubmitParts(userId, FormFromServer(p))[9] == ("hotel_address", TextValue(OrEmpty(p.hotelAddress)))
    ensures FieldsPass(FormFromServer(p)) ==> ValidateForm(FormFromServer(p)).None?
  {
    var f := FormFromServer(p);
    SubmitKeysByCase(userId, f);
    BaseKeysOnly(userId, f);
    assert SubmitParts(userId, f) == BaseParts(userId, f);
    ProfileAccepted(f);
  }

  /** The state of the tourist profile page. */
  class TouristProfilePage {
    const userId: string
    var formData: ProfileForm
    var photoPreview: Option<string>
    var loading: bool
    var error: string
    var success: string
    /** Every request the page has sent, oldest first. */
    var sent: seq<Request>

    constructor (userId: string)
      ensures this.userId == userId && formData == EmptyForm && photoPreview.None?
      ensures !loading && error == "" && success == "" && sent == []
    {
      this.userId := userId;
      formData := EmptyForm;
      photoPreview := None;
      loading := false;
      error, success := "", "";
      sent := [];
    }

    /** The effect that runs `loadProfile` when there is a user id, with the server's answer as a
        parameter (`None` when the request fails, which leaves the form as it was). */
    method LoadProfile(reply: Option<ServerProfile>)
      modifies this
      ensures loading == old(loading) && error == old(error) && success == old(success)
      ensures userId == "" ==> formData == old(formData) && photoPreview == old(photoPreview) && sent == old(sent)
      ensures userId != "" ==>
        && sent == old(sent) + [Request(Get, "/profile/tourist/?user_id=" + userId, NoBody)]
        && formData == (if reply.Some? then FormFromServer(reply.value) else old(formData))
        && photoPreview == (if reply.Some? && Truthy(reply.value.profilePhoto) then reply.value.profilePhoto else old(photoPreview))
    {
      if userId == "" {
        return;
      }
      sent := sent + [Request(Get, "/profile/tourist/?user_id=" + userId, NoBody)];
      if reply.Some? {
        formData := FormFromServer(reply.value);
        if Truthy(reply.value.profilePhoto) {
          photoPreview := reply.value.profilePhoto;
        }
      }
    }

    /** A submit whose guard failed: the guard's message shows, nothing was sent, `loading` was
        never touched. */
    twostate predicate Refused(message: string)
      reads this
    {
      error == message && success == "" && loading == old(loading) && sent == old(sent)
    }

    /** A submit whose guards passed: exactly `request` was sent, `loading` is off again, and the
        banner reflects the reply. */
    twostate predicate Settled(request: Request, reply: Reply)
      reads this
    {
      && sent == old(sent) + [request]
      && !loading
      && (reply.Accepted? ==> error == "" && success == Saved)
      && (reply.Rejected? ==> error == ErrorText(reply.failure, SaveFailed) && success == "")
    }

    /** The `try`/`catch`/`finally` around the PUT. */
    method Save(request: Request, reply: Reply)
      requires error == "" && success == ""
      modifies this
      ensures formData == old(formData) && photoPreview == old(photoPreview)
      ensures Settled(request, reply)
    {
      loading := true;
      sent := sent + [request];
      if reply.Accepted? {
        success := Saved;
      } else {
        error := ErrorText(reply.failure, SaveFailed);
      }
      loading := false;
    }

    /** `handleSubmit`, with the server's reply as a parameter. */
    method HandleSubmit(reply: Reply)
      modifies this
      ensures formData == old(formData) && photoPreview == old(photoPreview)
      ensures var v := ValidateForm(old(formData));
        if v.Some? then Refused(Message(v.value))
        else Settled(Request(Put, "/profile/tourist/", Multipart(SubmitParts(userId, old(formData)))), reply)
    {
      error, success := "", "";
      var v := ValidateForm(formData);
      if v.Some? {
        error := Message(v.value);
        return;
      }
      var data := BuildSubmitData(userId, formData);
      Save(Request(Put, "/profile/tourist/", Multipart(data.parts)), reply);
    }
  }
}
