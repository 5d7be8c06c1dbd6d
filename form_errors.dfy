/**
 * The messages the form validators set with `setError`. Each guard is identified by a tag; the
 * text the page shows for it is `Message(tag)`.
 */
module FormErrors {

  /** The shortest password every form accepts, in UTF-16 code units (the 8 of `PasswordTooShort`). */
  const MinPasswordLength := 8

  datatype FormError =
    | FullNameRequired
    | EmailRequired
    | OfficialEmailRequired
    | InvalidEmail
    | PhoneRequired
    | OfficerIdRequired
    | PasswordTooShort
    | PasswordsDoNotMatch
    | NationalityRequired
    | CurrentLocationRequired
    | ProfilePhotoRequired
    | TermsRequired
    | AgencyTypeRequired
    | AgencyNameRequired
    | AuthorityIdRequired
    | FromAddressRequired
    | ToAddressRequired
    | ArrivalDateRequired
    | DepartureDateRequired
    | HotelNameRequired
    | HotelAddressRequired
    | TouristLoginRequired
    | AuthorityLoginRequired

  /** The text shown for each guard. */
  function Message(e: FormError): (r: string)
    ensures r != ""
  {
    match e
    case FullNameRequired => "Full Name is required"
    case EmailRequired => "Email is required"
    case OfficialEmailRequired => "Official Email is required"
    case InvalidEmail => "Please enter a valid email address"
    case PhoneRequired => "Phone Number is required"
    case OfficerIdRequired => "Officer ID is required"
    case PasswordTooShort => "Password must be at least 8 characters"
    case PasswordsDoNotMatch => "Passwords do not match"
    case NationalityRequired => "Nationality is required"
    case CurrentLocationRequired => "Current Location is required"
    case ProfilePhotoRequired => "Profile Photo is required"
    case TermsRequired => "You must accept the Terms & Conditions"
    case AgencyTypeRequired => "Agency Type is required"
    case AgencyNameRequired => "Agency/Station Name is required"
    case AuthorityIdRequired => "Authority ID / Badge Number is required"
    case FromAddressRequired => "From Address (Origin) is required"
    case ToAddressRequired => "To Address (Destination) is required"
    case ArrivalDateRequired => "Arrival Date is required"
    case DepartureDateRequired => "Departure Date is required"
    case HotelNameRequired => "Hotel Name is required"
    case HotelAddressRequired => "Hotel Address is required"
    case TouristLoginRequired => "Email and Password are required"
    case AuthorityLoginRequired => "Official Email and Password are required"
  }
}
