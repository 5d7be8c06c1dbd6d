# Tourist Safety Portal: the form logic of the web front end

This project models, in Dafny, the parts of the portal's React front end that decide what a user
is told and what is sent to the backend:

- the authentication page (`Auth.jsx`):
  - the tourist and authority registration validators;
  - the login pre-checks;
  - the four submit handlers, each a validate-then-send flow with an error-text fallback;
- the tourist profile editor (`TouristProfileDetail.jsx`): its validator, the multipart body it
  saves and the way it loads a stored profile into the form;
- the authority profile editor (`AuthorityProfileDetail.jsx`): its validator, the JSON object it
  saves and the way it loads a stored profile;
- the dashboard (`Dashboard.jsx`): the three "first five of a type" panels and the fetch that
  replaces the markers.

Modules:

- `Text` (text.dfy):
  - JavaScript's white-space class, `trim`, and `length` counted in UTF-16 code units.
- `Email` (email.dfy):
  - the address pattern `^[^\s@]+@[^\s@]+\.[^\s@]+$`;
  - a proof that it accepts exactly the addresses with one `@`, no white space, a non-empty local
    part and a domain with an inner dot.
- `FormErrors` (form_errors.dfy):
  - one tag per validator message, with its exact text;
  - the minimum password length.
- `Requests` (requests.dfy):
  - requests as values: verb, path, and a multipart, JSON or empty body;
  - the browser's `FormData` as a class whose `append` extends it in place;
  - replies;
  - `o || ""`;
  - the `error || message || fallback` chain.
- `Auth`, `TouristProfile`, `AuthorityProfile`, `Dashboard`: one per page.
  - The validators are pure functions returning the first failing guard, or `None`.
  - Each page is a class whose fields are the page's state variables: forms, `loading`, `error`,
    `success`, markers, and a log `sent` of the requests issued.
  - The handlers are methods on that class.

Every `!x.trim()` guard is written `IsBlank(x)`. `Text.Trim` proves that `Trim(x) == ""` holds
exactly when `IsBlank(x)` does.

## Model

| member | source | states |
|---|---|---|
| Text.TrimStart | frontend/src/pages/Auth.jsx:66 | the result is a suffix of the input, starts with a non-white-space character (or is empty), and everything dropped is white space |
| Text.TrimEnd | frontend/src/pages/Auth.jsx:66 | the result is a prefix of the input, ends with a non-white-space character (or is empty), and everything dropped is white space |
| Text.Trim | frontend/src/pages/Auth.jsx:66 | the trimmed string has no white space at either end, and it is empty exactly when the input is all white space, which is what `!x.trim()` tests |
| Text.IsWhitespace | frontend/src/pages/Auth.jsx:66 | no contract; the code points shared by `trim()` and `\s`: exactly the ECMAScript WhiteSpace and LineTerminator sets (U+0009-000D, 0020, 00A0, 1680, 2000-200A, 2028, 2029, 202F, 205F, 3000, FEFF) |
| Text.IsBlank | frontend/src/pages/Auth.jsx:66 | no contract; every character is white space. `Text.Trim` proves it is exactly the `!x.trim()` test |
| Text.Utf16Length | frontend/src/pages/Auth.jsx:78 | `length` lies between the number of code points and twice that, and is 0 only for the empty string |
| Email.MatchesPattern | frontend/src/pages/Auth.jsx:74 | no contract; the regular expression as a split into three non-empty `[^\s@]` runs around an `@` and a `.`, characterised by `Email.PatternCharacterization` |
| Email.PatternCharacterization | frontend/src/pages/Auth.jsx:74 | the e-mail pattern matches exactly the well-formed addresses: one `@`, no white space, a non-empty local part, a domain with a `.` that is neither its first nor its last character |
| Email.PatternIsWellFormed | frontend/src/pages/Auth.jsx:74 | every string the pattern matches is a well-formed address |
| Email.WellFormedMatchesPattern | frontend/src/pages/Auth.jsx:74 | every well-formed address matches the pattern |
| FormErrors.Message | frontend/src/pages/Auth.jsx:65-288 | the exact `setError` text of every guard of the four core files: the registration chains and the two login checks (Auth.jsx:65-139, 197, 286), and the texts found only in the profile editors (TouristProfileDetail.jsx:86-113, AuthorityProfileDetail.jsx:58-65); no text is empty |
| Requests.OrEmpty | frontend/src/pages/TouristProfileDetail.jsx:40-50 | `o \|\| ""` is the server value when it is present and non-empty, and `""` otherwise |
| Requests.ErrorText | frontend/src/pages/Auth.jsx:181-185 | the error banner after a failed request is the response's `error` if truthy, else its `message` if truthy, else the page's fallback (also when there is no response) |
| Requests.ErrorTextNeverEmpty | frontend/src/pages/Auth.jsx:181-185 | with a non-empty fallback, a failed request always shows a non-empty error |
| Requests.FormData.constructor | frontend/src/pages/TouristProfileDetail.jsx:136 | `new FormData()` has no parts |
| Requests.FormData.Append | frontend/src/pages/TouristProfileDetail.jsx:137 | `append` adds exactly one part at the end and keeps the earlier parts |
| Auth.ValidateTouristRegistration | frontend/src/pages/Auth.jsx:65-103 | no contract; the nine guards as an if-chain returning the first failing guard's tag, characterised by `Auth.TouristRegistrationVerdict` |
| Auth.ValidateAuthorityRegistration | frontend/src/pages/Auth.jsx:105-139 | no contract; the eight guards as an if-chain, characterised by `Auth.AuthorityRegistrationVerdict` |
| Auth.TouristRegistrationVerdict | frontend/src/pages/Auth.jsx:65-103 | the nine tourist guards run in source order: the form passes exactly when all nine hold, and each message is reported exactly when its guard fails after all earlier guards passed |
| Auth.AuthorityRegistrationVerdict | frontend/src/pages/Auth.jsx:105-139 | the same for the eight authority guards: name, e-mail, pattern, length, match, agency type, agency name, authority id |
| Auth.CheckTouristLogin | frontend/src/pages/Auth.jsx:196-199 | the tourist login is stopped exactly when the e-mail or the password is empty, with "Email and Password are required" |
| Auth.CheckAuthorityLogin | frontend/src/pages/Auth.jsx:285-288 | the authority login is stopped exactly when the official e-mail or the password is empty, with "Official Email and Password are required" |
| Auth.TouristRegistrationRequest | frontend/src/pages/Auth.jsx:152-164 | no contract; the POST to `/auth/tourist/register/` with the six parts in append order, sent by `Auth.AuthPage.HandleTouristRegister` |
| Auth.AuthorityRegistrationRequest | frontend/src/pages/Auth.jsx:244-251 | no contract; the JSON POST to `/auth/authority/register/` with its six keys, sent by `Auth.AuthPage.HandleAuthorityRegister` |
| Auth.TouristLoginRequest | frontend/src/pages/Auth.jsx:203-206 | no contract; the JSON POST of `{email, password}` to `/auth/tourist/login/`, sent by `Auth.AuthPage.HandleTouristLogin` |
| Auth.AuthorityLoginRequest | frontend/src/pages/Auth.jsx:292-295 | no contract; the JSON POST of `{official_email, password}` to `/auth/authority/login/`, sent by `Auth.AuthPage.HandleAuthorityLogin` |
| Auth.AcceptedRegistrationsAreWellFormed | frontend/src/pages/Auth.jsx:65-139 | a registration that passes validation has a well-formed address and a confirmed password of at least 8 code units |
| Auth.ShortPasswordWinsOverMismatch | frontend/src/pages/Auth.jsx:78-85 | a short password is reported as too short whatever the confirmation holds |
| Auth.TouristMismatchReported | frontend/src/pages/Auth.jsx:82-85 | once name and e-mail pass, a tourist password of at least 8 code units that differs from its confirmation gets "Passwords do not match" |
| Auth.AuthorityMismatchReported | frontend/src/pages/Auth.jsx:122-125 | the same for the authority registration |
| Auth.LoginPrecheckDoesNotTrim | frontend/src/pages/Auth.jsx:196-199 | the tourist login's own check lets a non-empty all-white-space e-mail through, while the registration chain, after any non-blank name, rejects it with "Email is required" |
| Auth.AuthorityLoginPrecheckDoesNotTrim | frontend/src/pages/Auth.jsx:285-288 | the authority login's own check lets a non-empty all-white-space official e-mail through, while the authority registration, after any non-blank name, rejects it with "Official Email is required" |
| Auth.AuthPage.constructor | frontend/src/pages/Auth.jsx:10-48 | the page starts with empty forms, `loading` off, no banners and nothing sent |
| Auth.AuthPage.Submit | frontend/src/pages/Auth.jsx:150-188 | the `try`/`finally` around a request: the request is sent once, `loading` ends false, success shows the page's text, failure shows the error chain |
| Auth.AuthPage.HandleTouristRegister | frontend/src/pages/Auth.jsx:141-189 | banners are cleared; on a failed guard only its message is set, nothing is sent and `loading` is untouched; otherwise the multipart registration is posted and `loading` ends false |
| Auth.AuthPage.HandleTouristLogin | frontend/src/pages/Auth.jsx:191-231 | an empty field stops the login with its message and no request; otherwise the login is posted and the banner reflects the reply; the forms are unchanged |
| Auth.AuthPage.HandleAuthorityRegister | frontend/src/pages/Auth.jsx:233-278 | as for the tourist registration, with the JSON body and the authority texts |
| Auth.AuthPage.HandleAuthorityLogin | frontend/src/pages/Auth.jsx:280-319 | as for the tourist login, with "Invalid credentials" as fallback |
| TouristProfile.ContactError | frontend/src/pages/TouristProfileDetail.jsx:74-89 | no contract; the first four guards as an if-chain, characterised by `TouristProfile.ContactVerdict` |
| TouristProfile.TripError | frontend/src/pages/TouristProfileDetail.jsx:90-113 | no contract; the six trip guards as an if-chain, characterised by `TouristProfile.TripVerdict` |
| TouristProfile.PasswordError | frontend/src/pages/TouristProfileDetail.jsx:114-121 | no contract; the two password guards, characterised by `TouristProfile.PasswordVerdict` |
| TouristProfile.ValidateForm | frontend/src/pages/TouristProfileDetail.jsx:73-123 | no contract; the twelve guards in source order as the three groups one after the other, characterised by `TouristProfile.ProfileAccepted`, `TouristProfile.TripReportedAfterContact` and `TouristProfile.PasswordReportedAfterFields` |
| TouristProfile.ContactVerdict | frontend/src/pages/TouristProfileDetail.jsx:74-89 | name, e-mail, pattern, phone: each message exactly when its guard fails after the earlier ones passed |
| TouristProfile.TripVerdict | frontend/src/pages/TouristProfileDetail.jsx:90-113 | origin, destination, arrival, departure, hotel name, hotel address checked in that order; the dates only for presence |
| TouristProfile.PasswordVerdict | frontend/src/pages/TouristProfileDetail.jsx:114-121 | the length guard applies only to a non-empty password; the match guard always applies |
| TouristProfile.ProfileAccepted | frontend/src/pages/TouristProfileDetail.jsx:73-123 | the form is accepted exactly when all twelve guards pass |
| TouristProfile.TripReportedAfterContact | frontend/src/pages/TouristProfileDetail.jsx:73-113 | a trip message reaches the page exactly when the four contact guards pass |
| TouristProfile.PasswordReportedAfterFields | frontend/src/pages/TouristProfileDetail.jsx:73-121 | the two password messages are reported exactly when all ten field guards pass and the password guard fails in that way |
| TouristProfile.BlankPasswordNeedsBlankConfirmation | frontend/src/pages/TouristProfileDetail.jsx:114-121 | a blank password is never too short, and it is accepted exactly when the confirmation is blank too; otherwise the page says the passwords do not match |
| TouristProfile.DatesNotCompared | frontend/src/pages/TouristProfileDetail.jsx:98-105 | replacing the two dates by any non-empty strings, even a departure before the arrival, never changes the verdict |
| TouristProfile.FormFromServer | frontend/src/pages/TouristProfileDetail.jsx:39-52 | each of the nine stored fields fills its form field when truthy and leaves `""` otherwise (`name` fills the full name, `phone` the phone number); both password fields are empty and no photo is selected |
| TouristProfile.SubmitParts | frontend/src/pages/TouristProfileDetail.jsx:136-153 | no contract; the part list the appends build, characterised by `TouristProfile.SubmitKeysByCase` and `TouristProfile.SubmitValuesMatchForm` |
| TouristProfile.BuildSubmitData | frontend/src/pages/TouristProfileDetail.jsx:136-153 | the appends produce exactly the specified part list in a new `FormData` |
| TouristProfile.SubmitKeysByCase | frontend/src/pages/TouristProfileDetail.jsx:136-153 | the body starts with `user_id` and the nine profile fields in order; it has `password`/`confirm_password` exactly when a password was entered and `profile_photo` exactly when a photo was selected |
| TouristProfile.SubmitValuesMatchForm | frontend/src/pages/TouristProfileDetail.jsx:137-153 | every part carries the form field that belongs to its key |
| TouristProfile.LoadThenSaveSendsStoredValues | frontend/src/pages/TouristProfileDetail.jsx:39-52 | saving a freshly loaded profile sends exactly the ten base parts, part by part: the user id, then each stored field as `o \|\| ""` under the editor's key, `name` as `full_name` and `phone` as `phone_number`; no password and no photo; a loaded profile whose fields pass validates |
| TouristProfile.TouristProfilePage.constructor | frontend/src/pages/TouristProfileDetail.jsx:5-26 | the editor starts with an empty form, no preview, `loading` off, no banners |
| TouristProfile.TouristProfilePage.LoadProfile | frontend/src/pages/TouristProfileDetail.jsx:28-59 | with no user id nothing happens; otherwise the profile is requested, a reply replaces the form, a stored photo URL becomes the preview, a failure changes nothing |
| TouristProfile.TouristProfilePage.Save | frontend/src/pages/TouristProfileDetail.jsx:134-173 | the PUT is sent once, `loading` ends false, the banner reflects the reply |
| TouristProfile.TouristProfilePage.HandleSubmit | frontend/src/pages/TouristProfileDetail.jsx:125-174 | on a failed guard only its message is set, no PUT is sent and `loading` is never set; otherwise the multipart body is sent to `/profile/tourist/` |
| AuthorityProfile.ValidateForm | frontend/src/pages/AuthorityProfileDetail.jsx:45-75 | no contract; the seven guards as an if-chain, characterised by `AuthorityProfile.ProfileVerdict` |
| AuthorityProfile.ProfileVerdict | frontend/src/pages/AuthorityProfileDetail.jsx:45-75 | the seven guards run in order, first failure wins, and the form is accepted exactly when all pass |
| AuthorityProfile.BlankPasswordNeedsBlankConfirmation | frontend/src/pages/AuthorityProfileDetail.jsx:66-73 | a blank password is never too short and is accepted exactly when the confirmation is blank |
| AuthorityProfile.FormFromServer | frontend/src/pages/AuthorityProfileDetail.jsx:32-39 | each of the four stored fields fills its form field when truthy and leaves `""` otherwise (`phone` fills the phone number, `authority_id` the officer id); both password fields are empty |
| AuthorityProfile.SubmitObject | frontend/src/pages/AuthorityProfileDetail.jsx:88-99 | no contract; the `submitData` object, characterised by `AuthorityProfile.SubmitObjectShape` |
| AuthorityProfile.SubmitObjectShape | frontend/src/pages/AuthorityProfileDetail.jsx:88-99 | the object has the five base keys, plus the password pair exactly when a password was entered, each key holding its form field |
| AuthorityProfile.LoadThenSaveSendsStoredValues | frontend/src/pages/AuthorityProfileDetail.jsx:31-39 | saving a freshly loaded profile sends exactly the five base keys: the user id, then each stored field (when truthy, else `""`) under the editor's key, `phone` as `phone_number` and `authority_id` as `officer_id`; no password; a loaded profile whose fields pass validates |
| AuthorityProfile.AuthorityProfilePage.constructor | frontend/src/pages/AuthorityProfileDetail.jsx:5-19 | the editor starts with an empty form, `loading` off, no banners |
| AuthorityProfile.AuthorityProfilePage.LoadProfile | frontend/src/pages/AuthorityProfileDetail.jsx:21-43 | with no user id nothing happens; otherwise the profile is requested and a reply replaces the form |
| AuthorityProfile.AuthorityProfilePage.Save | frontend/src/pages/AuthorityProfileDetail.jsx:86-115 | the PUT is sent once, `loading` ends false, the banner reflects the reply |
| AuthorityProfile.AuthorityProfilePage.HandleSubmit | frontend/src/pages/AuthorityProfileDetail.jsx:77-116 | on a failed guard only its message is set, no PUT is sent and `loading` is never set; otherwise the object, with the password added in place when one was entered, goes to `/profile/authority/` |
| Dashboard.OfType | frontend/src/pages/Dashboard.jsx:38 | the filter keeps only markers of the given type, all taken from the fetched list |
| Dashboard.OfTypeLength | frontend/src/pages/Dashboard.jsx:37-38 | the filter keeps as many markers as there are of that type |
| Dashboard.OfTypeKeepsEveryMatch | frontend/src/pages/Dashboard.jsx:37-38 | every marker of the type is kept, at the position given by the number of matches before it, so order is preserved and nothing is skipped |
| Dashboard.Panel | frontend/src/pages/Dashboard.jsx:37-39 | a panel has at most five entries, all of its type |
| Dashboard.PanelIsFirstMatches | frontend/src/pages/Dashboard.jsx:37-40 | a panel has `min(5, n)` entries for `n` matches, and every match with fewer than five before it appears at its position |
| Dashboard.PanelsSeparate | frontend/src/pages/Dashboard.jsx:37-73 | no place is in two panels, and a place of another type is in none |
| Dashboard.DashboardPage.constructor | frontend/src/pages/Dashboard.jsx:7 | the markers start empty |
| Dashboard.DashboardPage.Hospitals | frontend/src/pages/Dashboard.jsx:37-39 | the "Nearby Hospitals" panel: at most five current markers, all hospitals (the panel of `Dashboard.PanelIsFirstMatches`) |
| Dashboard.DashboardPage.Restaurants | frontend/src/pages/Dashboard.jsx:52-54 | the "Restaurants" panel: at most five current markers, all restaurants |
| Dashboard.DashboardPage.Attractions | frontend/src/pages/Dashboard.jsx:67-69 | the "Attractions" panel: at most five current markers, all attractions |
| Dashboard.DashboardPage.FetchPlaces | frontend/src/pages/Dashboard.jsx:10-20 | `/places/` is requested; a successful reply replaces the markers wholesale, a failure leaves them unchanged |

## Left out

- The browser's built-in form validation is not modelled, and no form sets `noValidate`. It uses
  these attributes:
  - most inputs are marked `required`;
  - the profile editors' password inputs are `required={!userId}`;
  - the tourist editor's photo input is `required={!photoPreview}`, a check `validateForm` itself
    never makes;
  - the registration and editor password inputs carry `minLength={8}`;
  - the e-mail inputs have `type="email"`.

  So the browser itself refuses to submit a form with an empty required field, a password shorter
  than the minimum, or a malformed address. It also strips leading and trailing ASCII white space
  from an e-mail input's value. Both happen before any handler runs. The handlers are
  modelled on every form state, so `Auth.LoginPrecheckDoesNotTrim` and
  `Auth.AuthorityLoginPrecheckDoesNotTrim` are properties of the handlers' own checks, not of what
  the page lets a user submit.
- Rendering is not modelled: JSX and animation, the show-password toggles, `handlePhotoChange`
  with its `FileReader` preview, the login/register tabs, and the `onChange` handlers.
- The handlers' actions after a reply are not modelled either: `localStorage` writes,
  `setUserId`/`setUserType`/`setRoute` callbacks, `onComplete`, and `setTimeout` redirects,
  including the delayed clearing of the success banner.
- The network is a parameter. Each handler takes the reply it gets (accepted, or rejected with an
  optional error body), and each load takes the profile or places returned (`None` for a failure).
  Requests are recorded in `sent`.
- Each handler runs as one step. The interleaving of other events during the `await` is not
  modelled. `loading` is set before the request and cleared after it; the model states only its
  value after the handler. It does not show `loading` being true while the request is in flight,
  when the page disables the submit button and changes its label.
- TouristProfile.TouristProfilePage, AuthorityProfile.AuthorityProfilePage and
  AuthorityProfile.SubmitObject model the optional `userId` prop as a string, with `""` for a missing
  one. The source still saves when the prop is missing. The tourist body's
  `append("user_id", userId)` then sends the string `"undefined"`, and the authority JSON object
  loses its `user_id` key, so `AuthorityProfile.SubmitObjectShape`'s `user_id` entry holds only for
  an id that is present. A numeric id, such as the one the registration replies hand to
  `setUserId`, goes out as a JSON number rather than a string. None of this is modelled.
- Each server value is modelled as present with a string, or absent. Non-string values (numbers,
  `null` response data that would throw) are not modelled, nor is the error logged by
  `console.error`.
- The dashboard's `center` coordinates and the map (floating point, Google Maps) are not part of
  this model. A place keeps only `id`, `name`, `place_type` and `address`, the fields the panels
  read.
- The tourist registration's six `formData.append` calls are written as
  the resulting part list, not through `Requests.FormData`.
- The backend is not part of this model: Django models and views, distance computation, geofence
  queries and the admin scripts. The same holds for the other pages and components.

