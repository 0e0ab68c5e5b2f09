# Ride-sharing client: session, guards, forms and list logic in Dafny

This project models the rules inside a university ride-sharing web client. Drivers publish
trips, passengers book seats on them, and both sides manage the resulting reservations. The
client is a single-page application. Its screens hold small, exact rules:

- the session provider and how it is mirrored into browser storage;
- the route guard and the route table;
- the field validators of the log-in and sign-up forms, including the uploads;
- the seat counter and the booking request;
- how a reservation list is normalised and rendered, and which buttons each card offers;
- the trip form, the offers filter and its display;
- the choice of a place name from a reverse-geocoding answer.

Each rule is stated here in Dafny. The properties the client promises are proved as lemmas
and as contracts of the page methods. Rows of the table below marked "definition" render a
single expression of the source; the lemmas next to them carry the proofs.

Every network reply is an input value: a datatype per request that says whether it threw,
was refused with a message, or succeeded. Browser storage is a `LocalStorage` object holding
a `map<string, string>`. Each page that changes state is a class whose methods correspond
to the page's handlers. Each method's `ensures` ties the new state to pure functions, and
lemmas prove what the page promises about those functions.

Modules, one per file:

- `Common`: the option type, JavaScript truthiness for strings, `trim` with the JavaScript
  whitespace set, decimal conversion, `Number()` on integer text, `padStart`, and a
  JSON-like value with truthiness and property access.
- `Pattern`: a small matcher for the anchored regular expressions the forms use. It serves
  as the independent reference for each validator.
- `Validators`: each regular expression as a `Pattern` value and as a direct predicate,
  with equivalence lemmas. Also the per-field required/format rule and the upload check
  (type, then a 2 MB limit).
- `Session`: the user record, its serialisation, `LocalStorage`, and the `AuthProvider`
  class (`login`, `logout`, start-up rehydration).
- `Routing`: `ProtectedRoute` and the route table of `App.jsx`.
- `LogIn`, `DriverSignIn`, `PassengerSignIn`, `CarSignIn`, `ConfirmRide`, `Reservations`,
  `CreateTrip`: one page each.
- `SeeOffers` and `NormalizeLocation`: pure.

Where the written description of the application and the code differ, the model follows the
code. The description says settled reservations offer no buttons. In the code a passenger
gets "Cancel" on every reservation that is not already cancelled, including confirmed and
declined ones. `Reservations.PassengerCancelsSettledReservations` states this.

Other behaviours of the code that the model keeps and states as lemmas:

- The car form's blocking test reads the document errors from before the press
  (`CarSignIn.MissingDocumentsBlockOnlyTheSecondPress`).
- A flat list answer from the reservations endpoint is stored but never displayed
  (`Reservations.AnswerShapes`).
- A booking pressed without a token leaves the page marked as loading
  (`ConfirmRide.ConfirmRidePage.HandleBook`).
- A trip listed with zero seats lets the counter reach zero (`ConfirmRide.FullTripCounter`).
- Sign-up does not create a session user. A passenger who has just signed up and is sent
  to the passenger home page is redirected to the log-in page
  (`PassengerSignIn.SignUpLandsOnLogIn`).
- Passenger sign-up tests its formats on the untrimmed text
  (`PassengerSignIn.UntrimmedIdRejected`). Driver sign-up tests them on the trimmed text
  (`DriverSignIn.IdTrimmedBeforeTest`).

## Model

| member | source | states |
|---|---|---|
| Common.OrElse | src/pages/LogIn.jsx:63 | definition: the "or" fallback on strings: a non-empty text is kept, the empty string is replaced |
| Common.TrimStartSpec | src/pages/LogIn.jsx:22-23 | trimming the start removes exactly a leading run of JavaScript whitespace, leaving a suffix that is empty or starts with non-whitespace |
| Common.TrimEndSpec | src/pages/LogIn.jsx:22-23 | trimming the end removes exactly a trailing run of whitespace, leaving a prefix that is empty or ends with non-whitespace |
| Common.TrimOffset | src/pages/LogIn.jsx:22-23 | the number of leading whitespace characters `trim` drops lies within the string |
| Common.TrimSpec | src/pages/LogIn.jsx:22-23 | `trim()` returns the infix left after cutting whitespace at both ends; the result's ends are not whitespace, and it is empty exactly for blank input |
| Common.TrimEmpty | src/pages/LogIn.jsx:22-23 | `!value.trim()` holds exactly when the value is all whitespace |
| Common.TrimNoWhitespace | src/pages/SignIn/DriverSignIn.jsx:105-107 | a string without whitespace is unchanged by `trim()` |
| Common.TrimIdempotent | src/pages/SignIn/DriverSignIn.jsx:91-130 | trimming twice is trimming once |
| Common.TrimNoWhitespaceAtEnds | src/pages/SignIn/DriverSignIn.jsx:91-130 | a non-empty string whose ends are not whitespace is unchanged by `trim()` |
| Common.DigitValue | src/pages/Passenger/seeOffers.jsx:82 | a decimal digit's value is below ten |
| Common.DigitChar | src/pages/Passenger/seeOffers.jsx:82 | the digit written for a value below ten reads back as that value |
| Common.NatToString | src/pages/Passenger/seeOffers.jsx:82 | `n.toString()` for n ≥ 0: non-empty decimal digits with no leading zero that read back as n |
| Common.IntToString | src/pages/Passenger/seeOffers.jsx:86 | `String(i)`: the digits of i, with a minus sign for a negative i |
| Common.DecimalLeadingZero | src/pages/Passenger/seeOffers.jsx:82 | a leading "0" does not change a digit string's value |
| Common.ToNumber | src/pages/Driver/createTrip.jsx:39-40 | `Number(s)` on integer text; blank text is 0 |
| Common.IntToStringRoundTrip | src/pages/Driver/createTrip.jsx:39-40 | `Number(String(i)) === i` for every integer |
| Common.PadStart | src/pages/Passenger/seeOffers.jsx:82 | `padStart(n, c)`: the result is at least n long, ends with the input, and is padded with c |
| Common.PadStartZerosValue | src/pages/Passenger/seeOffers.jsx:82 | padding a digit string with zeros keeps it all digits and keeps its value |
| Common.Property | src/pages/Driver/reservations.jsx:220-224 | definition: `data.key` is defined exactly for an object that has the key, and is that field's value |
| Common.OrJson | src/pages/Driver/reservations.jsx:222-223 | the "or" fallback on JSON values: a truthy value is kept, otherwise the result is the fallback |
| Common.UnitLength | src/pages/SignIn/DriverSignIn.jsx:88 | JavaScript's `length` counts UTF-16 code units, at least one per character |
| Common.UnitLengthBmp | src/pages/SignIn/DriverSignIn.jsx:88 | a string without characters outside the Basic Multilingual Plane has one code unit per character |
| Pattern.MatchesExactly | src/pages/SignIn/DriverSignIn.jsx:84 | a bounded repetition `cls{n}` matches exactly the runs of class members that are n code units long |
| Pattern.MatchesAtLeast | src/pages/SignIn/DriverSignIn.jsx:83 | an open repetition `cls{lo,}` matches exactly the runs of class members at least lo code units long |
| Pattern.MatchesLiteral | src/pages/SignIn/DriverSignIn.jsx:85 | a literal matches exactly itself |
| Pattern.ClassUnits | src/pages/SignIn/DriverSignIn.jsx:83-86 | without the `u` flag, a run of any class but `.` is as many code units long as it is characters |
| Pattern.ClassIsBmp | src/pages/SignIn/DriverSignIn.jsx:83-86 | every class but `.` holds only characters of the Basic Multilingual Plane |
| Validators.NameRegexMeaning | src/pages/SignIn/DriverSignIn.jsx:83 | the name pattern accepts exactly non-empty strings of ASCII letters, ÁÉÍÓÚáéíóúÑñ and whitespace |
| Validators.PassengerIdRegexMeaning | src/pages/SignIn/PassengerSignIn.jsx:75 | the passenger ID pattern accepts exactly five digits |
| Validators.DriverIdRegexMeaning | src/pages/SignIn/DriverSignIn.jsx:84 | the driver ID pattern accepts exactly "0000" followed by six digits |
| Validators.PhoneRegexMeaning | src/pages/SignIn/DriverSignIn.jsx:86 | the phone pattern accepts exactly "3" followed by nine digits |
| Validators.EmailRegexMeaning | src/pages/SignIn/DriverSignIn.jsx:85 | the e-mail pattern accepts exactly a non-empty run of `[A-Za-z0-9._%+-]` followed by "@unisabana.edu.co" |
| Validators.PlateRegexMeaning | src/pages/SignIn/CarSignIn.jsx:94 | the case-insensitive plate pattern accepts exactly three ASCII letters then three digits |
| Validators.AheadOnSingleLine | src/pages/SignIn/DriverSignIn.jsx:87-88 | on text without line terminators, a `(?=.*[k])` look-ahead holds exactly when some character is in class k |
| Validators.PasswordRegexMeaning | src/pages/SignIn/DriverSignIn.jsx:87-88 | the password pattern accepts exactly strings of at least 8 UTF-16 code units, none a line terminator, with an upper-case letter, a digit and a listed symbol |
| Validators.PasswordCountsCodeUnits | src/pages/SignIn/PassengerSignIn.jsx:79 | four ASCII characters and three emoji (ten code units) pass the length rule, while seven ASCII characters do not |
| Validators.FieldError | src/pages/SignIn/DriverSignIn.jsx:91-130 | each field gets at most one error: "Required field *" when blank, else the format message when the format fails, else none |
| Validators.CheckUpload | src/pages/SignIn/DriverSignIn.jsx:40-67 | no file, a type outside the allowed list, and a size above 2 MB are distinct verdicts, checked in that order; otherwise the file is accepted |
| Validators.UploadLimitInclusive | src/pages/SignIn/DriverSignIn.jsx:24-25 | an allowed image of exactly 2 097 152 bytes passes and one byte more is too large |
| Session.Expect | src/context/AuthContext.jsx:8 | reading an expected prefix succeeds exactly when the text starts with it, leaving the rest |
| Session.ParseEscaped | src/context/AuthContext.jsx:8 | parsing an escaped string body up to its closing quote gives back the string and the text after it |
| Session.QuotedRoundTrip | src/context/AuthContext.jsx:8 | a quoted, escaped string parses back to itself |
| Session.ExpectPrefix | src/context/AuthContext.jsx:8 | the expected prefix followed by a rest reads as that rest |
| Session.SerializeRoundTrip | src/context/AuthContext.jsx:6-21 | `JSON.parse(JSON.stringify(u))` gives u back |
| Session.SerializeInjective | src/context/AuthContext.jsx:15 | different users are stored as different strings |
| Session.LocalStorage.constructor | src/context/AuthContext.jsx:7 | the storage starts with the given contents |
| Session.LocalStorage.GetItem | src/context/AuthContext.jsx:7 | definition: `getItem` is defined exactly for stored keys and returns the stored value |
| Session.LocalStorage.SetItem | src/context/AuthContext.jsx:15-16 | `setItem` stores the value under the key and changes no other key |
| Session.LocalStorage.RemoveItem | src/context/AuthContext.jsx:24-25 | `removeItem` deletes the key and changes no other key |
| Session.Rehydrate | src/context/AuthContext.jsx:6-11 | at start-up the user is present exactly when a non-empty "user" is stored, and is then `JSON.parse` of it; the token is present exactly when a non-empty "token" is stored; authentication follows the token |
| Session.LoginStores | src/context/AuthContext.jsx:13-21 | after `login(u, t)` storage holds the serialised u and t, and the in-memory user and token are u and t |
| Session.LogoutClears | src/context/AuthContext.jsx:23-28 | after `logout()` neither key is stored and both in-memory fields are empty |
| Session.LogoutIdempotent | src/context/AuthContext.jsx:23-28 | two logouts leave the same state as one |
| Session.SessionKeysOnly | src/context/AuthContext.jsx:13-28 | `login` and `logout` leave every key other than "user" and "token" as it was |
| Session.LoginThenRehydrate | src/context/AuthContext.jsx:6-21 | start-up on the storage a login wrote restores that user and, for a non-empty token, that token |
| Session.LogoutThenRehydrate | src/context/AuthContext.jsx:6-28 | start-up on the storage a logout left finds the logged-out state |
| Session.AuthProvider.constructor | src/context/AuthContext.jsx:5-11 | the provider starts in the rehydrated state of its storage |
| Session.AuthProvider.Login | src/context/AuthContext.jsx:13-21 | the provider's storage and fields become those `AfterLogin` describes |
| Session.AuthProvider.Logout | src/context/AuthContext.jsx:23-28 | the provider's storage and fields become those `AfterLogout` describes |
| Session.AuthProvider.IsAuthenticated | src/context/AuthContext.jsx:30 | definition: `!!token`: authenticated exactly when the token is present and non-empty |
| Routing.Guard | src/pages/components/protectedRoute.jsx:5-20 | no token or no user goes to "/login"; a role outside the allow-list goes to "/start"; otherwise the children render |
| Routing.SessionCheckFirst | src/pages/components/protectedRoute.jsx:9-16 | without a session the guard never sends to "/start", and the allow-list does not matter |
| Routing.GuardReadsOnlyRole | src/pages/components/protectedRoute.jsx:5-20 | two users with the same role get the same decision |
| Routing.LookupFirstMatch | src/App.jsx:16-51 | the router picks the first route whose path matches the request, ignoring ASCII case and trailing slashes |
| Routing.LookupNoMatch | src/App.jsx:16-51 | a request that no route's path matches, even ignoring case and trailing slashes, finds nothing |
| Routing.DifferAt | src/App.jsx:16-51 | a declared path does not match a request that differs from it after lower-casing at a position within both |
| Routing.RootNeedsSlashes | src/App.jsx:18 | the root route matches only requests made of slashes |
| Routing.PathMatchesItself | src/App.jsx:16-51 | every declared path matches itself |
| Routing.SlashAppended | src/App.jsx:16-51 | a declared path that is "/" or has no trailing slash matches a request exactly when it matches the request with one more slash |
| Routing.TableDeclared | src/App.jsx:18-50 | every path of the table is "/" or has no trailing slash |
| Routing.LookupSlashAppended | src/App.jsx:16-51 | a trailing slash does not change which route of the table is found |
| Routing.EarlierRoutesDiffer | src/App.jsx:18-50 | no route's path matches the path of a later route, so each declared route is reachable |
| Routing.DeclaredPathFound | src/App.jsx:18-50 | requesting a declared path finds that route's element |
| Routing.NavigateDeclared | src/App.jsx:18-50 | requesting a declared path does exactly what that route's element does: its redirect, its page, or its guard |
| Routing.RootRedirectsToStart | src/App.jsx:18 | "/" redirects to "/start" |
| Routing.StartUnguarded | src/App.jsx:19 | "/start" shows its page with or without a session |
| Routing.LogInUnguarded | src/App.jsx:20 | "/LogIn" shows its page with or without a session |
| Routing.SignUpPagesUnguarded | src/App.jsx:21-23 | the three sign-up pages show with or without a session |
| Routing.RedirectTargetsArePublic | src/App.jsx:19-20 | "/login" and "/start" lead to unguarded pages, so a redirect never loops |
| Routing.ProfileRoles | src/App.jsx:27-34 | "/userProfile" admits exactly passengers and drivers |
| Routing.PassengerHomeRoles | src/App.jsx:35-42 | "/passengerHome" admits only passengers |
| Routing.DriverHomeRoles | src/App.jsx:43-50 | "/driverHome" admits only drivers |
| Routing.PassengerKeptFromDriverHome | src/App.jsx:43-50 | a passenger asking for "/driverHome" goes to "/start"; without a session, to "/login" |
| Routing.UnknownPathShowsNothing | src/App.jsx:16-51 | a path the table does not declare, such as "/reservations", shows nothing |
| Routing.TrailingSlashIgnored | src/App.jsx:16-51 | a request with one more trailing slash leads where the request without it leads; "/start/" shows the start page |
| LogIn.Values.With | src/pages/LogIn.jsx:15 | `{ ...values, [key]: value }` changes that field only |
| LogIn.FormErrorsMeaning | src/pages/LogIn.jsx:20-26 | a field has the "Required field *" error exactly when its trimmed value is empty; the form is valid exactly when both trimmed values are non-empty |
| LogIn.HomeForRoles | src/pages/LogIn.jsx:54-58 | a driver is sent to "/driverHome" and any other role to "/passengerHome" |
| LogIn.LoginWritesMatchSession | src/pages/LogIn.jsx:46-48 | the page's storage writes are those of the session provider's `login`, so only a later reload restores the user |
| LogIn.Respond | src/pages/LogIn.jsx:46-69 | definition: success shows "Login successful!" and redirects by role; a refusal shows the backend's message or "Incorrect email or password."; a failed request shows "Server connection error." |
| LogIn.StorageAfterReply | src/pages/LogIn.jsx:46-48 | only an accepted log-in writes storage; it then rehydrates to the returned user, and other keys stay |
| LogIn.StaleProviderBouncesHome | src/pages/LogIn.jsx:46-58 | the page never calls the provider's `login`: without a reload the provider keeps its start-up session, so a visitor who had none is sent from the home page on to "/login" |
| LogIn.LogInPage.constructor | src/pages/LogIn.jsx:7-11 | the page starts with empty fields, no errors, no message, not loading |
| LogIn.LogInPage.HandleChange | src/pages/LogIn.jsx:14-18 | typing changes that field, clears only its error, and clears the message |
| LogIn.LogInPage.HandleLogIn | src/pages/LogIn.jsx:28-72 | an invalid form sends nothing and writes nothing; a valid one stores per `StorageAfter`, shows `Respond`'s message and redirect, and stops loading; only the page and storage change, never the session provider |
| DriverSignIn.Values.With | src/pages/SignIn/DriverSignIn.jsx:75 | `{ ...prev, [field]: value }` changes that field only |
| DriverSignIn.ValidateFieldsMeaning | src/pages/SignIn/DriverSignIn.jsx:80-133 | a field has an error exactly when it is blank or its trimmed text fails its pattern (the password untrimmed); blank gives "Required field *", else the format message |
| DriverSignIn.IdTrimmedBeforeTest | src/pages/SignIn/DriverSignIn.jsx:105-107 | an ID typed with surrounding spaces passes the format test |
| DriverSignIn.RegistrationOf | src/pages/SignIn/DriverSignIn.jsx:148-177 | definition: the request carries the six fields as typed, the ID as `idUniversidad`, the role "driver" and the avatar if chosen |
| DriverSignIn.RegisterStoresNoUser | src/pages/SignIn/DriverSignIn.jsx:186-190 | registration stores the token only when one came back and never a user, so a reload finds the same user as before |
| DriverSignIn.DriverSignInPage.constructor | src/pages/SignIn/DriverSignIn.jsx:8-22 | the page starts empty, with no file, preview or errors |
| DriverSignIn.DriverSignInPage.ValidateAndSetImage | src/pages/SignIn/DriverSignIn.jsx:40-67 | no file clears the file and preview; a rejected file sets the type or size message and clears the file, keeping the preview; an accepted one sets both |
| DriverSignIn.DriverSignInPage.HandleChange | src/pages/SignIn/DriverSignIn.jsx:74-78 | typing changes that field, clears only its error, and clears the server message |
| DriverSignIn.DriverSignInPage.HandleAddCar | src/pages/SignIn/DriverSignIn.jsx:135-195 | the request is sent exactly when there are no field errors and no image error; success stores per `StorageAfterRegister` and goes to "/carSignIn"; failures set the server message |
| PassengerSignIn.Values.With | src/pages/SignIn/PassengerSignIn.jsx:67 | `{ ...prev, [field]: value }` changes that field only |
| PassengerSignIn.ValidateFormMeaning | src/pages/SignIn/PassengerSignIn.jsx:72-103 | a field has an error exactly when it is blank or its untrimmed text fails its pattern; blank gives "Required field *", else the format message |
| PassengerSignIn.UntrimmedIdRejected | src/pages/SignIn/PassengerSignIn.jsx:87-88 | "12345 " passes the required check but fails the ID format |
| PassengerSignIn.SignUpLandsOnLogIn | src/pages/SignIn/PassengerSignIn.jsx:137-143 | sign-up writes only "userRole" and "isAuthenticated", so a reload finds the same session, and without one "/passengerHome" redirects to "/login" |
| PassengerSignIn.PassengerSignInPage.constructor | src/pages/SignIn/PassengerSignIn.jsx:8-27 | the page starts empty, with no file, preview or errors, not loading |
| PassengerSignIn.PassengerSignInPage.ValidateAndSetImage | src/pages/SignIn/PassengerSignIn.jsx:40-62 | no file clears the file and preview; a rejected file sets the type or size message and keeps the previous file and preview; an accepted one sets both |
| PassengerSignIn.PassengerSignInPage.HandleChange | src/pages/SignIn/PassengerSignIn.jsx:66-70 | typing changes that field, clears only its error, and clears the server message |
| PassengerSignIn.PassengerSignInPage.HandleSignUp | src/pages/SignIn/PassengerSignIn.jsx:105-151 | the request is sent exactly when there are no field errors and no image error; success stores per `StorageAfterSignUp` and goes to "/passengerHome"; loading ends |
| CarSignIn.Values.With | src/pages/SignIn/CarSignIn.jsx:84 | `{ ...prev, [key]: value }` changes that field only |
| CarSignIn.ModelOptions | src/pages/SignIn/CarSignIn.jsx:267-268 | the offered models are `carMakes[make]`, none before a make is chosen |
| CarSignIn.OptionsAreNonEmpty | src/pages/SignIn/CarSignIn.jsx:35-41 | the make list is the table's keys, and no capacity or model option is the empty string |
| CarSignIn.FieldErrorsMeaning | src/pages/SignIn/CarSignIn.jsx:92-98 | the plate has an error exactly when blank or its trimmed text is not three letters and three digits; capacity, make and model have "Required field *" exactly when empty |
| CarSignIn.SelectedOptionsPass | src/pages/SignIn/CarSignIn.jsx:92-98 | a valid plate with a capacity, make and model picked from the offered options gives no field error |
| CarSignIn.ChooseDocument | src/pages/SignIn/CarSignIn.jsx:57-76 | no file clears the slot; a rejected file only sets the type or size message; an accepted PDF gets the preview "pdf", an image its URL |
| CarSignIn.MarkMissing | src/pages/SignIn/CarSignIn.jsx:99-100 | definition: a slot without a file gets "Required field *"; a filled slot is unchanged |
| CarSignIn.Authorization | src/pages/SignIn/CarSignIn.jsx:117-121 | definition: the header is "Bearer " plus the token when one is stored, and absent otherwise |
| CarSignIn.MissingDocumentsBlockOnlyTheSecondPress | src/pages/SignIn/CarSignIn.jsx:99-106 | with valid fields and no documents, the first press is not blocked, though it marks both documents missing, and the next press is blocked |
| CarSignIn.CarSignInPage.constructor | src/pages/SignIn/CarSignIn.jsx:10-29 | the page starts empty, with empty document slots and the back arrow shown |
| CarSignIn.CarSignInPage.HandleMakeChange | src/pages/SignIn/CarSignIn.jsx:43-46 | choosing a make sets it and resets the model, leaving plate and capacity |
| CarSignIn.CarSignInPage.HandleChange | src/pages/SignIn/CarSignIn.jsx:83-86 | typing changes that field and clears only its error |
| CarSignIn.CarSignInPage.ChooseCarPhoto | src/pages/SignIn/CarSignIn.jsx:57-81 | the car photo slot becomes `ChooseDocument` of it; nothing else changes |
| CarSignIn.CarSignInPage.ChooseSoat | src/pages/SignIn/CarSignIn.jsx:57-81 | the insurance document slot becomes `ChooseDocument` of it; nothing else changes |
| CarSignIn.CarSignInPage.HandleContinue | src/pages/SignIn/CarSignIn.jsx:88-143 | field errors are recomputed and missing documents marked; the request is sent exactly when not `Blocked` by the errors from before the press; success hides the back arrow and goes to "/driverHome"; failures set the form message |
| ConfirmRide.MaxAvailable | src/pages/Passenger/confirmRide.jsx:34 | definition: `trip.seats ?? 1`: the trip's number whenever present, even 0, else 1 |
| ConfirmRide.Decrease | src/pages/Passenger/confirmRide.jsx:149 | `max(1, s - 1)`: never below 1 |
| ConfirmRide.Increase | src/pages/Passenger/confirmRide.jsx:150 | `min(max, s + 1)`: never above the maximum |
| ConfirmRide.ApplyKeepsReachable | src/pages/Passenger/confirmRide.jsx:149-150 | each press keeps the count among those the counter can show |
| ConfirmRide.RunReachable | src/pages/Passenger/confirmRide.jsx:20-150 | from 1, any sequence of presses keeps the count reachable, and within [1, max] when max ≥ 1 |
| ConfirmRide.FullTripCounter | src/pages/Passenger/confirmRide.jsx:149-150 | for a trip with 0 seats, "+" sets the count to 0 and "-" brings it back to 1 |
| ConfirmRide.PriceTotal | src/pages/Passenger/confirmRide.jsx:152 | definition: the unit price, or 0 when missing, times the seats |
| ConfirmRide.PriceTotalStep | src/pages/Passenger/confirmRide.jsx:152 | each extra seat adds the unit price |
| ConfirmRide.DriverOf | src/pages/Passenger/confirmRide.jsx:166 | definition: the nested driver's `_id` when present and non-empty, else `trip.driverId` |
| ConfirmRide.PassengerOf | src/pages/Passenger/confirmRide.jsx:165 | definition: `fullUser?._id`: present exactly when there is a user with a non-empty `_id` |
| ConfirmRide.BookingOf | src/pages/Passenger/confirmRide.jsx:163-173 | definition: the request copies trip id, origin, destination, date and price from the trip, seats and note from the page, and the passenger and driver as above |
| ConfirmRide.ConfirmRidePage.constructor | src/pages/Passenger/confirmRide.jsx:18-23 | the page starts with the session's user, one seat, no note, not loading |
| ConfirmRide.ConfirmRidePage.FetchUser | src/pages/Passenger/confirmRide.jsx:128-147 | with a token, a profile that arrives replaces the user; otherwise nothing changes |
| ConfirmRide.ConfirmRidePage.DecreaseSeats | src/pages/Passenger/confirmRide.jsx:149 | the count becomes `Decrease` of it and stays reachable |
| ConfirmRide.ConfirmRidePage.IncreaseSeats | src/pages/Passenger/confirmRide.jsx:150 | the count becomes `Increase` of it and stays reachable |
| ConfirmRide.ConfirmRidePage.SetNote | src/pages/Passenger/confirmRide.jsx:331 | typing sets the note only |
| ConfirmRide.ConfirmRidePage.HandleBook | src/pages/Passenger/confirmRide.jsx:154-202 | without a token nothing is sent and the page goes to "/login" still loading; otherwise `BookingOf` is sent, success goes to "/reservations", failures set the message, and loading ends |
| Reservations.FetchKey | src/pages/Driver/reservations.jsx:198-205 | definition: no request without `id` or `_id`; the key is `id`, falling back to `_id` |
| Reservations.Normalize | src/pages/Driver/reservations.jsx:212-230 | a thrown request, a non-OK status or an unreadable body is the error branch; an array is kept; an object with a truthy `today` or `tomorrow` becomes the two buckets, a missing one defaulting to []; anything else is an empty list |
| Reservations.NormalizedBucketsTruthy | src/pages/Driver/reservations.jsx:220-224 | both buckets of a normalised answer are truthy |
| Reservations.Affordances | src/pages/Driver/reservations.jsx:149-179 | a driver gets Accept and Decline on "pending" and the status otherwise; a passenger gets Cancel unless "cancelled"; other roles get nothing |
| Reservations.ButtonsChangeStatus | src/pages/Driver/reservations.jsx:149-179 | no button sends the current status or "pending"; "confirmed" is sent only by drivers and "cancelled" only by passengers |
| Reservations.PassengerCancelsSettledReservations | src/pages/Driver/reservations.jsx:170-178 | a passenger may cancel a confirmed or declined reservation; a driver only sees its status |
| Reservations.IdText | src/pages/Driver/reservations.jsx:82 | definition: the identifier as a template literal prints it: an absent one prints "undefined", null prints "null" |
| Reservations.UpdateStatus | src/pages/Driver/reservations.jsx:80-98 | definition: the update targets "/reservations/" plus the printed `_id` with the new status; only an OK answer reloads, with the notice "Reservation <status>" |
| Reservations.UpdateTargetsId | src/pages/Driver/reservations.jsx:82 | a reservation whose `_id` is a string is updated at that path |
| Reservations.ColumnOf | src/pages/Driver/reservations.jsx:291-315 | "No rides" exactly when `x && x.length > 0` fails; one card per reservation exactly for a non-empty array without `null`; a render failure for a non-empty string, an object whose `length` is above 0, or an array holding `null` |
| Reservations.ColumnFaults | src/pages/Driver/reservations.jsx:291-315 | `{length: 1}`, `{length: "3"}` and `[null]` throw while rendering, and `{length: 0}` shows "No rides" |
| Reservations.Render | src/pages/Driver/reservations.jsx:282-329 | an error wins, then loading, then the buckets; a flat list shows "No reservations found." |
| Reservations.AnswerShapes | src/pages/Driver/reservations.jsx:218-329 | an OK array answer is never displayed; an OK bucketed answer always shows the two columns |
| Reservations.ReservationsPage.constructor | src/pages/Driver/reservations.jsx:191-193 | the page starts with an empty list, loading, and no error |
| Reservations.ReservationsPage.FetchReservations | src/pages/Driver/reservations.jsx:197-237 | without a key nothing changes; otherwise loading ends, a normalised answer replaces the list, and the error branch sets "Error fetching reservations" |
| Reservations.NoKeyKeepsLoading | src/pages/Driver/reservations.jsx:198 | before any fetch the page shows "Loading", which a user without identifiers never leaves |
| CreateTrip.TripForm.With | src/pages/Driver/createTrip.jsx:17 | `{ ...trip, [name]: value }` changes that field only |
| CreateTrip.PayloadOf | src/pages/Driver/createTrip.jsx:37-41 | definition: the request is the form with seats and price converted by `Number()` |
| CreateTrip.PayloadNumbers | src/pages/Driver/createTrip.jsx:39-40 | seats and price typed as an integer's decimal form arrive as that integer; empty fields arrive as 0 |
| CreateTrip.CreateTripPage.constructor | src/pages/Driver/createTrip.jsx:5-14 | the form starts with six empty fields and no message |
| CreateTrip.CreateTripPage.HandleChange | src/pages/Driver/createTrip.jsx:16-18 | typing changes that field only |
| CreateTrip.CreateTripPage.HandleSubmit | src/pages/Driver/createTrip.jsx:20-66 | without a token only the message changes; otherwise `PayloadOf` the form is sent, success resets all six fields with the success message, and a failure keeps the form with "❌ " plus the backend message or the fallback |
| SeeOffers.FilteredOffers | src/pages/Passenger/seeOffers.jsx:25-27 | no filter, or 0, lists every offer in order |
| SeeOffers.KeepSeatsLeftCounts | src/pages/Passenger/seeOffers.jsx:25-26 | the filter keeps each offer with n seats left as often as it occurs, and no other offer |
| SeeOffers.KeepSeatsLeftAppend | src/pages/Passenger/seeOffers.jsx:25-26 | the filter keeps the original order: filtering a joined list joins the filtered parts |
| SeeOffers.FilterMembership | src/pages/Passenger/seeOffers.jsx:25-26 | with filter n, an offer is listed exactly when it was fetched and has n seats left |
| SeeOffers.ParseFilter | src/pages/Passenger/seeOffers.jsx:37 | the select's value as a number, where 0, blank and non-numeric values give no filter |
| SeeOffers.SelectOptions | src/pages/Passenger/seeOffers.jsx:37-45 | the empty option clears the filter and option k filters on k |
| SeeOffers.SeatsDisplay | src/pages/Passenger/seeOffers.jsx:82 | the seat count is at least two characters wide, and "00" when missing |
| SeeOffers.SeatsDisplayRoundTrip | src/pages/Passenger/seeOffers.jsx:82 | a count from 0 to 99 shows as exactly two digits that read back as the count |
| SeeOffers.Nullish | src/pages/Passenger/seeOffers.jsx:63 | definition: `startPoint ?? "Sin origen"` and `endPoint ?? "Sin destino"`: only a missing value falls back, an empty one is shown as it is |
| SeeOffers.RouteDisplay | src/pages/Passenger/seeOffers.jsx:67 | definition: the route, or "No especificada" when it is missing or empty |
| SeeOffers.PriceDisplay | src/pages/Passenger/seeOffers.jsx:86 | definition: "$" plus the price when present, even 0; "N/A" when missing |
| SeeOffers.FallbacksDiffer | src/pages/Passenger/seeOffers.jsx:63-86 | an empty start is shown empty while an empty route falls back, and a price of 0 shows "$0" |
| NormalizeLocation.ContainsMeaning | src/services/normalizeLocation.js:12 | `s.includes(sub)` holds exactly when sub occurs at some position of s |
| NormalizeLocation.Find | src/services/normalizeLocation.js:12 | `ctx.find` returns the first entry whose id contains the keyword, or none when no entry does |
| NormalizeLocation.TextOf | src/services/normalizeLocation.js:16-17 | a text is found exactly when some entry's id contains the keyword |
| NormalizeLocation.TextOfFirst | src/services/normalizeLocation.js:16-17 | the text found is the first matching entry's |
| NormalizeLocation.Normalize | src/services/normalizeLocation.js:6-30 | no features gives null; a name requires the first feature to lie in Cundinamarca, and is that feature's text or one of its context entries' |
| NormalizeLocation.NormalizeDefinedInRegion | src/services/normalizeLocation.js:6-13 | a name is found exactly when there is a first feature and its first region entry is "Cundinamarca" |
| NormalizeLocation.OnlyFirstFeature | src/services/normalizeLocation.js:8 | features after the first do not change the result |
| NormalizeLocation.NeighbourhoodFirst | src/services/normalizeLocation.js:16-17 | in the region, the first neighbourhood entry's text wins |
| NormalizeLocation.LocalitySecond | src/services/normalizeLocation.js:20-21 | in the region and without neighbourhoods, the first locality entry's text wins |
| NormalizeLocation.AddressBeforeCity | src/services/normalizeLocation.js:24-30 | then an address feature is named by its own text, else by the first city entry, else by its own text |

## Left out

- Network requests, `fetch`, the backend endpoints and `src/services/api.js` are not part
  of this model. Each reply is a parameter of the handler that receives it.
- Timers and delays (the 800 ms redirect delay after log-in), `alert`,
  `window.location.reload` and `console` logging are not modelled. A reload appears only as
  the `Reload` outcome of a status update.
- `FileReader`, `URL.createObjectURL`/`revokeObjectURL` and `FormData` are not modelled. An
  object URL is a parameter. Choosing between a multipart and a JSON body is not modelled.
- The Mapbox map, route drawing and markers (`confirmRide.jsx:35-127`), the search pages
  and the address autocomplete with its debounce timer are not part of this model.
- Date and time formatting for display (`toLocaleString`) is not modelled.
- Presentational and navigation-only views are not part of this model: home pages, user
  profile, sign-up chooser, start page, car and account settings.
- The geocoding request in `normalizeLocation.js` is left out. Its parsed answer is the
  input of `NormalizeLocation.Normalize`.
- Common.ToNumber: covers integer text with an optional sign, surrounded by whitespace,
  and blank text. Fractions, exponents, hexadecimal and `Infinity` give `NaN` here rather
  than their JavaScript values. Prices and seats are integers throughout.
- Session.Serialize: covers the four string fields the client reads from a user (`id`,
  `_id`, `name`, `role`). Other fields of the backend's user object are not carried.
- Session.Rehydrate: requires a stored "user" that parses. The source's `JSON.parse` would
  throw at start-up on a malformed value, which is not modelled.
- Routing.Navigate: the root route uses `Navigate`, which `src/App.jsx:18` does not import.
  Every `<Route element>` is built when `App` renders, so as written every path throws a
  ReferenceError, not only "/". The model, and every `Routing` lemma, describe the program
  with the import restored, the root route then redirecting to "/start".
- Routing.Lookup: the router ranks routes by specificity rather than by order. No request
  matches two paths of this table, so both pick the same route; the model takes the first
  match. Percent-decoding of the requested path is not modelled.
- Reservations.Affordances: `isDriver` and `isPassenger` are not defined in
  `src/pages/Driver/reservations.jsx:149,170`. The model reads them as "the role is driver"
  and "the role is passenger".
- Reservations.ColumnOf: a card whose `destination`, `status` or nested `name` is an
  object throws when React renders it as a child; the model shows such a card. A `length`
  field holding fractional text such as "0.5" counts as not above 0, since
  `Common.ToNumber` covers integers only.
- Strings are sequences of Unicode code points. Only `Common.UnitLength` counts UTF-16
  code units; trimming and the other string operations work per character.
- ConfirmRide.ConfirmRidePage: the early return that shows "No trip data received" when
  the page has no trip (`confirmRide.jsx:25-31`) is not modelled. The page is built with a
  trip.
- Rules that appear in the written description but not in the code are not modelled:
  - a log-in lockout after five failed attempts;
  - a minimum trip price;
  - seat-count and future-date checks on trips;
  - optimistic patching of reservation buckets;
  - cancellation limited to pending reservations.
- The reply datatypes reduce `data.message || fallback` to a string, in which the empty
  string stands for an absent or falsy message.
