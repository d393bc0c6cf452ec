# RCH medical network front end, modelled in Dafny

This project models the decision and data logic of the RCH (Red de Centros
Hospitalarios) web application. It is a Next.js front end where:

- patients book consultations, pay (by card or by transfer) and follow
  their appointments;
- doctors write consultation records that issue prescription and order codes;
- partner pharmacies, laboratories and imaging centres ("aliados") redeem
  those codes and upload results;
- administrators manage doctors, specialties, users and settings.

The model covers these parts:

- the persisted record tables of the client store (`lib/store.ts`) and the
  record types (`lib/types.ts`);
- the three-step booking wizard and its pricing;
- the consultation record builder;
- the partner code validation page;
- the access-control rules: the auth callbacks, the route middleware, the two
  layouts, the login redirect, the header link and the sidebar's active rule;
- the payment-form formatters;
- the dashboards, calendar and list pages;
- the admin forms and pages;
- the signup form and the signup route.

Each source file is one module. Where the source changes state step by step,
the model is a class with those fields:

- the store;
- the booking wizard and the consultation form;
- the validation page;
- the JWT token and the session;
- the admin list pages;
- the directory pages;
- the settings page, the image picker and the user table.

Each React handler is one atomic method. Pure expressions are functions.

Some inputs come from outside the code, so they are parameters of the model:

- the clock (`Date.now()` and its ISO form);
- generated ids and random suffixes;
- browser date parsing (`new Date(s).getTime()` as `instant`, `getDay()` as
  `weekdayOf`);
- the bcrypt hash and its verifier;
- the backend-token generator;
- every network reply (`Outcome`, the reply datatypes and `failure` flags);
- user confirmations (`confirmed`).

The store has no signed-in user field, so the pages that read one take the
user as a parameter. Case folding is ASCII-only (`Text.Lower`/`Text.Upper`).
Whitespace is the ECMAScript `\s` set.

The shared modules `Wrappers`, `Text` and `Lists` hold the option type and
the string and list helpers the pages share. These are `Filter`,
`FindFirst`, `SortBy`, `IsSubsequence`, substring search, trim, split,
decimal printing and `parseInt`. Each carries a proved contract.

## Model

| member | source | states |
|---|---|---|
| Types.ResultOrderType | lib/types.ts:182-192 | a result kind always names laboratory or imaging, never physiotherapy |
| Types.OrderResultType | lib/types.ts:131-138 | laboratory and imaging orders map to a result kind, and physiotherapy orders have none |
| Types.ResultTypeRoundTrip | lib/types.ts:182-192 | every lab-result kind comes from exactly one order kind and maps back to itself |
| Store.StatusPatch | lib/store.ts:105-109 | a status-only patch changes the status of a record and nothing else |
| Store.AppointmentPatchLaws | lib/store.ts:105-109 | the empty patch is the identity, applying a patch twice equals applying it once, and a patch without an id keeps the id |
| Store.PatchLaws | lib/store.ts:129-133 | record, doctor, ally, membership, promotion and payment-settings merges are idempotent, the empty settings patch changes nothing, and a patch without an id keeps it |
| Store.DraftRoundTrip | lib/store.ts:93-103 | adding an id and a creation time to appointment data and taking them off again gives the data back, and the converse holds too |
| Store.RecordDraftRoundTrip | lib/store.ts:118-127 | a created medical record carries the given data and the given id |
| Store.RedeemPrescription | lib/store.ts:148-154 | redeeming sets `used` and `usedAt` and leaves every other field as it was |
| Store.RedeemOrder | lib/store.ts:156-162 | the same for an order code |
| Store.RedeemAgain | lib/store.ts:151 | redeeming a used code again keeps it used but overwrites `usedAt` with the later time |
| Store.AppStore.constructor | lib/store.ts:71-84 | the store starts with the seed catalogues, empty appointment, record, code and result tables, and the seed payment settings |
| Store.AppStore.UpdateUser | lib/store.ts:86-91 | `updateUser` changes no state at all |
| Store.AppStore.CreateAppointment | lib/store.ts:93-103 | appends exactly one appointment carrying the given data, the id `apt-<now>` and the creation time, keeps earlier records in order, returns the appended record, and changes no other table |
| Store.AppStore.UpdateAppointment | lib/store.ts:105-109 | length and order are kept; every record with the id gets the patch merged and the others are unchanged; an absent id changes nothing |
| Store.AppStore.DeleteAppointment | lib/store.ts:111-115 | the result is exactly the records without the id, in their original order |
| Store.AppStore.CreateMedicalRecord | lib/store.ts:118-127 | appends one record with id `record-<now>` and the given data, and returns it |
| Store.AppStore.UpdateMedicalRecord | lib/store.ts:129-133 | merge by id with length and order kept; an absent id changes nothing |
| Store.AppStore.CreatePrescriptionCode | lib/store.ts:136-140 | appends the code without checking for an equal one, so duplicates are possible |
| Store.AppStore.CreateOrderCode | lib/store.ts:142-146 | appends the order code without a duplicate check |
| Store.AppStore.UsePrescriptionCode | lib/store.ts:148-154 | every entry with the code is redeemed at the given time, the length is kept and other entries are untouched |
| Store.AppStore.UseOrderCode | lib/store.ts:156-162 | the same on order codes |
| Store.AppStore.UpdatePaymentSettings | lib/store.ts:165-169 | shallow merge: supplied top-level keys replace, missing ones are kept |
| Store.AppStore.AddLabResult | lib/store.ts:172-176 | appends one lab result and changes no other table |
| Store.AppStore.AddDoctor | lib/store.ts:179-183 | appends one doctor |
| Store.AppStore.UpdateDoctor | lib/store.ts:185-189 | merge by id with length and order kept; an absent id changes nothing |
| Store.AppStore.DeleteDoctor | lib/store.ts:191-195 | keeps exactly the doctors with another id, in order; every kept entry appears as often as in the input |
| Store.AppStore.AddAlly | lib/store.ts:197-201 | appends one ally |
| Store.AppStore.UpdateAlly | lib/store.ts:203-207 | merge by id with length and order kept |
| Store.AppStore.DeleteAlly | lib/store.ts:209-213 | keeps exactly the allies with another id, in order; every kept entry appears as often as in the input |
| Store.AppStore.AddMembership | lib/store.ts:215-219 | appends one membership |
| Store.AppStore.UpdateMembership | lib/store.ts:221-225 | merge by id with length and order kept |
| Store.AppStore.DeleteMembership | lib/store.ts:227-231 | keeps exactly the memberships with another id, in order; every kept entry appears as often as in the input |
| Store.AppStore.AddPromotion | lib/store.ts:233-237 | appends one promotion |
| Store.AppStore.UpdatePromotion | lib/store.ts:239-243 | merge by id with length and order kept |
| Store.AppStore.DeletePromotion | lib/store.ts:245-249 | keeps exactly the promotions with another id, in order; every kept entry appears as often as in the input |
| Booking.InitialPatientInfo | components/pages/booking-page.tsx:28-34 | the patient details start from the user's name and email, and from the cédula and phone or empty text, with no symptoms |
| Booking.AvailableSlots | components/pages/booking-page.tsx:85-91 | no slots without both a date and a sector; when some schedule entry has that weekday and sector, exactly the slots of the first such entry; none when no entry matches |
| Booking.AvailableSlotsAreTimes | lib/types.ts:52-56 | for a well-formed schedule, every offered slot is an "HH:MM" time |
| Booking.ConsultationPrice | components/pages/booking-page.tsx:95-100 | the member price when the user is a member or opts in, otherwise the normal price |
| Booking.TotalPrice | components/pages/booking-page.tsx:96-103 | the consultation price plus 15 exactly when the user opts in and is not yet a member |
| Booking.UpsellPaysOff | components/pages/booking-page.tsx:95-103 | opting in lowers a non-member's total exactly when the member saving exceeds the 15 fee; a member pays the member price either way |
| Booking.StoredPriceExcludesFee | components/pages/booking-page.tsx:101-103 | the total differs from the stored consultation price by exactly the membership fee when one is bought, and by nothing otherwise |
| Booking.StatusFor | components/pages/booking-page.tsx:127 | transfer gives pending_verification and card gives paid |
| Booking.SectorLabel | components/pages/booking-page.tsx:165-176 | the three sectors get their "Sector …" label and any other text is returned unchanged |
| Booking.SectorLabelOfSector | components/pages/booking-page.tsx:165-176 | every real sector gets a label different from its raw name |
| Booking.NextStep | components/pages/booking-page.tsx:106-109 | moves at most one step, and moves exactly when `canProceed` holds: from 1 with date, time, sector and modality chosen, from 2 with all four patient details; the step stays in 1..3 |
| Booking.PreviousStep | components/pages/booking-page.tsx:111-113 | goes back one step only from a step above 1, staying in 1..3 |
| Booking.NextThenPrevious | components/pages/booking-page.tsx:106-113 | going forward and then back returns to the same step |
| Booking.BookingWizard.constructor | components/pages/booking-page.tsx:18-34 | the wizard starts at step 1 with nothing selected, card payment and the user's details |
| Booking.BookingWizard.HandleNext | components/pages/booking-page.tsx:106-109 | the step changes exactly when `canProceed` held before, and nothing else changes |
| Booking.BookingWizard.HandlePrevious | components/pages/booking-page.tsx:111-113 | the step goes back by the rule above, and nothing else changes |
| Booking.BookingWizard.SelectSector | components/pages/booking-page.tsx:267-270 | choosing a sector clears the chosen time |
| Booking.BookingWizard.SelectDate | components/pages/booking-page.tsx:314-317 | choosing a date clears the chosen time |
| Booking.BookingWizard.SelectTime | components/pages/booking-page.tsx:331 | sets only the time |
| Booking.BookingWizard.SelectModality | components/pages/booking-page.tsx:291 | sets only the modality |
| Booking.BookingWizard.SetWantsMembership | components/pages/booking-page.tsx:502 | sets only the membership opt-in |
| Booking.BookingWizard.SetPaymentMethod | components/pages/booking-page.tsx:531-546 | sets only the payment method |
| Booking.BookingWizard.AttachTransferProof | components/pages/booking-page.tsx:586-590 | attaches the proof named `comprobante-<now>.pdf` and changes nothing else |
| Booking.BookingWizard.EditPatientInfo | components/pages/booking-page.tsx:378-423 | replaces only the patient details |
| Booking.BookingWizard.HandleConfirm | components/pages/booking-page.tsx:115-159 | without a sector or modality nothing happens. Otherwise it appends one appointment with the chosen data, the status from the payment method, the consultation price without the fee and `isMember` = member or opting in, then navigates to /citas. A membership activation valid 30 days is requested exactly when the user opts in and is not a member |
| Consultation.FilteredCIE | components/pages/medical-consultation-page.tsx:69-76 | an empty query gives the first ten codes; otherwise the codes whose code or description contains the query case-insensitively, in catalogue order; every kept entry appears as often as in the input |
| Consultation.GenerateCode | components/pages/medical-consultation-page.tsx:128-130 | the code is the prefix, "-", then one to six digits, exactly six once the timestamp reaches 100000 |
| Consultation.CodeReadsBackClock | components/pages/medical-consultation-page.tsx:128-130 | the digits after the dash read back under `parseInt` as the timestamp modulo 1000000 |
| Consultation.CodesRepeatEveryMillion | components/pages/medical-consultation-page.tsx:128-130 | two timestamps 1000000 ms apart (from 100000 on) give the same code; no duplicate check stands in the way when both are saved |
| Consultation.MedicalOrders | components/pages/medical-consultation-page.tsx:143-151 | one saved order per checked order with a description, in order, coded LAB for laboratory and IMG otherwise, all unused |
| Consultation.SavedOrdersAreCheckedAndDescribed | components/pages/medical-consultation-page.tsx:143-151 | every saved order comes from a checked order with a description, and nothing is saved when no order qualifies |
| Consultation.OrderCodesFor | components/pages/medical-consultation-page.tsx:189-203 | one order code per saved order, for the appointment's patient and the signed-in doctor |
| Consultation.OrderCodesMatchOrders | components/pages/medical-consultation-page.tsx:189-203 | each order code has the same code and kind as its order and starts unused |
| Consultation.RecordCarriesForm | components/pages/medical-consultation-page.tsx:154-171 | the record carries the form's diagnosis, prescriptions, orders and indications and points at the appointment and its patient |
| Consultation.ConsultationForm.constructor | components/pages/medical-consultation-page.tsx:40-58 | the form starts empty, with one unchecked laboratory order and one unchecked imaging order |
| Consultation.ConsultationForm.SetSearch | components/pages/medical-consultation-page.tsx:265-268 | typing sets the query and opens the dropdown |
| Consultation.ConsultationForm.AddDiagnosis | components/pages/medical-consultation-page.tsx:93-99 | a code already present is not added again, so codes stay unique; a new code is appended; the query is cleared and the dropdown closed either way |
| Consultation.ConsultationForm.RemoveDiagnosis | components/pages/medical-consultation-page.tsx:101-103 | removes the entry with the code and keeps the rest in order, unique |
| Consultation.ConsultationForm.AddPrescription | components/pages/medical-consultation-page.tsx:105-122 | with medication and dose it appends the draft under id `med-<now>` and resets the draft; otherwise it changes neither list nor draft |
| Consultation.ConsultationForm.RemovePrescription | components/pages/medical-consultation-page.tsx:124-126 | removes the prescriptions with the id and keeps the rest in order |
| Consultation.ConsultationForm.EditDraft | components/pages/medical-consultation-page.tsx:351-376 | replaces only the prescription draft |
| Consultation.ConsultationForm.SetIndications | components/pages/medical-consultation-page.tsx:313 | replaces only the indications |
| Consultation.ConsultationForm.SetOrderChecked | components/pages/medical-consultation-page.tsx:396-398 | changes only the checked flag of that one order |
| Consultation.ConsultationForm.SetOrderDescription | components/pages/medical-consultation-page.tsx:412-414 | changes only the description of that one order |
| Consultation.ConsultationForm.HandleSave | components/pages/medical-consultation-page.tsx:132-212 | without a diagnosis it reports an error and changes nothing. Otherwise it appends one record, adds a prescription code exactly when there are prescriptions, adds one order code per saved order, marks the appointment completed and goes to the doctor dashboard |
| AllyValidation.Lookup | components/pages/ally-validation-page.tsx:55-69 | exact match, prescriptions first and then orders, the first match winning; not found exactly when neither table holds the code |
| AllyValidation.PrescriptionsWin | components/pages/ally-validation-page.tsx:55-66 | a code present in both tables resolves to the prescription |
| AllyValidation.AllyOf | components/pages/ally-validation-page.tsx:38 | the partner is found only through the user's `allyId`, and is found whenever such a partner exists |
| AllyValidation.UploadOnlyForResults | components/pages/ally-validation-page.tsx:344-349 | upload is offered only for an unused laboratory or imaging order, never to a pharmacy and never for a prescription |
| AllyValidation.ResultMatchesOrder | components/pages/ally-validation-page.tsx:97-110 | the uploaded result points at its order by code, for that patient and partner, with the matching kind |
| AllyValidation.ValidationPage.constructor | components/pages/ally-validation-page.tsx:28-34 | the page starts with an empty query and no result |
| AllyValidation.ValidationPage.SetSearchCode | components/pages/ally-validation-page.tsx:204 | the query input upper-cases what is typed |
| AllyValidation.ValidationPage.HandleSearch | components/pages/ally-validation-page.tsx:51-70 | a blank query changes nothing; otherwise the result is the lookup of the trimmed, upper-cased query |
| AllyValidation.ValidationPage.HandleMarkAsUsed | components/pages/ally-validation-page.tsx:72-90 | redeems the code in the table of its kind, leaves the other tables alone and clears the result and the query |
| AllyValidation.ValidationPage.HandleUploadResult | components/pages/ally-validation-page.tsx:92-121 | without a partner or user nothing happens; otherwise one result is appended and the page cleared, and the order codes are left exactly as they were |
| AllyValidation.UploadLeavesOrderOffered | components/pages/ally-validation-page.tsx:110-111 | when the store changes only in its lab results, as the upload as written does, searching the same code again finds the same order, still unused and still offered for upload |
| AllyValidation.ValidationPage.HandleUploadAndRedeem | components/pages/ally-validation-page.tsx:372 | the upload as its notice describes it: the result is appended and the order is redeemed as well |
| AllyValidation.RedeemedUploadNotOffered | components/pages/ally-validation-page.tsx:372 | once the orders with the code are redeemed as the intended upload does, the same search finds a used order and offers nothing |
| AuthConfig.RoleOf | auth.config.ts:67-77 | admin when an admin relation exists, else doctor when a doctor relation exists, else patient; never ally or public |
| AuthConfig.Authorize | auth.config.ts:18-101 | returns a user exactly when both credentials are given, the user has a stored password that verifies, the status is Activo and no step failed. The user returned carries the derived role, only the matching relation id, the backend token and no `membershipActive` |
| AuthConfig.Token.constructor | auth.config.ts:110 | a fresh token carries no claims |
| AuthConfig.Token.Jwt | auth.config.ts:110-130 | on sign-in every claim is copied from the user; an "update" trigger with a session changes only the name; otherwise the token is kept |
| AuthConfig.SessionView.constructor | auth.config.ts:131 | a fresh session carries no user fields |
| AuthConfig.SessionView.FromToken | auth.config.ts:131-145 | with a session user every field is copied from the token, and otherwise nothing changes |
| AuthConfig.SignIn | auth.config.ts:18-145 | across authorize, jwt and session a user is signed in exactly when authorize admits them; the session role is the derived role, never ally, and `membershipActive` is always unset |
| AuthConfig.Authorized | auth.config.ts:146-167 | paths outside the four areas are allowed; inside them a user is needed; /doctor needs doctor, /admin needs admin, /aliado needs ally; conversely a signed-in user whose role fits every prefix the path has is allowed |
| AuthConfig.DashboardAcceptsAnyRole | auth.config.ts:148-163 | every signed-in role may open /dashboard pages |
| AuthConfig.AllyListNeedsAllyRole | auth.config.ts:151-161 | "/aliados" starts with "/aliado", so it is allowed only to the ally role |
| AuthConfig.AuthorizedUsersNeverReachAllyPages | auth.config.ts:67-77 | no user signed in through authorize can open an "/aliado…" page, because the ally role is never produced |
| Middleware.AnyRouteMatches | middleware.ts:24-26 | some listed route equals the path or is followed in it by "/" |
| Middleware.Decide | middleware.ts:29-53 | public paths and "/api/" paths pass; any other path passes exactly when a session cookie is present, and otherwise redirects to login with the path as `callbackUrl` |
| Middleware.PublicIff | middleware.ts:11-26 | a path is public exactly when it is one of the ten routes or lies below one |
| Middleware.RootEntry | middleware.ts:24-26 | the root entry admits only "/" itself and paths starting "//" |
| Middleware.BelowPublicIsPublic | middleware.ts:24-26 | any path below a public route is public |
| Middleware.ProtectedAreasNotPublic | middleware.ts:11-22 | no /admin, /doctor, /dashboard or /aliado/ path is public |
| Middleware.OnlyCookieNamesMatter | middleware.ts:34-43 | the decision depends on which cookies are present, never on their values |
| Middleware.ProtectedAreaRedirects | middleware.ts:43-48 | without a session cookie /admin, /doctor and /dashboard paths redirect to login remembering the path |
| AccessRules.CookieAloneOpensAdmin | middleware.ts:34-52 | any session cookie lets the middleware pass an /admin path, while the auth rule admits it only for the admin role |
| AccessRules.PartnerListRulesDisagree | middleware.ts:11-22 | the middleware treats "/aliados" as public, while the auth rule refuses it to the signed-out and to every role authorize produces |
| AccessRules.AdminLoginBehindMiddleware | app/admin/layout.tsx:20-22 | the admin layout exempts /admin/login, but without a cookie the middleware and the auth rule both keep it closed |
| AccessRules.DashboardLinkAuthorized | components/layout/auth-header.tsx:37-50 | the header's dashboard link is a page the auth rule allows for every role |
| AccessRules.LoginLandsOnAuthorizedPage | components/auth/login-form.tsx:71-84 | the login redirect lands on a page the auth rule allows for every role |
| AccessRules.AdminPanelAuthorized | app/admin/layout.tsx:50-52 | wherever the admin layout renders its panel below /admin, the auth rule allows the session |
| AccessRules.DoctorPortalAuthorized | app/doctor/layout.tsx:40-42 | wherever the doctor layout renders its portal, the auth rule allows the session |
| Payment.GroupDigitsInsertsSpaces | components/pages/payment-page.tsx:103 | grouping only inserts spaces: the result is at least as long as the input and every character is from the input or a space |
| Payment.CardNumberCharacters | components/pages/payment-page.tsx:101-104 | every character of the formatted number is a non-whitespace character of the input or a separating space |
| Payment.FormatExpiry | components/pages/payment-page.tsx:121-124 | digits only; from two digits on, the first two, "/" and at most two more; at most five characters with a "/" only in third place |
| Payment.FormatCvc | components/pages/payment-page.tsx:138 | keeps exactly the digit characters, in order |
| Payment.Tax | components/pages/payment-page.tsx:196 | 19% of the price rounded to the nearest integer |
| Payment.Total | components/pages/payment-page.tsx:200-201 | the price plus the tax |
| Payment.CardNumberKeepsCharacters | components/pages/payment-page.tsx:101-104 | removing whitespace from the formatted card number gives the input without its whitespace |
| Payment.CardNumberTrimmed | components/pages/payment-page.tsx:104 | the formatted number has no leading or trailing whitespace |
| Payment.CardNumberIdempotent | components/pages/payment-page.tsx:101-104 | formatting a formatted card number changes nothing |
| Payment.CardNumberOfDigits | components/pages/payment-page.tsx:103 | a digit-only input comes out in groups of four separated by single spaces |
| Payment.ExpiryIdempotent | components/pages/payment-page.tsx:121-124 | formatting a formatted expiry changes nothing |
| Payment.CvcIdempotent | components/pages/payment-page.tsx:138 | formatting a formatted CVC changes nothing |
| Payment.FixedPriceSummary | components/pages/payment-page.tsx:25 | the fixed price 80 has tax 15 and total 95 |
| DoctorDashboard.DoctorAppointments | components/pages/doctor-dashboard.tsx:47 | exactly the appointments of the user's doctor id, in order, and none without a doctor id; every kept entry appears as often as in the input |
| DoctorDashboard.Filtered | components/pages/doctor-dashboard.tsx:50-54 | "paid" keeps paid, "pending" keeps pending and pending_verification, "all" keeps everything; every kept entry appears as often as in the input |
| DoctorDashboard.Displayed | components/pages/doctor-dashboard.tsx:57-61 | a permutation of the filtered list sorted by date and time, on a copy |
| DoctorDashboard.StatsBounded | components/pages/doctor-dashboard.tsx:64-69 | paid, completed and today's counts never exceed the doctor's total, and today's count never exceeds paid plus completed |
| DoctorDashboard.PaidFilterIsAttendable | components/pages/doctor-dashboard.tsx:242 | the default filter shows exactly the appointments that offer "Atender" |
| DoctorDashboard.Redirect | components/pages/doctor-dashboard.tsx:23-29 | signed-out goes to /login, a signed-in non-doctor to /dashboard, and nothing happens while loading |
| DoctorDashboard.AgendaImpliesNoRedirect | components/pages/doctor-dashboard.tsx:23-44 | when the agenda is shown to an authenticated doctor there is no redirect |
| Calendar.DaysInMonth | components/pages/appointments-calendar.tsx:45 | every Gregorian month has 28 to 31 days |
| Calendar.Weekday | components/pages/appointments-calendar.tsx:46 | the weekday of a date is 0 (Sunday) to 6 |
| Calendar.FirstDayOfMonth | components/pages/appointments-calendar.tsx:46 | the weekday of the month's first day, so the number of blank cells before it |
| Calendar.Days | components/pages/appointments-calendar.tsx:50 | the day cells are exactly 1 to the month's length |
| Calendar.YearLength | components/pages/appointments-calendar.tsx:45 | the months add up to 366 days in a leap year and 365 otherwise |
| Calendar.LeapFebruary | components/pages/appointments-calendar.tsx:45 | February has 29 days exactly in a leap year |
| Calendar.NextMonth | components/pages/appointments-calendar.tsx:53 | moves exactly one month forward, rolling over the year |
| Calendar.PreviousMonth | components/pages/appointments-calendar.tsx:52 | moves exactly one month back, rolling over the year |
| Calendar.NextThenPrevious | components/pages/appointments-calendar.tsx:52-53 | next then previous, and previous then next, return to the same year and month |
| Calendar.FirstDayOfNextMonth | components/pages/appointments-calendar.tsx:45-46 | the next month starts the current month's length of days later, so its first weekday is shifted by that length |
| Calendar.Anchors | components/pages/appointments-calendar.tsx:45-46 | January 2025 starts on a Wednesday; February has 29 days in 2024 and 2000 and 28 in 2025 and 1900 |
| Calendar.DateKeyInjective | components/pages/appointments-calendar.tsx:55-58 | two days of one month with the same zero-padded date string are the same day |
| Calendar.HasAppointmentOn | components/pages/appointments-calendar.tsx:55-58 | a day is highlighted exactly when one of the user's appointments has its date string |
| Calendar.HighlightUnique | components/pages/appointments-calendar.tsx:55-58 | one appointment highlights at most one day of a month |
| Calendar.ModalityLabel | components/pages/appointments-calendar.tsx:88-99 | the three modalities get their labels and any other text is returned unchanged |
| Calendar.ModalityLabelsDistinct | components/pages/appointments-calendar.tsx:88-99 | different modalities get different labels |
| Calendar.SectorLabelsDistinct | components/pages/appointments-calendar.tsx:75-86 | different sectors get different labels |
| Calendar.Redirect | components/pages/appointments-calendar.tsx:20-24 | only a signed-out session is sent, to /login |
| Calendar.CalendarView.constructor | components/pages/appointments-calendar.tsx:16 | the view starts on a valid date |
| Calendar.CalendarView.HandlePrevMonth | components/pages/appointments-calendar.tsx:52 | the view moves one month back and lands on day 1 |
| Calendar.CalendarView.HandleNextMonth | components/pages/appointments-calendar.tsx:53 | the view moves one month forward and lands on day 1 |
| Calendar.CalendarView.Grid | components/pages/appointments-calendar.tsx:45-50 | the grid is the first weekday and the day numbers of the shown month |
| UserDashboard.UserAppointments | components/pages/user-dashboard.tsx:43-45 | exactly the user's appointments, a permutation of them sorted by date |
| UserDashboard.Upcoming | components/pages/user-dashboard.tsx:47-49 | the user's appointments that are not cancelled and are dated now or later, in order; every kept entry appears as often as in the input |
| UserDashboard.UpcomingSorted | components/pages/user-dashboard.tsx:43-49 | the upcoming list stays sorted by date |
| UserDashboard.Shown | components/pages/user-dashboard.tsx:174 | the first three upcoming appointments, or all of them when there are fewer |
| UserDashboard.Initials | components/pages/user-dashboard.tsx:76-81 | at most two upper-cased word initials of the name, or "U" (from "Usuario") without one |
| UserDashboard.InitialsOfFullName | components/pages/user-dashboard.tsx:76-81 | "ana maria" gives "AM" |
| UserDashboard.Redirect | components/pages/user-dashboard.tsx:18-22 | only a signed-out session is sent, to /login |
| UsersManagement.FilteredUsers | components/admin/pages/users-management.tsx:52-61 | exactly the users whose name or email contains the term case-insensitively and who pass the role filter, in order; every kept entry appears as often as in the input |
| UsersManagement.EmptyFilterListsAll | components/admin/pages/users-management.tsx:52-61 | an empty term with "all" lists every user |
| UsersManagement.UserRoleOf | components/admin/pages/users-management.tsx:105-109 | admin with an admin relation, else doctor with a doctor relation, else patient |
| UsersManagement.RoleLabel | components/admin/pages/users-management.tsx:111-115 | the label names exactly the derived role |
| UsersManagement.RoleFilterAgreesWithRole | components/admin/pages/users-management.tsx:57-61 | the patient filter selects exactly the patients, and admins and doctors pass their filters |
| UsersManagement.BothRelations | components/admin/pages/users-management.tsx:59-60 | a user with both relations is listed under admin and under doctor but labelled admin |
| UsersManagement.StatusLabel | components/admin/pages/users-management.tsx:12-16 | each status gets its own label |
| UsersManagement.UsersPage.constructor | components/admin/pages/users-management.tsx:25-32 | the page starts loading, with no users, no filter and no dialog |
| UsersManagement.UsersPage.LoadUsers | components/admin/pages/users-management.tsx:38-50 | a reply that is not a list becomes the empty list; a failure empties the list and shows the error |
| UsersManagement.UsersPage.HandleAddUser | components/admin/pages/users-management.tsx:66-77 | success appends exactly the returned user and closes the dialog; failure keeps the list and alerts |
| UsersManagement.UsersPage.HandleEditUser | components/admin/pages/users-management.tsx:79-92 | without a user being edited nothing happens; success replaces the entries with that id, keeping length and order; failure keeps the list |
| UsersManagement.UsersPage.HandleDeleteUser | components/admin/pages/users-management.tsx:94-103 | only after confirmation and success are the users with the id removed, keeping the order; every kept entry appears as often as in the input |
| DoctorsManagement.StatusLabel | components/admin/pages/doctors-management.tsx:12-16 | DeVacaciones reads "De Vacaciones" and the other two read as themselves |
| DoctorsManagement.StatusLabelsDistinct | components/admin/pages/doctors-management.tsx:12-16 | different statuses get different labels |
| DoctorsManagement.FilteredDoctors | components/admin/pages/doctors-management.tsx:53-58 | exactly the doctors whose name, specialty name or email contains the term, in order; every kept entry appears as often as in the input |
| DoctorsManagement.EmptyTermListsAll | components/admin/pages/doctors-management.tsx:53-58 | an empty term lists every doctor |
| DoctorsManagement.DoctorsPage.constructor | components/admin/pages/doctors-management.tsx:22-31 | the page starts loading with empty lists |
| DoctorsManagement.DoctorsPage.LoadData | components/admin/pages/doctors-management.tsx:33-51 | replies that are not lists become empty lists; a failure empties both lists and shows the error |
| DoctorsManagement.DoctorsPage.HandleAddDoctor | components/admin/pages/doctors-management.tsx:60-71 | success appends the returned doctor; failure keeps the list and alerts |
| DoctorsManagement.DoctorsPage.HandleEditDoctor | components/admin/pages/doctors-management.tsx:73-86 | success replaces the entries with the edited id, keeping length and order; without an edited doctor nothing happens |
| DoctorsManagement.DoctorsPage.HandleDeleteDoctor | components/admin/pages/doctors-management.tsx:88-97 | only after confirmation and success are the doctors with the id removed; every kept entry appears as often as in the input |
| SpecialtiesManagement.FilteredSpecialties | components/admin/pages/specialties-management.tsx:41-45 | exactly the specialties whose name or description contains the term, in order; every kept entry appears as often as in the input |
| SpecialtiesManagement.EmptyTermListsAll | components/admin/pages/specialties-management.tsx:41-45 | an empty term lists every specialty |
| SpecialtiesManagement.DoctorCountShown | components/admin/pages/specialties-management.tsx:176 | a missing doctor count is shown as 0 |
| SpecialtiesManagement.SpecialtiesPage.constructor | components/admin/pages/specialties-management.tsx:18-24 | the page starts loading with an empty list |
| SpecialtiesManagement.SpecialtiesPage.LoadSpecialties | components/admin/pages/specialties-management.tsx:26-39 | a reply that is not a list becomes the empty list; a failure empties it and shows the error |
| SpecialtiesManagement.SpecialtiesPage.HandleAddSpecialty | components/admin/pages/specialties-management.tsx:47-58 | success appends the returned specialty; failure keeps the list |
| SpecialtiesManagement.SpecialtiesPage.HandleEditSpecialty | components/admin/pages/specialties-management.tsx:60-73 | success replaces the entries with the edited id, keeping length and order |
| SpecialtiesManagement.SpecialtiesPage.HandleDeleteSpecialty | components/admin/pages/specialties-management.tsx:75-84 | only after confirmation and success are the specialties with the id removed; every kept entry appears as often as in the input |
| DoctorsPage.Listed | components/pages/doctors-page.tsx:50-61 | exactly the active doctors that match the search and whose specialty name equals the filter case-insensitively, in order; every kept entry appears as often as in the input |
| DoctorsPage.NoFilterListsActive | components/pages/doctors-page.tsx:50-61 | with no search and no filter, exactly the active doctors are listed |
| DoctorsPage.SpecialtyIsNotSubstring | components/pages/doctors-page.tsx:55 | the specialty filter is whole-name equality: "cardio" does not select Cardiología, while a differently cased full name does |
| DoctorsPage.Directory.constructor | components/pages/doctors-page.tsx:21-25 | the filter starts from the "especialidad" parameter, with an empty search |
| DoctorsPage.Directory.SyncParameter | components/pages/doctors-page.tsx:29-31 | a new parameter value replaces the filter |
| DoctorsPage.Directory.SetSearchTerm | components/pages/doctors-page.tsx:125 | sets only the search |
| DoctorsPage.Directory.ClearSpecialty | components/pages/doctors-page.tsx:133 | the badge clears only the filter |
| AlliesList.ChipsOffered | components/pages/allies-list-page.tsx:80 | four type chips are offered, every type but "medical", and all three sectors |
| AlliesList.TypeLabel | components/pages/allies-list-page.tsx:50-65 | the known types get their labels and any other text is returned unchanged |
| AlliesList.TypeLabelsDistinct | components/pages/allies-list-page.tsx:50-65 | different types get different labels |
| AlliesList.SectorLabel | components/pages/allies-list-page.tsx:67-76 | the three sectors get their capitalised names and any other text is returned unchanged; for a real sector the booking page's label is this one behind "Sector ", and for any other text the two pages agree |
| AlliesList.Filtered | components/pages/allies-list-page.tsx:28-33 | exactly the allies whose name contains the term and whose type and sector equal the filters that are set, in order; every kept entry appears as often as in the input |
| AlliesList.UnknownTypeHidesAll | components/pages/allies-list-page.tsx:28-33 | a type parameter that names no type hides every ally |
| AlliesList.Toggle | components/pages/allies-list-page.tsx:118 | clicking the selected chip clears it and clicking another selects it |
| AlliesList.ToggleTwice | components/pages/allies-list-page.tsx:118 | two clicks on a chip restore the filter exactly when it was empty or already that chip |
| AlliesList.AlliesPage.constructor | components/pages/allies-list-page.tsx:17-19 | the filters start from the "tipo" and "sector" parameters |
| AlliesList.AlliesPage.SyncParameters | components/pages/allies-list-page.tsx:23-26 | new parameter values replace both filters |
| AlliesList.AlliesPage.SetSearchTerm | components/pages/allies-list-page.tsx:104 | sets only the search |
| AlliesList.AlliesPage.ClickTypeChip | components/pages/allies-list-page.tsx:118 | toggles only the type filter |
| AlliesList.AlliesPage.ClickSectorChip | components/pages/allies-list-page.tsx:132 | toggles only the sector filter |
| AlliesList.AlliesPage.ClearType | components/pages/allies-list-page.tsx:148 | clears only the type filter |
| AlliesList.AlliesPage.ClearSector | components/pages/allies-list-page.tsx:156 | clears only the sector filter |
| AlliesList.AlliesPage.ClearFilters | components/pages/allies-list-page.tsx:164-167 | "Limpiar todos" clears type and sector but keeps the search |
| AlliesList.AlliesPage.ShowAll | components/pages/allies-list-page.tsx:239-243 | "Ver todos los aliados" clears all three, so every ally is shown |
| SpecialtiesPage.Filtered | components/pages/specialties-page.tsx:34-37 | exactly the specialties whose name or description contains the term, in order; an empty term shows all; every kept entry appears as often as in the input |
| SpecialtiesPage.CountLabel | components/pages/specialties-page.tsx:129 | the label is the count (0 when missing) followed by " especialista", with a final "s" exactly when the count is not 1 |
| SpecialtiesPage.CountLabelReadsBack | components/pages/specialties-page.tsx:129 | the label reads back under `parseInt` as the count it shows |
| SpecialtiesPage.CountLabelPlural | components/pages/specialties-page.tsx:129 | 1 gives "1 especialista", a missing count gives "0 especialistas", 2 gives "2 especialistas" |
| UserForm.Initial | components/admin/forms/user-form.tsx:18-23 | prefilled from the user, with the password always empty; a new user starts Activo |
| UserForm.SetField | components/admin/forms/user-form.tsx:25-28 | changes only the named field |
| UserForm.SetStatus | components/admin/forms/user-form.tsx:30-32 | changes only the status |
| UserForm.Submit | components/admin/forms/user-form.tsx:34-55 | refused exactly without an email, or when creating without a password; an empty name is sent as undefined, the status is passed through, and a password is sent exactly when one was typed |
| UserForm.UntouchedEdit | components/admin/forms/user-form.tsx:18-55 | saving an unchanged edit sends the user's name, email and status and no password |
| UserForm.EmptyCreateRefused | components/admin/forms/user-form.tsx:36-39 | an untouched create form is refused |
| UserForm.EditNeedsOnlyEmail | components/admin/forms/user-form.tsx:36-39 | an edit is submitted exactly when it has an email |
| DoctorForm.Initial | components/admin/forms/doctor-form.tsx:22-30 | prefilled from the doctor, with the years as text and the phone or empty text; a new doctor starts Activo |
| DoctorForm.SetField | components/admin/forms/doctor-form.tsx:32-39 | changes only the named field |
| DoctorForm.Submit | components/admin/forms/doctor-form.tsx:41-60 | refused exactly without name, specialty or email; an empty phone is sent as undefined and the years are the leading integer of the text or 0 |
| DoctorForm.YearsDefaultToZero | components/admin/forms/doctor-form.tsx:52 | empty or non-numeric years are sent as 0 |
| DoctorForm.YearsLeadingNumber | components/admin/forms/doctor-form.tsx:52 | "12 años" is sent as 12 |
| DoctorForm.UntouchedEdit | components/admin/forms/doctor-form.tsx:22-60 | saving an unchanged edit sends the doctor's own fields back, years included |
| SpecialtyForm.Initial | components/admin/forms/specialty-form.tsx:19-23 | prefilled from the specialty, or empty when creating |
| SpecialtyForm.SetField | components/admin/forms/specialty-form.tsx:25-28 | changes only the named field |
| SpecialtyForm.Submit | components/admin/forms/specialty-form.tsx:30-43 | refused exactly without a name or description; an empty image URL is sent as undefined |
| SpecialtyForm.UntouchedEdit | components/admin/forms/specialty-form.tsx:19-43 | saving an unchanged edit sends the specialty's own fields back |
| SpecialtyForm.EmptyCreateRefused | components/admin/forms/specialty-form.tsx:32-35 | an untouched create form is refused |
| SignupForm.Validate | components/auth/signup-form.tsx:33-49 | a mismatch is reported first, then a password shorter than six characters; it passes exactly when both hold |
| SignupForm.Submit | components/auth/signup-form.tsx:28-104 | a failed check sends nothing; a refused request shows the body's error or a fallback; a created account goes to /login when sign-in fails and to /dashboard when it succeeds |
| SignupForm.MismatchReportedFirst | components/auth/signup-form.tsx:36-44 | with both problems present, the mismatch is the one reported |
| SignupForm.LengthBoundary | components/auth/signup-form.tsx:42 | six characters pass and five do not |
| SignupForm.RequestIgnoresCedulaAndPhone | components/auth/signup-form.tsx:58-62 | the request body does not depend on the cédula or the phone |
| SignupForm.FailureStaysOnPage | components/auth/signup-form.tsx:65-69 | a request that fails never navigates and always shows a message |
| SignupRoute.NewUser | app/api/auth/signup/route.ts:30-44 | the new user is Activo with the hashed password, no relations and so the patient role |
| SignupRoute.UserTable.constructor | app/api/auth/signup/route.ts:18-27 | the table starts empty and well-formed |
| SignupRoute.UserTable.Post | app/api/auth/signup/route.ts:7-57 | a body that is not JSON gives 500 before any other test; otherwise a missing email or password gives 400, a registered email gives 400, and a database or hash exception or an id clash gives 500 with "Error al crear usuario"; all of these leave the table unchanged. Success inserts exactly one user and answers 200 with id, email and name only. Emails stay unique |
| SignupRoute.InsertKeepsUnique | app/api/auth/signup/route.ts:18-44 | inserting an unregistered email keeps emails unique |
| SignupRoute.CreatedIsRegistered | app/api/auth/signup/route.ts:30-44 | after a signup the email counts as registered, so a second signup with it is refused |
| SignupRoute.StoresHashNotPlaintext | app/api/auth/signup/route.ts:30-38 | the stored password is the hash, not the plaintext |
| AuthHeader.Initials | components/layout/auth-header.tsx:27-34 | "U" for a missing or empty name, else at most two upper-cased word initials |
| AuthHeader.InitialsAgreeWithDashboard | components/layout/auth-header.tsx:27-34 | the header and the patient dashboard draw the same initials for every name |
| AuthHeader.DashboardLink | components/layout/auth-header.tsx:37-50 | patient /dashboard, doctor /doctor/dashboard, admin /admin, ally /aliado/validar, anything else /dashboard |
| AuthHeader.BadgeXorOffer | components/layout/auth-header.tsx:96-133 | a patient sees either the member badge or the membership offer, never both; other roles see neither; the offer comes with "Mis Citas" |
| LoginForm.RedirectFor | components/auth/login-form.tsx:71-84 | admin /admin, doctor /doctor/dashboard, ally /aliado/validar, otherwise /dashboard |
| LoginForm.RedirectAgreesWithHeader | components/auth/login-form.tsx:71-84 | the login redirect equals the header's dashboard link for every role |
| LoginForm.LoginPage.constructor | components/auth/login-form.tsx:20-21 | the page starts with no error and not loading |
| LoginForm.LoginPage.HandleSubmit | components/auth/login-form.tsx:36-105 | only a successful sign-in redirects, to the role's page; an error, an unexpected result or an exception shows its message and stops loading |
| AdminSidebar.DashboardActiveBelowAdmin | components/admin/layout/admin-sidebar.tsx:20-25 | the Dashboard item is active on every /admin/… page |
| AdminSidebar.SharedPrefixInactive | components/admin/layout/admin-sidebar.tsx:90 | /admin/doctoresX does not activate /admin/doctores, while /admin/doctores/3 does |
| AdminSidebar.ActiveEntries | components/admin/layout/admin-sidebar.tsx:20-90 | on a page of one item, or below it, exactly that item and Dashboard are active |
| AdminSidebar.Sidebar.constructor | components/admin/layout/admin-sidebar.tsx:65 | the sidebar starts open |
| AdminSidebar.Sidebar.Toggle | components/admin/layout/admin-sidebar.tsx:81 | the button flips the open state |
| AdminSidebar.ToggleTwice | components/admin/layout/admin-sidebar.tsx:81 | two clicks restore the original state |
| AdminLayout.Redirect | app/admin/layout.tsx:20-34 | never on /admin/login; elsewhere signed-out goes to /login and a signed-in non-admin to /dashboard |
| AdminLayout.ViewFor | app/admin/layout.tsx:38-52 | the panel always shows on /admin/login; elsewhere the spinner shows exactly while loading and the panel exactly for an authenticated admin |
| AdminLayout.PanelMeansNoRedirect | app/admin/layout.tsx:20-52 | whenever the panel renders there is no redirect |
| AdminLayout.SignedOutSeesNothing | app/admin/layout.tsx:25-52 | away from /admin/login a signed-out visitor is sent to /login and sees nothing |
| DoctorLayout.Redirect | app/doctor/layout.tsx:18-26 | signed-out goes to /login and a signed-in non-doctor to /dashboard |
| DoctorLayout.ViewFor | app/doctor/layout.tsx:29-42 | only the spinner while loading; children exactly for an authenticated doctor |
| DoctorLayout.AgreesWithDashboardPage | app/doctor/layout.tsx:18-26 | the layout and the doctor dashboard redirect alike in every state |
| DoctorLayout.PortalShowsAgenda | app/doctor/layout.tsx:40-42 | whenever the layout renders its children, the dashboard shows its agenda and neither redirects |
| Settings.DefaultNotifications | components/admin/pages/settings-page.tsx:13-18 | every notification flag starts on |
| Settings.DefaultSettings | components/admin/pages/settings-page.tsx:20-26 | every setting has a default: maintenance off, fee "150", maximum booking days "30" |
| Settings.Flip | components/admin/pages/settings-page.tsx:28-30 | flips exactly the named flag and keeps the others |
| Settings.FlipTwice | components/admin/pages/settings-page.tsx:28-30 | flipping one flag twice restores the record |
| Settings.FlipsCommute | components/admin/pages/settings-page.tsx:28-30 | flips of two flags can be done in either order |
| Settings.SettingsPage.constructor | components/admin/pages/settings-page.tsx:13-26 | the page starts with the defaults |
| Settings.SettingsPage.HandleNotificationChange | components/admin/pages/settings-page.tsx:28-30 | flips the one flag and leaves the settings alone |
| Settings.SettingsPage.HandleSettingChange | components/admin/pages/settings-page.tsx:32-34 | sets exactly one key to the value and keeps every other key |
| ImageUpload.SizeBoundary | components/ui/image-upload.tsx:23 | the limit is 5242880 bytes; exactly 5 MiB is accepted and one byte more is not |
| ImageUpload.Picker.constructor | components/ui/image-upload.tsx:15-16 | the preview starts as the given value |
| ImageUpload.Picker.HandleFileChange | components/ui/image-upload.tsx:20-32 | no file changes nothing; a file over the limit is rejected with the preview untouched and nothing passed on; an accepted file becomes the preview and is passed on as it is |
| ImageUpload.Picker.HandleRemove | components/ui/image-upload.tsx:34-40 | clears the preview, signals the removal and empties the input |
| ImageUpload.Picker.TriggerUpload | components/ui/image-upload.tsx:42-46 | the picker opens exactly when not disabled |
| DoctorPatientsList.Filtered | components/pages/doctor-patients-list.tsx:44-48 | exactly the patients whose name or email contains the term, in the fixed order |
| DoctorPatientsList.EmptyTermListsAll | components/pages/doctor-patients-list.tsx:8-48 | an empty term shows all three patients in order |
| DoctorPatientsList.EmptyStateIff | components/pages/doctor-patients-list.tsx:152-156 | the empty-state message shows exactly when no patient matches |
| ExamResults.Filtered | components/pages/exam-results.tsx:47-51 | exactly the results whose exam type or doctor contains the term, in the fixed order |
| ExamResults.EmptyTermListsAll | components/pages/exam-results.tsx:9-51 | an empty term shows all four results in order |
| ExamResults.EmptyStateIff | components/pages/exam-results.tsx:121-126 | the empty-state message shows exactly when no result matches |

## Left out

- Rendering: JSX, styling, icons, toasts, `alert`/`confirm` dialogs and router calls. Navigation is a returned value or a redirect function, a confirmation is the `confirmed` input, and an alert is a returned message.
- Network clients (`lib/api-client-browser.ts`, `lib/api-client.ts`, `hooks/use-api.ts`) and fetch calls: every reply is an input (`Outcome`, reply datatypes).
- bcrypt, jsonwebtoken and prisma: the hash, the verifier and the token generator are function parameters, and the user table is a map.
- Generated ids and codes (`Date.now()`, `Math.random()`) and the current time: method parameters. Each handler reads the clock once.
- Browser date parsing and locale formatting: `new Date(s).getTime()` is the parameter `instant` and `getDay()` is `weekdayOf`. The UTC shift of date-only strings, a `NaN` date, and `Date`'s two-digit-year rule for years below 100 are not modelled.
- Sort stability: `DoctorDashboard.Displayed` and `UserDashboard.UserAppointments` say sorted and a permutation, not which order ties keep.
- Payment.Tax: `Math.round(price * 0.19)` is exact integer rounding, not IEEE floating point.
- Case folding: ASCII only. Unicode `toLowerCase`/`toUpperCase` mapping is not modelled.
- SignupForm.Validate: the password length is counted in characters, not UTF-16 code units.
- The middleware matcher regex and the `maxLength` attributes of the payment form: the framework and browser enforce them.
- The payment page's form state and its `handleSubmit`: it only stores and toasts.
- `components/pages/profile-page.tsx` and `handleGenerateDemoCodes` in the validation page: no state to reason about beyond the no-op `updateUser` and demo data.
- The redirect effects of the consultation and validation pages: the same status/role rule as the doctor layout, not repeated.
- The calendar's user list: it is the same filter and sort as the patient dashboard, modelled once as `UserDashboard.UserAppointments`.
- The `isLoading`/`submitting` flags of the signup form and the image form; the login form's flag is modelled.
- Keys patched to `undefined`: the patch types say "not given" or "given"; a given `undefined` value is not a separate case.
- UsersManagement.UsersPage.HandleEditUser: the edit DTO is modelled with the create DTO's shape; the source type makes the email optional there.
- ImageUpload.Picker: `selected` stands for the file the browser leaves in the input and the object URL is a parameter; revoking it is not modelled.
- DoctorForm.Submit: the image is passed through as given; the upload it triggers belongs to the caller.
- SignupForm.Submit: a `signIn` exception after the account was created is folded into the `signInFailed` input, so the model goes to /login where the source's catch branch shows an error toast and stays on the page.
- Numbers: every `number` field of the platform types (prices, discounts, `priceNormal`, `priceMember`, `rating`, `experienceYears`, `retentionPercentage`) is an `int`, so a fractional price or a 4.8 rating cannot be represented.
- The calendar's "Cancelar" button (shown for pending appointments) and the doctor form's disabled submit button: rendering only, with no effect modelled.

## Findings

| source | as written | input that shows it | evidently intended | confidence | as-written member | corrected member |
|---|---|---|---|---|---|---|
| components/pages/ally-validation-page.tsx:110-111 | the upload appends a lab result but the call that redeems the order is commented out | search an unused laboratory order, upload a result, then search it again: it is still unused and offered again | the notice at line 372 says the order is marked used after the upload | low, not executed | AllyValidation.ValidationPage.HandleUploadResult (with AllyValidation.UploadLeavesOrderOffered) | AllyValidation.ValidationPage.HandleUploadAndRedeem (with AllyValidation.RedeemedUploadNotOffered) |
