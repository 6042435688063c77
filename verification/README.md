# healthy-app: registration, login and onboarding, modelled in Dafny

healthy-app is a Next.js telemedicine application. Patients and healthcare
professionals register, log in, and see their profile and appointments. This
project models its core. On the server side that is:

- the three registration routes: patient, healthcare professional (one MySQL
  transaction over Users, Specialties and HealthcareProfessionals) and the
  generic `/api/auth/register`;
- the login route, which issues a JWT;
- the profile route `/api/user`, which reads a Bearer token;
- the password-recovery check;
- the JWT middleware.

On the client side it is the two registration forms, the login page and the
onboarding carousel of the splash screen.

The database is a value, `Database.Store`. It holds one sequence of rows per
table in insertion order, plus the AUTO_INCREMENT counters. A SELECT returns
the matching rows in that order, and "the first row" is the first matching
element. `Database.Valid` states the invariant the handlers keep:

- primary keys are distinct and stay below their counters;
- Email and LicenseNumber are unique, so the insert that would break that
  fails with ER_DUP_ENTRY;
- SpecialtyName is unique, kept by the professional route, which looks a
  name up before it inserts it;
- the foreign keys of HealthcareProfessionals resolve.

mysql2 refuses an `undefined` bind value before the statement reaches the
server. The registration routes bind some optional fields as they arrive,
so an accepted body can still be answered 500
(`UserRegistration.AcceptedOutcome`, `PatientRegistration.ConflictIffEmailTaken`,
`ProfessionalRegistration.OutcomeWithoutFault`).

A route handler is a pure function from the store and the request to a
response and the new store. Where the source runs statements step by step
(`pool.execute`, and `getConnection` / `beginTransaction` / `commit` /
`rollback` / `release`), a `method` on the `Pool` and `Connection` classes
performs them. That method is proved equal to the function, and the
properties are proved about the function.

Parts that the code calls but does not define are parameters:

- bcrypt's hash and compare (`Externals.Hasher`);
- zod's email check, `Date.parse`, `Number`, `parseFloat` and
  `toISOString` (`Externals.Validators`);
- `jwt.sign` and `jwt.verify` (`Externals.Signer`, `Externals.Verifier`).

A database error that the environment raises is a `Common.Fault`. It names
the statement that throws and what it throws, so every 500 path can be
reached.

The client components are classes whose fields are the React state. A
handler method changes exactly those fields. What a submission does is a
pure function (`Client.RegisterSubmit`, `LoginPage.AfterLogin`). The form
properties and the client/server agreements are proved about that function.
`fetch` is reduced to its outcome (`Client.FetchOutcome`). Browser storage
is a map, and the router's `push` becomes a `route`/`redirect` field.

## Model

| member | source | states |
|---|---|---|
| Common.JsLength | src/app/api/auth/login/route.ts:7-14 | JavaScript's `.length`, the count zod's `.min`/`.max` compare: at least the number of characters and at most twice it |
| Common.JsLengthOfBmp | src/app/api/auth/login/route.ts:7-14 | on text without surrogate pairs the JavaScript length is the number of characters |
| Common.JsLengthAppend | src/app/api/auth/login/route.ts:7-14 | the JavaScript length of a concatenation is the sum of the lengths |
| Schema.MinLength | src/app/api/auth/register/patient/route.ts:18-21 | a required string field passes exactly when present and at least n UTF-16 units long; every issue names that field |
| Schema.SurrogatePairsCountTwice | src/app/api/auth/register/patient/route.ts:21 | four emoji pass a password's `.min(8)`; seven ASCII letters are too short |
| Schema.OptionalMinLength | src/app/api/auth/register/professionalhealthcare/route.ts:29-33 | an optional string passes when absent or at least n UTF-16 units long |
| Schema.EmailCheck | src/app/api/auth/register/patient/route.ts:20 | passes exactly when the email validator accepts the present value |
| Schema.DateCheck | src/app/api/auth/register/patient/route.ts:23-25 | passes exactly when `Date.parse` gives a number for the present value |
| Schema.NationalPart | src/app/api/auth/register/patient/route.ts:22 | the part after an optional '+' is a suffix of the input |
| Schema.PhoneCheck | src/app/api/auth/register/patient/route.ts:22 | passes exactly when the value matches `^\+?[1-9]\d{1,14}$` |
| Schema.GenderCheck | src/app/api/auth/register/patient/route.ts:24 | passes exactly for 'male', 'female' and 'other' |
| Schema.TransformGender | src/app/api/auth/register/patient/route.ts:7-14 | 'masculino' becomes 'male', 'femenino' 'female' and 'otro' 'other'; every other input passes through unchanged; the result is in the enum exactly when the input is an enum member or one of the three Spanish names |
| Schema.TransformGenderIdempotent | src/app/api/auth/register/patient/route.ts:7-14 | rewriting twice equals rewriting once |
| Schema.GenderIdentity | src/app/api/auth/register/patient/route.ts:49 | the custom text is stored only with gender 'other' |
| Database.FirstEmailIndex | src/app/api/auth/login/route.ts:44-49 | the first position holding that email, or the table length |
| Database.FirstUserByEmail | src/app/api/auth/login/route.ts:44-49 | absent exactly when no row has the email; otherwise the first row with it |
| Database.FirstUserById | src/app/api/user/route.ts:87-101 | absent exactly when no row has the id; otherwise a row with that id |
| Database.FindSpecialty | src/app/api/auth/register/professionalhealthcare/route.ts:94-98 | absent exactly when no specialty has the name; otherwise the id of a row with that name |
| Database.InsertUserRow | src/app/api/auth/register/patient/route.ts:55-78 | fails with a duplicate on the Email index exactly when the email is in use; otherwise appends the row under the next UserID and changes no other table |
| Database.InsertSpecialtyRow | src/app/api/auth/register/professionalhealthcare/route.ts:102-106 | appends the name under the next SpecialtyID and changes no other table |
| Database.InsertProfessionalRow | src/app/api/auth/register/professionalhealthcare/route.ts:112-130 | fails with a duplicate on the LicenseNumber index exactly when a present licence is in use; otherwise appends under the next ProfessionalID |
| Database.InsertUserKeepsValid | src/app/api/auth/register/patient/route.ts:55-78 | a successful user insert keeps the table constraints, and the new id exists |
| Database.InsertSpecialtyKeepsValid | src/app/api/auth/register/professionalhealthcare/route.ts:101-107 | inserting a specialty whose name is absent keeps the table constraints |
| Database.InsertProfessionalKeepsValid | src/app/api/auth/register/professionalhealthcare/route.ts:112-130 | a successful insert whose user and specialty exist keeps the constraints, including the foreign keys |
| Database.Pool.InsertUser | src/app/api/auth/register/patient/route.ts:55-78 | `pool.execute` of the insert: the answer and the new store are those of the statement under the fault |
| Database.Connection.constructor | src/app/api/auth/register/professionalhealthcare/route.ts:47 | a fresh connection on the pool, with no transaction open |
| Database.Connection.BeginTransaction | src/app/api/auth/register/professionalhealthcare/route.ts:50 | opens a transaction and remembers the store |
| Database.Connection.InsertUser | src/app/api/auth/register/professionalhealthcare/route.ts:66-89 | runs the Users insert inside the transaction |
| Database.Connection.SelectSpecialty | src/app/api/auth/register/professionalhealthcare/route.ts:94-98 | the specialty lookup; the store is unchanged |
| Database.Connection.InsertSpecialty | src/app/api/auth/register/professionalhealthcare/route.ts:101-107 | runs the Specialties insert |
| Database.Connection.InsertProfessional | src/app/api/auth/register/professionalhealthcare/route.ts:112-130 | runs the HealthcareProfessionals insert |
| Database.Connection.Commit | src/app/api/auth/register/professionalhealthcare/route.ts:132 | keeps the changes and closes the transaction, or throws and leaves it open |
| Database.Connection.Rollback | src/app/api/auth/register/professionalhealthcare/route.ts:142-143 | restores the store remembered at BEGIN |
| Database.Connection.Release | src/app/api/auth/register/professionalhealthcare/route.ts:189-191 | returns the connection to the pool |
| ProfessionalRegistration.FeeCheck | src/app/api/auth/register/professionalhealthcare/route.ts:30-32 | a fee passes when absent or a non-negative number |
| ProfessionalRegistration.ExperienceCheck | src/app/api/auth/register/professionalhealthcare/route.ts:33 | experience passes when absent or non-negative |
| ProfessionalRegistration.ProfessionalIssues | src/app/api/auth/register/professionalhealthcare/route.ts:17-35 | no issue exactly when the body satisfies every field of the schema, lengths counted in UTF-16 units |
| ProfessionalRegistration.ProfessionalUser | src/app/api/auth/register/professionalhealthcare/route.ts:66-89 | the Users row: professional role, 'Active', the hash and never the password, GenderIdentity only with 'other' |
| ProfessionalRegistration.StoredFee | src/app/api/auth/register/professionalhealthcare/route.ts:128 | a fee is stored exactly when the field is truthy |
| ProfessionalRegistration.ProfessionalEntry | src/app/api/auth/register/professionalhealthcare/route.ts:112-130 | the professional row points at the new user and the resolved specialty, with status 'Available' |
| ProfessionalRegistration.Classify | src/app/api/auth/register/professionalhealthcare/route.ts:145-187 | 400 exactly for a ZodError, 409 exactly for a duplicate entry (the email message exactly for the Email index, the licence message exactly for the LicenseNumber index), 500 with the error's message for anything else |
| ProfessionalRegistration.ResolveSpecialtyOn | src/app/api/auth/register/professionalhealthcare/route.ts:93-109 | the lookup, then the insert when the name is new, give what `ResolveSpecialty` gives: the existing id, or the new row's id |
| ProfessionalRegistration.TryRegister | src/app/api/auth/register/professionalhealthcare/route.ts:51-140 | the try block, statement by statement, gives what the transaction function gives; on success the transaction is closed |
| ProfessionalRegistration.Post | src/app/api/auth/register/professionalhealthcare/route.ts:46-192 | the handler's response and store equal those of `RegisterProfessional`; the connection is released |
| ProfessionalRegistration.BadRequestIffSchemaRejects | src/app/api/auth/register/professionalhealthcare/route.ts:147-155 | 400 exactly when the rewritten body fails the schema, and then the store is untouched and the issues are returned |
| ProfessionalRegistration.AllOrNothing | src/app/api/auth/register/professionalhealthcare/route.ts:142-143 | unless the answer is 201, the store is the one the handler found |
| ProfessionalRegistration.RegisteredRows | src/app/api/auth/register/professionalhealthcare/route.ts:66-140 | a 201 adds exactly one user row and one professional row pointing at it; an existing specialty is reused, and otherwise exactly one is added |
| ProfessionalRegistration.OutcomeWithoutFault | src/app/api/auth/register/professionalhealthcare/route.ts:52-179 | without a fault: schema first, then gender 'other' without custom text (500, an `undefined` bind), then the email index (409), then the licence index (409), else 201 with the next id |
| ProfessionalRegistration.KeepsValid | src/app/api/auth/register/professionalhealthcare/route.ts:46-192 | the handler preserves the table constraints |
| ProfessionalRegistration.TransactionKeepsValid | src/app/api/auth/register/professionalhealthcare/route.ts:50-132 | a committed transaction leaves a store that keeps the table constraints |
| ProfessionalRegistration.ResolveSpecialtyKeepsValid | src/app/api/auth/register/professionalhealthcare/route.ts:94-109 | resolving the specialty keeps the constraints and yields an existing specialty id |
| ProfessionalRegistration.SpecialtyFoundAfterwards | src/app/api/auth/register/professionalhealthcare/route.ts:94-130 | after a 201, looking the specialty name up finds the specialty of the new professional |
| ProfessionalRegistration.SpecialtyShared | src/app/api/auth/register/professionalhealthcare/route.ts:94-109 | two registrations naming the same specialty share one Specialties row |
| PatientRegistration.PatientIssues | src/app/api/auth/register/patient/route.ts:17-28 | no issue exactly when the body satisfies every field of the schema, lengths counted in UTF-16 units |
| PatientRegistration.PatientUser | src/app/api/auth/register/patient/route.ts:55-78 | the Users row: role 'Patient', 'Active', the hash and never the password, GenderIdentity only with 'other' |
| PatientRegistration.Classify | src/app/api/auth/register/patient/route.ts:90-128 | 400 exactly for a ZodError, 409 exactly for any duplicate entry, 500 with the error's message or 'Error desconocido' |
| PatientRegistration.Post | src/app/api/auth/register/patient/route.ts:39-129 | the handler's response and store equal those of `RegisterPatient` |
| PatientRegistration.BadRequestIffSchemaRejects | src/app/api/auth/register/patient/route.ts:92-100 | 400 exactly when the rewritten body fails the schema; no answer other than 201 changes the store |
| PatientRegistration.RegisteredRow | src/app/api/auth/register/patient/route.ts:55-88 | a 201 appends exactly one patient row under the answered id; the other tables are untouched |
| PatientRegistration.ConflictIffEmailTaken | src/app/api/auth/register/patient/route.ts:49-108 | a valid body with gender 'other' and no custom text gets 500 and inserts nothing (an `undefined` bind); any other valid body, without a fault, gets 409 exactly when its email is in use, and 201 otherwise |
| PatientRegistration.SecondRegistrationConflicts | src/app/api/auth/register/patient/route.ts:103-108 | registering the same body again without a fault gets 409 |
| PatientRegistration.KeepsValid | src/app/api/auth/register/patient/route.ts:39-129 | the handler preserves the table constraints |
| UserRegistration.OptionalPhoneCheck | src/app/api/auth/register/route.ts:18 | an absent phone passes; a present one must match the pattern |
| UserRegistration.OptionalDateCheck | src/app/api/auth/register/route.ts:19-21 | a falsy date passes; otherwise `Date.parse` must succeed |
| UserRegistration.RoleCheck | src/app/api/auth/register/route.ts:22-24 | passes exactly for 'Patient' and 'Healthcare Professional' |
| UserRegistration.UserIssues | src/app/api/auth/register/route.ts:12-25 | no issue exactly when the body satisfies the schema, lengths counted in UTF-16 units |
| UserRegistration.NewUser | src/app/api/auth/register/route.ts:43-49 | the inserted row has the validated role, the email, the hash, the phone and the date |
| UserRegistration.Classify | src/app/api/auth/register/route.ts:57-67 | 400 exactly for a ZodError, 409 exactly for a duplicate entry, 500 otherwise |
| UserRegistration.Post | src/app/api/auth/register/route.ts:27-69 | the handler's response and store equal those of `RegisterUser` |
| UserRegistration.BadRequestIffSchemaRejects | src/app/api/auth/register/route.ts:57-60 | 400 exactly when the schema refuses the body; no answer other than 201 changes the store |
| UserRegistration.CreatedRow | src/app/api/auth/register/route.ts:43-53 | a 201 needs a phone and a date of birth, and appends one row with the validated role and the hash of the password |
| UserRegistration.AcceptedOutcome | src/app/api/auth/register/route.ts:46-67 | an accepted body without a phone or a date of birth gets 500 with mysql2's message and inserts nothing; with both and no fault, 409 exactly when the email is in use, 201 otherwise |
| UserRegistration.OnlyHashReachesStore | src/app/api/auth/register/route.ts:43-49 | two passwords with the same hash give the same outcome and store |
| UserRegistration.ProfessionalFieldsIgnored | src/app/api/auth/register/route.ts:28-40 | the professional fields of the body change neither the answer nor any table |
| UserRegistration.KeepsValid | src/app/api/auth/register/route.ts:27-69 | the handler preserves the table constraints |
| Login.LoginIssues | src/app/api/auth/login/route.ts:7-14 | no issue exactly when the email is valid and at most 100 UTF-16 units long and the password is 8 to 72 UTF-16 units long |
| Login.Claims | src/app/api/auth/login/route.ts:72-78 | the token claims are the stored row's id, email and role |
| Login.Profile | src/app/api/auth/login/route.ts:80-86 | the returned user holds the row's id, email, names and role, and no hash |
| Login.FailureResponse | src/app/api/auth/login/route.ts:104-114 | any other throw is a 500 |
| Login.BadRequestBeforeLookup | src/app/api/auth/login/route.ts:97-102 | input out of bounds is a 400 carrying the first issue, whatever the store, secret or fault |
| Login.EmailIssueReportedFirst | src/app/api/auth/login/route.ts:7-14 | when the email is at fault the reported issue is about the email |
| Login.SameAnswerForUnknownEmailAndWrongPassword | src/app/api/auth/login/route.ts:51-65 | an unknown email and a wrong password get the same 401 |
| Login.LoggedInFromStoredRow | src/app/api/auth/login/route.ts:44-92 | a 200 carries the first row with that email, its password compares, and the token is signed over that row's claims for one hour |
| Login.SecretCheckedAfterCredentials | src/app/api/auth/login/route.ts:67-92 | with matching credentials a missing secret is 500 and a present one is 200 |
| Bearer.Split | src/app/api/user/route.ts:58 | JavaScript `split(' ')`: at least one piece, no piece holds a space, one piece exactly when there is no space |
| Bearer.JoinSplit | src/app/api/user/route.ts:58 | joining the pieces with spaces gives the header back |
| Bearer.SplitAtFirstSpace | src/app/api/user/route.ts:58 | a space-free prefix followed by a space is the first piece |
| Bearer.TokenOf | src/app/api/utils/middleware.ts:12 | the second piece is absent exactly when the header has no space |
| Bearer.TokenOfCredentials | src/app/api/utils/middleware.ts:12 | `<scheme> <token>` yields the token, whatever the scheme word |
| Bearer.DoubleSpaceGivesEmptyToken | src/app/api/utils/middleware.ts:12-16 | two spaces after the scheme give an empty, falsy token |
| Bearer.MiddlewareDecision | src/app/api/utils/middleware.ts:11-30 | passes exactly when the token is truthy and verifies, with the verified payload; otherwise the matching 401 message |
| Bearer.Middleware | src/app/api/utils/middleware.ts:11-30 | makes that decision, and sets `req.user` exactly when it passes |
| Bearer.EveryRejectionIs401 | src/app/api/utils/middleware.ts:14-16 | every rejection is a 401 |
| Bearer.BearerCredentialsDecidedByVerifier | src/app/api/utils/middleware.ts:20-29 | for `Bearer <token>` the verifier alone decides |
| UserProfile.ProfessionalById | src/app/api/user/route.ts:104-113 | the join on ProfessionalID finds a row with that id, or there is none |
| UserProfile.SpecialtyName | src/app/api/user/route.ts:104-113 | the join on SpecialtyID finds that specialty's name, or there is none |
| UserProfile.AppointmentsOf | src/app/api/user/route.ts:104-113 | the query returns at most one row per appointment |
| UserProfile.AppointmentsOfSelectsUser | src/app/api/user/route.ts:104-113 | exactly the user's appointments, each with its date, status and joined specialty name |
| UserProfile.AppointmentsOfAppend | src/app/api/user/route.ts:104-113 | the query distributes over a concatenation of tables, so table order is kept |
| UserProfile.TokenUserId | src/app/api/user/route.ts:67-84 | an id is read exactly when `decodedToken.user.userID` is truthy |
| UserProfile.FailureResponse | src/app/api/user/route.ts:128-138 | a throw is a 500 carrying the error's message or 'Error desconocido' |
| UserProfile.ProfileOf | src/app/api/user/route.ts:87-127 | after the token, only 200, 404 or 500 |
| UserProfile.Ladder | src/app/api/user/route.ts:48-139 | 401 without a header; 403 for every token problem; then the user lookup decides |
| UserProfile.NoSecondFieldIs403 | src/app/api/user/route.ts:58-64 | a header without a space is refused with 403 |
| UserProfile.UserIdAloneDecides | src/app/api/user/route.ts:67-127 | two accepted tokens carrying the same user id get the same answer |
| UserProfile.FoundIffUserExists | src/app/api/user/route.ts:87-127 | without a fault: only 200 or 404; 404 exactly when no row has the id; a 200 carries every column of a row with that id and exactly that user's appointments |
| UserProfile.ProfileOfTheRow | src/app/api/user/route.ts:87-127 | on a store whose primary key is unique, the 200 carries the one row with that id, whatever order the rows come back in |
| UserProfile.RemoveTokenUnlessOk | src/app/api/user/route.ts:48-139 | `removeToken` is set on exactly the answers that are not 200 |
| RecoverPassword.Outcomes | src/app/api/auth/recover-password/route.ts:5-31 | 400 exactly for a missing or empty email; then 500 on a failing query, otherwise 200 or 404 by whether the email is in use |
| RecoverPassword.RegisteredEmailVerified | src/app/api/auth/recover-password/route.ts:21-26 | right after a row is inserted, its email is verified |
| RoundTrip.AppendedRowIsFirstByEmail | src/app/api/auth/login/route.ts:44-49 | after an insert with an unused email, the lookup by that email finds the new row |
| RoundTrip.RegisteredPatientLogsIn | src/app/api/auth/login/route.ts:38-92 | a registered patient whose password is at most 72 and email at most 100 UTF-16 units logs in as that user, with the patient role and a token over those claims |
| RoundTrip.LongPasswordNeverLogsIn | src/app/api/auth/login/route.ts:7-14 | a patient registered with a password over 72 UTF-16 units always gets 400 at login |
| RoundTrip.LongEmailNeverLogsIn | src/app/api/auth/login/route.ts:7-14 | a patient registered with an email over 100 UTF-16 units always gets 400 at login |
| Client.RegisterSubmit | src/components/Register.tsx:53-110 | nothing is sent exactly when there are errors, and they are then recorded; the redirect to the login page happens exactly after a successful request, and only then is the message a success |
| ProfessionalForm.FormData.With | src/components/ProfessionalHealthcareRegister.tsx:46-49 | only the field named by the input's id changes |
| ProfessionalForm.ValidateFlags | src/components/ProfessionalHealthcareRegister.tsx:51-65 | a required input is flagged exactly when empty; `customGender` exactly when 'Otro' is selected and it is empty |
| ProfessionalForm.ValidateReportsEmptyFields | src/components/ProfessionalHealthcareRegister.tsx:51-65 | the errors are exactly the empty required inputs, plus `customGender` in that case |
| ProfessionalForm.CustomGenderRequiredIffOther | src/components/ProfessionalHealthcareRegister.tsx:61-63 | an empty custom gender is an error exactly when 'Otro' is selected |
| ProfessionalForm.ToLower | src/components/ProfessionalHealthcareRegister.tsx:81 | lower-cases each character and keeps the length |
| ProfessionalForm.BuildPayload | src/components/ProfessionalHealthcareRegister.tsx:78-83 | the professional role, the form data, and a `genderIdentity` exactly for 'Otro' |
| ProfessionalForm.OptionsReachServerEnum | src/components/ProfessionalHealthcareRegister.tsx:178-181 | each option of the select becomes the matching member of the server's enum |
| ProfessionalForm.ServerStoresFormGender | src/app/api/auth/register/professionalhealthcare/route.ts:52-89 | an accepted form is stored with the English gender, the payload's identity and the professional role |
| ProfessionalForm.ProfessionalRegisterForm.constructor | src/components/ProfessionalHealthcareRegister.tsx:30-43 | an empty form with no errors and no message |
| ProfessionalForm.ProfessionalRegisterForm.HandleChange | src/components/ProfessionalHealthcareRegister.tsx:46-49 | updates one field of the form and nothing else |
| ProfessionalForm.ProfessionalRegisterForm.HandleSubmit | src/components/ProfessionalHealthcareRegister.tsx:67-114 | the state after submitting is the effect `RegisterSubmit` gives for this form |
| ProfessionalForm.SubmitGate | src/components/ProfessionalHealthcareRegister.tsx:70-83 | nothing is sent exactly when a required input, or the custom gender under 'Otro', is empty; what is sent carries the professional role |
| RegisterForm.FormData.With | src/components/Register.tsx:27-30 | only the field named by the input's id changes |
| RegisterForm.BaseFlags | src/components/Register.tsx:35-40 | the six base checks flag exactly the empty base inputs |
| RegisterForm.ValidateFlags | src/components/Register.tsx:32-51 | a base input is flagged exactly when empty; a professional input exactly when empty in professional mode; `role` never |
| RegisterForm.BuildPayload | src/components/Register.tsx:65-76 | the role is that of the mode, and the professional values are present exactly in professional mode |
| RegisterForm.StoredRoleIgnored | src/components/Register.tsx:65-76 | `formData.role` never reaches the payload |
| RegisterForm.ServerStoresModeRole | src/app/api/auth/register/route.ts:22-53 | the server accepts the form's role, and a created user has the role of the mode |
| RegisterForm.RegisterComponent.constructor | src/components/Register.tsx:9-21 | the initial form, with role 'Patient' and no errors or message |
| RegisterForm.RegisterComponent.HandleChange | src/components/Register.tsx:27-30 | updates one field of the form and nothing else |
| RegisterForm.RegisterComponent.HandleSubmit | src/components/Register.tsx:53-110 | the state after submitting is the effect `RegisterSubmit` gives for this form and mode |
| RegisterForm.SubmitGate | src/components/Register.tsx:57-92 | nothing is sent exactly when an input required in this mode is empty; what is sent has the mode's role and extras; the login page opens in the same mode |
| LoginPage.MountRedirectByStoredRole | src/components/Login.tsx:18-37 | with a token, the stored role alone picks the dashboard whatever the toggle says; without one, or with another role, there is no redirect |
| LoginPage.SubmitGate | src/components/Login.tsx:61-95 | navigation happens exactly for an ok answer whose role matches the mode, with the token and user stored; a mismatch removes both keys and keeps the others; a failure leaves storage alone |
| LoginPage.NextMountAgrees | src/components/Login.tsx:18-80 | after a login that navigated, the next mount redirects to the same dashboard |
| LoginPage.LoginComponent.constructor | src/components/Login.tsx:9-15 | empty inputs, no message, no route |
| LoginPage.LoginComponent.HandleChange | src/components/Login.tsx:39-42 | updates the named input and nothing else |
| LoginPage.LoginComponent.OnMount | src/components/Login.tsx:18-37 | the route becomes the mount redirect, when there is one |
| LoginPage.LoginComponent.StartSubmit | src/components/Login.tsx:46-57 | clears the message and sends the two inputs |
| LoginPage.LoginComponent.FinishSubmit | src/components/Login.tsx:59-95 | storage, message and route become those of `AfterLogin` |
| SplashScreen.StepsFor | src/components/SplashScreen.tsx:9-53 | both lists have four steps |
| SplashScreen.Next | src/components/SplashScreen.tsx:87-93 | the next index is in range and wraps from the last step to the first |
| SplashScreen.Prev | src/components/SplashScreen.tsx:95-101 | the previous index is in range and wraps from the first step to the last |
| SplashScreen.PrevNextInverse | src/components/SplashScreen.tsx:87-101 | back after forth, and forth after back, return to the same step |
| SplashScreen.Advance | src/components/SplashScreen.tsx:74-79 | k autoplay ticks give a valid index |
| SplashScreen.AdvanceWithinRound | src/components/SplashScreen.tsx:74-79 | within one round, k ticks move k steps forward, wrapping once |
| SplashScreen.FullRoundReturns | src/components/SplashScreen.tsx:74-79 | four ticks return to the starting step |
| SplashScreen.SwapKeepsIndex | src/components/SplashScreen.tsx:65-67 | switching lists keeps the index valid |
| SplashScreen.Carousel.constructor | src/components/SplashScreen.tsx:59-62 | the first step, visible, with no transition |
| SplashScreen.Carousel.FadeOut | src/components/SplashScreen.tsx:87-88 | hides the slide and changes nothing else |
| SplashScreen.Carousel.GoToNextStep | src/components/SplashScreen.tsx:89-92 | moves to the next step, shows it, and keeps the carousel valid |
| SplashScreen.Carousel.GoToPrevStep | src/components/SplashScreen.tsx:96-100 | moves to the previous step, shows it, and keeps the carousel valid |
| SplashScreen.Carousel.HandleProfessionalToggle | src/components/SplashScreen.tsx:103-114 | does nothing during a transition; otherwise starts one and schedules the toggle, keeping the step |
| SplashScreen.Carousel.ToggleTimerFires | src/components/SplashScreen.tsx:106-110 | flips the mode and swaps the list without resetting the index |
| SplashScreen.Carousel.TransitionTimerFires | src/components/SplashScreen.tsx:111-113 | ends the transition |

## Left out

- Password hashing and comparison are `Externals.Hasher`, not bcrypt. A hash failure inside bcrypt is not modelled.
- Token signing and verification are `Externals.Signer` and `Externals.Verifier`, not jsonwebtoken. Expiry, the signature algorithm, and `jwt.verify` throwing without a secret are folded into the verifier's answer.
- Email syntax, `Date.parse`, `Number(...)`, `parseFloat` and `toISOString` are the oracles of `Externals.Validators`. Floating-point values are not modelled.
- SQL text, the mysql2 driver and the connection pool's internals are not modelled. A statement is its effect on the tables.
- Row order: SQL promises no order without ORDER BY. The model returns rows in insertion order. Where a key is unique under `Database.Valid` (user id, email, specialty name) the first match is the only one, so the order does not change any answer; the order of the appointment list does depend on it.
- Database.InsertUserRow: a failed insert leaves the AUTO_INCREMENT counter unchanged. InnoDB may use up an id on a failed insert, so later ids can have gaps that the model does not have.
- Database.InsertProfessionalRow: a failed insert leaves the AUTO_INCREMENT counter unchanged, for the same reason.
- An empty-string date of birth passes the generic route's schema and is bound as ''. How MySQL's SQL mode treats that DATE value is not modelled.
- Database.Connection.Rollback: restores the AUTO_INCREMENT counters too. InnoDB does not give back ids used by a rolled-back insert.
- Concurrency is not modelled. Two transactions racing to create the same specialty are outside the model, and every handler runs alone.
- Email lookups compare strings exactly. MySQL's default collation is case-insensitive.
- A duplicate-key error is a tag naming the index (`UniqueKey`). The text of the driver's message is not parsed.
- The generic registration route and the recover-password route read the body outside their `try`. Their model takes an already-parsed body, so a malformed body is not modelled there.
- zod's "Expected string" issues for values of the wrong JSON type are not modelled. A field is either absent or a string; `experience` is an integer.
- UserProfile.ProfessionalById: a LEFT JOIN with several matching rows would return one row per match. The model takes the first match, which equals the query when the primary keys are unique (`Database.Valid`).
- Bearer.MiddlewareDecision: whether the payload is flat or nested under `user` is left to the verifier. The routes that would read `req.user` are not part of this model.
- The shared store (`useStore`) is a parameter (`isProfessional`) of the handlers that read it.
- The login page's stored user is a record (`LoginPage.Item`). A stored string that is not JSON, which would make `JSON.parse` throw, is not modelled.
- ProfessionalForm.ToLower: lower-cases ASCII letters only. The select's options are ASCII, so the server sees the same values.
- Timers and animations are not modelled as time. In the splash screen each timer callback is a method, called when it fires. In the forms the post-success redirect is recorded at once.
- The splash screen's intermediate render, between the mode flip and the effect that swaps the list, is merged into `SplashScreen.Carousel.ToggleTimerFires`.
- Rendering (JSX, classes, icons, the password visibility toggle) is not modelled.
- src/app/page.tsx, the dashboards, the recover-password page and the Header component are not part of this model.
