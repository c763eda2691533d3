# Session and onboarding logic of a land-registry / KYC web client

This Dafny project models the client-side logic of a single-page web
application for land-registry onboarding: email and one-time-code sign-in,
profile onboarding, KYC progress and document upload.

It covers these parts:

- **Session store** (`AuthContext`). It holds the current user, a loading
  flag and a derived "needs onboarding" flag. It also holds two browser
  storage entries, `auth_token` and `device_id`. Each operation is written
  twice. The first form is a pure transition on a `State` value; the lemmas
  are about these. The second form is a method of the class `Session` that
  updates the fields step by step, as the source does. Each method is proved
  to produce exactly its transition. The session's invariant is
  `Consistent`: with no user the flag is false, and with a user the flag is
  the onboarding check's verdict.
- **Route guards** (`Routes`). These are the two decision functions of the
  application shell.
- **KYC progress bar** (`KycProgress`).
- **Document uploader** (`DocumentUploader`). Its class `Uploader` keeps the
  document list and the drag flag.
- **Sign-in dialog and code dialog** (`LoginModal`, `OtpModal`). The sign-in
  dialog owns the code dialog and drives the session store.

Calls the model cannot see are parameters:

- Each HTTP round trip is a `Response`: `Ok(body)`, `NotOk` or `Raised`.
- The random part of a device id is a string parameter.
- The clock readings of an upload are a `Stamp` per file.
- The random verdicts of a document review are a sequence of booleans, one draw per record of the list, because `Math.random()` is evaluated separately for each record the review matches.

The session keeps an `outbox` of the requests it has sent. This makes it
possible to state what was sent, with which headers and fields, and when
nothing was sent.

Two behaviours of the code worth knowing:

- `verifyOTP` resolves successfully whenever the server returns a token. It
  then runs `fetchUser`, which never throws, so the operation resolves even
  when that fetch fails and clears the session.
- Every JavaScript truthiness test is modelled exactly. For example, a stored
  `device_id` equal to `""` is replaced with a new id, and a stored empty
  token does not start a fetch at mount.

## Model

| member | source | states |
|---|---|---|
| `JsText.Trim` | src/contexts/AuthContext.tsx:68 | `trim()` leaves neither a leading nor a trailing whitespace character |
| `JsText.TrimKeepsInnerSlice` | src/contexts/AuthContext.tsx:68 | `trim()` gives `s` with a whitespace-only prefix and a whitespace-only suffix removed |
| `JsText.TrimStart` | src/contexts/AuthContext.tsx:68 | the result is the suffix left after a whitespace-only prefix, and it starts with a non-whitespace character |
| `JsText.TrimEnd` | src/contexts/AuthContext.tsx:68 | the result is the prefix left before a whitespace-only suffix, and it ends with a non-whitespace character |
| `JsText.TrimEmptyIff` | src/contexts/AuthContext.tsx:66-74 | `s.trim() === ""` holds exactly when `s` is whitespace only |
| `AuthContext.FieldMissingIffIncomplete` | src/contexts/AuthContext.tsx:67-68 | "`f` is falsy, or `f.trim()` is empty" holds exactly when the field is absent or whitespace only |
| `AuthContext.FieldMissing` | src/contexts/AuthContext.tsx:67-68 | an absent field and the empty string both count as missing, as JavaScript treats `undefined` and `""` as falsy |
| `AuthContext.OnboardingIffProfileFieldBlank` | src/contexts/AuthContext.tsx:62-84 | `checkOnboardingStatus` is true exactly when one of fullName, phone, gender or dateOfBirth is absent or blank |
| `AuthContext.CheckOnboardingStatus` | src/contexts/AuthContext.tsx:62-84 | a user who passes the check has all four profile fields set to non-empty strings |
| `AuthContext.FirstTruthy` | src/contexts/AuthContext.tsx:193-194 | gives the first truthy element of a list, with every earlier element falsy; gives nothing exactly when no element is truthy |
| `AuthContext.TokenChain` | src/contexts/AuthContext.tsx:192-194 | the chain "jwt, else idToken, else accessToken" is truthy exactly when some field is; it is then the first truthy field in that order |
| `AuthContext.DeviceIdAfter` | src/contexts/AuthContext.tsx:53-60 | a truthy stored `device_id` is returned and storage is unchanged; otherwise a new id starting with `device_` is stored and returned; no other key changes |
| `AuthContext.DeviceIdIdempotent` | src/contexts/AuthContext.tsx:53-60 | a second request for the device id returns the same id and leaves storage as the first left it, whatever the random part |
| `AuthContext.Initial` | src/contexts/AuthContext.tsx:42-44 | the provider starts loading, with no user, the onboarding flag consistent, the persisted storage, and nothing sent |
| `AuthContext.Settle` | src/contexts/AuthContext.tsx:145-147 | a request resolves exactly on success; a non-success status throws the operation's own error; an exception is passed through |
| `AuthContext.FetchUserStep` | src/contexts/AuthContext.tsx:96-128 | sends `GET /users/me` with the stored token; success installs the user; a non-success status or an exception removes `auth_token` and clears the user; loading ends and the invariant holds on every path |
| `AuthContext.InitializeStep` | src/contexts/AuthContext.tsx:86-94 | the mount effect ends loading; with a truthy stored token it is exactly the `fetchUser` transition; without one it changes nothing else; it keeps the invariant |
| `AuthContext.DeviceIdStep` | src/contexts/AuthContext.tsx:53-60 | asking for the device id changes only storage, and storage becomes what `DeviceIdAfter` gives: a truthy stored `device_id` leaves storage unchanged, a truthy `device_id` is always left, and no other key changes |
| `AuthContext.LoginStep` | src/contexts/AuthContext.tsx:130-149 | `login` leaves user, loading and onboarding unchanged; its only storage effect is the device id; it sends the email with that device id; it throws `LoginFailed` on a non-success status and passes an exception through |
| `AuthContext.SignupStep` | src/contexts/AuthContext.tsx:151-167 | as for `login`, against the sign-up endpoint, throwing `SignupFailed` on a non-success status and passing an exception through |
| `AuthContext.VerifyOtpStep` | src/contexts/AuthContext.tsx:169-201 | sends email, code and device id; resolves exactly when the answer is a success with a truthy token; a non-success status throws before the body is read; an exception is passed through; on any throw the session is untouched, `auth_token` is not written and no user fetch is sent; on success the first truthy token is stored and `fetchUser` runs with it as bearer |
| `AuthContext.LogoutStep` | src/contexts/AuthContext.tsx:203-208 | `logout` always ends with no user, the flag false, and both keys removed; other keys, loading and the outbox are unchanged |
| `AuthContext.UpdateProfileStep` | src/contexts/AuthContext.tsx:210-240 | sends the patch with the stored token; success replaces the user with the answer and recomputes the flag; a non-success status throws `ProfileUpdateFailed`, an exception is passed through, and either leaves user and flag unchanged; storage and loading never change |
| `AuthContext.EveryStepKeepsConsistency` | src/contexts/AuthContext.tsx:42-240 | every operation keeps the onboarding flag consistent with the user |
| `AuthContext.LoadingNeverRestarts` | src/contexts/AuthContext.tsx:86-127 | once loading is over, no operation sets it again |
| `AuthContext.Session.constructor` | src/contexts/AuthContext.tsx:42-44 | the new provider is in the `Initial` state over the persisted storage |
| `AuthContext.Session.GetDeviceId` | src/contexts/AuthContext.tsx:53-60 | returns the id `DeviceIdAfter` gives and makes exactly the `DeviceIdStep` change |
| `AuthContext.Session.FetchUser` | src/contexts/AuthContext.tsx:96-128 | makes exactly the `FetchUserStep` transition and keeps the invariant |
| `AuthContext.Session.Initialize` | src/contexts/AuthContext.tsx:86-94 | makes exactly the `InitializeStep` transition |
| `AuthContext.Session.Login` | src/contexts/AuthContext.tsx:130-149 | makes exactly the `LoginStep` transition and settles as it says |
| `AuthContext.Session.Signup` | src/contexts/AuthContext.tsx:151-167 | makes exactly the `SignupStep` transition and settles as it says |
| `AuthContext.Session.VerifyOTP` | src/contexts/AuthContext.tsx:169-201 | makes exactly the `VerifyOtpStep` transition and settles as it says |
| `AuthContext.Session.Logout` | src/contexts/AuthContext.tsx:203-208 | makes exactly the `LogoutStep` transition |
| `AuthContext.Session.UpdateProfile` | src/contexts/AuthContext.tsx:210-240 | makes exactly the `UpdateProfileStep` transition and settles as it says |
| `Routes.ProtectedRoute` | src/App.tsx:25-55 | spinner exactly while loading; redirect to `/` without a user; redirect to `/onboarding` exactly for a user who needs onboarding; the page exactly for a user who does not |
| `Routes.OnboardingRoute` | src/App.tsx:58-88 | spinner exactly while loading; redirect to `/` without a user; redirect to `/dashboard` exactly for a user who does not need onboarding; the page exactly for a user who does |
| `Routes.ExactlyOneGuardRendersChildren` | src/App.tsx:48-87 | with a user and loading over, exactly one of the two guards shows its page |
| `Routes.AnonymousNeverRendersChildren` | src/App.tsx:43-79 | without a user neither guard shows its page |
| `Routes.GuardsFollowProfile` | src/App.tsx:25-88 | over a consistent session the dashboard is shown exactly to users with no blank profile field, and the onboarding form exactly to the others |
| `Routes.EmptyNameGoesToOnboarding` | src/App.tsx:48-51 | a user whose full name is `""` is sent to onboarding, and the onboarding route shows its form |
| `Routes.CompleteProfileGoesToDashboard` | src/App.tsx:81-84 | a user with name, phone, gender and birth date filled in sees the dashboard and is sent away from onboarding |
| `KycProgress.CountCompleted` | src/components/KYCProgressBar.tsx:36 | the count is at most the number of steps; it equals that number exactly when all steps are done, and is 0 exactly when none is |
| `KycProgress.Steps` | src/components/KYCProgressBar.tsx:9-34 | there are four steps, and with no user none of them is completed |
| `KycProgress.CompletedSteps` | src/components/KYCProgressBar.tsx:36 | the number of completed steps is at most four |
| `KycProgress.ProgressPercentage` | src/components/KYCProgressBar.tsx:37 | the percentage is 25 times the completed count, lies in 0..100, and is 100 exactly when all four flags hold |
| `KycProgress.StepsFixed` | src/components/KYCProgressBar.tsx:9-34 | exactly four steps, with ids 1 to 4, in the order email, profile, documents, KYC |
| `KycProgress.KycStepNeedsApproval` | src/components/KYCProgressBar.tsx:31 | the KYC step is complete exactly for an approved status; pending and rejected do not count |
| `KycProgress.NoUserNoProgress` | src/components/KYCProgressBar.tsx:13-37 | without a user every step is open, the count is 0 and the percentage is 0 |
| `KycProgress.CompletedStepsCountsFlags` | src/components/KYCProgressBar.tsx:9-36 | for a user, the count is one per flag that holds |
| `DocumentUploader.NewRecord` | src/components/Dashboard/DocumentUploader.tsx:49-55 | every new record is a pending passport, whatever the file, named after the file and carrying the clock stamp as id and time |
| `DocumentUploader.NewRecords` | src/components/Dashboard/DocumentUploader.tsx:46-57 | one record per file, in file order; each is a pending passport named after its file, carrying that file's clock readings |
| `DocumentUploader.Verdict` | src/components/Dashboard/DocumentUploader.tsx:64 | a review never settles on pending |
| `DocumentUploader.ReviewAll` | src/components/Dashboard/DocumentUploader.tsx:60-67 | the length is kept; each record with the target id takes the status of its own draw and keeps every other field; all other records are unchanged |
| `DocumentUploader.SharedIdReviewedTogether` | src/components/Dashboard/DocumentUploader.tsx:50-63 | two records with the same clock id are both settled by one review, each by its own draw, so neither stays pending |
| `DocumentUploader.SharedIdMaySettleApart` | src/components/Dashboard/DocumentUploader.tsx:60-67 | two records sharing id "1" can end one approved and the other rejected in the same review |
| `DocumentUploader.FindByType` | src/components/Dashboard/DocumentUploader.tsx:141 | gives the first record of the type, with no earlier record of that type; gives nothing exactly when there is no record of that type |
| `DocumentUploader.OnlyPassportRowFilled` | src/components/Dashboard/DocumentUploader.tsx:141-154 | with only passport records, the NIN and utility-bill rows of the required-document list show no record, and the passport row shows the first record |
| `DocumentUploader.UploadsAndReviewsKeepPassports` | src/components/Dashboard/DocumentUploader.tsx:51-64 | uploads and reviews keep every record a passport |
| `DocumentUploader.StatusStylesDistinct` | src/components/Dashboard/DocumentUploader.tsx:77-97 | distinct statuses get distinct colors and distinct icons |
| `DocumentUploader.StatusColor` | src/components/Dashboard/DocumentUploader.tsx:88-97 | a record's status color is never the muted background of a row without a record |
| `DocumentUploader.StatusIcon` | src/components/Dashboard/DocumentUploader.tsx:77-86 | the tick is shown exactly for an approved record and the cross exactly for a rejected one |
| `DocumentUploader.RequirementRowColor` | src/components/Dashboard/DocumentUploader.tsx:146 | a row takes its first record's status color, or a muted background when there is no record |
| `DocumentUploader.Uploader.constructor` | src/components/Dashboard/DocumentUploader.tsx:19-20 | the list starts empty and the drag flag false |
| `DocumentUploader.Uploader.OnDragOver` | src/components/Dashboard/DocumentUploader.tsx:36-39 | sets the drag flag and leaves the list alone |
| `DocumentUploader.Uploader.OnDragLeave` | src/components/Dashboard/DocumentUploader.tsx:41-44 | clears the drag flag and leaves the list alone |
| `DocumentUploader.Uploader.OnDrop` | src/components/Dashboard/DocumentUploader.tsx:28-34 | clears the drag flag and appends the new records of the dropped files |
| `DocumentUploader.Uploader.HandleFileUpload` | src/components/Dashboard/DocumentUploader.tsx:46-75 | the list becomes the old list followed by `NewRecords` of the files, so existing records are unchanged |
| `DocumentUploader.Uploader.CompleteReview` | src/components/Dashboard/DocumentUploader.tsx:60-68 | the list becomes `ReviewAll` of the old list with one draw per record, and the passports-only invariant is kept |
| `OtpModal.OtpDialog.constructor` | src/components/OTPModal.tsx:18-19 | the code starts empty and the dialog idle |
| `OtpModal.OtpDialog.OnOtpChange` | src/components/OTPModal.tsx:97 | the typed value becomes the code |
| `OtpModal.OtpDialog.HandleSubmit` | src/components/OTPModal.tsx:23-46 | a code whose length is not 6 changes nothing and sends nothing; otherwise `verifyOTP` runs with the email prop and the code unchanged; success asks to close; failure clears the code and keeps the dialog open; the dialog ends idle |
| `OtpModal.OtpDialog.HandleClose` | src/components/OTPModal.tsx:48-52 | clears the code and the busy flag, then asks to close |
| `OtpModal.EnabledSubmitPassesGate` | src/components/OTPModal.tsx:118 | an enabled submit button means a six-character code and an idle dialog |
| `OtpModal.OtpDialog.SubmitDisabled` | src/components/OTPModal.tsx:118 | the submit button is disabled while busy and for an empty code |
| `LoginModal.IsValidEmail` | src/components/LoginModal.tsx:24 | an address the pattern accepts has at least five characters, and its first and last characters are neither whitespace nor `@` |
| `LoginModal.ValidEmailIff` | src/components/LoginModal.tsx:24 | the e-mail pattern accepts exactly the strings with no whitespace, exactly one `@`, a non-empty part before it, and a `.` after it that is neither the first nor the last character of that part |
| `LoginModal.ValidEmailIsWellFormed` | src/components/LoginModal.tsx:24 | every string the pattern accepts has that shape |
| `LoginModal.WellFormedIsValidEmail` | src/components/LoginModal.tsx:24 | every string of that shape is accepted by the pattern |
| `LoginModal.LoginDialog.constructor` | src/components/LoginModal.tsx:18-20 | empty address, not busy, code dialog hidden, and its own code dialog freshly made and idle |
| `LoginModal.LoginDialog.OnEmailChange` | src/components/LoginModal.tsx:103 | the typed value becomes the address |
| `LoginModal.LoginDialog.HandleSubmit` | src/components/LoginModal.tsx:26-48 | a rejected address changes nothing and sends nothing; otherwise `login` runs for the address; success shows the code dialog; failure leaves it as it was; the dialog ends not busy |
| `LoginModal.LoginDialog.HandleClose` | src/components/LoginModal.tsx:50-55 | resets the address, the busy flag and the code dialog flag, then asks to close |
| `LoginModal.LoginDialog.HandleToggleSignUp` | src/components/LoginModal.tsx:57-60 | closes as `HandleClose` does, then asks for the sign-up dialog |
| `LoginModal.LoginDialog.HandleOTPClose` | src/components/LoginModal.tsx:62-64 | hides the code dialog and keeps the address |
| `LoginModal.LoginDialog.SubmitOtp` | src/components/LoginModal.tsx:145-150 | the code dialog verifies for this dialog's address; a successful verification hides the code dialog and keeps the code; a failed one leaves it shown and clears the code; the code dialog ends idle; a wrong-length code changes nothing; the sign-in dialog's address and busy flag are kept |
| `LoginModal.LoginDialog.CloseOtp` | src/components/LoginModal.tsx:145-150 | the code dialog's close button clears the code, makes the code dialog idle and hides it, keeping the address and the busy flag |
| `LoginModal.NeverBothShown` | src/components/LoginModal.tsx:69 | the sign-in panel (`isOpen && !showOTP`) and the code dialog (`showOTP`) are never shown together |
| `LoginModal.EnabledSubmitSendsLogin` | src/components/LoginModal.tsx:115 | an enabled submit button means an address the pattern accepts and an idle dialog |
| `LoginModal.LoginDialog.SubmitDisabled` | src/components/LoginModal.tsx:115 | the submit button is disabled while busy and for an empty address |
| `LoginModal.LoginDialog.DialogVisible` | src/components/LoginModal.tsx:69 | a closed dialog never renders the sign-in panel |
| `LoginModal.LoginDialog.OtpModalOpen` | src/components/LoginModal.tsx:146 | the code dialog is open exactly when the sign-in panel is hidden for every value of `isOpen` |

## Left out

- HTTP `fetch`, `response.clone().text()`, `response.json()` and `JSON.parse` are not modelled. Each round trip is a `Response` parameter. A failure to parse a body counts as `Raised`, since that is how the code observes it. An answer is assumed to have the documented shape; non-string token fields are not modelled.
- Browser `localStorage` is a `map<string, string>` field, not the browser API.
- `Math.random`, `Date.now` and `toISOString` are parameters: the device-id suffix, an upload's `Stamp`, and the review's per-record draws.
- `setTimeout`, the two-second review delay, and async interleaving are not modelled. Each operation runs atomically. The mount effect does not await `fetchUser`. Overlapping requests, where the last response wins, are concurrency and are not modelled.
- The KYC percentage is a JavaScript float. The model uses the integer `completed * 100 / 4`, which is exact for 0 to 4 completed steps.
- Console logging, toasts, framer-motion animation, JSX rendering and styling are not modelled. The exceptions are the route guards' decisions, the sign-in panel's and code dialog's visibility conditions (`isOpen && !showOTP` and `showOTP`), both submit buttons' `disabled` conditions, and the document status color and icon choices.
- `useAuth` throwing outside a provider is framework wiring and is not modelled.
- The round trip "`updateProfile({fullName: "X"})` then a fetch returns `fullName == "X"`" depends on the server storing the patch. The server's answer is a parameter here, so this property is not stated.
- OtpModal.OtpDialog.HandleSubmit: the length gate counts Unicode scalar values. JavaScript's `otp.length` counts UTF-16 code units, so the two differ only for characters outside the Basic Multilingual Plane.
- The code dialog's `isSignup` prop is never read, and its "Resend" button has no handler. Neither is modelled.
- `src/components/Dashboard/TestEmailButton.tsx` is not part of this model. It is one network call whose only effect is a toast.
- `src/components/Dashboard/LandSearch.tsx` is not part of this model. It returns a fixed result after a timer.
- `src/components/SignUpModal.tsx` is not part of this model. Its e-mail pattern is the one modelled in `LoginModal.IsValidEmail`, and it never calls the store's `signup`.
- `src/pages/AdminLogin.tsx`, `src/pages/LandingPage.tsx`, `src/pages/Dashboard.tsx`, `src/components/Logo.tsx` and `src/main.tsx` are view state, rendering or bootstrapping. They are not part of this model.
