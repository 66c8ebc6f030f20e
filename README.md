# VineVault client core, modelled in Dafny

VineVault is the web client of a fractional wine-investment product. Most of it
is markup around a hosted identity and storage service. This project models
the parts that carry logic, one Dafny module per source file:

- `LocaleConfig`: the supported locale codes (`it`, `en`, `de`, `zh`, `ja`,
  `ru`, `ar`), the default `it`, and each language's display data and text
  direction.
- `LanguageSwitcher`: the path computation run when a visitor picks a
  language. One leading locale segment is stripped from the pathname. The
  default locale gets the bare path. Any other locale `L` gets `/L` in front,
  and the root becomes `/L` itself. `Segments` models the JavaScript
  `split('/')`, `filter(Boolean)` and `join('/')` it uses.
- `Appwrite`: `handleAppwriteError`, which turns an error's numeric code,
  type tag or message into one user-facing message. It also covers the
  service wrapper's contract: `getCurrentUser` turns failure into null, and
  every other call re-throws `new Error(handleAppwriteError(e))`.
- `Types` and `AuthProvider`: the authentication context, a class with the
  two fields `user` and `isLoading`. Each operation (`checkAuth`, `login` in
  demo and real mode, `register`, `logout`, `updateProfile`, `verifyEmail`,
  `resetPassword`, `updatePassword`, `deleteAccount`) takes the outcomes of
  its remote calls as parameters. It raises the flag, updates or keeps the
  user, lowers the flag on every path, and returns the message it throws, if
  any. The dashboard's redirect guard is a function of this state.
- `ToastProvider`: the toast list. `addToast` appends one toast with a
  defaulted duration; `removeToast` filters by id.
- `AuthForm`: the login and registration schemas as predicates. They follow
  JavaScript's regular-expression and string-length semantics. The module
  also holds the submit handler's choice of route.
- `GdprConsent`: the consent record's one-key update.

Remote calls, clocks, random ids and the demo-mode switch are parameters.
A remote call is a `Result<_, AppwriteError>`, and `getCurrentUser` is an
`Option`.

Three behaviours of the code worth knowing:
- A demo login with the password `wrongpassword` throws
  `new Error('user_invalid_credentials')`. The normaliser passes that raw tag
  through as the message, because the error has no code or type. It does not
  produce the friendly "invalid credentials" text.
- `logout` clears the user only after the remote session delete succeeds. On
  failure it throws and the user is kept.
- `login` with a session but a null account re-read leaves the user unchanged
  and does not throw. The profile re-read failing after an account was found
  throws the runtime's null-dereference error.

## Model

| member | source | states |
|---|---|---|
| `LocaleConfig.IsLocale` | src/components/ui/LanguageSwitcher.tsx:44 | `locales.includes(s)` holds exactly for the codes that have a language configuration entry |
| `LocaleConfig.LanguageOf` | src/i18n/config.ts:8-51 | every supported locale has a configuration entry, and its direction is right-to-left exactly for `ar` |
| `LocaleConfig.DefaultIsSupported` | src/i18n/config.ts:2-3 | the default locale is `it` and it is one of the supported codes |
| `LocaleConfig.LocalesDistinct` | src/i18n/config.ts:2 | there are seven supported codes, pairwise distinct |
| `LocaleConfig.ConfigKeysAreLocales` | src/i18n/config.ts:8-51 | the configuration's keys are exactly the supported codes |
| `LocaleConfig.OnlyArabicIsRtl` | src/i18n/config.ts:12-48 | `ar` is the only right-to-left entry; all others are left-to-right |
| `LocaleConfig.LocalesAreSegments` | src/i18n/config.ts:2 | each code is non-empty and has no `/`, so it can stand as a path segment |
| `Segments.Split` | src/components/ui/LanguageSwitcher.tsx:41 | `split('/')` gives one part more than the string has separators |
| `Segments.Join` | src/components/ui/LanguageSwitcher.tsx:49 | `join('/')` starts with the first part, puts a separator right after it when more parts follow, and is at least as long as every part |
| `Segments.NonEmpty` | src/components/ui/LanguageSwitcher.tsx:41 | `filter(Boolean)` keeps only non-empty parts, each taken from the input, and never lengthens the list |
| `Segments.PathSegments` | src/components/ui/LanguageSwitcher.tsx:41 | `pathname.split('/').filter(Boolean)` yields non-empty, slash-free segments, at most one more than the separators, and a path that is a single segment gives just itself |
| `Segments.FirstSegmentAt` | src/components/ui/LanguageSwitcher.tsx:41 | a word that stands behind nothing but separators and is followed by the end or a separator is the first segment |
| `Segments.FirstSegmentPlaced` | src/components/ui/LanguageSwitcher.tsx:41 | the first segment, when there is one, always stands in that position |
| `Segments.JoinSplit` | src/components/ui/LanguageSwitcher.tsx:41 | joining the parts of `split('/')` with `/` gives the string back |
| `Segments.SegmentsOfRooted` | src/components/ui/LanguageSwitcher.tsx:49 | the non-empty segments of `'/' + parts.join('/')` are the parts again, when each is non-empty and slash-free |
| `LanguageSwitcher.HasLocalePrefix` | src/components/ui/LanguageSwitcher.tsx:41-44 | the pathname has a locale prefix exactly when it is some separators, then a supported code, then the end or a separator |
| `LanguageSwitcher.Prefixed` | src/components/ui/LanguageSwitcher.tsx:64 | the prefixed path is `/` then the locale code, followed by the locale-free path unless that path is the root |
| `LanguageSwitcher.PathWithoutLocale` | src/components/ui/LanguageSwitcher.tsx:41-55 | the locale-free path is never empty; without a locale prefix it is the pathname verbatim |
| `LanguageSwitcher.SwitchTarget` | src/components/ui/LanguageSwitcher.tsx:34-65 | there is no navigation exactly when the chosen locale is the current one |
| `LanguageSwitcher.StripsOneLocaleSegment` | src/components/ui/LanguageSwitcher.tsx:41-55 | with a locale prefix, exactly the first segment goes and the result has no empty segment; otherwise the pathname is kept, or becomes `/` when empty |
| `LanguageSwitcher.StripExample` | src/components/ui/LanguageSwitcher.tsx:44-50 | `/en/de/x` loses only `en` and becomes `/de/x` |
| `LanguageSwitcher.PathWithoutLocaleRooted` | src/components/ui/LanguageSwitcher.tsx:47-55 | a pathname that is empty or begins with `/` gives a locale-free path that begins with `/` |
| `LanguageSwitcher.SegmentsOfPrefixed` | src/components/ui/LanguageSwitcher.tsx:64 | prefixing a rooted path with `/L` makes `L` its first segment, followed by the path's own segments |
| `LanguageSwitcher.DefaultTargetIsBare` | src/components/ui/LanguageSwitcher.tsx:59-61 | choosing `it` navigates to the locale-free path with no prefix added |
| `LanguageSwitcher.PrefixedTarget` | src/components/ui/LanguageSwitcher.tsx:62-65 | for any other locale L: the target begins with `/`, its first segment is L followed by the locale-free path's segments, and the root gives exactly `/L` |
| `LanguageSwitcher.RoundTrip` | src/components/ui/LanguageSwitcher.tsx:41-65 | for L other than `it`, stripping the locale from the target gives back the locale-free path, whenever that path has no empty segment |
| `Appwrite.PlainError` | src/lib/appwrite.js:68 | `new Error(m)` carries neither code nor type tag, only the message |
| `Appwrite.HandleAppwriteError` | src/lib/appwrite.js:32-55 | the message is never empty, and it is one of the fixed messages or the error's own message |
| `Appwrite.StatusCodes` | src/lib/appwrite.js:35-43 | codes 401, 409 and 429 give the invalid-credentials, account-exists and too-many-requests messages, whatever the tag |
| `Appwrite.TypeTags` | src/lib/appwrite.js:44-52 | without a recognised code, the three type tags give their three fixed messages |
| `Appwrite.CodeBeforeTag` | src/lib/appwrite.js:35-52 | code 401 with tag `user_email_already_exists` gives the 401 message, not the account-exists one |
| `Appwrite.ConflictSameMessage` | src/lib/appwrite.js:38-49 | code 409 and tag `user_email_already_exists` produce the same message |
| `Appwrite.Unrecognised` | src/lib/appwrite.js:54 | an unrecognised error gives its own message, or the generic fallback when that message is empty |
| `Appwrite.NormaliseIdempotent` | src/lib/appwrite.js:54-78 | normalising `new Error(handleAppwriteError(e))` gives `handleAppwriteError(e)` again |
| `Appwrite.Rethrow` | src/lib/appwrite.js:58-142 | a wrapped call resolves exactly when the remote call does, with its value; on failure it throws a plain error carrying the normalised message |
| `Appwrite.RethrowNormalisesOnce` | src/lib/appwrite.js:66-69 | a caller that normalises what the wrapper threw sees the original error's message |
| `Appwrite.GetCurrentUser` | src/lib/appwrite.js:83-91 | `getCurrentUser` never throws; it gives the account on success and null on any failure |
| `Types.Merge` | src/lib/auth/AuthProvider.tsx:273 | merging an empty patch leaves the user unchanged |
| `Types.MergeFields` | src/lib/auth/AuthProvider.tsx:273 | for each of the eleven fields, the merge takes the patch's value when the patch sets it and keeps the user's value otherwise |
| `Types.MergeLaws` | src/lib/auth/AuthProvider.tsx:272-275 | two merges in a row are one merge of the combined patch; merging the same patch twice is merging it once |
| `AuthProvider.NameFromEmail` | src/lib/auth/AuthProvider.tsx:117 | the demo name is the prefix of the email before its first `@`, or the whole email when it has none |
| `AuthProvider.Profile` | src/lib/auth/AuthProvider.tsx:53-89 | the hydrated profile copies the account's id, dates, email, name, verification flag and phone; it adds the default preferences, pending KYC and consent with only `necessary` set |
| `AuthProvider.DemoUser` | src/lib/auth/AuthProvider.tsx:111-139 | the demo user has the given email, and its name is exactly the text before the email's first `@` (the whole email when there is none); it has a verified email, a `demo-user-` id, consent to analytics and necessary cookies, and its creation, update and consent times are three separate clock reads |
| `AuthProvider.FetchUserProfile` | src/lib/auth/AuthProvider.tsx:53-89 | hydration succeeds exactly when the account re-read does, giving that account's profile; otherwise it fails with the null-dereference error |
| `AuthProvider.AuthState.constructor` | src/lib/auth/AuthProvider.tsx:27-28 | the initial state has no user and is loading |
| `AuthProvider.AuthState.IsAuthenticated` | src/lib/auth/AuthProvider.tsx:408 | `isAuthenticated` holds exactly when there is a user |
| `AuthProvider.AuthState.Status` | src/lib/auth/AuthProvider.tsx:405-408 | the session reads as checking while loading, otherwise authenticated or anonymous according to the user |
| `AuthProvider.AuthState.DashboardRedirects` | src/app/dashboard/page.tsx:19-23 | the dashboard redirects to login exactly when loading is over and nobody is signed in |
| `AuthProvider.AuthState.CheckAuth` | src/lib/auth/AuthProvider.tsx:35-51 | never throws and ends not loading; no session keeps the user; a failed profile re-read clears it; otherwise the user is the re-read account's profile |
| `AuthProvider.AuthState.Login` | src/lib/auth/AuthProvider.tsx:91-186 | ends not loading; demo mode either fails on `wrongpassword` with message `user_invalid_credentials`, keeping the user, or signs in the demo user; real mode reports the normalised session error and keeps the user, keeps the user when no account is found, fails on a null re-read, and otherwise signs in the profile |
| `AuthProvider.AuthState.Register` | src/lib/auth/AuthProvider.tsx:188-233 | never changes the user and ends not loading; it succeeds exactly when account creation does, whatever the verification email's outcome, and otherwise reports the normalised error |
| `AuthProvider.AuthState.Logout` | src/lib/auth/AuthProvider.tsx:235-262 | clears the user only when the session delete succeeds; on failure reports the normalised error and keeps the user; ends not loading |
| `AuthProvider.AuthState.UpdateProfile` | src/lib/auth/AuthProvider.tsx:264-295 | with a user, replaces it by the merge of the patch over it; with none, stays without one; never throws; ends not loading |
| `AuthProvider.AuthState.VerifyEmail` | src/lib/auth/AuthProvider.tsx:297-323 | on failure reports the normalised error and keeps the user; on success re-runs the session check, with that check's effect on the user; ends not loading |
| `AuthProvider.AuthState.ResetPassword` | src/lib/auth/AuthProvider.tsx:325-348 | keeps the user; succeeds exactly when the recovery request does, else reports the normalised error; ends not loading |
| `AuthProvider.AuthState.UpdatePassword` | src/lib/auth/AuthProvider.tsx:350-373 | always throws `account is not defined` and keeps the user; ends not loading |
| `AuthProvider.AuthState.DeleteAccount` | src/lib/auth/AuthProvider.tsx:375-403 | behaves as logout: clears the user on success, or reports logout's message unchanged and keeps the user; ends not loading |
| `AuthProvider.WrongDemoPasswordScenario` | src/lib/auth/AuthProvider.tsx:99-109 | from start-up with no session, a demo login with `wrongpassword` reports `user_invalid_credentials`; the session is anonymous and the dashboard redirects |
| `AuthProvider.FailedLogoutScenario` | src/lib/auth/AuthProvider.tsx:235-262 | a signed-in user whose remote logout fails gets the normalised message and stays authenticated |
| `ToastProvider.EffectiveDuration` | src/components/ui/ToastProvider.tsx:42 | an absent or zero duration becomes 5000; any other value is kept; the result is never zero |
| `ToastProvider.NewToast` | src/components/ui/ToastProvider.tsx:37-43 | the added toast keeps kind, title and message, carries the generated id, and has the effective duration |
| `ToastProvider.Without` | src/components/ui/ToastProvider.tsx:53-55 | no toast with the removed id remains, and the list does not grow |
| `ToastProvider.WithoutAppend` | src/components/ui/ToastProvider.tsx:54 | removal distributes over concatenation, so the kept toasts stay in their order |
| `ToastProvider.WithoutMembers` | src/components/ui/ToastProvider.tsx:54 | a toast remains exactly when it was present and has another id |
| `ToastProvider.WithoutAbsent` | src/components/ui/ToastProvider.tsx:54 | removing an id that is not present leaves the list unchanged |
| `ToastProvider.WithoutIdempotent` | src/components/ui/ToastProvider.tsx:54 | removing the same id twice is removing it once |
| `ToastProvider.AddThenRemove` | src/components/ui/ToastProvider.tsx:45-54 | removing a just-added toast whose id was fresh restores the earlier list |
| `ToastProvider.ToastStack.constructor` | src/components/ui/ToastProvider.tsx:35 | the list starts empty |
| `ToastProvider.ToastStack.AddToast` | src/components/ui/ToastProvider.tsx:37-51 | the list becomes the old list with exactly the new toast appended at the end |
| `ToastProvider.ToastStack.RemoveToast` | src/components/ui/ToastProvider.tsx:53-55 | the list becomes the old list without the toasts of that id |
| `AuthForm.Utf16Length` | src/components/auth/AuthForm.tsx:20 | the length the length rules measure lies between the character count and twice it, and equals the character count for text inside the Basic Multilingual Plane |
| `AuthForm.FirstLine` | src/components/auth/AuthForm.tsx:21 | the text a `.*` lookahead can scan is the prefix before the first line terminator |
| `AuthForm.LookaheadFinds` | src/components/auth/AuthForm.tsx:21 | a start-anchored `(?=.*[…])` lookahead succeeds exactly when some character of the class occurs with no line terminator up to and including it |
| `AuthForm.PasswordPattern` | src/components/auth/AuthForm.tsx:21 | a matching password starts with an allowed character and contains a lowercase letter, an uppercase letter, a digit and one of `@$!%*?&`, so it has at least four characters |
| `AuthForm.PasswordValid` | src/components/auth/AuthForm.tsx:19-22 | an accepted password is at least 8 UTF-16 code units long, starts with an allowed character, and contains a lowercase letter, an uppercase letter, a digit and one of `@$!%*?&` |
| `AuthForm.EmailValid` | src/components/auth/AuthForm.tsx:16-18 | an email is accepted exactly when it is non-empty and has the address format |
| `AuthForm.NameValid` | src/components/auth/AuthForm.tsx:26-29 | a name is accepted exactly when it has between 2 and 50 characters and each is an ASCII letter or JavaScript white space |
| `AuthForm.LoginValid` | src/components/auth/AuthForm.tsx:15-23 | a valid login has a non-empty, well-formed email and a password of at least 8 UTF-16 code units that starts with an allowed character |
| `AuthForm.RegisterValid` | src/components/auth/AuthForm.tsx:25-44 | a valid registration passes the login rules, gives necessary consent and repeats the password in the confirmation |
| `AuthForm.RegisterIssues` | src/components/auth/AuthForm.tsx:25-44 | a mismatched confirmation is reported on `confirmPassword`, and only then; the email, password, name, terms and necessary-consent rules each report on their own field exactly when they fail |
| `AuthForm.RegisterValidMeans` | src/components/auth/AuthForm.tsx:25-44 | registration is valid exactly when the login rules, the name rule, accepted terms, necessary consent and a matching confirmation all hold; every valid registration passes the login rules |
| `AuthForm.OptionalConsentsFree` | src/components/auth/AuthForm.tsx:34-40 | the analytics and marketing consents never change whether registration is valid |
| `AuthForm.PasswordTailUnconstrained` | src/components/auth/AuthForm.tsx:21 | with no end anchor, whatever follows a matching password still matches |
| `AuthForm.PasswordAccepted` | src/components/auth/AuthForm.tsx:19-22 | `Abcdef1!` is accepted |
| `AuthForm.PasswordFirstCharChecked` | src/components/auth/AuthForm.tsx:21 | every password whose first character is outside `[A-Za-z0-9@$!%*?&]` is refused |
| `AuthForm.ClassAfterLineBreak` | src/components/auth/AuthForm.tsx:21 | for any character class, a lookahead over a line followed by a line break finds the class exactly when the line alone has it |
| `AuthForm.PasswordClassAfterLineBreak` | src/components/auth/AuthForm.tsx:21 | an instance: `abcdef1!` followed by a line break and `A` is refused, as its only uppercase letter comes after the break |
| `AuthForm.InterfaceConsentNeverBlocks` | src/components/auth/AuthForm.tsx:57-82 | starting from the form's initial consent, no series of checkbox changes makes the necessary-consent rule fail |
| `AuthForm.AuthFormState.constructor` | src/components/auth/AuthForm.tsx:56-61 | the form starts not loading, with only necessary consent given |
| `AuthForm.AuthFormState.HandleGdprChange` | src/components/auth/AuthForm.tsx:79-82 | the form's consent becomes the emitted record |
| `AuthForm.AuthFormState.OnSubmit` | src/components/auth/AuthForm.tsx:84-111 | a successful login goes to `/dashboard` and a successful registration to `/auth/login`; a failure goes nowhere and alerts `Error: ` with the message; loading is false afterwards |
| `GdprConsent.Change` | src/components/legal/GDPRConsent.tsx:21-26 | the changed key has the new value and the other two keys keep theirs |
| `GdprConsent.ChangeToCurrent` | src/components/legal/GDPRConsent.tsx:21-26 | setting a key to its current value emits the same record |
| `GdprConsent.ChangeIdempotent` | src/components/legal/GDPRConsent.tsx:21-26 | the same change applied twice equals it applied once |
| `GdprConsent.ApplyAll` | src/components/legal/GDPRConsent.tsx:21-26 | applying no change keeps the record; after a series of changes, the last change's key has the last change's value |
| `GdprConsent.InterfaceKeepsNecessary` | src/components/legal/GDPRConsent.tsx:64-110 | since the necessary checkbox is disabled, no series of checkbox changes alters `necessary` |
| `GdprConsent.UntouchedFieldKept` | src/components/legal/GDPRConsent.tsx:21-26 | a key that no change in a series names keeps its value |

## Left out

- Asynchrony is left out. Each operation is atomic, so overlapping operations, the demo login's 1000 ms delay and the toast auto-dismiss timers are not modelled.
- Notifications and console logging are left out: the context's toasts, `console.*`, and the browser's alert display. The alert text is returned but not shown.
- Nondeterminism becomes parameters: the random toast id, `Date.now()`, ISO timestamps and the environment-based demo switch.
- The identity-service SDK is left out, along with client construction and `databaseService`/`storageService`. Each remote call is an outcome value.
- Email format checking (zod's `.email()`) is a parameter `isEmail`, because its rules belong to the validator library. react-hook-form's `handleSubmit` runs `onSubmit` only after validation; `OnSubmit` is given the awaited call's outcome.
- The language switcher's dropdown, click-outside handling and `window.location` assignment are effects and are left out. The locale middleware configures a library whose behaviour is not visible, so it is not part of this model.
- Static pages, layouts and mock data are not part of this model. From the dashboard, only its redirect guard is modelled.
- The null-dereference and missing-name errors carry the V8 engine's message text. Other engines word them differently.
- ToastProvider.EffectiveDuration: a `NaN` duration is also falsy in the source and would become 5000; integers have no `NaN`.
- ToastProvider.EffectiveDuration: a fractional duration such as `1500.5` is kept by the source but cannot be expressed with integers.
- JavaScript strings can hold lone UTF-16 surrogates; Dafny strings hold only Unicode scalar values, so such strings are not modelled.
- Appwrite.HandleAppwriteError: `code` is an integer or absent. A code of another type (a string `"401"`) fails the source's strict comparison and is modelled as absent.
- Types.MergeLaws: a patch can only set a key to a value. A key present with the value `undefined` would overwrite the field in the source.
