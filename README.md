# Montana AI Pro — login wizard, session shell and bottom navigation

This project models the three parts of the Montana AI Pro dashboard that carry sequential logic. It also proves what each part guarantees.

- **Login wizard** (`Login.dfy`, class `Login.LoginWizard`). This is the three-screen flow `select` → `auth` / `form`. It includes:
  - the fixed administrator credential check (`trim` plus `toLowerCase` on the user name, `trim` only on the passphrase);
  - the identity-token shortcut into the profile form;
  - the terms box, which unlocks when scrolled and then stays unlocked;
  - the GPS record and the camera stream;
  - the submit gate;
  - the verified-user record handed to the dashboard after the 1500 ms settle timer.

  Asynchronous results (geolocation, camera permission, timer expiries, the decoded token) are event methods.
- **Session shell** (`App.dfy`, class `App.Session`). These are the handlers that keep `isAuthenticated`, `isOAuthAuthenticated` and `userRole` consistent: login success, identity-provider success and logout. The file also holds the shell's pure helpers:
  - the WMO weather-code classifier;
  - the 8-point wind direction;
  - the fetch fallback;
  - the "today" seedling summary (filter by day, then sum);
  - the admin-only gate, stock bubble and notification toast.
- **Bottom navigation** (`BottomNav.dfy`). It holds:
  - the five-item table;
  - the click decision, which yields exactly one of: select a tab, request a login, deny with the administrator alert, or open an external page;
  - the `isCurrent`, `isLocked`, `isRoleLocked` and `disabled` flags.
- **Shared pieces.** `Text.dfy` holds ECMAScript `String.prototype.trim`, with its exact whitespace set, and `toLowerCase` on ASCII letters. `Common.dfy` holds `Option` and `Role`. The role `'none' | 'admin' | 'guest'` is `Option<Role>`.

The verified record flows from `Login.LoginWizard.SubmitTimerFired` into `App.Session.HandleLoginSuccess`. A navigation click flows from `BottomNav.HandleNavClick` into `App.Session.NavClick`.

Behaviour of the code worth noting:
- **The passphrase is case-sensitive.** The trimmed passphrase is compared with the lower-case `"kalimantan selatan"` as is, so `"Kalimantan Selatan"` is refused (`Login.PassphraseCaseSensitive`). Only the user name is case-insensitive (`Login.AcceptsSpacedCapitalisedAdmin`).
- **GPS is not part of the submit gate.** Neither the button's `disabled` nor `handleSubmit` consults the GPS status.
- **"Kembali" and "Batal" change only the screen.** They discard no draft, role, terms state or camera.
- **The identity callback is not guarded by the screen.** It can fire on any screen. Every screen change it can cause is still one of the five listed in `Login.ModeStep`.
- **There are no generation counters for stale results.** A late GPS or camera callback applies as it arrives.
- **Disabled buttons deliver no clicks.** `App.Session.NavClick` and `Login.LoginWizard.HandleSubmit` therefore require their button to be enabled. With the session invariant, the navigation bar's administrator alert can never be raised from the page: every click that would raise it is on a disabled button (`App.SessionGates`).

## Model

| member | source | states |
|---|---|---|
| Text.TrimStartSpec | components/Login.tsx:120-121 | removing leading whitespace leaves a suffix whose dropped prefix is all whitespace and whose first character, if any, is not whitespace |
| Text.TrimEndSpec | components/Login.tsx:120-121 | removing trailing whitespace leaves a prefix whose dropped suffix is all whitespace and whose last character, if any, is not whitespace |
| Text.TrimStart | components/Login.tsx:120-121 | removing leading whitespace never lengthens the string (characterised by Text.TrimStartSpec) |
| Text.TrimEnd | components/Login.tsx:120-121 | removing trailing whitespace never lengthens the string (characterised by Text.TrimEndSpec) |
| Text.Trim | components/Login.tsx:120-121 | `trim` is trailing removal after leading removal and never lengthens the string (characterised by Text.TrimSpec) |
| Text.TrimSpec | components/Login.tsx:120-121 | `trim` leaves no whitespace at either end, and is empty exactly when the input is all whitespace |
| Text.TrimPadded | components/Login.tsx:120-121 | whitespace padding on both sides of a trimmed core is exactly removed by `trim` |
| Text.TrimSplits | components/Login.tsx:120-121 | every string is leading whitespace, then its trim, then trailing whitespace |
| Text.TrimIdempotent | components/Login.tsx:120-121 | trimming twice equals trimming once |
| Text.ToLower | components/Login.tsx:120 | `toLowerCase` keeps the length (characterised by Text.ToLowerAt and Text.ToLowerSpec) |
| Text.ToLowerAt | components/Login.tsx:120 | `toLowerCase` maps each character independently, keeping the length |
| Text.ToLowerSpec | components/Login.tsx:120 | after `toLowerCase` no capital letter remains, and only capitals change, each to its lower-case letter |
| Text.LowerEqualsIff | components/Login.tsx:120 | for a lower-case target, `toLowerCase(t) == w` holds exactly when t spells w in some mix of cases |
| Login.CredentialsMatch | components/Login.tsx:120-123 | the administrator check: lower-cased trimmed user name equals "admin" and trimmed passphrase equals "kalimantan selatan" (characterised by Login.CredentialsMatchIff) |
| Login.CredentialsMatchIff | components/Login.tsx:120-123 | the administrator check accepts exactly when the trimmed user name is "admin" in any case and the trimmed passphrase is "kalimantan selatan" character for character |
| Login.AcceptsPaddedCredentials | components/Login.tsx:120-123 | any whitespace around either field and any capitalisation of "admin" are accepted |
| Login.PassphraseCaseSensitive | components/Login.tsx:121-123 | "Kalimantan Selatan" and "KALIMANTAN SELATAN" are refused whatever the user name |
| Login.AcceptsSpacedCapitalisedAdmin | components/Login.tsx:120-123 | " Admin " with the lower-case passphrase is accepted |
| Login.ReachedBottom | components/Login.tsx:97 | the terms box counts as scrolled to the end when its visible bottom is within 30 px of the content's end |
| Login.GpsSearching | components/Login.tsx:104 | a GPS request sets status searching and its message, keeps the coordinates, and keeps the record well formed |
| Login.GpsFix | components/Login.tsx:107-110 | a fix writes status locked, its message, and all three coordinates |
| Login.GpsFailure | components/Login.tsx:112 | a failure sets status error and "SINYAL GPS LEMAH" and keeps the previous coordinates |
| Login.StopTracks | components/Login.tsx:143 | stopping the tracks keeps the same stream (if any) and marks it no longer live |
| Login.VerifiedRecord | components/Login.tsx:159-164 | name is nama, else "Admin Montana"/"User Terverifikasi" by role; jabatan "Internal Administrator" iff admin, "Portal Member" iff guest; photo is the avatar prefix plus (nama or "User"); telepon and email copied |
| Login.VerifiedRecordNamed | components/Login.tsx:160-161 | the handed-over name is never empty and the avatar URL always names someone after the prefix |
| Login.RequiredNameWins | components/Login.tsx:241-242 | with the `required` name and phone filled in, the name is the one typed and the role changes only the job title |
| Login.LoginWizard.constructor | components/Login.tsx:34-58 | the initial state: select screen, no role, empty drafts, nothing ticked, idle GPS, no stream, nothing scheduled |
| Login.LoginWizard.ChooseAdministrator | components/Login.tsx:184 | select → auth, nothing else changes |
| Login.LoginWizard.Back | components/Login.tsx:229 | auth → select, nothing else changes |
| Login.LoginWizard.Cancel | components/Login.tsx:287 | form → select, draft, role, terms and camera kept |
| Login.LoginWizard.SetUsername | components/Login.tsx:215 | only the user name of the credential draft changes |
| Login.LoginWizard.SetPassword | components/Login.tsx:219 | only the passphrase of the credential draft changes |
| Login.LoginWizard.SetNama | components/Login.tsx:241 | only the name of the profile draft changes |
| Login.LoginWizard.SetTelepon | components/Login.tsx:242 | only the phone number of the profile draft changes |
| Login.LoginWizard.HandleGoogleResponse | components/Login.tsx:62-73 | a decoded payload replaces the draft with {name or "", "", email or ""}, makes the user a guest and opens the form by an allowed step; no payload changes nothing |
| Login.LoginWizard.HandleAuthSubmit | components/Login.tsx:117-131 | accepted exactly when the credentials match; success sets role admin and opens the form; failure raises the error flag with screen and role kept; syncing ends false either way |
| Login.LoginWizard.AuthErrorTimerFired | components/Login.tsx:128 | the 2000 ms timer clears the error flag |
| Login.LoginWizard.HandleTermsScroll | components/Login.tsx:94-101 | the terms box unlocks when within 30 px of the end and never locks again |
| Login.LoginWizard.SetAgreedToTerms | components/Login.tsx:251 | the checkbox changes only while unlocked, so agreement implies the terms were scrolled |
| Login.LoginWizard.RequestGps | components/Login.tsx:103-104 | a GPS request writes the searching update to the record |
| Login.LoginWizard.GpsSucceeded | components/Login.tsx:106-110 | the position callback writes the locked fix |
| Login.LoginWizard.GpsFailed | components/Login.tsx:112 | the error callback writes the failure update |
| Login.LoginWizard.HandleFaceChange | components/Login.tsx:133-145 | switching on asks for the camera and changes nothing yet; switching off clears the flag and stops the held stream |
| Login.LoginWizard.CameraGranted | components/Login.tsx:136-139 | a granted stream is held live and the camera check is marked done |
| Login.LoginWizard.CameraDenied | components/Login.tsx:140 | a refusal alerts "Izin kamera diperlukan." and changes nothing |
| Login.LoginWizard.SubmitEnabled | components/Login.tsx:284 | the submit button is enabled only with the camera ready (GPS not consulted) |
| Login.LoginWizard.HandleSubmit | components/Login.tsx:147-156 | with the submit button enabled: accepted exactly when terms are ticked and the camera is ready; refusal alerts and changes nothing; acceptance sets syncing and success, schedules the verified record with the role, and disables the button against a second handoff |
| Login.LoginWizard.SubmitTimerFired | components/Login.tsx:157-165 | the settle timer stops the stream and delivers the oldest scheduled record and role |
| BottomNav.NavItems | components/BottomNav.tsx:32-38 | the five-item table with its ids, icons, labels, external pages and flags (shape proved by BottomNav.NavItemsShape) |
| BottomNav.NavItemsShape | components/BottomNav.tsx:32-38 | five items with distinct ids; only the last, "profile", triggers authentication and reads "Settings"/"Login" by session; admin-only items are exactly the external ones |
| BottomNav.HandleNavClick | components/BottomNav.tsx:40-71 | trigger: profile tab when signed in, else login request; otherwise signed out → login request, admin-only without admin role → the alert, else the external page or the item's tab |
| BottomNav.IsCurrent | components/BottomNav.tsx:102 | an item is current when the active tab is its id; a non-trigger item only then; the trigger also on the profile tab |
| BottomNav.IsLocked | components/BottomNav.tsx:103 | locked exactly when signed out and not the authentication trigger |
| BottomNav.IsRoleLocked | components/BottomNav.tsx:104 | role-locked exactly when admin-only and the role is guest |
| BottomNav.Disabled | components/BottomNav.tsx:127 | disabled when either lock holds: every non-trigger button while signed out, none for an administrator, never a trigger that is not admin-only |
| BottomNav.DisabledIffRefused | components/BottomNav.tsx:103-127 | in a consistent session a non-trigger button is disabled exactly when its click is refused; the trigger is never disabled |
| BottomNav.InconsistentSessionDisagrees | components/BottomNav.tsx:60-104 | without the session invariant (signed in, no role) an admin-only item is enabled yet refused |
| BottomNav.AtMostOneCurrent | components/BottomNav.tsx:102 | no two items of the table are current at once |
| App.ClassifyWeatherCode | App.tsx:127-133 | clear iff code in {0,1}; rain iff in the listed drizzle/rain/shower codes; storm iff in {95,96,99}; cloudy for {2,3,45,48} and every other code |
| App.RoundDiv45 | App.tsx:124 | `Math.round(deg/45)` is the nearest multiple of 45, halves rounded up |
| App.JsRem | App.tsx:124 | JavaScript `%` keeps the dividend's sign and stays below the divisor in magnitude |
| App.WindIndex | App.tsx:124 | the direction index lies in 0..7 for non-negative degrees |
| App.WindDirection | App.tsx:124 | a non-negative bearing names its compass point; a negative index reads nothing |
| App.WindSector | App.tsx:124 | a bearing in [0,360) names the point within 22.5° of it, north also covering [337.5,360) |
| App.WindFullTurn | App.tsx:124 | adding a full turn changes nothing, and 360° reads "N" |
| App.NegativeBearingUndefined | App.tsx:124 | a bearing of -23° reads nothing while -22° reads "N" |
| App.JsRound | App.tsx:120-121 | `Math.round` is the nearest integer, halves rounded up |
| App.WeatherUpdate | App.tsx:106-143 | a failed fetch gives cloudy with {28, 12, 75, 0, "NW"}; a body without `current` gives no update; otherwise the rounded readings, the wind direction and the classified code |
| App.TodayEntries | App.tsx:91-94 | the filter keeps only rows of today, and is empty exactly when no row is from today |
| App.Total | App.tsx:98-100 | the left-to-right sum of one column, never negative when every count in it is non-negative |
| App.TotalOfTodayEntries | App.tsx:98-100 | the left-to-right sum over today's rows equals the column summed over the rows of today in place |
| App.LastTodayIndex | App.tsx:97 | today's last row is from today and no later row is |
| App.LastOfTodayEntries | App.tsx:97 | the last filtered row is the input's last row of today |
| App.TodaySummary | App.tsx:88-104 | no rows → nothing; no row of today → the last row unchanged; else today's sums with the name and date of today's last row |
| App.AdminFeatureLock | App.tsx:34-35 | the children show unobstructed iff the role is admin; otherwise the overlay carries the title or "Akses Terbatas" |
| App.StockBubble | App.tsx:307 | the stock bubble exists iff the role is admin, and shows the summary |
| App.NotificationToast | App.tsx:308 | the toast exists iff the role is admin, and shows the latest row only while not dismissed |
| App.GuestProfile | App.tsx:78-86 | the signed-out profile: "Tamu Montana", the logo as photo, "Public Access", empty contacts, no active seconds, last seen now |
| App.Session.constructor | App.tsx:54-86 | signed out, no role, home tab, guest profile, initial weather, no rows |
| App.Session.HandleLoginSuccess | App.tsx:190-196 | the verified record's five fields overwrite the profile, the role is taken, the user is signed in, the modal closes, notifications are fetched iff admin; the session invariant is kept |
| App.Session.HandleOAuthSuccess | App.tsx:198-208 | only name, photo and e-mail change; signed in through the provider; an existing role is never downgraded, no role becomes guest |
| App.Session.HandleLogout | App.tsx:210-219 | signed out with no role, guest profile, home tab, login modal open |
| App.Session.RequestLogin | App.tsx:279 | the login modal opens |
| App.Session.ProfileClick | App.tsx:245 | the profile tab opens |
| App.Session.CloseLoginModal | App.tsx:318 | the login modal closes |
| App.Session.NavClick | App.tsx:310-316 | a click on an enabled navigation button applies the bar's decision: a tab change, a login request (only from the signed-out trigger), or nothing for an external page; the administrator alert never results |
| App.Session.ApplyWeather | App.tsx:106-143 | the weather state takes the update of the fetch outcome, or is kept when there is none |
| App.Session.ReceiveBibitData | App.tsx:155-159 | the rows are stored; a non-empty list makes its last row the latest update and shows the toast |
| App.Session.CloseDailyToast | App.tsx:308 | the toast is dismissed |
| App.SessionGates | App.tsx:34-35 | for a valid session: admin content is visible only to a signed-in user, a navigation button is enabled exactly when its click is permitted, and the administrator alert only follows a click on a disabled button |

## Left out
- Rendering, styling, animations and every presentational component the shell mounts (forecast, roster, menu grid, footers and so on) are not modelled.
- Network access is out of scope. The Open-Meteo request, its HTTP status and its 8 s timeout are one `WeatherFetch` input. The spreadsheet request and its JSON reshaping with `parseInt` are out too: rows arrive already normalised as `BibitRow`, so a `NaN` from `parseInt` is not represented.
- Browser capabilities are inputs or event methods. `navigator.geolocation` and `getUserMedia` are event methods. The Google Identity widget's initialisation and button rendering are not modelled. `parseJwt` (base64, `atob`, JSON) is a claims-or-nothing input. `secureHash` (`crypto.subtle`) is unused by the handlers and left out.
- Timers are event methods, not real time. This covers the 2000 ms error clear, the 1500 ms settle delay, the 300 ms touch feedback, the 800 ms splash, the one-second clock and active-seconds ticker, and the five-minute weather interval. The ticker's `activeSeconds` and `currentTime` are not modelled.
- Floating point is not modelled. Temperatures and wind speeds are `real` and rounded as `Math.round` does. Humidity is taken as a whole number, and wind bearings are whole degrees.
- Dates are not modelled. `new Date(...).toLocaleDateString('id-ID')` is an abstract `dayOf` function compared by equality with `today`. Time zones, locales and invalid dates are not modelled.
- Text.ToLower: only ASCII letters are lowered. This does not change the administrator check: a non-ASCII character never lower-cases to the plain ASCII letters of "admin".
- Other browser state is left out. This covers dark mode and its `localStorage` persistence, the `document` class toggle, the `isMobile` resize listener (the bar is not drawn on wide screens), `window.scrollTo`, and the touch-feedback state. `alert` and `window.open` appear only as returned values.
- The profile editor (`ProfileEdit`), the AI dashboard, the developer and Montana panels and their open/close flags are not part of this model.
- `types.ts` is not part of this model. `UserProfile` and `WeatherCondition` are restated from their use in the shell.
- HTML `required` validation is not a precondition of the submit handlers. It is recorded by `Login.RequiredNameWins`, and the handlers accept any draft.
- The GPS section's `pointer-events-none` (until the terms are ticked) is not a precondition of `Login.LoginWizard.RequestGps`. A request from a locked section is still modelled.
- A camera stream replaced by a second grant, and a stream still running when the wizard is cancelled or unmounted, are not stopped by the code. The model keeps only the latest stream and does not track leaked ones.
- The wizard's lifetime inside the shell is not modelled. It is remounted with fresh state whenever the modal opens, and a settle timer can still deliver its record after the modal closed. `App.Session` does not hold the wizard.
