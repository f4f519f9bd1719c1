# Flood-monitoring dashboard: alert display, refresh cycle, session and registration

This project models in Dafny the logic of a React front end for a flood-monitoring system. The markup is left aside. The model covers four parts.

- **Severity tables.** There are three copies of `obtenerIconoTipo`, `obtenerColorTipo` and `obtenerTextoTipo`: in the alarm card, the all-clear card and the older status card. Each maps a raw alert `tipo` to an icon, a colour and a label, with a fallback for unknown values. The module `Severity` is the reference taxonomy. It has three tiers, and each tier has three spellings: `ALTO`, `ALERTA_ROJA` and `RED`, and so on. Every copy of the tables is checked against it and against the other copies.
- **Refresh cycle and view selection.** The state is `(alertasActivas, ultimaAlertaResuelta, loading, error)`. It is changed by `cargarAlertasActivas`, `cargarUltimaAlertaResuelta` and `cargarDatos`, with each remote response given as a parameter. Two components consume it:
  - the status panel, which chooses between the error panel, the alarm card and the all-clear card;
  - the older self-contained card, with its own render precedence.

  The "last resolved" alert is chosen by a stable sort, newest resolution first, followed by taking the head.
- **Session store.** This is the `AuthContext` provider: start-up, `login`, `logout` and `updateUser` over a two-key storage map, the `Authorization` header (`Bearer <token>`, the scheme of section 2.1 of RFC 6750), `user` and `isAuthenticated`. The account operations of `useAuthOperations` wrap it with `loading`/`error` bookkeeping.
- **Registration form.** This covers `validateForm`, `handleInputChange` and `handleSubmit` of both registration pages. The parts are:
  - JavaScript `trim`, with the ECMAScript whitespace set that `\s` uses too;
  - `length` in UTF-16 code units;
  - the literal e-mail expression `^[^\s@]+@[^\s@]+\.[^\s@]+$`, as an automaton proved equal to a three-part reference predicate.

A remote call's outcome is `Remote<T> = Ok(value) | Fail(message)`. `message` stands for `error.response.data.message` when the server sent one. `JSON.stringify` and `JSON.parse` are function parameters, and `parse` returns `None` where `JSON.parse` would throw. JavaScript truthiness is modelled explicitly: `''` and `null` are falsy in `token && savedUser`, in `x || default`, in `ubicacion && …` and in `observaciones && …`.

Some behaviour one might expect of such a dashboard is absent from the code, and the model does not add it:
- active alerts are shown in response order, not sorted by severity;
- equal resolution times have no id tie-break; the earlier alert in the response wins, because `Array.prototype.sort` is stable;
- there is no "unknown" severity value: an unrecognised `tipo` gets the neutral icon, grey and its own text;
- overlapping refreshes are not coalesced;
- a 401 response does not force a logout.

Files: `common.dfy`, `js_text.dfy`, `email_regex.dfy`, `js_object.dfy`, `severity.dfy`, `alerts.dfy`, `alert_feed.dfy`, `alert_card.dfy`, `safe_status_card.dfy`, `sensor_status.dfy`, `sensor_status_card.dfy`, `auth_context.dfy`, `use_auth.dfy`, `register_form.dfy`, `register_page.dfy`, `legacy_register_page.dfy`.

## Model

| member | source | states |
|---|---|---|
| JsText.TrimStart | src/pages/register/RegisterPage.jsx:48 | The result is a suffix of the input. Everything dropped is whitespace, and the result does not start with whitespace. |
| JsText.TrimEnd | src/pages/register/RegisterPage.jsx:52 | The result is a prefix of the input. Everything dropped is whitespace, and the result does not end with whitespace. |
| JsText.Trim | src/pages/register/RegisterPage.jsx:48 | `s.trim()` is no longer than `s`, and a non-empty result begins and ends with a character that is not whitespace. |
| JsText.TrimIsInfix | src/pages/register/RegisterPage.jsx:48 | `s.trim()` is a contiguous piece of `s` with only whitespace before and after it, so together with the contract of `Trim` it is the longest such piece. |
| JsText.TrimEmptyIffBlank | src/pages/register/RegisterPage.jsx:48-50 | `s.trim()` is empty exactly when every character of `s` is ECMAScript whitespace or a line terminator. |
| JsText.Utf16Length | src/pages/register/RegisterPage.jsx:60 | `length` counts UTF-16 code units: one character above U+FFFF counts 2 and any other counts 1. The total lies between the character count and twice it, and it is zero only for `''`. |
| JsText.Utf16LengthAppend | src/pages/register/RegisterPage.jsx:60 | `length` of a concatenation is the sum of the lengths, so with the single-character case it fixes the count of every string. |
| JsText.Utf16LengthOfBmp | src/pages/register/RegisterPage.jsx:60 | For text inside the Basic Multilingual Plane, `length` equals the character count. |
| EmailRegex.Matches | src/pages/register/RegisterPage.jsx:54 | The regular-expression test holds exactly for the strings `A@B.C` where A, B and C are non-empty and hold no whitespace and no `@`. |
| EmailRegex.AcceptsIffPattern | src/pages/register/RegisterPage.jsx:54 | The automaton for `^[^\s@]+@[^\s@]+\.[^\s@]+$` accepts exactly the strings `A@B.C` where A, B and C are non-empty and hold no whitespace and no `@`. |
| Severity.TierOf | src/components/alertCards/AlertCard.jsx:6-19 | `TierOf(tipo)` is `Some(t)` exactly when `tipo` is one of tier `t`'s three spellings, and `None` for every other string. |
| JsObject.Read | src/components/alertCards/AlertCard.jsx:20 | `obj[key]` gives the own property's value when there is one, then the `Object.prototype` member of that name, and otherwise `undefined`. |
| JsObject.ReadOrOffPrototype | src/components/alertCards/AlertCard.jsx:20 | For a key that is an own property or no `Object.prototype` member, reading `obj[key]` with a fallback gives the same as reading own properties only. |
| JsObject.ReadOrOnPrototype | src/components/alertCards/AlertCard.jsx:20 | For an `Object.prototype` member name the literal does not declare, reading `obj[key]` with a fallback gives the inherited member, never the fallback. |
| AlertCard.IconoTipo | src/components/alertCards/AlertCard.jsx:5-21 | All three spellings of a tier give that tier's icon (🔴 🟡 🟢). Any other string gives ⚪. |
| AlertCard.ColorTipo | src/components/alertCards/AlertCard.jsx:23-39 | All three spellings of a tier give its colour (#dc2626, #d97706, #16a34a). Any other string gives #6b7280. |
| AlertCard.TextoTipo | src/components/alertCards/AlertCard.jsx:41-57 | Every known spelling is normalised to its tier's short form. An unknown `tipo` is returned unchanged. |
| AlertCard.TextoIdempotent | src/components/alertCards/AlertCard.jsx:41-57 | Normalising a label twice gives the same result as normalising it once, for every string. |
| AlertCard.IconAndColorFactorThroughText | src/components/alertCards/AlertCard.jsx:5-57 | Icon and colour depend on `tipo` only through its normalised label. |
| AlertCard.IconoTipoAsWritten | src/components/alertCards/AlertCard.jsx:20 | As JavaScript evaluates the table lookup with its ⚪ fallback, the result agrees with the intended icon on every string except the `Object.prototype` member names. For those it yields the inherited member. |
| AlertCard.ColorTipoAsWritten | src/components/alertCards/AlertCard.jsx:38 | The colour lookup as written agrees with the intended colour except on `Object.prototype` member names, where it yields the inherited member. |
| AlertCard.TextoTipoAsWritten | src/components/alertCards/AlertCard.jsx:56 | The label lookup as written agrees with the intended label except on `Object.prototype` member names, where it yields the inherited member. |
| AlertCard.AsWrittenMissesFallback | src/components/alertCards/AlertCard.jsx:20-56 | `'toString'` is no known spelling. All three tables as written yield the inherited method for it, while the intended lookups yield ⚪, #6b7280 and `'toString'`. |
| AlertCard.RenderItem | src/components/alertCards/AlertCard.jsx:92-131 | A row carries the alert's id and description. Border, title and badge share the tier colour. The title is `Nivel ` followed by the normalised label. A location line appears exactly when `ubicacion` is truthy, and it shows `ubicacion`. |
| AlertCard.Render | src/components/alertCards/AlertCard.jsx:70-131 | `loading` shows the placeholder whatever the list. Otherwise the count equals the number of alerts, and row `i` renders alert `i`. |
| AlertCard.RowsFollowAlerts | src/components/alertCards/AlertCard.jsx:88-131 | No alert is dropped, duplicated or reordered: row keys list the alert ids in input order. |
| SafeStatusCard.IconoTipo | src/components/alertCards/SafeStatusCard.jsx:5-21 | Tier icon for every spelling of a tier, ⚪ otherwise. |
| SafeStatusCard.ColorTipo | src/components/alertCards/SafeStatusCard.jsx:23-39 | Tier colour for every spelling of a tier, with #fffb16ff for the medium tier. #6b7280 otherwise. |
| SafeStatusCard.TextoTipo | src/components/alertCards/SafeStatusCard.jsx:41-57 | Short form for every known spelling. An unknown `tipo` is returned unchanged. |
| SafeStatusCard.IconoTipoAsWritten | src/components/alertCards/SafeStatusCard.jsx:20 | This card's icon lookup as written agrees with the intended icon except on `Object.prototype` member names, where it yields the inherited member. |
| SafeStatusCard.ColorTipoAsWritten | src/components/alertCards/SafeStatusCard.jsx:38 | This card's colour lookup as written agrees with the intended colour except on `Object.prototype` member names, where it yields the inherited member. |
| SafeStatusCard.TextoTipoAsWritten | src/components/alertCards/SafeStatusCard.jsx:56 | This card's label lookup as written agrees with the intended label except on `Object.prototype` member names, where it yields the inherited member. |
| SafeStatusCard.AsWrittenMissesFallback | src/components/alertCards/SafeStatusCard.jsx:20-56 | `'valueOf'` is no known spelling. All three tables as written yield the inherited method for it, while the intended lookups fall back. |
| SafeStatusCard.IconAgreesWithAlertCard | src/components/alertCards/SafeStatusCard.jsx:5-21 | The icon table gives the alarm card's icon for every input string. |
| SafeStatusCard.TextAgreesWithAlertCard | src/components/alertCards/SafeStatusCard.jsx:41-57 | The label table gives the alarm card's label for every input string, and it is idempotent. |
| SafeStatusCard.ColorDivergesOnlyOnMedio | src/components/alertCards/SafeStatusCard.jsx:23-39 | The colour tables of the two cards agree on every string except the medium tier's spellings. There this card paints #fffb16ff and the alarm card #d97706. |
| SafeStatusCard.RenderResolved | src/components/alertCards/SafeStatusCard.jsx:104-131 | The resolved block shows the tier icon and colour and the title `Última alerta resuelta: ` followed by the label. The badge shows exactly when `observaciones` is truthy. |
| SafeStatusCard.Render | src/components/alertCards/SafeStatusCard.jsx:70-132 | `loading` shows only the placeholder. Otherwise the resolved block appears exactly when there is a last resolved alert, and it describes that alert. |
| SafeStatusCard.BadgeIffObservations | src/components/alertCards/SafeStatusCard.jsx:127-129 | The "Resuelta" badge appears exactly when the resolved alert has non-empty observations. |
| Alerts.Insert | src/components/alertCards/SensorStatus.jsx:34-36 | Inserting adds exactly the one alert. The head becomes the new alert only when it was resolved strictly later than the old head. |
| Alerts.InsertKeepsOrder | src/components/alertCards/SensorStatus.jsx:34-36 | Inserting into a newest-first sequence keeps it newest-first. |
| Alerts.SortByResolution | src/components/alertCards/SensorStatus.jsx:34-36 | The sorted response is a permutation of the response, ordered newest resolution first. |
| Alerts.LatestIndex | src/components/alertCards/SensorStatus.jsx:34-37 | This is the index of an alert with maximal resolution time, and no earlier alert has that time. |
| Alerts.SortHeadIsLatest | src/components/alertCards/SensorStatus.jsx:34-37 | The head of the stable sort is the first alert, in response order, among those resolved last. |
| Alerts.Latest | src/components/alertCards/SensorStatus.jsx:32-37 | The chosen alert belongs to the response, and no alert of the response was resolved later. |
| Alerts.LatestPrefersEarlierOnTies | src/components/alertCards/SensorStatus.jsx:34-37 | When alerts tie on the latest time, the choice falls on the earliest of them in the response. No other tie-break applies. |
| AlertFeed.BeginActive | src/components/alertCards/SensorStatus.jsx:15 | Starting a fetch sets `loading` and leaves the list, the error and the resolved alert as they were. |
| AlertFeed.FinishActive | src/components/alertCards/SensorStatus.jsx:16-26 | Once the request settles, a response becomes the list and clears the error, and a failure empties the list and sets the fixed message. Loading ends and the resolved alert is untouched. |
| AlertFeed.CargarAlertasActivas | src/components/alertCards/SensorStatus.jsx:13-27 | On success the list is the response and the error is cleared. On failure the list is emptied and the fixed message is set. Loading ends on both paths, and the resolved alert is untouched. |
| AlertFeed.CargarUltimaAlertaResuelta | src/components/alertCards/SensorStatus.jsx:29-43 | A non-empty response selects the first of its alerts, in response order, with maximal resolution time. An empty response keeps the previous choice. A failure clears it. The list, `loading` and the error never change. |
| AlertFeed.CargarDatos | src/components/alertCards/SensorStatus.jsx:45-48 | After a cycle loading is over, and an error is set exactly when the active fetch failed. |
| AlertFeed.ErrorIffActiveFailed | src/components/alertCards/SensorStatus.jsx:13-48 | The failure policy is asymmetric. The error and the list depend only on the active fetch, and a failed resolved fetch only forgets the resolved alert. |
| AlertFeed.RetryClearsError | src/components/alertCards/SensorStatus.jsx:45-60 | From any state, a cycle whose active fetch succeeds leaves no error and shows the fetched list, so retry recovers. |
| AlertFeed.Poll | src/components/alertCards/SensorStatus.jsx:50-56 | No cycle changes nothing. After at least one cycle, loading is over and an error shows exactly when the last cycle's active fetch failed. |
| AlertFeed.LastInformative | src/components/alertCards/SensorStatus.jsx:29-43 | This is the last cycle whose resolved response was a failure or a non-empty list. Every later cycle returned an empty list. |
| AlertFeed.PollOutcome | src/components/alertCards/SensorStatus.jsx:50-56 | After any run of polling cycles, the error and the list are those of the last cycle alone. The resolved alert comes from the last resolved response that changed it, or is the starting one. |
| SensorStatus.SelectView | src/components/alertCards/SensorStatus.jsx:62-101 | An error selects the error panel whatever the alerts are. Otherwise a non-empty list selects the alarm card with the list and `loading`, and an empty list selects the all-clear card with the resolved alert and `loading`. |
| SensorStatus.Render | src/components/alertCards/SensorStatus.jsx:62-101 | The panel shows the error panel exactly when the error is truthy, and the alarm card exactly when there is no error and the list is non-empty. The alarm card gets the list and `loading`; the all-clear card gets the resolved alert and `loading`. |
| SensorStatus.InitialScreen | src/components/alertCards/SensorStatus.jsx:8-11 | The initial state has nothing fetched, is loading and has no error, so the all-clear card shows its spinner. |
| SensorStatus.FailedActiveShowsError | src/components/alertCards/SensorStatus.jsx:20-23 | After a cycle whose active fetch failed, the error panel shows, whatever the resolved fetch returned. |
| SensorStatus.FailedResolvedDegradesToSafe | src/components/alertCards/SensorStatus.jsx:39-42 | A failed resolved fetch with no active alerts shows the all-clear card without a resolved block, not an error. |
| SensorStatus.ActiveAlertsShowAlarm | src/components/alertCards/SensorStatus.jsx:84-92 | After a cycle that fetched a non-empty list, the alarm card lists every alert. |
| SensorStatus.RefreshFromErrorKeepsErrorPanel | src/components/alertCards/SensorStatus.jsx:58-81 | A refresh started from the error panel keeps the error panel until the active fetch settles. |
| SensorStatus.RefreshFromAlarmShowsSpinner | src/components/alertCards/SensorStatus.jsx:84-92 | A refresh started from the alarm card shows the alarm card's spinner. |
| SensorStatusCard.IconoTipo | src/components/SensorStatusCard.jsx:55-62 | Only `ALTO`, `MEDIO` and `BAJO` get a tier icon. Every other string, including the backend and colour-name spellings, gets ⚪. |
| SensorStatusCard.ColorTipo | src/components/SensorStatusCard.jsx:64-71 | Only the three short spellings get a tier colour. Every other string gets #6b7280. |
| SensorStatusCard.IconoTipoAsWritten | src/components/SensorStatusCard.jsx:61 | The icon lookup as written agrees with the intended icon except on `Object.prototype` member names, where it yields the inherited member. |
| SensorStatusCard.ColorTipoAsWritten | src/components/SensorStatusCard.jsx:70 | The colour lookup as written agrees with the intended colour except on `Object.prototype` member names, where it yields the inherited member. |
| SensorStatusCard.AsWrittenMissesFallback | src/components/SensorStatusCard.jsx:55-71 | `'constructor'` is no short spelling. Both tables as written yield the inherited constructor for it, while the intended lookups yield ⚪ and #6b7280. |
| SensorStatusCard.AgreesWithAlertCardOnShortFormsOnly | src/components/SensorStatusCard.jsx:55-71 | On short spellings, icon and colour equal the alarm card's. On the other known spellings they differ from them. |
| SensorStatusCard.RenderItem | src/components/SensorStatusCard.jsx:172-211 | The row carries the alert's id, the short-table icon and colour, the description and the creation time. The title is `Nivel ` followed by the raw `tipo`, and the badge shows the raw `tipo`. A location line appears exactly when `ubicacion` is truthy, and it shows `ubicacion`. |
| SensorStatusCard.RenderResolved | src/components/SensorStatusCard.jsx:136-158 | The resolved block shows the icon, description and time. The observations line appears exactly when `observaciones` is truthy, and it shows `observaciones`. |
| SensorStatusCard.Render | src/components/SensorStatusCard.jsx:84-226 | The precedence is: loading first, then the error, then the normal view for an empty list, and the alarm list otherwise. The normal view has the resolved block exactly when there is a last resolved alert, and the block renders that alert. The alarm list has one row per alert, in order. |
| SensorStatusCard.PrecedenceVersusPanel | src/components/SensorStatusCard.jsx:84-164 | Loading hides even an error here. Once loading is over, the alarm list shows exactly when there are alerts and no error. |
| SensorStatusCard.InitialScreen | src/components/SensorStatusCard.jsx:6-9 | The initial state has nothing fetched, is loading and has no error, so the card shows its spinner. |
| SensorStatusCard.RawLabel | src/components/SensorStatusCard.jsx:187-207 | The row is labelled with the raw `tipo`. For a known tier it matches the alarm card's label exactly when the alert already uses the short spelling. |
| AuthContext.BearerHeader | src/context/AuthContext.jsx:46 | The header is `Bearer `, a single space, then the token unchanged. |
| AuthContext.Mount | src/context/AuthContext.jsx:15-17 | Before start-up the stored content is as found, there is no header, nobody is signed in, and `loading` holds. |
| AuthContext.GetItem | src/context/AuthContext.jsx:21-22 | `getItem` gives the stored value, or `null` for a missing key. |
| AuthContext.Login | src/context/AuthContext.jsx:42-49 | `login` stores the token and the serialised user, sets the header to `Bearer ` plus the token, and signs the user in. |
| AuthContext.Logout | src/context/AuthContext.jsx:51-57 | `logout` removes both keys and keeps every other stored entry. It removes the header, clears the user and signs out. |
| AuthContext.LogoutIdempotent | src/context/AuthContext.jsx:51-57 | Logging out twice has the same effect as logging out once. |
| AuthContext.UpdateUser | src/context/AuthContext.jsx:59-62 | `updateUser` changes the user and the stored user. The stored token, the header and `isAuthenticated` are unchanged. |
| AuthContext.InitializeAuth | src/context/AuthContext.jsx:20-37 | When the token and the user are both truthy, a user that parses signs in with the header built from the stored token, and a corrupt user acts as `logout`. When either is missing or empty, nothing changes. `loading` ends on every path. |
| AuthContext.LoneTokenIsKept | src/context/AuthContext.jsx:24 | A stored token without a stored user is left in storage, and nobody is signed in. |
| AuthContext.CorruptUserIsDiscarded | src/context/AuthContext.jsx:30-33 | A stored user that does not parse removes both keys and leaves the session signed out, without failing. |
| AuthContext.StartupIsValid | src/context/AuthContext.jsx:19-40 | After start-up from any stored content, the user is signed in exactly when a header is installed, and the header carries the stored token. |
| AuthContext.ApplyKeepsValid | src/context/AuthContext.jsx:42-62 | `login`, `logout` and `updateUser` each preserve that invariant. |
| AuthContext.ReplayKeepsValid | src/context/AuthContext.jsx:19-62 | After start-up and any sequence of operations, `isAuthenticated` holds exactly when the header is present. The header is then `Bearer ` followed by the stored token. |
| AuthContext.ApplyKeepsPersisted | src/context/AuthContext.jsx:42-62 | When `parse` undoes `stringify`, every operation keeps the stored user parsing back to the signed-in user. |
| AuthContext.ReloadRestoresSession | src/context/AuthContext.jsx:19-49 | Reloading a signed-in session restores the same user, flag and header, provided the stored strings are not empty. |
| AuthContext.EmptyTokenNotRestored | src/context/AuthContext.jsx:24-49 | `login` accepts an empty token, but the session does not survive a reload, because start-up reads `''` as missing. |
| AuthOperations.Begin | src/hooks/useAuth.js:11-12 | Every operation starts by setting `loading`, clearing the error and leaving the session alone. |
| AuthOperations.Failed | src/hooks/useAuth.js:17-23 | On failure the error is the server's message when it is non-empty, and the operation's default otherwise. `loading` ends, the session is untouched and the error is re-thrown. |
| AuthOperations.SignIn | src/hooks/useAuth.js:10-40 | A response signs the session in with its token and user and is returned. A failure leaves the session alone. |
| AuthOperations.LoginWithEmail | src/hooks/useAuth.js:10-24 | Success returns the response and signs in with header `Bearer ` plus the token. Failure re-throws, keeps the session and records the message or "Error al iniciar sesión". |
| AuthOperations.LoginWithGoogle | src/hooks/useAuth.js:26-40 | This is the same as the e-mail login, with the default "Error al iniciar sesión con Google". |
| AuthOperations.Register | src/hooks/useAuth.js:42-55 | Registration never changes the session on either path. Success returns the response. Failure re-throws with the message or "Error al registrar usuario". |
| AuthOperations.RefreshUser | src/hooks/useAuth.js:57-87 | A fetched user goes through `updateUser` and nothing else. A failure keeps the session. |
| AuthOperations.GetProfile | src/hooks/useAuth.js:57-71 | A fetched profile becomes the user. The header, the flag and the stored token are unchanged. Failure records the message or "Error al obtener perfil". |
| AuthOperations.UpdateProfile | src/hooks/useAuth.js:73-87 | The updated profile becomes the user, with the header and the flag unchanged. Failure records the message or "Error al actualizar perfil". |
| AuthOperations.LogoutUser | src/hooks/useAuth.js:89-101 | The local logout always happens: both keys are gone and there is no header. The error stays cleared, `loading` ends and nothing is re-thrown. |
| AuthOperations.LogoutIgnoresServer | src/hooks/useAuth.js:89-101 | A failed server logout gives exactly the same result as a successful one. |
| AuthOperations.ClearError | src/hooks/useAuth.js:103-105 | `clearError` clears the error and changes nothing else. |
| AuthOperations.CallsKeepSessionValid | src/hooks/useAuth.js:10-105 | For any sequence of operations and any server answers, a consistent session stays consistent, and `loading` is off after each. |
| RegisterForm.Set | src/pages/register/RegisterPage.jsx:31-34 | The named field takes the value, and every other field keeps its own. |
| RegisterPage.NombreCheck | src/pages/register/RegisterPage.jsx:48-50 | The name draws "El nombre es requerido" exactly when it is all whitespace. |
| RegisterPage.EmailCheck | src/pages/register/RegisterPage.jsx:52-56 | A blank address is "requerido". A non-blank one that does not fit `A@B.C` is "no es válido". Anything else passes. The two messages are exclusive. |
| RegisterPage.PasswordCheck | src/pages/register/RegisterPage.jsx:58-62 | An empty password is "requerida". A non-empty one under six code units is too short. Six or more code units always pass. |
| RegisterPage.ConfirmCheck | src/pages/register/RegisterPage.jsx:64-66 | The mismatch message appears exactly when the two passwords differ, whatever the other checks found. |
| RegisterPage.ValidateForm | src/pages/register/RegisterPage.jsx:45-70 | The errors object has a key exactly for each failed check, holding that check's message. The form is accepted exactly when the object has no keys. |
| RegisterPage.OkIffChecksPass | src/pages/register/RegisterPage.jsx:45-70 | The verdict is the conjunction of the four field checks. |
| RegisterPage.EmailPassesIffPattern | src/pages/register/RegisterPage.jsx:52-56 | The e-mail passes exactly when it fits `A@B.C`. Such an address is never blank. |
| RegisterPage.ValidIff | src/pages/register/RegisterPage.jsx:45-70 | A form is accepted exactly when: the name is not blank; the e-mail fits the pattern; the password has at least six code units; the confirmation equals the password. |
| RegisterPage.BothPasswordsEmpty | src/pages/register/RegisterPage.jsx:58-66 | Two empty passwords draw only "requerida", with no mismatch message. |
| RegisterPage.HandleInputChange | src/pages/register/RegisterPage.jsx:29-43 | Only the named field changes. Its message, if shown, is blanked, but the key stays. Other messages are untouched. A pending server error is cleared. |
| RegisterPage.BuildPayload | src/pages/register/RegisterPage.jsx:80-86 | The payload copies the name, e-mail, password and notification type. It omits the confirmation and sends `null` exactly when the phone is `''`. |
| RegisterPage.HandleSubmit | src/pages/register/RegisterPage.jsx:72-98 | An invalid form stores its errors and returns before `register`. A valid one sends the payload and moves to the login page exactly when registration succeeded. The session is never touched. |
| LegacyRegisterPage.ValidationErrors | src/pages/RegisterPage.jsx:43-63 | The `errors` object the older page fills with its chain of `if`s equals the newer page's object on every form. |
| LegacyRegisterPage.ValidateForm | src/pages/RegisterPage.jsx:42-67 | The older page's `validateForm` gives the same verdict and the same messages as the newer page's on every form. |
| LegacyRegisterPage.ValidIff | src/pages/RegisterPage.jsx:42-67 | The older page accepts exactly the forms with a non-blank name, an e-mail fitting the pattern, a password of at least six code units and a matching confirmation. |
| LegacyRegisterPage.ConfirmErrorIff | src/pages/RegisterPage.jsx:61-63 | The confirmation message appears exactly when the two passwords differ. |
| LegacyRegisterPage.HandleInputChange | src/pages/RegisterPage.jsx:26-40 | The older input handler behaves like the newer one. It sets only the named field and leaves that field's message not shown. |
| LegacyRegisterPage.HandleSubmit | src/pages/RegisterPage.jsx:69-95 | The older submit handler behaves like the newer one. It calls `register` exactly for valid forms and sends `null` exactly for an empty phone. |

## Left out

- HTTP transport. `alertaService`, `authService` and the shared `api` client are not part of this model. Each awaited call is a `Remote` parameter: its response, or a failure with the server's optional message.
- A `null` or non-array response. The guard `response && response.length > 0` is modelled for lists only, and a successful response is always a list.
- Timers. The 30-second `setInterval`, its cleanup and the mount effect are left out. Polling is modelled as a sequence of completed cycles, each run to the end before the next starts.
- Overlapping refreshes. Some triggers start both loaders without awaiting, so their responses can interleave: the retry and refresh buttons of the older card, and a manual refresh racing the timer. Only the sequential cycle is modelled.
- Dates. `new Date(...)` and `toLocaleString` formatting are left out. Timestamps are integers, so the `NaN` comparisons an unparseable date would cause are not modelled.
- `JSON.parse` and `JSON.stringify` are parameters. `localStorage` is a key-to-string map.
- `console.log`, `console.error` and `console.warn` output.
- Context plumbing. The guard that makes `useAuth` throw outside its provider (src/context/AuthContext.jsx:6-12) is React plumbing.
- Routing. Both registration pages redirect to the dashboard when a user is already signed in. `navigate('/login', …)` is modelled as a flag, without its message text.
- Input names. `handleInputChange` accepts any `name` attribute. The model restricts it to the six fields the form renders.
- The show-password toggles of the newer registration page. They are display state only.
- Server error messages that are not strings. Only string or absent messages are modelled.
- src/pages/dashboard/Dashboard.jsx is not part of this model. At lines 28-31 it passes a profile object to `login`, which expects `{token, usuario}`.
- Markup, CSS classes and layout.
- AlertCard.IconoTipo reads the table's own properties only. This is the corrected lookup; AlertCard.IconoTipoAsWritten models the code as written, which also reads inherited members (see Findings).
- AlertCard.ColorTipo reads own properties only, as corrected; AlertCard.ColorTipoAsWritten models the code as written.
- AlertCard.TextoTipo reads own properties only, as corrected; AlertCard.TextoTipoAsWritten models the code as written.
- SafeStatusCard.IconoTipo reads own properties only, as corrected; SafeStatusCard.IconoTipoAsWritten models the code as written.
- SafeStatusCard.ColorTipo reads own properties only, as corrected; SafeStatusCard.ColorTipoAsWritten models the code as written.
- SafeStatusCard.TextoTipo reads own properties only, as corrected; SafeStatusCard.TextoTipoAsWritten models the code as written.
- SensorStatusCard.IconoTipo reads own properties only, as corrected; SensorStatusCard.IconoTipoAsWritten models the code as written.
- SensorStatusCard.ColorTipo reads own properties only, as corrected; SensorStatusCard.ColorTipoAsWritten models the code as written.

## Findings

| source | as written | input that shows it | evidently intended | confidence | as-written member | corrected member |
|---|---|---|---|---|---|---|
| src/components/alertCards/AlertCard.jsx:20 | The icon lookup with its ⚪ fallback looks `tipo` up on an object literal, so the lookup also finds members inherited from `Object.prototype`. The same form is used at lines 38 and 56, in SafeStatusCard.jsx at lines 20, 38 and 56, and in SensorStatusCard.jsx at lines 61 and 70. | An alert with `tipo` `'toString'` (or `'constructor'`, `'valueOf'`, …) gets the inherited function instead of ⚪, the grey colour or its own text. | Any `tipo` outside the nine known spellings gets the neutral icon, the grey colour and its own text. | not executed; follows from JavaScript property lookup, and needs a backend `tipo` that names a prototype member | AlertCard.IconoTipoAsWritten, AlertCard.ColorTipoAsWritten, AlertCard.TextoTipoAsWritten, AlertCard.AsWrittenMissesFallback, SafeStatusCard.IconoTipoAsWritten, SafeStatusCard.ColorTipoAsWritten, SafeStatusCard.TextoTipoAsWritten, SafeStatusCard.AsWrittenMissesFallback, SensorStatusCard.IconoTipoAsWritten, SensorStatusCard.ColorTipoAsWritten, SensorStatusCard.AsWrittenMissesFallback | AlertCard.IconoTipo, AlertCard.ColorTipo, AlertCard.TextoTipo, SafeStatusCard.IconoTipo, SafeStatusCard.ColorTipo, SafeStatusCard.TextoTipo, SensorStatusCard.IconoTipo, SensorStatusCard.ColorTipo |
