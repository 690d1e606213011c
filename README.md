# Session store, route guard and forms of a React login client

This project is a Dafny model of the client-side core of a small React
application that logs users in against a remote REST API, registers new
accounts and shows a role-gated dashboard. Four pieces are modelled:

- **The session store** (`AuthContext`, from `src/contexts/AuthContext.tsx`).
  It holds the current user, a `loading` flag and the browser's local
  storage, with its two entries `user` (the user serialised with
  `JSON.stringify`) and `token`. `AuthProvider` is a class whose fields are
  that state. Its methods `Init`, `Login`, `Register` and `Logout` are proved
  against pure effect functions on a `Session` value (`InitEffect`,
  `LoginEffect`, `RegisterEffect`, `LogoutEffect`). Lemmas about those
  functions prove the properties of the store: failure changes nothing but
  `loading`, logout is idempotent, and a reload after a login restores the
  same user.
- **The serialisation of the stored user** (`Json`). `JSON.stringify` of a
  `User` is modelled concretely: the keys come in declaration order,
  integers are written in decimal, and strings are escaped as
  `JSON.stringify` escapes them. The parser reads that text back, and
  `Json.DecodeEncode` proves the round trip field by field.
- **The route guard** (`ProtectedRoute`). A total function of `loading`, the
  user and the required role. It returns one of `Waiting`,
  `Redirect(ToLogin)`, `Denied` or `Render`.
- **The pages** (`RegisterPage`, `LoginPage`, `Dashboard`, with the shared
  `Views`). The form state of each page is a class: `RegisterForm` and
  `LoginForm`. Their submit handlers are proved against the checks made
  before sending, the payload they build and the store's effect functions.
  The dashboard's role badge, capability badges and status badge are pure
  functions of the user.

The network is a parameter. Each store operation receives the API as a
function from the request body it sends (`Credentials`, `RegisterData`) to a
`Response`: `HttpOk(body)`, `HttpNotOk` or `Threw`. A submit handler returns
what it passed to the store (`sent`, `None` when nothing was sent), so
"no request is made" is part of its contract. Toasts and router redirects
are values. `Views.Navigation` is a redirect target with its `replace` flag,
shared by the guard and the pages. `Views.Screen` is what a page renders:
`Navigate(to)` or `Show(content)`.

`Scenarios` exercises the whole model with three uses. An administrator
logs in: the administrator route renders and a reload restores the user. A
wrong password leaves the visitor redirected to login. A three-character
password is refused with no request sent.

Details of the code that the model keeps:

- The init effect restores the user only when both storage entries are
  present and non-empty. `if (storedUser && token)` is a JavaScript
  truthiness test, and the empty string is falsy.
- When nothing is restored, init leaves the user as it was. At mount the
  user is absent, so the result is the same as clearing it.
- The registration form requires every field except the document (`doc`).
  `doc` is always sent, as typed and possibly empty, and `nivel` is always
  `"usuario"`.
- `register` sets the store's `loading` flag and resets it at the end, as
  `login` does.
- A successful login with an empty token logs in for the current page only:
  a reload comes back logged out (`ReloadAfterLoginWithEmptyToken`). The
  round trip `ReloadAfterLogin` holds for every non-empty token.

## Model

| member | source | states |
|---|---|---|
| `Json.Encode` | src/contexts/AuthContext.tsx:79 | the stored serialisation of a user is never empty (it starts with `{`), so the init test treats it as present |
| `Json.LeadingZeroRefused` | src/contexts/AuthContext.tsx:57 | a number with a `0` followed by another digit, after an optional `-`, is refused, as `JSON.parse` refuses it |
| `Json.NatTextLeadingDigit` | src/contexts/AuthContext.tsx:79 | the decimal text of a natural number starts with `0` iff the number is zero, and then it is exactly `0` |
| `Json.UnsignedRoundTrip` | src/contexts/AuthContext.tsx:79 | a natural number written in decimal and followed by a non-digit parses back to itself |
| `Json.IntRoundTrip` | src/contexts/AuthContext.tsx:79 | an integer written in decimal and followed by a non-digit parses back to itself |
| `Json.StringRoundTrip` | src/contexts/AuthContext.tsx:79 | a string quoted and escaped as `JSON.stringify` does parses back to the same string, whatever follows it |
| `Json.ObjectRoundTrip` | src/contexts/AuthContext.tsx:79 | an object written with given keys and values parses back to exactly those values with nothing left over |
| `Json.Decode` | src/contexts/AuthContext.tsx:57 | a stored text that parses as a user is an object text, starting with `{` |
| `Json.DecodeEncode` | src/contexts/AuthContext.tsx:57 | parsing the serialisation of a user gives back that user, field for field |
| `Json.EncodeInjective` | src/contexts/AuthContext.tsx:79 | two users have the same serialisation iff they are equal |
| `AuthContext.UseAuth` | src/contexts/AuthContext.tsx:36-42 | the context value is returned iff there is one; otherwise the error says `useAuth` must be used within an `AuthProvider` |
| `AuthContext.InitEffect` | src/contexts/AuthContext.tsx:51-60 | without both entries non-empty, only `loading` changes (to false); with both, the user becomes the parsed stored user; parsing fails iff the stored text does not decode; the storage is never changed |
| `AuthContext.LoginEffect` | src/contexts/AuthContext.tsx:62-91 | the result is true iff the response is 2xx and `success` holds; then the user is the returned user, `user` holds its serialisation and `token` the returned token; otherwise user and storage are unchanged; `loading` ends false either way |
| `AuthContext.RegisterEffect` | src/contexts/AuthContext.tsx:93-118 | user and storage are unchanged and `loading` ends false; the result is true iff the response is 2xx and `success` holds |
| `AuthContext.LogoutEffect` | src/contexts/AuthContext.tsx:120-124 | the user is absent, both keys are removed, every other storage entry and `loading` are unchanged |
| `AuthContext.ReloadAfterLogin` | src/contexts/AuthContext.tsx:53-80 | after a successful login with a non-empty token, a fresh mount and init over the same storage restore exactly the logged-in user |
| `AuthContext.ReloadAfterLoginWithEmptyToken` | src/contexts/AuthContext.tsx:54-80 | after a successful login with an empty token the user is logged in, but a fresh mount and init restore no user |
| `AuthContext.LogoutIdempotent` | src/contexts/AuthContext.tsx:120-124 | logging out twice gives the same state as logging out once |
| `AuthContext.ReloadAfterLogout` | src/contexts/AuthContext.tsx:120-124 | after logout, a fresh mount and init restore no user |
| `AuthContext.LoginWritesPair` | src/contexts/AuthContext.tsx:79-80 | if `user` and `token` were stored together before a login, they are stored together after it, whatever the response |
| `AuthContext.AuthProvider.constructor` | src/contexts/AuthContext.tsx:45-46 | the provider mounts with no user, `loading` true and the storage as given |
| `AuthContext.AuthProvider.Init` | src/contexts/AuthContext.tsx:51-60 | the new state is `InitEffect` of the old one; when the parse throws, nothing changes and `loading` stays true |
| `AuthContext.AuthProvider.Login` | src/contexts/AuthContext.tsx:62-91 | sends `{usuario, senha}`; the new state and result are `LoginEffect` of the old state and the API's response |
| `AuthContext.AuthProvider.Register` | src/contexts/AuthContext.tsx:93-118 | sends the registration data unchanged; the new state and result are `RegisterEffect` of the old state and the response |
| `AuthContext.AuthProvider.Logout` | src/contexts/AuthContext.tsx:120-124 | the new state is `LogoutEffect` of the old one |
| `ProtectedRoute.HasPermission` | src/components/ProtectedRoute.tsx:30-42 | a role is permitted iff it is among the capabilities the user's three flags grant |
| `ProtectedRoute.Guard` | src/components/ProtectedRoute.tsx:14-64 | loading gives `Waiting` whatever the user and role; no user gives a replacing redirect to `/login` whatever the role; no required role gives `Render`; with a role, `Denied` iff the user lacks it and `Render` iff the user has it; `Denied` and `Render` only when not loading and a user is present |
| `ProtectedRoute.PermissionReadsOneFlag` | src/components/ProtectedRoute.tsx:32-42 | the permission for a role depends only on that role's own flag |
| `ProtectedRoute.GuardMonotone` | src/components/ProtectedRoute.tsx:29-64 | a user with more capabilities is never refused a route rendered for a user with fewer |
| `Views.FormScreen` | src/pages/Register.tsx:26-28 | the registration and login pages redirect to `/dashboard` (replacing history) iff a user is present, and otherwise show their form |
| `RegisterPage.WithField` | src/pages/Register.tsx:30-36 | the field named by the event takes the new value and every other field is unchanged |
| `RegisterPage.RequiredFilledFields` | src/pages/Register.tsx:43 | the presence test covers every field except the document |
| `RegisterPage.Validate` | src/pages/Register.tsx:43-68 | passes iff all required fields are filled, the passwords match and the password has at least 6 characters; otherwise it reports the first failing check in the order presence, match, length |
| `RegisterPage.Payload` | src/pages/Register.tsx:72-79 | the payload carries name, email, username and password from the form, the document as typed and level `usuario`, and no confirmation |
| `RegisterPage.MismatchReportedBeforeLength` | src/pages/Register.tsx:52-68 | a short password that differs from its confirmation is reported as a mismatch |
| `RegisterPage.SentPasswordLongEnough` | src/pages/Register.tsx:52-79 | whatever passes validation sends a password of at least 6 characters, equal to its confirmation |
| `RegisterPage.RegisterForm.constructor` | src/pages/Register.tsx:12-20 | the form starts with every field empty and not loading |
| `RegisterPage.RegisterForm.HandleInputChange` | src/pages/Register.tsx:30-36 | the form becomes `WithField` of the old form; `isLoading` is unchanged |
| `RegisterPage.RegisterForm.HandleSubmit` | src/pages/Register.tsx:38-97 | nothing is sent iff validation fails, and then the first error is shown and the store is untouched; otherwise exactly the payload is sent, the store takes the register effect, `isLoading` ends false, and success shows the success toast and navigates to `/login` while failure shows the error toast |
| `LoginPage.ResultToast` | src/pages/Login.tsx:40-51 | the success toast is shown iff `login` returned true; otherwise the incorrect-credentials error is shown |
| `LoginPage.LoginForm.constructor` | src/pages/Login.tsx:12-14 | username and password start empty and the form is not loading |
| `LoginPage.LoginForm.SetUsuario` | src/pages/Login.tsx:80 | typing in the username input changes only the username |
| `LoginPage.LoginForm.SetSenha` | src/pages/Login.tsx:96 | typing in the password input changes only the password |
| `LoginPage.LoginForm.HandleSubmit` | src/pages/Login.tsx:24-54 | nothing is sent iff a field is empty, and then the fill-in error is shown and the store is untouched; otherwise exactly the two fields are sent, the store takes the login effect, `isLoading` ends false, and the toast matches the result; after the success toast, the page redirects to `/dashboard` |
| `Dashboard.RoleTier` | src/pages/Dashboard.tsx:29-48 | the tier is administrator iff `administrador`; developer iff not administrator and `desenvolvedor`; integrator iff neither and `integrador`; plain user iff none of the three |
| `Dashboard.RoleIcon` | src/pages/Dashboard.tsx:29-34 | the icon is the one for the user's tier |
| `Dashboard.RoleText` | src/pages/Dashboard.tsx:36-41 | the text is the one for the user's tier: Administrador, Desenvolvedor, Integrador or Usuário |
| `Dashboard.RoleColor` | src/pages/Dashboard.tsx:43-48 | the colour is the one for the user's tier: destructive, default, secondary or outline |
| `Dashboard.TierTablesInjective` | src/pages/Dashboard.tsx:29-48 | each of the icon, text and colour tables gives different tiers different values |
| `Dashboard.RoleChoicesAgree` | src/pages/Dashboard.tsx:29-48 | two users get the same role text iff they get the same colour iff they get the same icon iff they are in the same tier |
| `Dashboard.CapabilityBadge` | src/pages/Dashboard.tsx:159-183 | a capability badge reads Sim iff its flag is set and Não otherwise; it has the check icon and the default variant exactly when the flag is set |
| `Dashboard.StatusBadge` | src/pages/Dashboard.tsx:134-136 | the status reads Ativo iff `ativo` and Inativo otherwise, in the default or destructive variant |
| `Dashboard.View` | src/pages/Dashboard.tsx:21-183 | with no user, the page redirects to `/login`, replacing history; with a user, it shows the user's own fields, the role by tier, the status badge of `ativo`, and each capability badge from its own flag alone |
| `Dashboard.HandleLogout` | src/pages/Dashboard.tsx:25-27 | the store takes the logout effect, after which the dashboard redirects to `/login` |
| `Scenarios.AdminLogin` | src/contexts/AuthContext.tsx:76-81 | an administrator's successful login stores token `t1`, the administrator route renders, and a reload restores the same user |
| `Scenarios.WrongPassword` | src/components/ProtectedRoute.tsx:25-27 | a refused login leaves no user, and a protected route redirects to `/login` |
| `Scenarios.ShortPassword` | src/pages/Register.tsx:61-68 | a matching three-character password is refused with the length error and nothing is sent |

## Left out

- JSX markup, CSS classes and toast rendering are presentation. Icons, badges, toasts and navigations appear as datatype values.
- `fetch`, the API base URL, request headers and `response.json()` are network I/O. The API is a function parameter returning `HttpOk(body)`, `HttpNotOk` or `Threw`; a 2xx response whose body fails to parse is `Threw`. `console.error` logging is not modelled.
- Browser `localStorage` is a `map<string, string>` field of the store. Storage failures (quota, storage unavailable) are not modelled.
- React hooks, context plumbing and re-render scheduling are not modelled. Each operation runs to completion before the next starts, so interleavings such as a login racing a logout are not modelled.
- `AuthContext.AuthProvider.Login`: `loading` is true while the request is in flight, and the guard shows `Waiting` then. Because the method is atomic, that interval is internal to it and the contract states only the final state. The same holds for `AuthContext.AuthProvider.Register` and for `isLoading` in both forms.
- `Json.Decode` parses the canonical text that `JSON.stringify` writes for a `User`, and refuses every text `JSON.parse` rejects. Other valid JSON for a user, such as white space, another key order or extra keys, takes the parse-failure path, and so does a stored text that parses to something other than a user. A user returned by the API is assumed to have exactly the eleven fields of `User`, in that order.
- JSON numbers are integers here. Fractions and exponents are not modelled.
- Strings are sequences of Unicode scalar values. JavaScript strings are UTF-16, so lone surrogates and their `\u` escaping are not modelled, and `senha.length` counts a character outside the Basic Multilingual Plane as two code units in JavaScript but as one here.
- `AuthContext.AuthProvider.Init`: when the stored user does not parse, the source throws out of the effect. The model reports `threw` and leaves the state as it was, with `loading` still true. What React does with the uncaught error is not modelled.
- `RegisterPage.RegisterForm.HandleInputChange`: the event's `name` is one of the six input names of the form. An arbitrary name, which in JavaScript would add a new key to the form object, is not modelled.
- `window.history.back()` on the access-denied view and `window.location.href = '/login'` after registration appear as outcome values only: `Denied` and the returned navigation.
- The links between the login and registration pages are markup and are not modelled.
