# A model of the CRUD front end's client core

This project models the logic under the UI of a React front end for a small administration
back end (employees, cultures, departments, users):

- **The generic HTTP client `BaseService<T>`:**
  - identifier formatting (`formatId`: numbers in decimal, strings padded with spaces to six
    code units);
  - the URL each CRUD call targets;
  - the request interceptor, which adds `Authorization: Bearer <token>` (section 2.1 of RFC 6750);
  - the response interceptor, which ends the session on a 401.
- **The `CultureService` override:** it percent-encodes the padded identifier with
  `encodeURIComponent` (section 2.1 of RFC 3986).
- **The record hooks** `useObjects`, `useObjectDetails`, `useObjectForm`, `useErrorHandler` and
  `useDepartments`. Each holds a list or a record plus `loading`/`error` slots. They are
  updated by fetch (replace), create (append), update (replace by key) and delete (filter by
  key). The exposed list is sorted by the text of each record's key.
- **The session store:**
  - `AuthService` keeps two `localStorage` keys, `token` and `userData`;
  - login writes both keys, and logout removes both;
  - `isAuthenticated` logs out an expired session;
  - the role, name and expiry queries only read.
  - `AuthProvider`/`useAuth` keep the signed-in user and a loading flag beside that store.
- **The pages:**
  - sign-in and sign-up: form checks, the guardian owl's emotion rule, the redirect target;
  - department management: create/edit branching and the edit form;
  - employee and culture create/edit: checks, confirmed save, form sync, render guards.

## How the model is built

- **JavaScript semantics:** the model writes them out in module `Js`:
  - truthiness and `===` (NaN equals nothing);
  - `String(v)` and `Number(v)`;
  - `trim` with ECMAScript's whitespace set;
  - `s.length` in UTF-16 code units;
  - `parseFloat` for decimal notation;
  - `encodeURIComponent` with a UTF-8 encoder.
- **Browser state:** `localStorage` and `window.location.href` are the fields of a `Browser`
  object. A browser that blocks storage is a `Browser` whose every storage access fails. This
  is what the source's `try`/`catch` blocks around storage guard against.
- **Calls:** every asynchronous call is one atomic step. The server's answer (`Ok(value)` or
  `Err(failure)`) is a parameter. A client method returns the request it handed to the
  transport (method, URL, headers, body), or None when the request interceptor threw before
  sending.
- **Dialogs and time:** the answer of a confirmation dialog is a `confirmed` parameter. The
  current time is a parameter: milliseconds for the session, the ISO text for `modifiedDate`.
- **Pages:** each page is a class whose fields are the page's state. A `navigate` call is
  recorded in a `navigation` field. The alert a page opens is recorded in an `alert` field.
  React's effects (the owl's emotion, the form sync of the edit pages) are applied at the end
  of each handler, which is where React runs them after the render the handler causes.
- **The model follows the code as written, including these quirks:**
  - `update(id, data)` PUTs to the bare endpoint and ignores `id`.
  - `useObjects.updateObject`/`deleteObject` and `useObjectDetails` call the service with
    `Number(id)`. So a culture code such as "en-US" reaches `formatId` as NaN, and every such
    code addresses the single path "/Culture/NaN" (`CultureService.CulturePathOfNumberOfCode`).
    When `CultureService` is called directly with the code, the path is the padded, encoded
    code (`CultureService.CulturePathOfRegionCode`).

## Model

| member | source | states |
|---|---|---|
| Js.StrictEqualsNeverHoldsForNaN | frontend/src/hooks/useObjects.ts:65 | `===` is false whenever NaN is on either side. |
| Js.Length | frontend/src/services/base.service.ts:85 | `s.length` counts UTF-16 code units, never fewer than the characters. |
| Js.LengthOfBmp | frontend/src/services/base.service.ts:85 | Text of Basic Multilingual Plane characters has one code unit per character. |
| Js.NatToDecimal | frontend/src/services/base.service.ts:81 | `toString()` of a natural number is a non-empty digit string with no leading zero (except "0"). |
| Js.DigitsValueOfNatToDecimal | frontend/src/services/base.service.ts:81 | The decimal spelling of n reads back as n. |
| Js.TrimEmptyIff | frontend/src/pages/EmpleadoCreate.tsx:39 | `s.trim()` is empty exactly when every character of `s` is whitespace. |
| Js.ToNumber | frontend/src/hooks/useObjects.ts:140 | `Number(v)` is never a string: numbers are unchanged, and NaN and undefined give NaN. |
| Js.NumberOfDecimal | frontend/src/hooks/useObjects.ts:76 | `Number(String(n))` is n for every integer, negative ones included. |
| Js.NumberOfNonNumeric | frontend/src/hooks/useObjects.ts:76 | Text holding a character that is not a sign, a digit or whitespace converts to NaN. |
| Js.ParseFloatOfDecimal | frontend/src/pages/EmpleadoCreate.tsx:18 | `parseFloat` of an integer's decimal spelling is that integer. |
| Js.ParseFloatOfNonNumeric | frontend/src/pages/EmpleadoCreate.tsx:18 | If the first character after any leading whitespace is not a sign, digit or '.', `parseFloat` is NaN. |
| Js.EncodedAlphabet | frontend/src/services/CultureService.ts:13 | `encodeURIComponent` output has only unescaped characters and '%', so no raw space and no '/'. |
| Js.EncodeUnescapedIsIdentity | frontend/src/services/CultureService.ts:13 | Text made only of unescaped characters (letters, digits, `-_.!~*'()`) is left as it is. |
| Js.EncodeConcat | frontend/src/services/CultureService.ts:13 | The encoding of a concatenation is the concatenation of the encodings. |
| Js.EncodeSpace | frontend/src/services/CultureService.ts:13 | A space is encoded as "%20". |
| Js.DecodeOfEncode | frontend/src/services/CultureService.ts:13 | Percent-decoding the encoding of an ASCII string gives back its character codes. |
| Web.Lookup | frontend/src/services/auth.service.ts:76 | `getItem` finds a value exactly when the key is stored, and returns the stored value. |
| Web.Browser.GetItem | frontend/src/services/base.service.ts:21 | Reading storage returns the stored value, or fails when storage is blocked. |
| Web.Browser.SetItem | frontend/src/services/auth.service.ts:68 | Writing storage sets that one key; it fails and changes nothing when storage is blocked. |
| Web.Browser.RemoveItem | frontend/src/services/auth.service.ts:85 | Removing drops that one key; it fails and changes nothing when storage is blocked. |
| Web.Browser.Assign | frontend/src/services/base.service.ts:41 | Assigning `location.href` changes the page and leaves storage alone. |
| BaseService.Spaces | frontend/src/services/base.service.ts:88 | The padding is exactly n spaces. |
| BaseService.FormatIdOfNumber | frontend/src/services/base.service.ts:80-82 | A number is formatted as its decimal string, which reads back as the same number. |
| BaseService.FormatIdOfNaN | frontend/src/services/base.service.ts:80-82 | NaN, which is also a number, is formatted as "NaN". |
| BaseService.FormatIdOfLongString | frontend/src/services/base.service.ts:85-87 | A string of six or more code units is returned unchanged. |
| BaseService.FormatIdPads | frontend/src/services/base.service.ts:88 | A shorter string gets exactly the missing number of spaces appended. |
| BaseService.FormatIdOfShortString | frontend/src/services/base.service.ts:88 | A shorter string becomes six code units long, starts with the input and ends in spaces only. |
| BaseService.FormatIdIdempotent | frontend/src/services/base.service.ts:84-89 | Formatting a formatted string again changes nothing. |
| BaseService.AuthorizeAddsBearerIffToken | frontend/src/services/base.service.ts:21-25 | `Authorization` is added exactly when a non-empty token is stored, with the value "Bearer " + token; other headers stay. |
| ServiceClient.TransmittedCarriesToken | frontend/src/services/base.service.ts:19-26 | A request is sent exactly when storage can be read; it carries the Bearer header exactly when a non-empty token is stored, and otherwise only the default headers. |
| ServiceClient.UnauthorizedEndsSession | frontend/src/services/base.service.ts:33-44 | A 401 removes `token` and `userData` and nothing else, goes to "/login", and still rejects the call. Any other answer leaves storage and location alone. |
| ServiceClient.Service.constructor | frontend/src/services/base.service.ts:8-16 | A client is bound to its endpoint, its identifier encoding and the browser. |
| ServiceClient.Service.Send | frontend/src/services/base.service.ts:19-45 | One call through both interceptors: the request sent, the result the caller sees, and the storage and location afterwards. |
| ServiceClient.Service.GetAll | frontend/src/services/base.service.ts:48-51 | GET on the endpoint itself. |
| ServiceClient.Service.GetById | frontend/src/services/base.service.ts:53-57 | GET on the endpoint, '/', and the formatted identifier. |
| ServiceClient.Service.Create | frontend/src/services/base.service.ts:59-62 | POST of the record to the endpoint. |
| ServiceClient.Service.Update | frontend/src/services/base.service.ts:64-67 | PUT of the record to the bare endpoint; the identifier is not used. |
| ServiceClient.Service.Delete | frontend/src/services/base.service.ts:69-72 | DELETE on the same record path as `getById`. |
| ServiceClient.Service.TestConnection | frontend/src/services/base.service.ts:74-77 | GET on the endpoint followed by "/test". |
| ServiceClient.NumericRecordPathsDistinct | frontend/src/services/base.service.ts:53-72 | Without encoding, `getById`/`delete` of two integer ids target the same URL exactly when the ids are equal. |
| CultureService.CulturePathSegment | frontend/src/services/CultureService.ts:10-23 | `getById` and `delete` target "/Culture/" + `encodeURIComponent(formatId(id))`; the segment has no raw space and no '/'. |
| CultureService.CulturePathDecodes | frontend/src/services/CultureService.ts:12-14 | For an ASCII identifier, decoding the segment gives back the padded identifier. |
| CultureService.EncodeOfSpaces | frontend/src/services/CultureService.ts:12-13 | The padding spaces are sent as one "%20" each. |
| CultureService.CulturePathOfShortUnescapedCode | frontend/src/services/CultureService.ts:12-13 | A short code of unescaped characters is sent as itself plus one "%20" per padding space. |
| CultureService.CulturePathOfShortCode | frontend/src/services/CultureService.ts:12-13 | A two-character code such as "en" becomes the code followed by four "%20". |
| CultureService.CulturePathOfRegionCode | frontend/src/services/CultureService.ts:13 | A five-character code such as "en-US" becomes the code followed by one "%20". |
| CultureService.CulturePathOfNumberOfCode | frontend/src/hooks/useObjects.ts:140 | A culture code that `Number(id)` turns into NaN is always sent to "/Culture/NaN". |
| ErrorHandler.ErrorSlots.constructor | frontend/src/hooks/useErrorHandler.ts:5-6 | `error` starts null and `loading` starts false. |
| ErrorHandler.ErrorSlots.HandleError | frontend/src/hooks/useErrorHandler.ts:8-13 | The message becomes the error, whatever failure is logged; loading is unchanged. |
| ErrorHandler.ErrorSlots.ResetError | frontend/src/hooks/useErrorHandler.ts:15-17 | The error becomes null; nothing else changes. |
| ErrorHandler.ErrorSlots.SetLoading | frontend/src/hooks/useErrorHandler.ts:22 | Only `loading` changes. |
| Collections.ReplaceWhere | frontend/src/hooks/useObjects.ts:65 | The map keeps the list's length. |
| Collections.ReplaceWhereAt | frontend/src/hooks/useObjects.ts:64-66 | Each position holds the new record if it matched, and its old record otherwise. |
| Collections.ReplaceWhereNoMatch | frontend/src/hooks/useObjects.ts:64-66 | When nothing matches, the list is unchanged. |
| Collections.ReplaceWhereUnique | frontend/src/hooks/useObjects.ts:64-66 | When exactly one record matches, only that position changes. |
| Collections.RemoveWhere | frontend/src/hooks/useObjects.ts:78 | The filter never lengthens the list. |
| Collections.RemoveWhereCounts | frontend/src/hooks/useObjects.ts:77-79 | Matching records are gone; every other record keeps its number of occurrences. |
| Collections.RemoveWhereConcat | frontend/src/hooks/useObjects.ts:77-79 | Filtering distributes over concatenation, so the remaining records keep their order. |
| Collections.RemoveWhereNoMatch | frontend/src/hooks/useObjects.ts:77-79 | When nothing matches, the list is unchanged. |
| Collections.FindFirstSpec | frontend/src/hooks/useObjects.ts:86-88 | `find` succeeds exactly when some record matches, and returns the earliest match. |
| Collections.LexLeReflexive | frontend/src/hooks/useObjects.ts:99 | The comparator of the sort is reflexive. |
| Collections.LexLeTotal | frontend/src/hooks/useObjects.ts:99 | The comparator is total. |
| Collections.LexLeAntisymmetric | frontend/src/hooks/useObjects.ts:99 | The comparator is antisymmetric. |
| Collections.LexLeTransitive | frontend/src/hooks/useObjects.ts:99 | The comparator is transitive. |
| Collections.TextOrderIsNotNumeric | frontend/src/hooks/useObjects.ts:99 | "10" sorts strictly before "2". |
| Collections.SortBySpec | frontend/src/hooks/useObjects.ts:97-102 | The sorted view is in key order and is a permutation of the records. |
| UseObjects.DefaultKeyOfShippers | frontend/src/hooks/useObjects.ts:30 | Under the default key `item.id \|\| item.shipperId`, records without a truthy `id` are found, replaced and removed by their `shipperId`. |
| UseObjects.DefaultKeyOfIdentified | frontend/src/hooks/useObjects.ts:30 | Under the default key, records with a truthy `id` are found, replaced and removed by that `id`, whatever their `shipperId`. |
| UseObjects.TenSortsBeforeTwo | frontend/src/hooks/useObjects.ts:97-102 | The record with key 10 is listed before the one with key 2. |
| UseObjects.NaNKeyMatchesNothing | frontend/src/hooks/useObjects.ts:61-88 | A NaN key matches no record, so update, delete and find by it change or find nothing. |
| UseObjects.ObjectsHook.constructor | frontend/src/hooks/useObjects.ts:25-34 | The hook starts with the initial records and cleared slots. |
| UseObjects.ObjectsHook.FetchObjects | frontend/src/hooks/useObjects.ts:36-48 | Success replaces the records and keeps any earlier error; failure keeps them and sets the fetch message; loading ends false. |
| UseObjects.ObjectsHook.CreateObject | frontend/src/hooks/useObjects.ts:50-59 | Success appends the server's record, not the argument; failure keeps the list, sets the message and passes the failure on. |
| UseObjects.ObjectsHook.UpdateObject | frontend/src/hooks/useObjects.ts:61-72 | PUT with `Number(id)`; on success every record whose key is `id` becomes the server's record; failure keeps the list and is passed on. |
| UseObjects.ObjectsHook.DeleteObject | frontend/src/hooks/useObjects.ts:74-84 | DELETE on the path of `Number(id)`; on success exactly the records keyed `id` are dropped; failure keeps the list and is passed on. |
| UseObjects.ObjectsHook.SetObjects | frontend/src/hooks/useObjects.ts:33 | The records become the given list. |
| UseObjects.ObjectDetails.constructor | frontend/src/hooks/useObjects.ts:124-133 | The hook starts with the initial record and cleared slots. |
| UseObjects.ObjectDetails.FetchObjectDetails | frontend/src/hooks/useObjects.ts:135-149 | Without an id nothing happens. Otherwise a GET goes to the path of `Number(id)`: success sets the record, failure sets the details message, and loading ends false. |
| UseObjects.ObjectDetails.UpdateObject | frontend/src/hooks/useObjects.ts:151-162 | Without an id it resolves to null and sends nothing. Otherwise success keeps the server's record; failure sets the message and is passed on. |
| UseObjects.ObjectDetails.SetObject | frontend/src/hooks/useObjects.ts:132 | The record becomes the given value. |
| UseObjects.ObjectForm.constructor | frontend/src/hooks/useObjects.ts:182-184 | The form starts at the initial state. |
| UseObjects.ObjectForm.HandleInputChange | frontend/src/hooks/useObjects.ts:186-192 | Only the named field takes the new value. |
| UseObjects.ObjectForm.ResetForm | frontend/src/hooks/useObjects.ts:194-196 | The form returns to the initial state. |
| UseObjects.ObjectForm.SetFormData | frontend/src/hooks/useObjects.ts:183 | The form becomes the given record. |
| UseDepartments.DeleteRemovesExactlyTheId | frontend/src/hooks/useDepartments.ts:68 | After the filter no department has the id; every other department keeps its number of occurrences. |
| UseDepartments.DepartmentsHook.constructor | frontend/src/hooks/useDepartments.ts:7-11 | The list starts empty, with loading false and no error. |
| UseDepartments.DepartmentsHook.FetchDepartments | frontend/src/hooks/useDepartments.ts:13-25 | The error is cleared. Success replaces the list; failure keeps it and sets the fetch message. Loading ends false. |
| UseDepartments.DepartmentsHook.CreateDepartment | frontend/src/hooks/useDepartments.ts:27-41 | The answer is true exactly on success, which appends the server's department. Failure keeps the list and sets the create message. |
| UseDepartments.DepartmentsHook.UpdateDepartment | frontend/src/hooks/useDepartments.ts:43-61 | The answer is true exactly on success. The departments carrying the returned department's id (not the argument's) are replaced. |
| UseDepartments.DepartmentsHook.DeleteDepartment | frontend/src/hooks/useDepartments.ts:63-77 | The answer is true exactly on success, which drops the departments with that id. Failure keeps the list and sets the delete message. |
| DepartmentsPage.BeforeT | frontend/src/pages/DepartmentsPage.tsx:79 | `split('T')[0]` is the longest prefix without 'T'. |
| DepartmentsPage.BeforeTOfTimestamp | frontend/src/pages/DepartmentsPage.tsx:79 | An ISO timestamp loses its time part. |
| DepartmentsPage.EditFormKeepsDepartment | frontend/src/pages/DepartmentsPage.tsx:73-83 | The edit form keeps the department's id, name, budget, administrator and start date (without the time). |
| DepartmentsPage.DepartmentsView.constructor | frontend/src/pages/DepartmentsPage.tsx:16-33 | The page starts with the modal closed, nothing being edited, no error and the blank form. |
| DepartmentsPage.DepartmentsView.ResetForm | frontend/src/pages/DepartmentsPage.tsx:91-102 | The form is blank, nothing is being edited and the page error is cleared. |
| DepartmentsPage.DepartmentsView.HandleEdit | frontend/src/pages/DepartmentsPage.tsx:73-83 | The department is being edited, the form holds it, and the modal is open. |
| DepartmentsPage.DepartmentsView.HandleSubmit | frontend/src/pages/DepartmentsPage.tsx:35-71 | A new department with a missing or 0 id is refused with the id message, and nothing is sent or changed. An edit PUTs the edited department's own id; a create POSTs the form's id. On success the hook replaces by the returned id (edit) or appends the returned department (create), and the form resets and the modal closes. On failure the list stays and the hook shows the update or create message. Storage and location follow the interceptors. |
| DepartmentsPage.DepartmentsView.HandleDelete | frontend/src/pages/DepartmentsPage.tsx:85-89 | Declined: nothing is sent or changed. Confirmed: DELETE on the department's path; success drops exactly the departments with that id, failure keeps the list and shows the delete message; storage and location follow the interceptors. |
| AuthInterfaces.ParseOfSerialize | frontend/src/services/auth.service.ts:92-115 | The user record stored by `saveUserData` is read back unchanged. |
| AuthInterfaces.ParseOfEmpty | frontend/src/services/auth.service.ts:105 | Text that is not a stored record (the empty text) does not parse. |
| AuthInterfaces.SerializeInjective | frontend/src/services/auth.service.ts:94 | Distinct user records are stored as distinct texts. |
| AuthService.ExpiringSoonIff | frontend/src/services/auth.service.ts:169-178 | Expiring soon means at most `minutesBefore` minutes remain, with an expiration present; a token already expired counts. |
| AuthService.NoSessionNoRoles | frontend/src/services/auth.service.ts:145-166 | With no readable user record: no roles, so `hasRole` is false; no name and no expiration. |
| AuthService.SavedSessionProfile | frontend/src/services/auth.service.ts:157-166 | After a login's writes, `getUserName` reports the saved name (null when it is empty) and `getTokenExpirationTime` the saved expiration. |
| AuthService.SavedSessionReadsBack | frontend/src/services/auth.service.ts:66-115 | After a login's two writes, the token and the same user record (and its roles) are read back. |
| AuthService.SavedSessionAuthenticated | frontend/src/services/auth.service.ts:126-142 | A saved session with a non-empty token is authenticated exactly until its expiration passes. |
| AuthService.ClearedSessionIsEmpty | frontend/src/services/auth.service.ts:60-63 | After a logout neither key can be read and no one is authenticated; a second logout changes nothing. |
| AuthService.Auth.constructor | frontend/src/services/auth.service.ts:14-22 | The service is bound to the browser. |
| AuthService.Auth.Login | frontend/src/services/auth.service.ts:24-54 | A response with a token saves the token and the user record, and resolves to the record. Any failure, including a response without a token, removes both keys and rejects. |
| AuthService.Auth.Register | frontend/src/services/auth.service.ts:56-58 | Resolves exactly when the server accepts. |
| AuthService.Auth.Logout | frontend/src/services/auth.service.ts:60-63 | Both keys are removed. |
| AuthService.Auth.SaveToken | frontend/src/services/auth.service.ts:66-72 | The token is stored when storage allows; a blocked storage is swallowed. |
| AuthService.Auth.RemoveToken | frontend/src/services/auth.service.ts:83-89 | The token key is removed when storage allows. |
| AuthService.Auth.SaveUserData | frontend/src/services/auth.service.ts:92-98 | The record's text is stored when storage allows. |
| AuthService.Auth.RemoveUserData | frontend/src/services/auth.service.ts:117-123 | The record key is removed when storage allows. |
| AuthService.Auth.IsAuthenticated | frontend/src/services/auth.service.ts:126-142 | True exactly with a token, a readable record and no passed expiration. An expired session is logged out. |
| AuthContext.AuthProvider.constructor | frontend/src/context/AuthContext.tsx:33-34 | No user, and loading. |
| AuthContext.AuthProvider.Init | frontend/src/context/AuthContext.tsx:39-59 | The stored user is taken only when the session is authenticated; an expired session is logged out; loading ends false; the location is never touched. |
| AuthContext.AuthProvider.Login | frontend/src/context/AuthContext.tsx:65-84 | True exactly when the service logs in; the user is then the returned record, and otherwise unchanged; loading ends false; the location is never touched. |
| AuthContext.AuthProvider.Register | frontend/src/context/AuthContext.tsx:86-97 | True exactly when the server accepts; the user is never touched. |
| AuthContext.AuthProvider.Logout | frontend/src/context/AuthContext.tsx:99-102 | Both keys are removed and there is no user; the location is never touched. |
| AuthContext.AuthProvider.IsAuthenticated | frontend/src/context/AuthContext.tsx:130 | Recomputed through the service, so it can log out an expired session; the location is never touched. |
| Pages.RequireText | frontend/src/pages/EmpleadoCreate.tsx:39 | The value passes exactly when it is text that is not blank after trimming; blank text is refused with the given message. |
| Pages.RequirePositiveOfNumber | frontend/src/pages/EmpleadoCreate.tsx:40 | A numeric salary passes exactly when it is positive. |
| Pages.RequirePositiveOfDecimal | frontend/src/pages/EmpleadoCreate.tsx:40 | A salary typed as integer text passes exactly when the integer is positive. |
| Pages.SalaryInputOfNonNumeric | frontend/src/pages/EmpleadoCreate.tsx:16-19 | Input that does not start with a number is stored as 0, which the salary check refuses. |
| Pages.SalaryInputOfDecimal | frontend/src/pages/EmpleadoCreate.tsx:16-19 | A typed integer is stored as that number. |
| Pages.EditScreen | frontend/src/pages/EmpleadoEdit.tsx:64-66 | Loading comes first, then the error when there is no record, then "not found" when there is no record; the form shows exactly when a record is present and nothing is loading. |
| LoginPage.LoginEmotion | frontend/src/pages/LoginPage.tsx:38-50 | Error gives nervous. Then the password focused gives hiding, and another focus gives watching. Then both fields filled gives happy. Otherwise neutral. Each is an if-and-only-if. |
| LoginPage.LoginView.constructor | frontend/src/pages/LoginPage.tsx:11-27 | Empty fields, no error or focus, a neutral owl, and the redirect target fixed. |
| LoginPage.LoginView.HandleChange | frontend/src/pages/LoginPage.tsx:52-59 | Only the named field changes and the error is cleared. |
| LoginPage.LoginView.HandleFocus | frontend/src/pages/LoginPage.tsx:61-63 | The field is focused and the owl follows. |
| LoginPage.LoginView.HandleBlur | frontend/src/pages/LoginPage.tsx:65-67 | Nothing is focused and the owl follows. |
| LoginPage.LoginView.HandleSubmit | frontend/src/pages/LoginPage.tsx:69-87 | An empty field shows the required-fields message and does not call login, leaving the provider's user, loading flag and storage as they were. Otherwise loading ends false, success celebrates, saves the session and leads to the target; failure shows the credentials message and clears the session. The location is never touched. |
| RegisterPage.ValidEmailSound | frontend/src/pages/RegisterPage.tsx:86-87 | A text the direct e-mail check accepts matches the pattern `^[^\s@]+@[^\s@]+\.[^\s@]+$`. |
| RegisterPage.ValidEmailComplete | frontend/src/pages/RegisterPage.tsx:86-87 | Every text matching the pattern passes the direct check. |
| RegisterPage.ValidEmailIff | frontend/src/pages/RegisterPage.tsx:86-87 | The direct check and the pattern agree on every text. |
| RegisterPage.Validate | frontend/src/pages/RegisterPage.tsx:70-93 | The checks run in order: all fields filled, passwords equal, at least six code units, e-mail pattern. Each message appears exactly when its check is the first to fail; no message means all pass. |
| RegisterPage.FiveCharactersAreTooShort | frontend/src/pages/RegisterPage.tsx:81-84 | A five-character password is refused for its length. |
| RegisterPage.RegisterEmotion | frontend/src/pages/RegisterPage.tsx:39-51 | Error gives nervous. Then either password field focused gives hiding, and another focus gives watching. Then all four fields filled gives happy. Otherwise neutral. Each is an if-and-only-if. |
| RegisterPage.RegisterView.constructor | frontend/src/pages/RegisterPage.tsx:11-18 | Empty form, no error, no success, a neutral owl. |
| RegisterPage.RegisterView.HandleChange | frontend/src/pages/RegisterPage.tsx:53-60 | Only the named field changes and the error is cleared. |
| RegisterPage.RegisterView.HandleFocus | frontend/src/pages/RegisterPage.tsx:62-64 | The field is focused and the owl follows. |
| RegisterPage.RegisterView.HandleBlur | frontend/src/pages/RegisterPage.tsx:66-68 | Nothing is focused and the owl follows. |
| RegisterPage.RegisterView.HandleSubmit | frontend/src/pages/RegisterPage.tsx:95-119 | A failed check shows its message, sends nothing and leaves the provider's loading flag. Otherwise loading ends false and the name, e-mail and password are sent (no confirmation). Success celebrates and leads to "/login"; failure shows the account message. |
| EmpleadoPages.ValidateEmpleado | frontend/src/pages/EmpleadoCreate.tsx:39-40 | The name is checked before the salary; a pass implies a non-blank name. |
| EmpleadoPages.ValidateEmpleadoOfNumber | frontend/src/pages/EmpleadoCreate.tsx:40 | With a valid name and a numeric salary, the form passes exactly when the salary is positive, and is refused with the salary message otherwise. |
| EmpleadoPages.InitialEmpleadoRefused | frontend/src/pages/EmpleadoCreate.tsx:39 | The untouched form is refused for its empty name. |
| EmpleadoPages.NonNumericSalaryRefused | frontend/src/pages/EmpleadoCreate.tsx:16-40 | A salary typed as non-numeric text is stored as 0 and refused. |
| EmpleadoPages.EmpleadoCreateView.constructor | frontend/src/pages/EmpleadoCreate.tsx:10-14 | The form starts at the empty name and salary 0. |
| EmpleadoPages.EmpleadoCreateView.HandleInputChange | frontend/src/pages/EmpleadoCreate.tsx:10 | Only the named field takes the typed text. |
| EmpleadoPages.EmpleadoCreateView.HandleSalarioChange | frontend/src/pages/EmpleadoCreate.tsx:16-19 | The field takes `parseFloat(value) \|\| 0`, always a number. |
| EmpleadoPages.EmpleadoCreateView.HandleSubmit | frontend/src/pages/EmpleadoCreate.tsx:21-52 | A declined dialog does nothing. A refused form alerts the check's message and sends nothing. A valid one is POSTed; success navigates to "/empleados", failure alerts it. Loading ends false. |
| EmpleadoPages.EmpleadoEditView.constructor | frontend/src/pages/EmpleadoEdit.tsx:12-18 | Separate details and form hooks; no record yet. |
| EmpleadoPages.EmpleadoEditView.SyncForm | frontend/src/pages/EmpleadoEdit.tsx:20-22 | A present record overwrites the form. |
| EmpleadoPages.EmpleadoEditView.Load | frontend/src/hooks/useObjects.ts:164-168 | Without a route id nothing happens. Otherwise a GET of `Number(id)`: success sets the record and the form follows it; failure keeps record and form and sets the details message, so with no record yet the page shows the error screen. Storage and location follow the interceptors. |
| EmpleadoPages.EmpleadoEditView.HandleSalarioChange | frontend/src/pages/EmpleadoEdit.tsx:24-27 | The field takes `parseFloat(value) \|\| 0`. |
| EmpleadoPages.EmpleadoEditView.HandleSubmit | frontend/src/pages/EmpleadoEdit.tsx:29-62 | A declined dialog does nothing. The checks run as on the create page. Update and navigation happen only with an id and a valid form; the server's record becomes the form. Saving ends false. Nothing unsent touches storage, location or the hook's error; a sent request sets storage and location as the interceptors do, and only a failure sets the update message. The hook's loading flag is never touched. |
| CulturePages.ValidateCulture | frontend/src/pages/CultureCreate.tsx:35-36 | The culture id is checked before the name; the form passes exactly when both are non-blank text. |
| CulturePages.InitialCultureRefused | frontend/src/pages/CultureCreate.tsx:35 | The untouched form is refused for its empty culture id. |
| CulturePages.Stamped | frontend/src/pages/CultureEdit.tsx:46-49 | The submitted record is the form with only `modifiedDate` replaced by now. |
| CulturePages.StampedValidatesAlike | frontend/src/pages/CultureEdit.tsx:42-49 | Stamping does not change what the checks decide. |
| CulturePages.CultureCreateView.constructor | frontend/src/pages/CultureCreate.tsx:10-15 | The form starts with empty id and name, dated now. |
| CulturePages.CultureCreateView.HandleInputChange | frontend/src/pages/CultureCreate.tsx:10 | Only the named field takes the typed text. |
| CulturePages.CultureCreateView.HandleSubmit | frontend/src/pages/CultureCreate.tsx:17-48 | A declined dialog does nothing. A refused form alerts the check's message and sends nothing. A valid one is POSTed; success navigates to "/cultures". Loading ends false. |
| CulturePages.CultureEditView.constructor | frontend/src/pages/CultureEdit.tsx:12-18 | Separate details and form hooks; no record yet. |
| CulturePages.CultureEditView.SyncForm | frontend/src/pages/CultureEdit.tsx:20-22 | A present record overwrites the form. |
| CulturePages.CultureEditView.Load | frontend/src/hooks/useObjects.ts:164-168 | Without a route id nothing happens. Otherwise a GET of `Number(id)`: success sets the record and the form follows it; failure keeps record and form and sets the details message, so with no record yet the page shows the error screen. Storage and location follow the interceptors. |
| CulturePages.CultureEditView.HandleInputChange | frontend/src/pages/CultureEdit.tsx:13 | Only the named field takes the typed text. |
| CulturePages.CultureEditView.HandleSubmit | frontend/src/pages/CultureEdit.tsx:24-63 | A declined dialog does nothing. The checks run on the form. A valid form is stamped with now and PUT only when the route has an id; success navigates to "/cultures". Saving ends false. Nothing unsent touches storage, location or the hook's error; a sent request sets storage and location as the interceptors do, and only a failure sets the update message. The hook's loading flag is never touched. |

## Left out

- Numbers: `Number`, `parseFloat` and the identifiers are integers and reals, never IEEE doubles. Text with a fraction or an exponent, hexadecimal text and "Infinity" convert to NaN under `Number`. `parseFloat` reads decimal notation only, without exponents and without "Infinity" (which a browser reads as infinity). Very large integers are not rounded.
- Js.DecodeOfEncode, CultureService.CulturePathDecodes: the decode round trip is stated for ASCII text only. `encodeURIComponent` is defined for all characters, but non-ASCII round trips are not stated.
- The JSON text of `userData`: `JSON.stringify`/`JSON.parse` are replaced by a length-prefixed text with a proven round trip. The Date fields are milliseconds, and None stands for an invalid date. Text that is valid JSON but not a user record is treated as unparsable. A login response whose `roles` is null is not modelled.
- `administrator`: null and a missing value are both None.
- `localeCompare` is modelled as code-point lexicographic order on the keys' characters. Its locale collation is not modelled, and neither is the difference from UTF-16 code-unit order (characters above U+FFFF against U+E000 to U+FFFF). The sort is an insertion sort. The model proves the result sorted and a permutation, but not the order among equal keys.
- axios: no real transport. The server's answer is a parameter, and a rejection carries only its failure kind. The message of an axios error in the pages' alerts is not kept (the alert keeps the failure).
- SweetAlert dialogs: their answer is the `confirmed` parameter. The closing success/error dialogs are recorded as the `alert` field.
- `setTimeout` before navigation: the navigation is recorded immediately.
- The `onSuccess`/`onError` callbacks of the hooks and all console logging.
- The `catch` of `initAuth` is not modelled. Every service call it makes catches its own storage errors, so it never runs.
- A storage removal that throws in the response interceptor: the interceptor has just read storage, so removal cannot throw there.
- The `useEffect` mount fetches (`autoFetch`): the page's `Load` (or the hook's fetch) is called by the user of the model. The list page's `useMemo` is the `SortedObjects` function.
- department.service.ts, EmpleadoService.ts and shipperService.ts are not part of this model beyond their endpoints (they only log around the base client). The `testConnection` overrides of EmpleadoService (GET on "/Empleado") and shipperService (GET on "/Shipper") are not part of this model.
- The DepartmentsPage inputs (`parseInt`/`parseFloat` of the typed text and the list's formatting) are not part of this model. The form holds numbers directly.
- OwlGuardian, the mouse position and the show-password toggles: presentation only.
- EmpleadoCreate's and CultureCreate's `error` from `useObjectForm` is never set there, so the model only clears it. The pages' `isLoading` from `useAuth` only disables buttons.
- `new Date().toISOString()`: the current time is a text parameter `now`.
- CultureService.CulturePathOfShortCode, CultureService.CulturePathOfRegionCode: stated for every code of two and five unescaped characters, rather than only the examples "en" and "en-US".
