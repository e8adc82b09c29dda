# AssetVerse client: a Dafny model of its state rules

AssetVerse is a React client for managing corporate assets. HR managers register a company, add inventory and answer employee requests. Employees browse assets, ask for them, and see what they have been assigned. The client is mostly forms that POST and lists that GET. This project models the local decisions those components make and the state they keep, and proves what they promise.

Every interaction with the outside world is an input value:

- an axios outcome is `Api.Reply` (resolved with a status and data, or rejected with an optional status and message);
- a `fetch` that is followed by the code's own JSON parse is `Api.Fetched` (a response of any status, or a thrown error; `Ok()` is `res.ok`);
- `window.confirm` is a boolean;
- the stored `userInfo` is an optional `User`.

Everything a component does to the world is appended, in order, to a `log` of `Api.Effect`s: requests sent, navigations, alerts, dialogs and localStorage writes. Because of that, "no DELETE without confirmation" and "navigate only after success" can be stated as facts about the log.

The modules follow the source files:

- **Session** (`AuthProvider.jsx`) is a class with `user` and `loading`. Each of the six operations records the call it issues together with the value of `loading` while that call is pending. `logout` keeps the user and rethrows when the server call fails.
- **Interceptor** (`useAxiosSecure.jsx`) is the secure client's error handler. Status 401 or 403 signs out through `Session`, then navigates to `/login`. Every error is rejected to the caller. If the sign-out itself fails, `await logout()` throws: the navigation is skipped and the handler rejects with the sign-out's error.
- **Navigation** (`Navbar.jsx`) and **DashboardPage** (`Dashboard.jsx`) hold the menus as pure functions of the user and role, the avatar fallback, and each component's own toggles and sign-out.
  - The avatar name is URI-encoded (module **Uri**, `encodeURIComponent`). A lemma shows that the generated URL therefore carries the whole name as exactly one query parameter.
- **RegistrationRules**, **HrRegistration** and **EmployeeRegistration** cover the two registration forms.
  - The password regex `^(?=.*[A-Z])(?=.*[a-z])(?=.*\W).+$` is modelled the way the engine runs it. `.` stops at line terminators. The lookaheads are proved equivalent to plain "contains" tests. `_` is a word character, so it does not count as special, and no digit is needed.
  - Length is JavaScript's UTF-16 `.length`.
  - Rules are checked in the order required, minLength, pattern.
  - Each form's request body is proved to read back into the form.
- **AssetFormPage** and **RequestFormPage** cover the two creation forms.
  - The quantity goes through `parseInt` (module **JsNumber**), and NaN is sent as null.
  - Only status 201 counts as success.
  - The request form offers only `"Available"` assets, and always sends `requestType` "Request".
- **ProfilePage** loads its fields from the stored user. The update body gets `companyLogo` exactly for role "hr". A timer clears the success message.
- **AssetListView**, **MyAssetsView** and **RequestAssetView** build their URLs with `let query` and `+=` (module **Query**).
  - Each `+=` method is proved equal to `Query.Url`. A parser of the query string is the partner: it reads back exactly the non-empty filters, in order, as long as no value contains `&` or `#`.
  - The query the parser reads is the one the browser sends: the text after `?` up to the first `#`, because the fragment is never sent. The parser splits at `&` and at each piece's first `=`, and does no `%` or `+` decoding.
  - Values are not encoded, so a search text can pose as the type filter, and a search starting with `#` reaches the server as an empty search. Lemmas exhibit both.
- **RequestListView** (`RequestList.jsx`) compares roles with "HR", capitalised, unlike every other file. A lemma shows that a user with role "hr" gets the own-requests endpoint and no actions column.
- **MyTeamView** fetches companies, then selects the first one, then fetches that company's team. **MyEmployeesView** fetches, then removes after confirmation, then refetches.
- **PaymentVerification**, **PackagesSection** and **FaqSection** cover the payment return page, the package table with its fallback and colour cycle, and the single-open accordion.
  - Clicking an FAQ item twice restores the previous state only when nothing, or that same item, was open. When another item was open, the two clicks leave everything closed.

Behaviour of the code worth noting:

- Logout rethrows on failure and keeps the user. It does not clear the user regardless of the outcome.
- The list queries carry only `search` and then `type`. There is no page, limit or sort.
- The own-requests path is `/api/requests/myrequests`.
- Approve and Reject ask for no confirmation, and no error message routes to an upgrade prompt.
- No list guards against stale responses.
- A search starting with `#` is cut off by the browser as a URL fragment: the server receives `search=` and no type filter.
- An intercepted 401/403 is still rejected to the caller, which then shows its own error. The payment page, for example, navigates to `/subscription` after the interceptor has navigated to `/login`.

## Model

| member | source | states |
|---|---|---|
| Api.OrElse | src/pages/Auth/RegisterHr/RegisterHR.jsx:40 | `s \|\| fallback` on an optional string: the value when present and non-empty, the fallback otherwise |
| Session.LoginCall | src/providers/AuthProvider.jsx:33 | login POSTs to `/users/login` with the body `{email, password}` holding exactly the two arguments |
| Session.Checked | src/providers/AuthProvider.jsx:15-24 | after `checkUser` the user is present iff the call resolved, and then is the returned identity |
| Session.Replaced | src/providers/AuthProvider.jsx:30-37 | the user after login, register or updateUser: the server's identity on success, the previous user on failure |
| Session.LoggedOut | src/providers/AuthProvider.jsx:56-66 | the user after logout: absent on success, unchanged on failure |
| Session.AuthProvider.constructor | src/providers/AuthProvider.jsx:7-8 | the provider starts with no user and `loading` true |
| Session.AuthProvider.Mount | src/providers/AuthProvider.jsx:26-28 | mounting runs `checkUser` exactly once (it requires a provider not yet mounted) |
| Session.AuthProvider.CheckUser | src/providers/AuthProvider.jsx:15-24 | issues `GET /users/me` without raising `loading`, sets the user by `Checked`, and ends with `loading` false |
| Session.AuthProvider.Login | src/providers/AuthProvider.jsx:30-41 | `loading` is true while the call is pending and false after; the user follows `Replaced`; the reply (data or error) is returned unchanged |
| Session.AuthProvider.Register | src/providers/AuthProvider.jsx:43-54 | same as Login for `POST /users/register` with the given body |
| Session.AuthProvider.Logout | src/providers/AuthProvider.jsx:56-66 | `loading` is true during the call and false after; the user follows `LoggedOut`; a failure is rethrown |
| Session.AuthProvider.UpdateUser | src/providers/AuthProvider.jsx:68-79 | same as Login for `PUT /users/profile` with the given body |
| Session.SignInThenOut | src/providers/AuthProvider.jsx:30-66 | a sign-in followed by a sign-out issues exactly those two calls with `loading` raised, ends with `loading` false, and keeps the signed-in user when the sign-out fails |
| Interceptor.React | src/hooks/useAxiosSecure.jsx:16-23 | signs out iff the status is 401 or 403; navigates to `/login` iff it signed out and the sign-out resolved; rejects with the original error unless the sign-out itself failed |
| Interceptor.OtherErrorsUntouched | src/hooks/useAxiosSecure.jsx:17-18 | an error without a response, or with another status, causes neither sign-out nor navigation and is rejected unchanged |
| Interceptor.SecureClient.OnFulfilled | src/hooks/useAxiosSecure.jsx:15 | successful responses pass through unchanged |
| Interceptor.SecureClient.OnRejected | src/hooks/useAxiosSecure.jsx:16-23 | for 401/403 it calls the provider's Logout and then appends `/login` to the navigations; for other errors the provider is untouched; the rejection is `React`'s |
| Interceptor.SecureClient.Send | src/hooks/useAxiosSecure.jsx:14-24 | a call through the secure client: resolved replies are seen unchanged with no state change; rejected ones are seen rejected, after the handler's effects |
| Navigation.RoleLinks | src/components/Navbar/Navbar.jsx:80-106 | "hr" gets Assets, My Team (`/my-employees`) and Requests; "employee" gets My Assets, My Team (`/my-team`) and Request Asset; any other role gets none |
| Navigation.DesktopMenu | src/components/Navbar/Navbar.jsx:49-112 | a visitor gets Home, Join as Employee, Join as HR Manager; a signed-in user gets the role's links and then Dashboard, last; Dashboard appears iff signed in; an unknown role sees only Dashboard |
| Navigation.MobileMenu | src/components/Navbar/Navbar.jsx:162-237 | a visitor gets the public links and Login; a signed-in user gets Dashboard first, then the role's links |
| Navigation.MenusAgree | src/components/Navbar/Navbar.jsx:49-237 | for a signed-in user both menus hold the same links (same multiset); for a visitor the mobile menu is the desktop one plus Login |
| Navigation.MenusWithoutRepeats | src/components/Navbar/Navbar.jsx:49-112 | no destination occurs twice in either menu |
| Navigation.Avatar | src/components/Navbar/Navbar.jsx:128-133 | the profile image when set and non-empty, otherwise the ui-avatars URL with the URI-encoded name |
| Navigation.AvatarCarriesWholeName | src/components/Navbar/Navbar.jsx:130-132 | for any non-empty name, the generated URL's query reads back as exactly one parameter `name` holding the encoded name |
| Navigation.ProfileCorner | src/components/Navbar/Navbar.jsx:117-147 | a Login button iff no user; otherwise the avatar, name and role |
| Navigation.Navbar.FetchUser | src/components/Navbar/Navbar.jsx:15-22 | issues `GET /users/me`; the user becomes the returned identity, or absent on any failure |
| Navigation.Navbar.HandleLogout | src/components/Navbar/Navbar.jsx:27-33 | POSTs `/users/logout`; only on success is the user cleared and `/login` navigated to; a failure changes nothing else |
| Navigation.Navbar.ToggleMenu | src/components/Navbar/Navbar.jsx:153 | the toggle negates `menuOpen` |
| Navigation.Navbar.FollowMobileLink | src/components/Navbar/Navbar.jsx:164-235 | following any link of the open mobile menu navigates to it and closes the menu |
| Uri.EncodeComponent | src/components/Navbar/Navbar.jsx:130-132 | `encodeURIComponent`: every output character is unreserved or part of a `%XX` escape, and the output is never shorter |
| Uri.EncodeIdentity | src/components/Navbar/Navbar.jsx:130-132 | encoding leaves a string unchanged iff every character is unreserved |
| Uri.EncodeAppend | src/components/Navbar/Navbar.jsx:130-132 | encoding works character by character: it distributes over concatenation |
| Uri.EncodeSpace | src/components/Navbar/Navbar.jsx:130-132 | a space between unreserved text becomes `%20`, and the text around it stays |
| Uri.EncodeAmpersand | src/components/Navbar/Navbar.jsx:130-132 | an `&` between unreserved text becomes `%26`, so it cannot start a further parameter |
| Uri.EncodeAccent | src/components/Navbar/Navbar.jsx:130-132 | `é` becomes the escapes of its two UTF-8 bytes, `%C3%A9` |
| DashboardPage.Sidebar | src/pages/Dashboard/Dashboard.jsx:65-140 | Dashboard (to `/`) first, then for "hr" only Manage Assets, My Employees, Manage Requests and Subscribe, then Settings and Logout |
| DashboardPage.Caption | src/pages/Dashboard/Dashboard.jsx:73-137 | an entry's caption is shown iff the drawer is open |
| DashboardPage.MainPanel | src/pages/Dashboard/Dashboard.jsx:170-203 | charts iff the role is "hr"; every other role gets shortcuts to `/my-assets`, `/request-asset` and `/my-team` |
| DashboardPage.Render | src/pages/Dashboard/Dashboard.jsx:39-43 | only the Loading view while loading or with no user; otherwise the page for the user's role |
| DashboardPage.RedirectOnlyFromLoadingView | src/pages/Dashboard/Dashboard.jsx:24-43 | whenever the guard redirects to `/login`, the page shows only the Loading view |
| DashboardPage.SubscribeOnlyForHr | src/pages/Dashboard/Dashboard.jsx:78-117 | the Subscribe entry is in the sidebar iff the role is "hr", and no hr-only entry appears for another role |
| DashboardPage.Dashboard.constructor | src/pages/Dashboard/Dashboard.jsx:22 | `drawerOpen` starts true |
| DashboardPage.Dashboard.RedirectEffect | src/pages/Dashboard/Dashboard.jsx:24-28 | navigates to `/login` iff loading is over and there is no user |
| DashboardPage.Dashboard.ToggleDrawer | src/pages/Dashboard/Dashboard.jsx:57 | each toggle negates `drawerOpen` |
| DashboardPage.Dashboard.Select | src/pages/Dashboard/Dashboard.jsx:69-122 | choosing a sidebar entry or shortcut navigates to its path |
| DashboardPage.Dashboard.HandleLogout | src/pages/Dashboard/Dashboard.jsx:30-37 | signs out through the provider, then navigates to `/login` only if the sign-out resolved |
| DashboardPage.SignOutFromDashboard | src/pages/Dashboard/Dashboard.jsx:24-37 | after a successful sign-out the redirect effect fires too, so `/login` is navigated to twice; after a failed one nothing navigates |
| RegistrationRules.RequiredError | src/pages/Auth/RegisterHr/RegisterHR.jsx:58 | a `{ required: true }` field fails, with the empty message, iff it is empty |
| RegistrationRules.LookaheadSpec | src/pages/Auth/RegisterHr/RegisterHR.jsx:121 | `(?=.*X)` succeeds iff some character of class X occurs with no line terminator before it |
| RegistrationRules.PatternMeaning | src/pages/Auth/RegisterHr/RegisterHR.jsx:121 | the pattern matches iff the password is one non-empty line containing an `[A-Z]`, an `[a-z]` and a character outside `[A-Za-z0-9_]` |
| RegistrationRules.Utf16Length | src/pages/Auth/RegisterHr/RegisterHR.jsx:116-119 | the minLength check counts UTF-16 code units: between one and two per character, exactly one for characters up to U+FFFF |
| RegistrationRules.PasswordError | src/pages/Auth/RegisterHr/RegisterHR.jsx:114-125 | the password passes iff its length is at least 6 and it is `Strong`; otherwise exactly one of the three messages, in the order required, minLength, pattern |
| RegistrationRules.WordCharactersNeverPass | src/pages/Auth/RegisterHr/RegisterHR.jsx:121 | a password made only of letters, digits and `_` never passes: `_` is not special |
| RegistrationRules.PasswordExamples | src/pages/Auth/RegisterHr/RegisterHR.jsx:114-125 | "Abcde!" passes without a digit; "Abcde_" and "abcde!" fail the pattern; "Ab!" fails minLength |
| RegistrationRules.LineBreakFails | src/pages/Auth/RegisterHr/RegisterHR.jsx:121 | a password of length 6 or more that contains a line break fails the pattern |
| RegistrationRules.FailureText | src/pages/Auth/RegisterHr/RegisterHR.jsx:40 | the failure dialog shows the server's message, or "Something went wrong" when it is missing or empty |
| RegistrationRules.Outcome | src/pages/Auth/RegisterHr/RegisterHR.jsx:26-42 | success shows the success dialog and then navigates to `/`; failure shows "Registration Failed" with `FailureText` and does not navigate |
| HrRegistration.Errors | src/pages/Auth/RegisterHr/RegisterHR.jsx:58-139 | name, companyName, companyLogo and email are required; the password follows `PasswordError`; dateOfBirth has no rule |
| HrRegistration.Payload | src/pages/Auth/RegisterHr/RegisterHR.jsx:16-24 | the body has exactly name, email, password, dateOfBirth, companyName, companyLogo and role "hr" |
| HrRegistration.PayloadRoundTrip | src/pages/Auth/RegisterHr/RegisterHR.jsx:16-24 | reading the body back yields the form as typed |
| HrRegistration.RegisterHrPage.Submit | src/pages/Auth/RegisterHr/RegisterHR.jsx:15-43 | with any field error nothing is sent; otherwise the payload goes to the provider's Register and the log gains `Outcome`; the provider's `mounted` is kept |
| EmployeeRegistration.Errors | src/pages/Auth/RegisterEmployee/RegisterEmployee.jsx:57-109 | name and email are required; the password follows the same `PasswordError`; dateOfBirth has no rule |
| EmployeeRegistration.Payload | src/pages/Auth/RegisterEmployee/RegisterEmployee.jsx:15-22 | the body has exactly name, email, password, dateOfBirth and role "employee", with no company fields |
| EmployeeRegistration.PayloadRoundTrip | src/pages/Auth/RegisterEmployee/RegisterEmployee.jsx:15-22 | reading the body back yields the form as typed |
| EmployeeRegistration.RegisterEmployeePage.Submit | src/pages/Auth/RegisterEmployee/RegisterEmployee.jsx:15-41 | with any field error nothing is sent; otherwise Register is called and success navigates to `/`, failure shows the server message or "Something went wrong"; the provider's `mounted` is kept |
| AssetFormPage.ProductType.Name | src/components/AssetForm/AssetForm.jsx:79-85 | the product type is always "Returnable" or "Non-returnable" |
| AssetFormPage.MissingFields | src/components/AssetForm/AssetForm.jsx:58-94 | productName, productImage and productQuantity are required; productType is not |
| AssetFormPage.Quantity | src/components/AssetForm/AssetForm.jsx:20 | the quantity is sent as the number `parseInt` reads, or null when it reads NaN |
| AssetFormPage.Payload | src/components/AssetForm/AssetForm.jsx:17-22 | the body has exactly productName, productType (one of the two options), productQuantity from `Quantity`, and productImage |
| AssetFormPage.QuantityOfNumeral | src/components/AssetForm/AssetForm.jsx:20 | any whole number typed as a decimal numeral is sent as that number |
| AssetFormPage.QuantityDropsFraction | src/components/AssetForm/AssetForm.jsx:20 | a fractional quantity is sent with its fraction cut off, toward zero |
| AssetFormPage.Outcome | src/components/AssetForm/AssetForm.jsx:24-43 | navigates to `/dashboard` iff the reply resolved with status 201; another resolved status does nothing; a rejection alerts the server message or " failed" |
| AssetFormPage.AssetFormView.Submit | src/components/AssetForm/AssetForm.jsx:16-44 | with a required field empty nothing is sent; otherwise `POST /assets` with the payload, followed by `Outcome` |
| JsNumber.ParseNumeral | src/components/AssetForm/AssetForm.jsx:20 | `parseInt` skips leading white space and reads any decimal numeral back as its value when a non-digit (not `x`) follows |
| JsNumber.ParseEmpty | src/components/AssetForm/AssetForm.jsx:20 | `parseInt("")` is NaN |
| JsNumber.ParseLetters | src/components/AssetForm/AssetForm.jsx:20 | `parseInt("abc")` is NaN |
| RequestFormPage.Available | src/components/RequestForm/RequestForm.jsx:28 | an asset is offered iff it was fetched and its status is "Available" |
| RequestFormPage.AvailableAppend | src/components/RequestForm/RequestForm.jsx:28 | the filter keeps the server's order |
| RequestFormPage.AvailableIdempotent | src/components/RequestForm/RequestForm.jsx:28 | filtering an already filtered list changes nothing |
| RequestFormPage.Field | src/components/RequestForm/RequestForm.jsx:88-123 | the asset selector, with the offered assets, is shown iff the watched type is "Request"; otherwise a disabled input |
| RequestFormPage.MissingAsset | src/components/RequestForm/RequestForm.jsx:95 | the form is blocked iff the type is "Request" and no asset is chosen |
| RequestFormPage.Payload | src/components/RequestForm/RequestForm.jsx:39-43 | requestType is always "Request"; reason is as typed; assetId is present iff it was submitted |
| RequestFormPage.TypeIgnored | src/components/RequestForm/RequestForm.jsx:39-43 | the selected request type has no effect on the body |
| RequestFormPage.RequestFormView.LoadAssets | src/components/RequestForm/RequestForm.jsx:20-36 | `GET /assets`; only a 200 reply replaces the list, with its available assets |
| RequestFormPage.RequestFormView.Submit | src/components/RequestForm/RequestForm.jsx:38-65 | blocked forms send nothing; otherwise `POST /requests` with the payload, then the asset form's `Outcome`: only 201 navigates, with the same "New Asset" dialog |
| RequestFormPage.RequestFormView.Cancel | src/components/RequestForm/RequestForm.jsx:138-141 | Cancel navigates to `/dashboard` and sends no request |
| ProfilePage.Loaded | src/pages/Profile/Profile.jsx:10-21 | from a stored user: the name, the profile image or "", and the company logo or "" only for role "hr" |
| ProfilePage.UpdateBody | src/pages/Profile/Profile.jsx:26-27 | the body has name and profileImage, plus companyLogo exactly for role "hr" |
| ProfilePage.UntouchedSubmitResendsStored | src/pages/Profile/Profile.jsx:10-27 | submitting right after loading sends the stored values back |
| ProfilePage.PreviewSrc | src/pages/Profile/Profile.jsx:69-71 | the preview is the typed image URL, or the ui-avatars URL with the name appended unencoded |
| ProfilePage.Render | src/pages/Profile/Profile.jsx:55-129 | "Loading..." iff no user; the logo field iff role "hr"; the message iff one is set |
| ProfilePage.Profile.Load | src/pages/Profile/Profile.jsx:10-21 | a stored user sets the user and the fields by `Loaded`; no stored user changes nothing |
| ProfilePage.Profile.EditName | src/pages/Profile/Profile.jsx:86 | typing sets only the name |
| ProfilePage.Profile.EditProfileImage | src/pages/Profile/Profile.jsx:110 | typing sets only the profile image |
| ProfilePage.Profile.EditCompanyLogo | src/pages/Profile/Profile.jsx:116-129 | the logo input exists only for "hr" and sets only the logo |
| ProfilePage.Profile.BuildBody | src/pages/Profile/Profile.jsx:26-27 | the body built by assignment equals `UpdateBody` for the user's role |
| ProfilePage.Profile.HandleUpdate | src/pages/Profile/Profile.jsx:23-53 | `PUT /api/users/profile` with `UpdateBody`; on an ok reply the stored userInfo and the user become the reply, the success message is set and a clearing timer starts; otherwise nothing changes |
| ProfilePage.Profile.TimerFires | src/pages/Profile/Profile.jsx:48 | the timer clears the success message |
| Query.Param | src/components/AssetList/AssetList.jsx:13-14 | a filter adds `key=value&` iff its value is non-empty |
| Query.ParseAppend | src/components/AssetList/AssetList.jsx:12-14 | the appended filters parse back to exactly the non-empty ones, in order, when no value holds `&` |
| Query.AppendNoFragment | src/components/AssetList/AssetList.jsx:12-14 | filters whose keys and values hold no `#` append text with no `#`, so none of it falls into the fragment |
| Query.AppendEmpty | src/components/AssetList/AssetList.jsx:12-14 | nothing is appended iff every filter is empty |
| Query.UrlReadsBack | src/components/AssetList/AssetList.jsx:12-14 | the query the browser sends for a built URL (after `?`, before any `#`) parses back to exactly the non-empty filters, in order, when no value holds `&` or `#` |
| Query.UrlBare | src/components/AssetList/AssetList.jsx:12-14 | the URL is the bare `path?` iff every filter is empty |
| AssetListView.QueryShape | src/components/AssetList/AssetList.jsx:12-14 | the `+=` construction equals the filter URL on `/api/assets` |
| AssetListView.QueryReadsBack | src/components/AssetList/AssetList.jsx:12-14 | the server reads search and then type, each iff non-empty, when neither holds `&` or `#` |
| AssetListView.BareQuery | src/components/AssetList/AssetList.jsx:12-14 | the query is exactly `/api/assets?` iff both filters are empty |
| Query.PoseAsSecond | src/components/AssetList/AssetList.jsx:13-14 | a first value holding `&k=v`, with the second filter empty, appends the same text as the two filters set separately |
| AssetListView.SearchCanPoseAsType | src/components/AssetList/AssetList.jsx:13-14 | values are not encoded: the search text `s&type=t` builds the same URL as the search `s` with the type filter `t` |
| Query.FragmentCutsFirst | src/components/AssetList/AssetList.jsx:12-14 | a first value starting with `#` opens the fragment: the server reads that filter as empty and no later filter at all |
| AssetListView.FragmentCutsSearch | src/components/AssetList/AssetList.jsx:13-16 | for every search starting with `#` and every type, the server reads only an empty search |
| Api.OrEmpty | src/components/AssetList/AssetList.jsx:18 | `data.assets \|\| []`: the list when the field is present, empty when it is missing or null |
| AssetListView.Badge | src/components/AssetList/AssetList.jsx:97-103 | warning iff "Returnable", otherwise ghost |
| AssetListView.Table | src/components/AssetList/AssetList.jsx:86-127 | the single "No assets found." row iff the list is empty |
| AssetListView.AssetList.BuildQuery | src/components/AssetList/AssetList.jsx:12-14 | the `let query` / `+=` method computes `AssetQuery` of the current filters |
| AssetListView.AssetList.FetchAssets | src/components/AssetList/AssetList.jsx:10-22 | issues GET on that query; any parsed reply, whatever its status, replaces the list by `OrEmpty`; a thrown error keeps it |
| AssetListView.AssetList.Mount | src/components/AssetList/AssetList.jsx:24-26 | the list is fetched on mount |
| AssetListView.AssetList.ChangeSearch | src/components/AssetList/AssetList.jsx:24-26 | a changed search refetches with the new query, and the list becomes `OrEmpty` of a parsed reply or stays on a thrown error; an unchanged value sends nothing and keeps the list |
| AssetListView.AssetList.ChangeType | src/components/AssetList/AssetList.jsx:24-26 | a changed type filter refetches with the new query, and the list becomes `OrEmpty` of a parsed reply or stays on a thrown error; an unchanged value sends nothing and keeps the list |
| AssetListView.AssetList.HandleDelete | src/components/AssetList/AssetList.jsx:28-39 | no DELETE unless confirmed; a confirmed DELETE refetches iff its response is ok, and the list then becomes `OrEmpty` of the refetch or stays when it throws; otherwise the list is kept |
| MyAssetsView.QueryShape | src/pages/MyAssets/MyAssets.jsx:11-13 | the `+=` construction equals the filter URL on `/api/assigned-assets` |
| MyAssetsView.QueryReadsBack | src/pages/MyAssets/MyAssets.jsx:11-13 | the server reads search and then type, each iff non-empty, when neither holds `&` or `#` |
| MyAssetsView.RowAction | src/pages/MyAssets/MyAssets.jsx:90-92 | a Return button iff the type is "Returnable", and it is always disabled |
| MyAssetsView.RowImage | src/pages/MyAssets/MyAssets.jsx:80 | the asset image, or the placeholder |
| MyAssetsView.Render | src/pages/MyAssets/MyAssets.jsx:60-96 | the spinner iff loading; "No assets assigned yet." iff loaded and empty |
| MyAssetsView.MyAssets.constructor | src/pages/MyAssets/MyAssets.jsx:4-7 | `loading` starts true, with empty list and filters |
| MyAssetsView.MyAssets.BuildQuery | src/pages/MyAssets/MyAssets.jsx:11-13 | the `+=` method computes `AssignedQuery` of the current filters |
| MyAssetsView.MyAssets.FetchAssets | src/pages/MyAssets/MyAssets.jsx:9-23 | GET on that query; any parsed reply replaces the list; `loading` is false afterwards whatever happened |
| MyAssetsView.MyAssets.ChangeSearch | src/pages/MyAssets/MyAssets.jsx:25-27 | a changed search refetches: the list becomes `OrEmpty` of a parsed reply or stays on a thrown error, and `loading` is false; an unchanged value changes nothing; `loading` never becomes true again |
| MyAssetsView.MyAssets.ChangeType | src/pages/MyAssets/MyAssets.jsx:25-27 | a changed type refetches: the list becomes `OrEmpty` of a parsed reply or stays on a thrown error, and `loading` is false; an unchanged value changes nothing; `loading` never becomes true again |
| RequestAssetView.QueryReadsBack | src/pages/RequestAsset/RequestAsset.jsx:14-15 | the server reads exactly the search, iff non-empty, when it holds neither `&` nor `#` |
| RequestAssetView.RequestButton | src/pages/RequestAsset/RequestAsset.jsx:98-104 | disabled iff the quantity is a number ≤ 0 or null; captioned "Request" iff it is a number > 0 |
| RequestAssetView.ButtonAgreesWithCaption | src/pages/RequestAsset/RequestAsset.jsx:100-103 | for numeric or null quantities the button is enabled iff it reads "Request"; without the field it is enabled yet reads "Out of Stock" |
| RequestAssetView.RequestBody | src/pages/RequestAsset/RequestAsset.jsx:41-45 | the body has exactly the selected asset's id, requestType "Request", and the note |
| RequestAssetView.AlertText | src/pages/RequestAsset/RequestAsset.jsx:53 | `alert(data.message)` shows the message, or "undefined" when it is missing |
| RequestAssetView.RequestAsset.constructor | src/pages/RequestAsset/RequestAsset.jsx:4-9 | `loading` true, modal closed, nothing selected, empty note |
| RequestAssetView.RequestAsset.BuildQuery | src/pages/RequestAsset/RequestAsset.jsx:14-15 | the `+=` method computes `SearchQuery` of the search |
| RequestAssetView.RequestAsset.FetchAssets | src/pages/RequestAsset/RequestAsset.jsx:11-25 | GET on that query; any parsed reply replaces the list; `loading` is false afterwards |
| RequestAssetView.RequestAsset.ChangeSearch | src/pages/RequestAsset/RequestAsset.jsx:27-29 | a changed search refetches: the list becomes `OrEmpty` of a parsed reply or stays on a thrown error, and `loading` is false; an unchanged value changes nothing |
| RequestAssetView.RequestAsset.OpenRequestModal | src/pages/RequestAsset/RequestAsset.jsx:31-34 | selects the asset and opens the modal |
| RequestAssetView.RequestAsset.EditNote | src/pages/RequestAsset/RequestAsset.jsx:127 | typing sets the note |
| RequestAssetView.RequestAsset.Cancel | src/pages/RequestAsset/RequestAsset.jsx:130-133 | closes the modal, keeping the note and the selection |
| RequestAssetView.RequestAsset.HandleRequest | src/pages/RequestAsset/RequestAsset.jsx:36-58 | POSTs `RequestBody`; an ok reply alerts success, closes the modal and clears the note; another reply alerts its message and changes nothing; a thrown error changes nothing |
| RequestListView.Endpoint | src/components/RequestList/RequestList.jsx:17-18 | `/api/requests` iff the role is "HR", otherwise `/api/requests/myrequests` |
| RequestListView.LowerCaseHrIsNotHr | src/components/RequestList/RequestList.jsx:17-18 | a user with role "hr" is sent the own-requests endpoint and gets no actions column |
| RequestListView.Badge | src/components/RequestList/RequestList.jsx:106-112 | success iff "Approved", error iff "Rejected", warning otherwise |
| RequestListView.ActionStatuses | src/components/RequestList/RequestList.jsx:118-131 | the statuses "Approved" and "Rejected" that the Approve and Reject buttons send appear iff the actions column exists (role "HR") and the status is "Pending" |
| RequestListView.AssetName | src/components/RequestList/RequestList.jsx:82 | the asset's name, or "N/A" |
| RequestListView.AssetKind | src/components/RequestList/RequestList.jsx:83 | the asset's type, or "N/A" |
| RequestListView.RequesterName | src/components/RequestList/RequestList.jsx:95 | the requester's name when present and non-empty, otherwise "Me" |
| RequestListView.Initial | src/components/RequestList/RequestList.jsx:89 | one character: the first of a present, non-empty name, otherwise "U" |
| RequestListView.RequestList.FetchRequests | src/components/RequestList/RequestList.jsx:14-30 | nothing without a user; otherwise GET on the role's endpoint; the list is replaced only by an ok reply |
| RequestListView.RequestList.Mount | src/components/RequestList/RequestList.jsx:8-12 | the stored user becomes the state and is fetched for directly; the list is replaced only by an ok reply and kept otherwise |
| RequestListView.RequestList.HandleAction | src/components/RequestList/RequestList.jsx:32-48 | PUTs `{status}` to `/api/requests/<id>`; ok refetches the HR list, which replaces the list only when ok; another status alerts the message; a thrown error changes nothing |
| MyTeamView.TeamCall | src/pages/MyTeam/MyTeam.jsx:35-37 | the team is fetched with `?hrId=<id>` |
| MyTeamView.DefaultSelection | src/pages/MyTeam/MyTeam.jsx:17-19 | the first company's hrId becomes the selection iff a "companies" reply lists at least one |
| MyTeamView.Render | src/pages/MyTeam/MyTeam.jsx:53-94 | the spinner iff loading; "not affiliated" iff no companies; a selector iff more than one; the single company's name iff exactly one |
| MyTeamView.MyTeam.constructor | src/pages/MyTeam/MyTeam.jsx:4-7 | empty lists and selection, `loading` true |
| MyTeamView.MyTeam.FetchCompanies | src/pages/MyTeam/MyTeam.jsx:11-26 | companies are set only by a "companies" reply; the selection follows `DefaultSelection`; `loading` is false afterwards |
| MyTeamView.MyTeam.FetchTeam | src/pages/MyTeam/MyTeam.jsx:32-45 | nothing without a selection; otherwise the team call, and teamData is set only by a "team" reply |
| MyTeamView.MyTeam.Mount | src/pages/MyTeam/MyTeam.jsx:10-47 | the companies call, then the team call for the default selection iff one was made; companies are set only by a "companies" reply and teamData only by a "team" reply, otherwise both are kept |
| MyTeamView.MyTeam.HandleCompanyChange | src/pages/MyTeam/MyTeam.jsx:49-51 | a new non-empty selection fetches its team, and teamData becomes the members of a "team" reply; otherwise teamData is kept |
| MyEmployeesView.RemoveCall | src/pages/MyEmployeeList/MyEmployeeList.jsx:26 | removal is `DELETE /api/employees/<id>` |
| MyEmployeesView.Render | src/pages/MyEmployeeList/MyEmployeeList.jsx:38-68 | the spinner iff loading; the empty-team block iff there are no employees |
| MyEmployeesView.MyEmployeeList.FetchEmployees | src/pages/MyEmployeeList/MyEmployeeList.jsx:7-17 | the parsed body replaces the list whatever the status; `loading` is false afterwards |
| MyEmployeesView.MyEmployeeList.HandleRemove | src/pages/MyEmployeeList/MyEmployeeList.jsx:23-36 | no DELETE unless confirmed; ok refetches, and the list becomes the refetched body or stays when it throws; another status alerts "Failed to remove employee"; a thrown error changes nothing; a failed or thrown DELETE leaves `loading` as it was |
| PaymentVerification.VerifyCall | src/pages/Subscription/PaymentSuccess.jsx:16-17 | the POST goes to `/payments/payment-success` with exactly `{sessionId}` |
| PaymentVerification.Destination | src/pages/Subscription/PaymentSuccess.jsx:15-49 | `/` without a session id; `/dashboard` iff the reply's status is "success" or "already_processed"; `/subscription` otherwise, including on error |
| PaymentVerification.Dialog | src/pages/Subscription/PaymentSuccess.jsx:20-44 | "Payment Successful" (success icon) iff verified; "Payment Failed" for an answer whose status is anything else; "Error" for a rejection or a reply without data, each with the page's exact text |
| PaymentVerification.PaymentSuccess.Run | src/pages/Subscription/PaymentSuccess.jsx:14-50 | without a session id it only navigates home; otherwise it POSTs through the secure client, shows `Dialog`, refreshes the session (`checkUser`) only when verified, and navigates to `Destination`; a 401/403 adds the interceptor's `POST /users/logout` to the provider's calls; the provider's `mounted` is never changed |
| PaymentVerification.ExpiredSessionAtVerification | src/pages/Subscription/PaymentSuccess.jsx:38-46 | a 401 answer signs the user out and navigates to `/login` via the interceptor, and the page then navigates to `/subscription` |
| PackagesSection.Resolve | src/pages/Home/Packages/Packages.jsx:13-31 | a non-empty reply is used as is; an empty or missing one, or an error, gives the three defaults; never empty |
| PackagesSection.DefaultsOrdered | src/pages/Home/Packages/Packages.jsx:19-21 | Basic 5/5, Standard 8/10, Premium 15/20: increasing in price and limit, three features each |
| PackagesSection.GetColor | src/pages/Home/Packages/Packages.jsx:38-41 | the colour at index `i mod 3` |
| PackagesSection.ColorsCycle | src/pages/Home/Packages/Packages.jsx:38-41 | colours repeat every three cards and neighbours differ |
| PackagesSection.Packages.FetchPackages | src/pages/Home/Packages/Packages.jsx:11-33 | the packages become `Resolve` of the reply |
| FaqSection.Toggled | src/pages/Home/FAQ/FAQ.jsx:42 | clicking item i closes it iff it is open, and otherwise opens it alone |
| FaqSection.ToggleTwiceRestores | src/pages/Home/FAQ/FAQ.jsx:42 | two clicks on i restore the state when nothing or i was open |
| FaqSection.ToggleTwiceFromOther | src/pages/Home/FAQ/FAQ.jsx:42 | two clicks on i close everything when another item was open |
| FaqSection.ToggleOpensOnlyClicked | src/pages/Home/FAQ/FAQ.jsx:42-53 | after a click only the clicked item can be open, and only if it was closed |
| FaqSection.Faq.constructor | src/pages/Home/FAQ/FAQ.jsx:6 | initially no item is open |
| FaqSection.Faq.Toggle | src/pages/Home/FAQ/FAQ.jsx:42 | `activeIndex` becomes `Toggled`; at most one item, the clicked one, is open |

## Left out

- HTTP transport, cookies, base URLs and the JSON wire format are not modelled. They are foreign calls; each settled call is an input value.
- The interceptor is registered again on every use of the hook. The model has a single handler, so handlers piling up is not represented.
- Concurrency is not modelled. Async interleaving, stale responses, unawaited calls (`checkUser()` in the payment page, the refetches after delete and action) and React's batching are outside the model. Each handler runs to completion in order.
- Timers, toasts, SweetAlert timing and console output are not modelled as time. A timer is only an event that can fire, and a dialog is only an effect in the log.
- `window.print` in the assigned-assets page is left out, because it is a browser call with no state.
- Native browser validation is left out, because the browser does it, not the code. This covers `type="email"`, the quantity input's `min="1"`, and the HTML `required` on the company logo, which duplicates the hook-form rule.
- react-hook-form internals are left out. This covers what `watch` returns before the first render and the values kept for unmounted fields. The request form takes the submitted `assetId` as an input.
- `JSON.parse` of a malformed stored `userInfo` is left out, because it throws outside any handler. Replies whose body has an unexpected shape (not a list where the code maps over it) are also left out, because they fail in rendering.
- Numbers are unbounded integers. Floating-point quantities beyond `parseInt`'s result and 2^53 precision are left out.
- Pure presentation is left out: widths, icons, animations, class names other than badges, date formatting, and the card contents of lists.
- The stubbed checkout form, image upload, dashboard charts, route table, entry point, login page, the unrouted duplicate employee registration page, the commented-out subscription page and the static pages are not part of this model.
- JsNumber.ParseNumeral: the `parseInt` model also reads `0x` hexadecimal input, but only decimal numerals carry a read-back lemma.
- RequestListView.Initial: takes the whole first character, whereas `charAt(0)` takes the first UTF-16 code unit of a character beyond U+FFFF.
- Uri.EncodeComponent: lone surrogates, for which `encodeURIComponent` throws, cannot occur in a Dafny string and are not modelled.
- ProfilePage.Profile.HandleUpdate: requires a loaded user, because the form is rendered only then. The TypeError that `user.role` raises on a null user, which the catch swallows, is not modelled.
- MyTeamView.MyTeam.Mount: requires the initial empty selection, because the second effect's first run depends on it.
- RequestAssetView.RequestAsset.OpenRequestModal: requires an enabled button, because a disabled button cannot be clicked.
