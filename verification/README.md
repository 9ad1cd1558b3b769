# Employee admin UI: a verified model of its logic

This project models the sequential logic inside an employee-administration front end written in
React. It covers:

- the employee listing, whose filter, sort and page state lives in the URL query string;
- the shared HTTP hook, with its five state fields, URL and header rules, error-message
  fallbacks and per-method rethrow policy;
- the debounce helpers;
- the session provider backed by `localStorage`;
- the two route guards;
- the shared table's cell normalisation and pagination;
- the add-employee form (picture upload, payload cleanup, the salary formatter and parser);
- the employee profile page;
- the header bar (link filtering, role label, logout, change password).

Each module follows one source file:

| module | source |
|---|---|
| `Wrappers`, `Text`, `Js` | JavaScript values, truthiness, `\|\|`, `?.`, object spread and `delete`, `String()`, `Number()`, ASCII case mapping |
| `SearchParams` | `URLSearchParams` as section 6.2 of the WHATWG URL Standard defines it: an ordered list of pairs with `get`, `set` and `delete` |
| `ApiHandler` | `src/hooks/api-handler.js`, as the class `Handler` |
| `EmployeeListing` | `src/containers/employees/employee-listing/employee-listing.jsx`, as the class `Listing` |
| `Debounce` | `src/utils/debounce.js`, as the classes `Debouncer` and `DebouncedValue` over abstract time |
| `AuthContext` | `src/context/authContext.jsx`, as the class `AuthProvider` |
| `ProtectedRoute` | `src/protected-route/protected-route.jsx` and `src/protected-route/protected-route.js` |
| `Table` | `src/components/table/table.jsx` |
| `AddEmployee`, `SalaryInput` | `src/containers/employees/add-employee/add-employee.jsx`, as the class `Form` |
| `EmployeeProfile` | `src/containers/employees/employee-profile/employee-profile.jsx`, as the class `ProfilePage` |
| `Navbar` | `src/components/navbar/navbar.jsx`, as the class `Header` |
| `Browser` | `localStorage`, `navigate()` and antd toasts and modals, as in-memory recorders |

The transport, `JSON.parse` and `JSON.stringify`, dayjs formatting, the FileReader's base64
result and the clock are parameters:

- a request either succeeds with a body, or fails with the server's message and the error's own
  message, each of which may be missing;
- time is an integer clock that only moves forward through explicit tick events.

`src/hooks/useDebounce`, which the listing imports, is not part of this model. The listing's
debounced search is a field driven from outside, and `useDebounce` in `src/utils/debounce.js` is
modelled as its stand-in.

## Model

| member | source | states |
|---|---|---|
| Text.Lower | src/containers/employees/employee-profile/employee-profile.jsx:113 | `toLowerCase` keeps the length, leaves no ASCII capital, keeps every other character and turns each capital into its lower-case letter |
| Text.LowerIdempotent | src/containers/employees/employee-profile/employee-profile.jsx:113 | lower-casing twice is lower-casing once |
| Text.ParseIntegerOfIntToString | src/containers/employees/employee-listing/employee-listing.jsx:29 | `Number(String(n)) == n` for every integer, so a page written to the query string reads back unchanged |
| Text.EndsWithContains | src/components/table/table.jsx:29-31 | a string that ends with a part contains it |
| Text.ContainsWitness | src/components/table/table.jsx:31 | `includes` succeeds only at a position where the part occurs |
| Js.Lookup | src/containers/employees/add-employee/add-employee.jsx:167 | a property read on an object without that key gives undefined |
| Js.Assign | src/containers/employees/add-employee/add-employee.jsx:151-163 | assigning an existing property keeps the length; a new property is appended last |
| Js.RemoveKey | src/containers/employees/add-employee/add-employee.jsx:168 | after `delete obj[key]` the key is gone and the object has not grown |
| Js.LookupAssign | src/containers/employees/add-employee/add-employee.jsx:151-163 | after assignment, reading the key gives the new value and every other key reads as before |
| Js.LookupAssignAll | src/containers/employees/add-employee/add-employee.jsx:151-163 | in `{...values, fields}` a field wins over a form value of the same name; other keys keep the form value |
| Js.LookupConcat | src/containers/employees/employee-listing/employee-listing.jsx:75-83 | a read on a concatenation of properties finds the first part's property first |
| Js.RemoveKeyConcat | src/containers/employees/add-employee/add-employee.jsx:166-170 | deleting a key from a concatenation deletes it from both parts |
| Js.AssignAllDistinct | src/containers/employees/add-employee/add-employee.jsx:151-163 | spreading and assigning keeps an object's property names distinct |
| Js.SpreadMember | src/context/authContext.jsx:69 | in `{ ...prev, ...updated }` a property of `updated` wins, every other property of `prev` is kept, and nothing else appears |
| SearchParams.Get | src/containers/employees/employee-listing/employee-listing.jsx:29-34 | `get(name)` is non-null exactly when a pair with that name exists |
| SearchParams.GetSet | src/containers/employees/employee-listing/employee-listing.jsx:48 | after `set(name, v)`, `get(name)` is `v`, the name occurs exactly once, and every other name reads as before |
| SearchParams.GetDelete | src/containers/employees/employee-listing/employee-listing.jsx:46 | after `delete(name)` the name is absent and every other name reads as before |
| SearchParams.DeleteAfterSet | src/containers/employees/employee-listing/employee-listing.jsx:46-48 | deleting a name after setting it gives the same list as deleting it straight away |
| SearchParams.DeleteIdempotent | src/containers/employees/employee-listing/employee-listing.jsx:46 | deleting twice is deleting once |
| SearchParams.GetReplaceFirst | src/containers/employees/employee-listing/employee-listing.jsx:48 | the replace-first step of `set` leaves exactly one pair with the new value |
| SearchParams.GetAppend | src/containers/employees/employee-listing/employee-listing.jsx:48 | the append step of `set` makes a new name readable without shadowing existing ones |
| SearchParams.CountZeroMeansAbsent | src/containers/employees/employee-listing/employee-listing.jsx:46 | a name with no pairs is absent, and an absent name has no pairs |
| EmployeeListing.Updater | src/containers/employees/employee-listing/employee-listing.jsx:41-57 | the `forEach` loop over the update entries, followed by the page reset, computes `NextParams` |
| EmployeeListing.ApplyEntriesGet | src/containers/employees/employee-listing/employee-listing.jsx:44-50 | each key named in the update reads back as absent for null, '' or undefined, else as `String(value)`; keys not named keep their values |
| EmployeeListing.NextParamsGet | src/containers/employees/employee-listing/employee-listing.jsx:52-55 | after an update without a truthy `page`, `page` reads "1"; a truthy `page` is stored as its string |
| EmployeeListing.OrNull | src/containers/employees/employee-listing/employee-listing.jsx:31-34 | `get(key) \|\| null` is a value only when the key is present and non-empty |
| EmployeeListing.PageOf | src/containers/employees/employee-listing/employee-listing.jsx:29 | a missing, zero or non-numeric page reads as 1; any other integer passes through unclamped |
| EmployeeListing.ReadState | src/containers/employees/employee-listing/employee-listing.jsx:29-34 | search defaults to ''; designation, department, sortBy and sortOrder are null when missing or empty |
| EmployeeListing.FetchParamsContents | src/containers/employees/employee-listing/employee-listing.jsx:75-83 | the request always has `page` and `limit = 10`, and has each filter exactly when its value is non-empty, with that value |
| EmployeeListing.FiltersLookup | src/containers/employees/employee-listing/employee-listing.jsx:78-82 | the conditional spreads contribute a filter exactly when it is non-empty |
| EmployeeListing.FetchParams | src/containers/employees/employee-listing/employee-listing.jsx:75-83 | the params object has page and limit and at most the five filters, with no property name twice (its contents are `FetchParamsContents`) |
| EmployeeListing.FiltersDistinct | src/containers/employees/employee-listing/employee-listing.jsx:78-82 | the spread filters have distinct names, and neither is page nor limit |
| EmployeeListing.SortTransition | src/containers/employees/employee-listing/employee-listing.jsx:109-136 | an unmapped column changes nothing; a different field gives asc, asc gives desc, desc clears both, any other order gives asc; page resets to 1; the filters are kept |
| EmployeeListing.SortOrderGet | src/containers/employees/employee-listing/employee-listing.jsx:119-135 | what handleSort writes into page, sortBy and sortOrder |
| EmployeeListing.SortKeepsOtherKeys | src/containers/employees/employee-listing/employee-listing.jsx:132-135 | handleSort leaves every key other than sortBy, sortOrder and page as it was |
| EmployeeListing.SortCycle | src/containers/employees/employee-listing/employee-listing.jsx:119-135 | from an unsorted column, four clicks go asc, desc, cleared, asc |
| EmployeeListing.ClearSortingResult | src/containers/employees/employee-listing/employee-listing.jsx:138-143 | clearSorting removes sortBy and sortOrder, resets page to "1" and keeps every other key |
| EmployeeListing.PageChangeResult | src/containers/employees/employee-listing/employee-listing.jsx:145-147 | handlePageChange(n) stores `String(n)`, which reads back as n; a falsy 0 falls back to page 1; other keys are kept |
| EmployeeListing.PageOne | src/containers/employees/employee-listing/employee-listing.jsx:29 | the reset value "1" reads back as page 1 |
| EmployeeListing.PairUpdate | src/containers/employees/employee-listing/employee-listing.jsx:132-135 | the two-entry sort update has distinct keys and reads back its own entries |
| EmployeeListing.SerialNumbersDistinct | src/containers/employees/employee-listing/employee-listing.jsx:199 | with at most 10 rows per page no two rows share a Sr. No., and page p starts at (p-1)*10+1 |
| EmployeeListing.SerialNumber | src/containers/employees/employee-listing/employee-listing.jsx:199 | for a row index below 10 the Sr. No. decodes back to its page and index, and is positive from page 1 on |
| EmployeeListing.GetStatusConfig | src/containers/employees/employee-listing/employee-listing.jsx:163-190 | "success" exactly for "Current Employee", "error" exactly for "Old Employee", "default" otherwise, an empty class exactly for a falsy status, and a throw for a truthy non-string |
| EmployeeListing.DeleteNeverRejects | src/containers/employees/employee-listing/employee-listing.jsx:149-160 | deleteData always resolves, so the catch branch of handleDelete is unreachable |
| EmployeeListing.Listing.constructor | src/containers/employees/employee-listing/employee-listing.jsx:20-36 | the page starts from the current query string, the debounced search and its own API hook |
| EmployeeListing.Listing.UpdateSearchParams | src/containers/employees/employee-listing/employee-listing.jsx:39-61 | the new query string is `NextParams` of the old one |
| EmployeeListing.Listing.HandleSearch | src/containers/employees/employee-listing/employee-listing.jsx:97-99 | the query string becomes `NextParams` of the old one with the single entry `search` |
| EmployeeListing.Listing.HandleDesignationChange | src/containers/employees/employee-listing/employee-listing.jsx:101-103 | the query string becomes `NextParams` of the old one with the single entry `designation` |
| EmployeeListing.Listing.HandleDepartmentChange | src/containers/employees/employee-listing/employee-listing.jsx:105-107 | the query string becomes `NextParams` of the old one with the single entry `department` |
| EmployeeListing.Listing.HandleSort | src/containers/employees/employee-listing/employee-listing.jsx:109-136 | the new query string is `Sort` of the old one |
| EmployeeListing.Listing.ClearSort | src/containers/employees/employee-listing/employee-listing.jsx:138-143 | the new query string is `ClearSorting` of the old one |
| EmployeeListing.Listing.HandlePageChange | src/containers/employees/employee-listing/employee-listing.jsx:145-147 | the new query string is `PageChange` of the old one |
| EmployeeListing.Listing.FetchEmployees | src/containers/employees/employee-listing/employee-listing.jsx:74-90 | one GET of /users/get-employees with the parameters read from the query string, and the hook's state settled by its outcome |
| EmployeeListing.Listing.HandleDelete | src/containers/employees/employee-listing/employee-listing.jsx:149-160 | whatever the delete's outcome: one success toast, then exactly one refetch with the unchanged query string |
| ApiHandler.FullUrl | src/hooks/api-handler.js:20-148 | the URL is `url` when isFullUrl is set, else the base URL (printed "undefined" when unset) followed by the path; getData always prefixes |
| ApiHandler.Headers | src/hooks/api-handler.js:21-153 | postData sends Content-Type exactly for a non-FormData body and Authorization exactly for a present token without skipAuth; the other methods always send `Bearer <token>` |
| ApiHandler.Dispatch | src/hooks/api-handler.js:47-51 | only postData with a relative URL and no base URL fails before sending, with the configuration error |
| ApiHandler.FailureMessage | src/hooks/api-handler.js:32-160 | the server message, else (for postData only) the error's message, else the method's fallback string; patchData's fallback is "PUT request failed", as in the source |
| ApiHandler.CompletionOf | src/hooks/api-handler.js:29-161 | post, put and patch rethrow on failure; get and delete resolve undefined |
| ApiHandler.Effective | src/hooks/api-handler.js:47-49 | the configuration error replaces the transport's answer |
| ApiHandler.Started | src/hooks/api-handler.js:16-146 | every method sets loading and clears error; only postData clears apiMessage |
| ApiHandler.Settled | src/hooks/api-handler.js:27-163 | loading ends false; success stores the body (and for getData `totalPages \|\| 0`); failure sets error to true and a non-empty message |
| ApiHandler.BearerHeaderCarriesToken | src/hooks/api-handler.js:22 | the header is well-formed bearer credentials as in section 2.1 of RFC 6750, carrying the token, or the literal "null" without one |
| ApiHandler.EmptyTokenIsMalformed | src/hooks/api-handler.js:22 | an empty token gives credentials that section 2.1 of RFC 6750 rejects |
| ApiHandler.Handler.constructor | src/hooks/api-handler.js:7-11 | the hook starts not loading, with no data, no error, an empty message and 0 total pages, and nothing sent |
| ApiHandler.Handler.Begin | src/hooks/api-handler.js:16-67 | the synchronous part: the state becomes `Started`, and the request is sent unless postData's configuration check throws |
| ApiHandler.Handler.Settle | src/hooks/api-handler.js:27-82 | the part after the await: the state becomes `Settled` and the call completes per `CompletionOf` |
| ApiHandler.Handler.Perform | src/hooks/api-handler.js:14-166 | a whole awaited call: the state, the requests sent and the completion |
| Debounce.DelayArgument | src/utils/debounce.js:2 | an omitted delay is 500 ms; a given one is used as passed |
| Debounce.Effective | src/utils/debounce.js:7 | the timer waits the given delay, or 0 ms for a negative one |
| Debounce.Create | src/utils/debounce.js:2-4 | `debounce(func, delay)` starts with no timer pending and func never run |
| Debounce.Debouncer.constructor | src/utils/debounce.js:2-4 | the closure starts in `Create` with the default-applied delay |
| Debounce.Invoke | src/utils/debounce.js:5-10 | each call cancels the pending timer and schedules the latest arguments one delay later |
| Debounce.Advance | src/utils/debounce.js:7-9 | a timer that comes due runs func once, at its deadline, with its arguments |
| Debounce.QuietPeriodFires | src/utils/debounce.js:5-10 | a call followed by a full delay of quiet runs func exactly once, with that call's arguments |
| Debounce.BurstFiresOnce | src/utils/debounce.js:5-10 | calls spaced less than the delay apart, then quiet, run func once, with the last call's arguments, one delay after the last call |
| Debounce.FiringsAtMostCalls | src/utils/debounce.js:5-10 | func never runs more often than the debounced function was called |
| Debounce.Debouncer.Call | src/utils/debounce.js:5-10 | the closure's new state is `Invoke` of the old one |
| Debounce.Debouncer.Tick | src/utils/debounce.js:7-9 | the closure's new state is `Advance` of the old one |
| Debounce.Mount | src/utils/debounce.js:18-24 | useDebounce first returns its input unchanged and schedules one update |
| Debounce.HookStepValid | src/utils/debounce.js:20-30 | every render, wait or unmount keeps the effect's timer tied to the current input and delay |
| Debounce.HookRunValid | src/utils/debounce.js:20-30 | the timer invariant holds after any sequence of events |
| Debounce.OutputOnlyAfterQuiet | src/utils/debounce.js:20-30 | the returned value changes only when the timer fires, and then to an input held for a full delay |
| Debounce.NoUpdateAfterUnmount | src/utils/debounce.js:27-29 | after teardown nothing is pending and the returned value never changes |
| Debounce.SameInputKeepsTimer | src/utils/debounce.js:30 | re-rendering with the same value and delay does not restart the timer |
| Debounce.DebouncedValue.Render | src/utils/debounce.js:17-33 | a render returns the current output and, on a changed dependency, reschedules |
| Debounce.DebouncedValue.Elapse | src/utils/debounce.js:22-24 | a due timer sets the output to the input it was scheduled with |
| Debounce.DebouncedValue.Unmount | src/utils/debounce.js:27-29 | the cleanup clears the timer |
| Debounce.DebouncedValue.constructor | src/utils/debounce.js:17-24 | the first render is `Mount`: the state holds the input and one update is scheduled, and the timer invariant holds |
| AuthContext.InitialAuthState | src/context/authContext.jsx:8-32 | authenticated with the stored token and parsed user exactly when both keys are stored and the user parses; a failed parse removes both keys; otherwise token and user are null |
| AuthContext.LoginSurvivesReload | src/context/authContext.jsx:44-52 | a reload after login restores the same session when the user survives a JSON round trip |
| AuthContext.LogoutSurvivesReload | src/context/authContext.jsx:55-64 | a reload after logout is unauthenticated |
| AuthContext.ContextObject | src/context/authContext.jsx:76-93 | the provider's value exposes the user and has no `loading` field |
| AuthContext.UseAuth | src/context/authContext.jsx:103-108 | useAuth throws outside a provider and returns the value inside one |
| AuthContext.AuthProvider.constructor | src/context/authContext.jsx:35-39 | the provider starts from `InitialAuthState` of storage |
| AuthContext.AuthProvider.Login | src/context/authContext.jsx:44-52 | login sets user, token, isAuthenticated and a null error, and writes both storage keys |
| AuthContext.AuthProvider.Logout | src/context/authContext.jsx:55-64 | logout nulls user, token and error, clears isAuthenticated, removes both keys and navigates to /login |
| AuthContext.AuthProvider.UpdateUser | src/context/authContext.jsx:67-74 | the user becomes the shallow merge (see `Js.SpreadMember`) and is stored; token and isAuthenticated stay |
| ProtectedRoute.RoleGuard | src/protected-route/protected-route.jsx:7-15 | no user redirects to '/'; a user with a required role that differs redirects to '/unauthorized'; both use replace; otherwise the children |
| ProtectedRoute.NoRoleAdmitsAnyUser | src/protected-route/protected-route.jsx:11-15 | without a required role every logged-in user gets the children |
| ProtectedRoute.LoadingGuard | src/protected-route/protected-route.js:7-9 | a truthy loading shows the placeholder; otherwise a user gets the children and no user redirects to /login |
| ProtectedRoute.ProviderNeverLoading | src/protected-route/protected-route.js:4-7 | with the provider's value the placeholder never shows and exactly the logged-in users are admitted |
| ProtectedRoute.GuardsAgreeWithoutRole | src/protected-route/protected-route.js:9 | the two guards admit the same users when no role is required, but redirect to different paths |
| Table.IsDateField | src/components/table/table.jsx:28-32 | the four-way date test holds exactly when the lower-cased name contains "date" or ends with "at" |
| Table.ShouldFormatDate | src/components/table/table.jsx:26-36 | a column is formatted exactly when its lower-cased name passes the date test; the exclusion list never applies, so this is `includes("date") \|\| endsWith("at")` |
| Table.DateTestsImplyIncludes | src/components/table/table.jsx:29-32 | ending with "date", or being "date", implies containing "date" |
| Table.ExcludedAreNotDates | src/components/table/table.jsx:35-36 | neither "designation" nor "status" passes the date test |
| Table.NotContainsDate | src/components/table/table.jsx:35 | neither excluded name contains "date" |
| Table.Initial | src/components/table/table.jsx:22 | the cell starts from the render output when there is a render, else from the raw text |
| Table.DateStep | src/components/table/table.jsx:38-50 | a non-date column keeps its value; in a date column a falsy value becomes "----", a truthy one its formatted text when dayjs accepts it and stays as it was otherwise, and the cell is never null or undefined |
| Table.PhoneText | src/components/table/table.jsx:54-57 | the phone cell is "code number" when both are truthy, else "----"; either way it is truthy |
| Table.CellValue | src/components/table/table.jsx:21-62 | no cell is blank; the phone column overrides everything; an empty date becomes "----"; any other blank becomes "----" |
| Table.ClassName | src/components/table/table.jsx:64-67 | only email and contact lose `capitalize` |
| Table.PageSizeArgument | src/components/table/table.jsx:13 | an omitted pageSize is 20; a given one is used as passed |
| Table.PaginationOf | src/components/table/table.jsx:96-107 | pagination is off unless page and setPage are given; total is totalPages*pageSize, else the row count, else 0 |
| Table.RowKey | src/components/table/table.jsx:109 | the key is a truthy id, else a truthy key, else the random fallback |
| AddEmployee.BeforeUpload | src/containers/employees/add-employee/add-employee.jsx:81-91 | accepted exactly for a JPEG or PNG under 2 MiB; each failed check adds its own message |
| AddEmployee.PublicUrlFromKey | src/containers/employees/add-employee/add-employee.jsx:38-47 | the URL built from a key is always null |
| AddEmployee.PreviewChoice | src/containers/employees/add-employee/add-employee.jsx:122-137 | a truthy publicUrl is kept and shown; otherwise the base64 preview is shown and no URL is kept |
| AddEmployee.PreviewIgnoresKey | src/containers/employees/add-employee/add-employee.jsx:125-127 | the key never changes the preview |
| AddEmployee.UploadErrorText | src/containers/employees/add-employee/add-employee.jsx:141 | the upload error detail is the server message, else the error's message, else "Unknown error", and never empty |
| AddEmployee.UploadTarget | src/containers/employees/add-employee/add-employee.jsx:104 | destructuring fails exactly on a null or undefined response; otherwise the target is a truthy `res.data`, else `res` |
| AddEmployee.Compact | src/containers/employees/add-employee/add-employee.jsx:165-170 | no property left is undefined, null or '' |
| AddEmployee.CompactLookup | src/containers/employees/add-employee/add-employee.jsx:165-170 | a key survives cleanup exactly when its value is not blank, with its value unchanged |
| AddEmployee.CompactHasKey | src/containers/employees/add-employee/add-employee.jsx:165-170 | a key survives cleanup only if it was there |
| AddEmployee.CleanupStep | src/containers/employees/add-employee/add-employee.jsx:166-170 | one `forEach` step deletes the key exactly when its value is blank |
| AddEmployee.RemoveBlankFields | src/containers/employees/add-employee/add-employee.jsx:166-170 | the loop over `Object.keys(payload)` that deletes blank keys computes `Compact` |
| AddEmployee.PayloadDates | src/containers/employees/add-employee/add-employee.jsx:151-158 | each date is present only when one was picked, formatted as YYYY-MM-DD |
| AddEmployee.PayloadPicture | src/containers/employees/add-employee/add-employee.jsx:159-162 | the picture key and URL are present only when truthy |
| AddEmployee.PayloadOtherFields | src/containers/employees/add-employee/add-employee.jsx:151-170 | every other form value is carried unchanged unless blank; 0 and false survive |
| AddEmployee.PayloadLookup | src/containers/employees/add-employee/add-employee.jsx:151-170 | the payload is the raw payload without its blank properties |
| AddEmployee.RawLookup | src/containers/employees/add-employee/add-employee.jsx:151-163 | an explicit field overrides the form value of the same name |
| AddEmployee.Form.constructor | src/containers/employees/add-employee/add-employee.jsx:28-31 | imageUrl, profilePictureKey and profilePictureUrl start null and uploadLoading false; no upload or reset timer is pending |
| AddEmployee.Form.Select | src/containers/employees/add-employee/add-employee.jsx:213-219 | the hook always returns false; an invalid file shows its error toasts and changes nothing else; a valid file goes through handleProfileChange, with the same request, hook state, picture state, uploads and toast |
| AddEmployee.Form.StoreUpload | src/containers/employees/add-employee/add-employee.jsx:106-139 | the direct upload, then the key, the chosen URL and the preview, and the success toast; a failed upload changes none of them |
| AddEmployee.UploadFailure | src/containers/employees/add-employee/add-employee.jsx:97-141 | the catch is reached exactly unless the presigned-URL request resolves with a non-nullish body and the upload succeeds; it receives the request's rejection, the destructuring TypeError or the upload's failure |
| AddEmployee.UploadEffect | src/containers/employees/add-employee/add-employee.jsx:104-141 | the upload goes out exactly when the presigned response is usable; on success the key, the kept URL and the preview follow `PreviewChoice` with the success toast; on failure the picture is unchanged and the toast is the prefix plus `UploadErrorText` |
| AddEmployee.UploadSucceedsExactly | src/containers/employees/add-employee/add-employee.jsx:97-139 | the success toast shows exactly when a base URL is configured, the presigned-URL request resolves with a non-nullish body and the upload succeeds |
| AddEmployee.Form.HandleProfileChange | src/containers/employees/add-employee/add-employee.jsx:93-146 | the presigned-URL request (unless the configuration check fails), the hook state settled by it, and then the picture state, uploads and single toast given by `UploadEffect`; uploadLoading ends false |
| AddEmployee.Form.OnFinish | src/containers/employees/add-employee/add-employee.jsx:148-189 | the create request carries the cleaned payload and settles the hook state; success toasts and schedules the reset; failure does neither; the picture state, uploadLoading and the uploads are unchanged |
| AddEmployee.Form.ResetTimerFires | src/containers/employees/add-employee/add-employee.jsx:179-185 | the reset clears the picture state and navigates to /dashboard |
| SalaryInput.ParseFormat | src/containers/employees/add-employee/add-employee.jsx:371-374 | parser(formatter(v)) == v for every v without '$' or ',' |
| SalaryInput.ParseCommas | src/containers/employees/add-employee/add-employee.jsx:372-374 | removing the inserted commas recovers the text |
| SalaryInput.FormatPrefix | src/containers/employees/add-employee/add-employee.jsx:372 | the formatter keeps the "$ " prefix as is and inserts commas only after it |
| SalaryInput.CommaAtDigits | src/containers/employees/add-employee/add-employee.jsx:372 | in a digit run, a comma goes before digit j exactly when j > 0 and a multiple of three digits follow |
| SalaryInput.CommasAsGrouped | src/containers/employees/add-employee/add-employee.jsx:372 | the regular expression's insertion on a digit string is the position rule |
| SalaryInput.GroupedIsGroupDigits | src/containers/employees/add-employee/add-employee.jsx:372 | the position rule equals the grouping of threes from the right |
| SalaryInput.FormatDigits | src/containers/employees/add-employee/add-employee.jsx:371-373 | on a digit string the formatter gives "$ " followed by the conventional thousands grouping |
| SalaryInput.FractionGetsCommas | src/containers/employees/add-employee/add-employee.jsx:371-373 | as written, a fraction of four or more digits gets a comma before its last three |
| SalaryInput.CommasEndsWith | src/containers/employees/add-employee/add-employee.jsx:372 | the insertion from an earlier position ends with the insertion from a later one |
| SalaryInput.PointIndex | src/containers/employees/add-employee/add-employee.jsx:371-373 | the position of the first '.' (or the end), with no '.' before it |
| SalaryInput.FormatFixedRoundTrip | src/containers/employees/add-employee/add-employee.jsx:371-374 | the corrected formatter still round-trips through the parser |
| SalaryInput.FormatFixedDigits | src/containers/employees/add-employee/add-employee.jsx:371-373 | on whole numbers the corrected formatter gives "$ " followed by the thousands grouping, as the formatter as written does |
| SalaryInput.FormatFixedKeepsFraction | src/containers/employees/add-employee/add-employee.jsx:371-373 | the corrected formatter groups the integer part and leaves the fraction as typed |
| SalaryInput.ParseAppend | src/containers/employees/add-employee/add-employee.jsx:374 | the parser distributes over a plain suffix |
| SalaryInput.ParsePlain | src/containers/employees/add-employee/add-employee.jsx:374 | the parser leaves text without '$' and ',' unchanged |
| SalaryInput.Format | src/containers/employees/add-employee/add-employee.jsx:371-373 | the formatted text starts with "$ " and drops no character of the value (its round trip is `ParseFormat`, its grouping `FormatDigits`) |
| SalaryInput.Parse | src/containers/employees/add-employee/add-employee.jsx:374 | the parsed text is never longer and has no '$' or ',' left |
| SalaryInput.CommasAfterPrefix | src/containers/employees/add-employee/add-employee.jsx:372 | no comma is inserted before or inside the "$ " prefix |
| EmployeeProfile.Extract | src/containers/employees/employee-profile/employee-profile.jsx:55 | the record is `response.employee`, else `response.data`, else the response itself |
| EmployeeProfile.StatusColor | src/containers/employees/employee-profile/employee-profile.jsx:111-117 | "active" in any ASCII case gives success and "inactive" gives error; a falsy status gives default; a truthy non-string throws |
| EmployeeProfile.StatusIgnoresCase | src/containers/employees/employee-profile/employee-profile.jsx:113-115 | two statuses equal up to case get the same colour |
| EmployeeProfile.PictureIsFirstTruthy | src/containers/employees/employee-profile/employee-profile.jsx:92-96 | the picture is the first truthy of profilePicture, profilePictureUrl, image and avatar |
| EmployeeProfile.ProfilePicture | src/containers/employees/employee-profile/employee-profile.jsx:92-96 | the picture is one of the four fields, profilePicture when that is truthy, and the avatar field when it is falsy (the full order is `PictureIsFirstTruthy`) |
| EmployeeProfile.ViewOf | src/containers/employees/employee-profile/employee-profile.jsx:68-90 | a spinner while fetching or loading; else "not found" without an employee; else the profile |
| EmployeeProfile.FetchNeverRejects | src/containers/employees/employee-profile/employee-profile.jsx:54-60 | getData never rejects, and a failed fetch extracts undefined |
| EmployeeProfile.FailedFetchShowsNotFound | src/containers/employees/employee-profile/employee-profile.jsx:54-90 | a failed fetch ends on "Employee not found" |
| EmployeeProfile.ProfilePage.constructor | src/containers/employees/employee-profile/employee-profile.jsx:29-30 | the page starts with no employee and not fetching |
| EmployeeProfile.ProfilePage.FetchEmployee | src/containers/employees/employee-profile/employee-profile.jsx:49-90 | no id, no fetch; otherwise one GET, fetching ends false, the employee is the extracted body (undefined on failure) with no toast, and the page then shows the profile for a truthy employee, else "Employee not found" |
| Navbar.VisibleMembers | src/components/navbar/navbar.jsx:92 | a link is visible exactly when its roles include the user's role |
| Navbar.Visible | src/components/navbar/navbar.jsx:92 | the filter keeps at most the links given, and only links whose roles include the role |
| Navbar.FilteredLinks | src/components/navbar/navbar.jsx:92 | the header shows only links whose roles list the user's role as a string |
| Navbar.VisibleKeepsOrder | src/components/navbar/navbar.jsx:92 | the visible links keep their original order |
| Navbar.VisibleNone | src/components/navbar/navbar.jsx:92 | when no link admits the role, nothing is visible |
| Navbar.NoRoleNoLinks | src/components/navbar/navbar.jsx:50-92 | with no user, or a role outside the five, no link is visible |
| Navbar.EveryRoleSeesDashboardAndWebsite | src/components/navbar/navbar.jsx:50-90 | each of the five roles sees the ticket dashboard and the website link |
| Navbar.Spaced | src/components/navbar/navbar.jsx:242 | no '-' or '_' is left: each becomes a space, and every other character is kept |
| Navbar.RoleLabel | src/components/navbar/navbar.jsx:240-244 | "User" without a role; a throw for a truthy non-string role; for a string role, the role spaced and capitalised (see `RoleLabelProperties`) |
| Navbar.RoleLabelProperties | src/components/navbar/navbar.jsx:240-244 | the label keeps the role's length, has no '-' or '_', changes a character only by upper-casing it, leaves no word starting with a lower-case letter, and formatting it again changes nothing |
| Navbar.RoleLabelExample | src/components/navbar/navbar.jsx:240-244 | "client-admin" is shown as "Client Admin" |
| Navbar.UpperKeepsWordChar | src/components/navbar/navbar.jsx:243 | upper-casing keeps word characters word characters, so word boundaries stay put |
| Navbar.Capitalized | src/components/navbar/navbar.jsx:243 | keeps the length, changes no character that does not start a word, keeps word boundaries where they were, and leaves no word starting with a lower-case letter |
| Navbar.DisplayName | src/components/navbar/navbar.jsx:237 | the name, else "User Name"; never falsy |
| Navbar.LogoutPayload | src/components/navbar/navbar.jsx:96 | `{refreshToken}` when a non-empty token is stored, else `{}` |
| Navbar.PasswordModal | src/components/navbar/navbar.jsx:152-166 | success gives a non-error modal reading "Password Changed Successfully"; failure gives an error modal with the server message or "Something went wrong!" |
| Navbar.Header.constructor | src/components/navbar/navbar.jsx:20-27 | the password form, the result modal and the error flag start closed, with an empty modal message |
| Navbar.Header.Logout | src/components/navbar/navbar.jsx:94-111 | token and user are removed and '/' is visited only after postData resolves; on a rejection storage and location are untouched |
| Navbar.Header.HandleChangePassword | src/components/navbar/navbar.jsx:138-166 | the form closes, one PATCH is sent, and the modal shows `PasswordModal` of the outcome |
| Browser.LocalStorage.GetItem | src/context/authContext.jsx:10-11 | getItem is null exactly for a missing key |
| Browser.LocalStorage.SetItem | src/context/authContext.jsx:50-51 | setItem stores the value under the key and changes nothing else |
| Browser.LocalStorage.RemoveItem | src/context/authContext.jsx:61-62 | removeItem removes only that key |
| Browser.Navigator.Navigate | src/context/authContext.jsx:63 | navigate() records exactly one visit, with its path and replace flag, after the earlier ones |
| Browser.Notices.Show | src/containers/employees/add-employee/add-employee.jsx:84-88 | a toast or modal is recorded after the earlier ones, and nothing else changes |

## Left out

- Numbers are integers. `Number()` is modelled on integer literals only; fractions, exponents, hexadecimal, NaN and Infinity are left out, and so are the float division and the currency formatting on the profile page.
- Case mapping and the `\w` and `\s` classes cover ASCII and the white-space characters JavaScript trims; locale-specific and other Unicode case mapping is left out.
- Objects are plain objects with their own properties in insertion order. Prototypes, getters, integer-like keys (which JavaScript enumerates first) and reference identity are left out. A function-valued property of the context value is represented by an empty object, which is just as truthy.
- Table.RowKey: property reads go through Js.Member, which models `?.` and gives undefined on null or undefined. The source's plain reads `record.id || record.key` (src/components/table/table.jsx:109) throw on a null row instead, and the model does not capture that throw. The phone cell destructures `record || {}` (line 55), which never throws, so it is modelled as written.
- The network, S3, `JSON.parse`/`JSON.stringify`, dayjs and the FileReader are parameters or abstract outcomes. `console.*` output is left out.
- AddEmployee.Form.HandleProfileChange: the base64 preview is set at once, while the source sets it when the FileReader finishes. The `if (!file) return` guard is left out because antd always passes a file.
- React scheduling is left out: effects, re-renders, the apiMessage toast effects and `useCallback` dependencies. Each hook method is awaited with no other call in between. The model does not capture concurrent requests sharing one loading flag, or the listing's refetch after a delete not being awaited.
- EmployeeListing.Listing.HandleDelete: the refetch is modelled as settling before the method returns; in the source it is not awaited.
- Navbar.Header.Logout: the refresh token is read when logout runs; the source reads it at render time (src/components/navbar/navbar.jsx:17). They differ only if storage changes in between.
- Navbar.Header.Logout does not clear the session provider's state, only storage, as in the source.
- The Upload button being disabled while an upload is in flight is left out, because it is markup.
- Debounce: the timer clamps a negative delay to 0. The nesting-level clamp and the browsers' maximum-delay overflow of setTimeout are left out.
- Debounce.Debouncer: `debounce` returns no cancel function and the source has no disposal, so none is modelled.
- The antd form validation rules are left out, because they are library configuration.
- Table: formatted dates are opaque text from a parameter, because dayjs is a library. The `Math.random()` row key is represented by None.
- Navbar: the link table is modelled as a constant. Per-role lemmas are stated generically (VisibleMembers, NoRoleNoLinks, EveryRoleSeesDashboardAndWebsite) rather than as one concrete list per role.
- src/App.jsx route wiring, and which of the two route guards it binds, are not part of this model.

## Findings

| source | as written | input that shows it | evidently intended | confidence | as-written member | corrected member |
|---|---|---|---|---|---|---|
| src/containers/employees/add-employee/add-employee.jsx:371-373 | the salary formatter's look-ahead `(?=(\d{3})+(?!\d))` also fires inside the fractional part | "1234.5678" is shown as "$ 1,234.5,678" | group only the integer part: "$ 1,234.5678" | not executed | SalaryInput.FractionGetsCommas | SalaryInput.FormatFixedKeepsFraction |
