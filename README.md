# DataFlow client logic in Dafny

The DataFlow web application is a React front end over AWS Amplify. Users
sign up and sign in through Cognito, upload CSV files to S3, browse the
transformed records, and chat with an assistant. The application also sends
usage events to Amplify analytics. This project models the parts of the
client that hold logic of their own, and proves properties of that model:

- **Session state** (`AuthContext`). `AuthProvider` is a class with four
  fields: `user`, `isLoading`, `error` and `confirmationRequired`. Its
  methods cover session restore, sign-in, sign-up, code confirmation,
  sign-out, the local user update and error clearing. Each Amplify call is a
  parameter of type `Call<T>`: it either returned a value or threw an error
  with a message. The verifier therefore covers every outcome of every call.
  Whether the code runs in a browser is the constant `inBrowser`.
- **Record lists** (`DataViewer`, `PaginatedDataViewer`). This covers:
  - the case-insensitive search over name and email;
  - ten records per page and the guarded page change;
  - the page-button strip with its ellipses;
  - the unquoted CSV export and the score badge.

  Both viewers are classes whose fields the effects update.
- **Analytics** (`Analytics`, `UseAnalytics`). This covers:
  - the configured-or-not guard;
  - the attribute-to-string loop, which drops `undefined` and `null`;
  - the enrichment with session id, timestamp and user agent, which
    overrides the caller's values for those keys;
  - the screen-name fallbacks;
  - the attribute set of every typed tracker;
  - the page-view effect of the routing hook.

  `record` is a sink: the client keeps the list of events handed to it.
- **Parameter validation** (`AmplifyHelpers`). A loop returns early on the
  first missing key. A wrapper calls the Amplify function only when that
  check passes.
- **Forms and small rules**:
  - the new-password checks and the toasts after them;
  - CSV file acceptance, the storage key and the upload status fields;
  - the chat message list;
  - the display-name and initials fallbacks;
  - the greeting chosen by the hour.

Shared pieces live in two modules:

- `Outcomes`: the optional value, the outcome of one awaited call,
  `message || default`, and JavaScript values with `undefined` and `null`.
- `Strings`: ASCII case mapping, `includes`, one-character `split`/`join`
  with their round trips, `trim`, one-character `replace`, and integer
  `toString`.

Clocks, randomness, locale formatting, the `navigator` global and the
build-time environment are parameters. These include:

- the ISO timestamp;
- the hour of the day;
- the session id;
- `toLocaleDateString` (passed as a function);
- the two app-id variables.

A few observations the proofs bring out:

- A name made only of spaces has no initials at all. `getInitials(" ")` is
  `""`, not the `'U'` fallback (`Navigation.BlankNameInitials`).
- The sign-out in the context swallows every remote failure. The user
  menu's `onSignOut` callback therefore always runs
  (`EnhancedUserDisplay.UserDisplay.HandleSignOut`).
- `trackPageView`'s route fallback is never used from the routing hook,
  because the hook always supplies a non-empty screen name
  (`UseAnalytics.HookNeverFallsBack`).

## Model

| member | source | states |
|---|---|---|
| Outcomes.MessageOr | amplify-react-app/src/contexts/AuthContext.tsx:119 | `error.message || default`: the message when it is non-empty, the fixed default otherwise |
| Outcomes.Lookup | amplify-react-app/src/utils/amplify-helpers.ts:17 | reading a key that is not in the object gives `undefined`; any other key gives its value |
| Strings.Lower | amplify-react-app/src/components/DataViewer.tsx:72-73 | `toLowerCase` keeps the length and lower-cases each character in place |
| Strings.Split | amplify-react-app/src/components/Navigation.tsx:22 | `split(c)` gives one part more than there are separators |
| Strings.JoinSplit | amplify-react-app/src/components/DataViewer.tsx:99 | joining the parts of a split with the same separator gives back the string |
| Strings.SplitJoin | amplify-react-app/src/components/DataViewer.tsx:99 | splitting a join of separator-free parts gives back the parts |
| Strings.FirstSegmentIsPrefix | amplify-react-app/src/contexts/AuthContext.tsx:109 | `s.split(c)[0]` is a prefix of `s`, holds no `c`, and is followed by `c` when shorter than `s` |
| Strings.RemoveFirstLength | amplify-react-app/src/analytics/utils/analytics.ts:101 | `replace('/', '')` leaves a string without '/' unchanged and otherwise removes exactly one character |
| Strings.TrimEmptyIffBlank | amplify-react-app/src/components/ChatInterface.tsx:18 | `trim()` is empty exactly when every character is whitespace |
| Strings.IntToString | amplify-react-app/src/components/DataViewer.tsx:96 | `toString` of an integer is non-empty and made of digits and '-', so it never holds ',' or a line break |
| AuthContext.RestoredUser | amplify-react-app/src/contexts/AuthContext.tsx:68-73 | the restored user has the session's id, the email attribute or '' when it is absent, the name attribute or none, and is onboarded iff `custom:isOnboarded` is exactly 'true' |
| AuthContext.SignedInUser | amplify-react-app/src/contexts/AuthContext.tsx:106-111 | the email attribute, or the typed email when that attribute is missing or empty; the name attribute, or else the typed email's text before the first '@'; onboarded iff `custom:isOnboarded` is exactly 'true' |
| AuthContext.Merge | amplify-react-app/src/contexts/AuthContext.tsx:222 | `{...user, ...updates}`: each supplied field is overwritten, every other field is kept |
| AuthContext.MergeNothing | amplify-react-app/src/contexts/AuthContext.tsx:222 | an update that supplies nothing leaves the user unchanged |
| AuthContext.MergeIdempotent | amplify-react-app/src/contexts/AuthContext.tsx:222 | applying the same update twice equals applying it once |
| AuthContext.AuthProvider.constructor | amplify-react-app/src/contexts/AuthContext.tsx:50-53 | a fresh provider has no user, is loading, has no error and no pending confirmation |
| AuthContext.AuthProvider.Restore | amplify-react-app/src/contexts/AuthContext.tsx:55-83 | loading always ends; outside a browser nothing else changes; a fetched session gives the restored user; any failure leaves no user and sets no error |
| AuthContext.AuthProvider.SignIn | amplify-react-app/src/contexts/AuthContext.tsx:85-124 | outside a browser it throws the build-time error and changes nothing; otherwise loading ends, the result is true iff sign-in and both fetches succeed, and the user is then the signed-in user; a false sign-in result keeps the user with no error; a throw keeps the user and sets the message or 'Failed to sign in' |
| AuthContext.AuthProvider.SignUp | amplify-react-app/src/contexts/AuthContext.tsx:126-167 | the user never changes; outside a browser it throws and changes nothing; a `CONFIRM_SIGN_UP` step stores exactly {email, password, name} and returns {true, true}; another step returns {true, false}; a throw returns {false} with the message or 'Failed to sign up' |
| AuthContext.AuthProvider.ConfirmSignUpWithCode | amplify-react-app/src/contexts/AuthContext.tsx:169-205 | the result is true iff `confirmSignUp` returned, and then the pending confirmation is cleared whatever the auto sign-in does; the user is set only when auto sign-in and both fetches succeed; a throw keeps the pending confirmation and sets the message or 'Failed to confirm sign up' |
| AuthContext.AuthProvider.SignOut | amplify-react-app/src/contexts/AuthContext.tsx:207-218 | the call always resolves; the user is cleared only in a browser after a successful remote sign-out; nothing else changes |
| AuthContext.AuthProvider.UpdateUser | amplify-react-app/src/contexts/AuthContext.tsx:220-226 | no user means no change; otherwise the user becomes the merge and no other field changes |
| AuthContext.AuthProvider.ClearError | amplify-react-app/src/contexts/AuthContext.tsx:228-230 | the error becomes '' and nothing else changes |
| DataViewer.FilterRecords | amplify-react-app/src/components/DataViewer.tsx:71-74 | the filtered list is no longer than the records, every kept record is one of them and matches the term, and each matching record occurs in it exactly as often as in the records, each other record not at all |
| DataViewer.FilterIsOrderedSelection | amplify-react-app/src/components/DataViewer.tsx:70-76 | filtering is an order-preserving selection of the records that keeps every matching record as many times as it occurs and no other |
| DataViewer.FilterEmptyTermKeepsAll | amplify-react-app/src/components/DataViewer.tsx:71-74 | the empty term keeps every record |
| DataViewer.FilterEmptyIff | amplify-react-app/src/components/DataViewer.tsx:182 | the filtered list is empty exactly when no record matches |
| DataViewer.ScoreBadgeVariant | amplify-react-app/src/components/DataViewer.tsx:115-119 | 'default' iff score ≥ 90, 'secondary' iff 80 ≤ score < 90, 'outline' iff score < 80 |
| DataViewer.RowFields | amplify-react-app/src/components/DataViewer.tsx:93-98 | every exported row has four fields |
| DataViewer.ExportLines | amplify-react-app/src/components/DataViewer.tsx:90-99 | when no field holds a line break, splitting the export on '\n' gives the header and exactly one row per record, in order |
| DataViewer.RowFieldsRoundTrip | amplify-react-app/src/components/DataViewer.tsx:93-99 | a row splits back into its four fields when no field holds a comma |
| DataViewer.RowColumns | amplify-react-app/src/components/DataViewer.tsx:93-99 | without quoting, a row has 4 columns plus one for every comma in the name, email and date |
| DataViewer.DataViewer.constructor | amplify-react-app/src/components/DataViewer.tsx:20-22 | both lists and the term start empty |
| DataViewer.DataViewer.LoadRecords | amplify-react-app/src/components/DataViewer.tsx:27-68 | after the mount effect and the filter effect it triggers, the records are the loaded ones and the list shows the matches of the current term |
| DataViewer.DataViewer.SetSearchTerm | amplify-react-app/src/components/DataViewer.tsx:70-76 | after typing, the list is exactly the records that match the new term |
| DataViewer.DataViewer.ExportText | amplify-react-app/src/components/DataViewer.tsx:90-99 | the export over the filtered records reads back as the header and one row per filtered record |
| DataViewer.DataViewer.ExportDisabled | amplify-react-app/src/components/DataViewer.tsx:157 | export is disabled exactly when the filtered list is empty |
| DataViewer.DataViewer.EmptyState | amplify-react-app/src/components/DataViewer.tsx:182-189 | the empty state shows exactly when the filtered list is empty, with the search hint when a term is set and the upload hint otherwise |
| DataViewer.DataViewer.ShownFooter | amplify-react-app/src/components/DataViewer.tsx:221-233 | the footer shows exactly when records are listed; it shows the filtered count and the total, shown ≤ total, and both buttons are disabled |
| PaginatedDataViewer.TotalPages | amplify-react-app/src/enhancements/pagination/PaginatedDataViewer.tsx:43 | the ceiling of n/10: t·10 ≥ n, (t−1)·10 < n, and no pages iff no records |
| PaginatedDataViewer.PageRecords | amplify-react-app/src/enhancements/pagination/PaginatedDataViewer.tsx:44-46 | a page holds at most 10 records, exactly min(10, n − start) past the start, each equal to `filtered[(p−1)·10 + i]` |
| PaginatedDataViewer.PagesPartition | amplify-react-app/src/enhancements/pagination/PaginatedDataViewer.tsx:43-46 | pages 1 to totalPages, concatenated in order, are exactly the filtered list |
| PaginatedDataViewer.PageEntries | amplify-react-app/src/enhancements/pagination/PaginatedDataViewer.tsx:238-261 | one strip entry per shown page, in the same order, each marked active exactly when it is the current page |
| PaginatedDataViewer.ExactlyOneActive | amplify-react-app/src/enhancements/pagination/PaginatedDataViewer.tsx:250-253 | with the current page in range, exactly one entry of the strip is active |
| PaginatedDataViewer.ShownPagesSpec | amplify-react-app/src/enhancements/pagination/PaginatedDataViewer.tsx:231-237 | the shown pages are strictly increasing and lie in 1..total; 1 and total are always shown; every other page is shown iff it is within 1 of the current page |
| PaginatedDataViewer.EllipsisMarksHiddenPage | amplify-react-app/src/enhancements/pagination/PaginatedDataViewer.tsx:238-247 | an ellipsis precedes a shown page p iff p − 1 ≥ 1 and page p − 1 is not shown |
| PaginatedDataViewer.EllipsisPages | amplify-react-app/src/enhancements/pagination/PaginatedDataViewer.tsx:238-247 | a page with an ellipsis before it is the page below the current one or the last page |
| PaginatedDataViewer.AtMostTwoEllipses | amplify-react-app/src/enhancements/pagination/PaginatedDataViewer.tsx:238-247 | with the current page in range, the strip holds at most two ellipses |
| PaginatedDataViewer.StripEllipses | amplify-react-app/src/enhancements/pagination/PaginatedDataViewer.tsx:216-261 | a drawn strip of a valid viewer holds at most two ellipses |
| PaginatedDataViewer.StripActivePage | amplify-react-app/src/enhancements/pagination/PaginatedDataViewer.tsx:216-261 | a drawn strip of a valid viewer marks exactly one entry active, the one for the current page |
| PaginatedDataViewer.PaginatedViewer.constructor | amplify-react-app/src/enhancements/pagination/PaginatedDataViewer.tsx:36-59 | mounting shows every record on page 1 and tracks no search |
| PaginatedDataViewer.PaginatedViewer.RunFilterEffect | amplify-react-app/src/enhancements/pagination/PaginatedDataViewer.tsx:48-59 | the filter effect shows the matches, returns to page 1, and tracks one search only for a non-empty term |
| PaginatedDataViewer.PaginatedViewer.SetSearchTerm | amplify-react-app/src/enhancements/pagination/PaginatedDataViewer.tsx:48-59 | a changed term resets to page 1 and tracks a non-empty term; the unchanged term triggers nothing |
| PaginatedDataViewer.PaginatedViewer.SetRecords | amplify-react-app/src/enhancements/pagination/PaginatedDataViewer.tsx:48-59 | new records re-run the filter and reset to page 1 |
| PaginatedDataViewer.PaginatedViewer.HandlePageChange | amplify-react-app/src/enhancements/pagination/PaginatedDataViewer.tsx:109-113 | the page changes iff 1 ≤ page ≤ totalPages; with no records every change is rejected |
| PaginatedDataViewer.PaginatedViewer.CurrentRecords | amplify-react-app/src/enhancements/pagination/PaginatedDataViewer.tsx:44-46 | `slice(startIndex, endIndex)`: exactly min(10, n − startIndex) records, each the filtered record at the page's offset plus its position, and none iff nothing matches |
| PaginatedDataViewer.PaginatedViewer.EmptyState | amplify-react-app/src/enhancements/pagination/PaginatedDataViewer.tsx:177-183 | the empty page shows exactly when nothing matches, with the search or upload hint |
| PaginatedDataViewer.PaginatedViewer.ShowingRange | amplify-react-app/src/enhancements/pagination/PaginatedDataViewer.tsx:219 | "Showing x to y of n": x is the page's start index plus 1, y is x − 1 plus the number of visible records, and n the filtered count |
| PaginatedDataViewer.PaginatedViewer.PageStrip | amplify-react-app/src/enhancements/pagination/PaginatedDataViewer.tsx:216-261 | the strip is drawn iff there is more than one page, and is then the page entries |
| PaginatedDataViewer.PaginatedViewer.ExportText | amplify-react-app/src/enhancements/pagination/PaginatedDataViewer.tsx:83-92 | the export holds the header and one row per filtered record on every page, not just the visible one |
| PaginatedDataViewer.PaginatedViewer.ExportDisabled | amplify-react-app/src/enhancements/pagination/PaginatedDataViewer.tsx:156 | export is disabled exactly when nothing matches |
| Analytics.AppId | amplify-react-app/src/analytics/utils/analytics.ts:39-45 | analytics is configured iff the End-User-Messaging id or the Pinpoint id is non-empty; the End-User-Messaging id wins when both are set |
| Analytics.ConvertAttributesToStrings | amplify-react-app/src/analytics/utils/analytics.ts:48-58 | the loop keeps exactly the keys whose value is neither undefined nor null, each mapped to `String(value)` |
| Analytics.UserAgentOf | amplify-react-app/src/analytics/utils/analytics.ts:78 | 'unknown' without a `navigator`, its user agent otherwise |
| Analytics.Enrich | amplify-react-app/src/analytics/utils/analytics.ts:74-79 | the caller's keys plus sessionId, timestamp and userAgent; those three override the caller's values, and every other key keeps its value |
| Analytics.EnrichedStrings | amplify-react-app/src/analytics/utils/analytics.ts:74-88 | what reaches `record` always holds the three enrichment strings and, of the caller's other keys, exactly the present ones as strings |
| Analytics.ScreenNameFallback | amplify-react-app/src/analytics/utils/analytics.ts:101 | never empty: the given screen name when non-empty, else the route with its first '/' removed when non-empty, else 'home' |
| Analytics.ScreenNameOfRoute | amplify-react-app/src/analytics/utils/analytics.ts:101 | with no screen name, a route starting with '/' loses exactly that slash, and '/' gives 'home' |
| Analytics.ScreenNameExamples | amplify-react-app/src/analytics/utils/analytics.ts:98-103 | '/' gives 'home', and '/a/b' gives 'a/b' with or without an empty screen name |
| Analytics.PlanOrFree | amplify-react-app/src/analytics/utils/analytics.ts:120 | an omitted plan type defaults to 'free' |
| Analytics.OptionalValue | amplify-react-app/src/analytics/utils/analytics.ts:109 | an omitted optional parameter is an undefined attribute, which the conversion drops |
| Analytics.PageViewEvent | amplify-react-app/src/analytics/utils/analytics.ts:98-103 | a page view sends exactly route and screenName, the latter after the fallbacks |
| Analytics.UserSignupEvent | amplify-react-app/src/analytics/utils/analytics.ts:106-112 | exactly email, username and planType 'free'; username is the given name, and undefined iff no name is given |
| Analytics.UserSigninEvent | amplify-react-app/src/analytics/utils/analytics.ts:114-118 | exactly the email |
| Analytics.StartTrialEvent | amplify-react-app/src/analytics/utils/analytics.ts:120-124 | exactly planType: the given plan's name, 'free' by default |
| Analytics.OnboardingCompleteEvent | amplify-react-app/src/analytics/utils/analytics.ts:126-131 | exactly the given email and planType: the given plan's name, 'free' by default |
| Analytics.FileUploadEvent | amplify-react-app/src/analytics/utils/analytics.ts:133-140 | exactly screenName 'dashboard', planType 'free', fileType ('unknown' by default) and the given fileSize |
| Analytics.FileUploadIgnoresFileName | amplify-react-app/src/analytics/utils/analytics.ts:133-140 | the file name has no effect on the upload event |
| Analytics.ChatMessageEvent | amplify-react-app/src/analytics/utils/analytics.ts:142-146 | exactly screenName 'dashboard', whatever the message type |
| Analytics.DashboardVisitEvent | amplify-react-app/src/analytics/utils/analytics.ts:148-153 | exactly email and screenName 'dashboard' |
| Analytics.DataExportEvent | amplify-react-app/src/analytics/utils/analytics.ts:156-161 | exactly exportFormat and screenName 'data_viewer' |
| Analytics.DataExportIgnoresCount | amplify-react-app/src/analytics/utils/analytics.ts:156-161 | the record count has no effect on the export event |
| Analytics.DataSearchEvent | amplify-react-app/src/analytics/utils/analytics.ts:163-168 | exactly searchTerm and screenName 'data_viewer' |
| Analytics.DataFilterEvent | amplify-react-app/src/analytics/utils/analytics.ts:170-175 | exactly filterType and screenName 'data_viewer' |
| Analytics.NavigationClickEvent | amplify-react-app/src/analytics/utils/analytics.ts:177-181 | exactly navigationTarget |
| Analytics.FeatureUsageEvent | amplify-react-app/src/analytics/utils/analytics.ts:183-188 | exactly featureName and screenName |
| Analytics.AnalyticsClient.constructor | amplify-react-app/src/analytics/utils/analytics.ts:62 | one session id for the page load, and nothing recorded yet |
| Analytics.AnalyticsClient.TrackEvent | amplify-react-app/src/analytics/utils/analytics.ts:69-95 | when configured, `record` is called exactly once, with the event's name and the converted enriched attributes; otherwise never; a failing `record` is swallowed and changes nothing else |
| Analytics.AnalyticsClient.Track | amplify-react-app/src/analytics/utils/analytics.ts:98-103 | a typed tracker records its event exactly as `trackEvent` would |
| UseAnalytics.ScreenNameFromPath | amplify-react-app/src/analytics/hooks/useAnalytics.ts:29-38 | the exact table entry for '/', '/auth', '/onboarding' and '/dashboard', 'unknown' for every other path; always one of five non-empty names |
| UseAnalytics.ScreenNameExamples | amplify-react-app/src/analytics/hooks/useAnalytics.ts:30-37 | the four routes map to landing, authentication, onboarding and dashboard; '/dashboard/' and '/analytics' map to 'unknown' |
| UseAnalytics.LocationPageView | amplify-react-app/src/analytics/hooks/useAnalytics.ts:12-13 | the tracked page view has the pathname as route and the mapped screen name |
| UseAnalytics.HookNeverFallsBack | amplify-react-app/src/analytics/hooks/useAnalytics.ts:12-13 | the screen-name fallback of `trackPageView` is never reached from the hook |
| UseAnalytics.OnLocationChange | amplify-react-app/src/analytics/hooks/useAnalytics.ts:10-14 | each location change records one page view when analytics is configured, and nothing otherwise |
| AmplifyHelpers.FirstMissing | amplify-react-app/src/utils/amplify-helpers.ts:16-20 | none iff every required key is present; otherwise the position of a missing key with every earlier key present |
| AmplifyHelpers.ValidateAmplifyParams | amplify-react-app/src/utils/amplify-helpers.ts:12-22 | returns `params` unchanged iff every required key is neither undefined nor null; otherwise throws the message naming the first missing key |
| AmplifyHelpers.FirstMissingIs | amplify-react-app/src/utils/amplify-helpers.ts:16-19 | a missing key with every earlier key present is the first missing one |
| AmplifyHelpers.ValidationNamesFirstMissing | amplify-react-app/src/utils/amplify-helpers.ts:16-19 | validation throws iff some required key is missing, and the message names the first in `requiredKeys` order |
| AmplifyHelpers.OnlyListedKeysInspected | amplify-react-app/src/utils/amplify-helpers.ts:16-17 | objects that agree on the required keys validate alike, whatever their other keys hold |
| AmplifyHelpers.NoKeysAlwaysValid | amplify-react-app/src/utils/amplify-helpers.ts:16-21 | an empty key list always validates |
| AmplifyHelpers.SafeAmplifyCall | amplify-react-app/src/utils/amplify-helpers.ts:31-43 | no call of `fn` when validation fails, whose error is rethrown; otherwise exactly one call with `params`, whose result or error is passed through unchanged |
| AmplifyHelpers.DefaultKeysCallOnce | amplify-react-app/src/utils/amplify-helpers.ts:34-38 | with the default `requiredKeys = []`, `fn` is called exactly once |
| AmplifyHelpers.MissingKeyNoCall | amplify-react-app/src/utils/amplify-helpers.ts:37-38 | a missing required key means `fn` is never called and the call throws |
| NewPasswordForm.LocalCheck | amplify-react-app/src/components/NewPasswordForm.tsx:22-30 | no error iff the passwords match and have at least 8 characters; a mismatch is reported first, whatever the length |
| NewPasswordForm.NewPasswordForm.constructor | amplify-react-app/src/components/NewPasswordForm.tsx:12-14 | empty fields, no error, no calls, no toasts |
| NewPasswordForm.NewPasswordForm.SetNewPassword | amplify-react-app/src/components/NewPasswordForm.tsx:72 | typing sets the new password |
| NewPasswordForm.NewPasswordForm.SetConfirmPassword | amplify-react-app/src/components/NewPasswordForm.tsx:87 | typing sets the confirmation |
| NewPasswordForm.NewPasswordForm.HandleSubmit | amplify-react-app/src/components/NewPasswordForm.tsx:19-47 | a failed check sets its message with no call and no toast; otherwise the error is cleared and the challenge is invoked once with the new password; if it resolves true, 'Password changed' is shown, if false a failure toast only when the context error is non-empty; if it throws, the handler rejects with that error and no toast is shown |
| NewPasswordForm.NewPasswordForm.AlertText | amplify-react-app/src/components/NewPasswordForm.tsx:58-62 | an alert shows iff either error is non-empty, and the context error wins over the local one |
| FileUpload.AcceptanceExamples | amplify-react-app/src/components/FileUpload.tsx:19 | '.csv' names and the 'text/csv' type are accepted; the check is case-sensitive, so 'DATA.CSV' with another type is not |
| FileUpload.SanitizeTimestamp | amplify-react-app/src/components/FileUpload.tsx:42 | same length, no ':' or '.', and every other character kept |
| FileUpload.StorageKey | amplify-react-app/src/components/FileUpload.tsx:43 | the key starts with `uploads/<userId>/` and ends with `_<file name>` |
| FileUpload.StorageKeySegments | amplify-react-app/src/components/FileUpload.tsx:43 | when no part holds a '/', the key splits into 'uploads', the user id, and timestamp_name |
| FileUpload.FileUploader.constructor | amplify-react-app/src/components/FileUpload.tsx:11-14 | no file, not uploading, progress 0, no message |
| FileUpload.FileUploader.HandleFileSelect | amplify-react-app/src/components/FileUpload.tsx:16-26 | a CSV first file is taken; a rejected one sets 'Please select a CSV file.' and keeps the earlier choice; no file changes nothing |
| FileUpload.FileUploader.UploadDisabled | amplify-react-app/src/components/FileUpload.tsx:156 | the button is disabled iff there is no file or an upload is running |
| FileUpload.FileUploader.HandleUpload | amplify-react-app/src/components/FileUpload.tsx:28-82 | without a file, only the message changes and nothing is uploaded; otherwise the upload runs with the storage key while uploading is true, afterwards uploading is false, and success gives progress 100 with '✅ Upload successful!' while failure gives '❌ Upload failed: ' and the message |
| ChatInterface.ChatInterface.constructor | amplify-react-app/src/components/ChatInterface.tsx:13-14 | empty input and no messages |
| ChatInterface.ChatInterface.SetMessage | amplify-react-app/src/components/ChatInterface.tsx:87 | typing sets the input |
| ChatInterface.ChatInterface.HandleSubmit | amplify-react-app/src/components/ChatInterface.tsx:16-32 | a blank input changes nothing; any other input is appended once, untrimmed, as a user message after all earlier ones, and the input is cleared |
| ChatInterface.ChatInterface.HandleFileUpload | amplify-react-app/src/components/ChatInterface.tsx:34-51 | with files, exactly one message 'Uploaded file: ' plus the first name is appended; without files nothing changes |
| ChatInterface.ChatInterface.SendDisabled | amplify-react-app/src/components/ChatInterface.tsx:119 | the send button is disabled exactly when the input is blank |
| Navigation.FirstChars | amplify-react-app/src/components/Navigation.tsx:22 | `map(n => n[0]).join('')` yields at most one character per segment |
| Navigation.GetInitials | amplify-react-app/src/components/Navigation.tsx:20-23 | 'U' for a missing or empty name; otherwise no longer than the segments, and the upper-cased first letter of every space-separated word, in order |
| Navigation.InitialsAreWordStarts | amplify-react-app/src/components/Navigation.tsx:22 | the split/map/join keeps exactly the characters that begin a word; empty segments contribute nothing |
| Navigation.InitialsIgnoreDoubleSpaces | amplify-react-app/src/components/Navigation.tsx:22 | two spaces in a row give the same initials as one |
| Navigation.InitialsExamples | amplify-react-app/src/components/Navigation.tsx:21 | no name and the empty name give 'U' |
| Navigation.TwoWordInitials | amplify-react-app/src/components/Navigation.tsx:22 | 'ab cd' gives 'AC' |
| Navigation.BlankNameInitials | amplify-react-app/src/components/Navigation.tsx:21-22 | a name of one space gives no initials at all, not 'U' |
| Navigation.AvatarIgnoresEmail | amplify-react-app/src/components/Navigation.tsx:37-45 | the avatar's initials depend on the name alone; the email is only displayed |
| EnhancedUserDisplay.DisplayName | amplify-react-app/src/enhancements/user-display/EnhancedUserDisplay.tsx:22 | never empty: the name when non-empty, else the email's text before the first '@' when non-empty, else 'User' |
| EnhancedUserDisplay.DisplayNameFallback | amplify-react-app/src/enhancements/user-display/EnhancedUserDisplay.tsx:22 | with no name, an empty email or one starting with '@' shows 'User' |
| EnhancedUserDisplay.UserDisplay.constructor | amplify-react-app/src/enhancements/user-display/EnhancedUserDisplay.tsx:17-18 | empty name and email |
| EnhancedUserDisplay.UserDisplay.OnUserChange | amplify-react-app/src/enhancements/user-display/EnhancedUserDisplay.tsx:20-25 | a user sets the display name by the fallbacks and the email as given; no user keeps both |
| EnhancedUserDisplay.UserDisplay.AvatarInitials | amplify-react-app/src/enhancements/user-display/EnhancedUserDisplay.tsx:67 | the initials of the display name, 'U' only while it is still empty |
| EnhancedUserDisplay.UserDisplay.HandleSignOut | amplify-react-app/src/enhancements/user-display/EnhancedUserDisplay.tsx:27-36 | the callback runs iff one is given, because the context's sign-out never throws; the user changes as the sign-out says |
| WelcomeBanner.Greeting | amplify-react-app/src/components/WelcomeBanner.tsx:17-22 | 'Good morning' before 12, 'Good afternoon' from 12 to 17, 'Good evening' from 18 |
| WelcomeBanner.GreetedName | amplify-react-app/src/components/WelcomeBanner.tsx:31 | the name when non-empty, 'there' otherwise |
| WelcomeBanner.GreetingCoversDay | amplify-react-app/src/components/WelcomeBanner.tsx:18-21 | every hour 0–23 gets one of the three greetings: morning iff hour ≤ 11, evening iff hour ≥ 18 |

## Left out

- Rendering is not modelled: markup, styling classes, icons, and the look of the Previous/Next links in the paginated viewer.
- Toasts after export and refresh are not modelled and carry no logic. The `Blob` download and `URL` handling are browser I/O. Toasts in the new-password form are modelled.
- `handleRefresh` in both viewers is not modelled. It awaits a timer or a parent callback and shows a toast, and it holds no logic of its own.
- The `trackDataExport` and `trackFeatureUsage` calls inside the record viewers are not modelled. Only the searches tracked by the paginated filter effect are modelled (`trackedSearches`).
- Async interleaving is not modelled. Each operation is one atomic step, so `isLoading = true` during a call is visible only inside that step. `isLoading` also disables the new-password button, which is not modelled.
- These timers are not modelled: the assistant replies in the chat, the 2-second reset after an upload, and the feedback and banner timers elsewhere.
- Floating point is not modelled. Upload percentages are not computed, and the KB display is not modelled. Scores and file sizes are integers, so `toString` of a fraction is not modelled.
- Dates, locale and randomness are parameters. These include `toLocaleDateString`, `toISOString`, `getHours` and the random session id; `formatDate` for the table is display only.
- Console logging is not modelled, in any file.
- Unicode is not modelled. Case mapping is ASCII only, whitespace is the ASCII set, and a password's length is the number of characters, not of UTF-16 units.
- Inherited object keys are not modelled. `pathMap[pathname]` on a plain object would also find keys such as `toString`, and the model treats the table as a plain map.
- An explicit `undefined` in a `Partial<User>` update is not distinguishable from an absent key in `UserUpdate`.
- The context members used by the new-password form are not declared by the authentication context in this repository. The challenge is therefore an abstract outcome (`Call<bool>`), and the context error is the value captured when the form was drawn. With the context as written, `completeNewPasswordChallenge` is `undefined`, so every submission that passes the local checks takes the throw path: the local error is cleared, the handler rejects, and no toast is shown.
- `useAuth` outside a provider is not modelled. `onProfileClick` and `onSettingsClick` only forward the click.
- The tracker references returned by `useAnalytics` are not modelled. They are the static methods taken unbound, so calling them loses `this`: a typed tracker would fail at `this.trackEvent`, and `trackEvent` itself would fail at `this.sessionId` inside its `try`, log, and record nothing. No caller in this repository uses them.
- Analytics.AnalyticsClient.Track: the thirteen typed trackers are not written as thirteen methods. Each is an event-building function (`PageViewEvent`, `FileUploadEvent`, …) passed to this one method.
- Analytics.AnalyticsClient.TrackEvent: `record` is a sink and its outcome has no effect. The model therefore does not state what the Amplify library does with the event.
- FileUpload.FileUploader.HandleUpload: after a failed upload, progress is the last value reported by the progress callback. That value is the parameter `progressDuring`, because the percentage is floating point.
- DataViewer.DataViewer.ExportText: the line structure of the export is stated only when no field holds a line break. Otherwise the unquoted text has more lines than rows.
- PaginatedDataViewer.PaginatedViewer.ExportText: the same condition as the plain viewer's export applies.
