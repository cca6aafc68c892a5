# Heart disease prediction app: a Dafny model of its logic

The application is a React front end for a heart-disease risk classifier. It has:

- a scoring service, `POST /predict`, which takes 13 clinical features and returns a label;
- pages that validate and send those features, and show the result;
- a page for a user's saved predictions, with CSV export;
- a hook that keeps that list in sync with the database;
- a session provider;
- profile and settings pages that validate user data and links;
- voice navigation;
- an appointment form.

This project models the logic of those parts: the validators, the state changes of the handlers, and the guards of the scoring route.

Every call to the hosted database, the auth service, HTTP, storage or a browser API becomes a parameter of the handler that makes it. That parameter is the call's outcome: `Success(data)` or `Failed(failure)`, or a `Reply`. Each handler runs as one atomic step, from the click to the settled reply. The calls a handler issues are appended to an effects log field (`effects`, `queries`, `requests`, `posts`). Contracts can therefore say what was sent, in what order, and that nothing was sent on a guard path.

Shared modules:

- `Wrappers`: `Option` and `Result`.
- `Text`: digits, decimal text, join and split, substring search, ASCII lower-casing, UTF-16 length.
- `JsValues`, the JavaScript value rules the pages rely on:
  - `String.prototype.trim`;
  - the string-to-number conversion done by unary `+` and `Number(...)`, with NaN and the infinities;
  - IEEE comparisons, under which NaN fails every comparison;
  - the truthiness and `Number(...)` of JSON reply values.
- `JsObjects`: plain objects as ordered association lists. Spread and property assignment keep insertion order, and an existing key is replaced in place.
- `Remote`: call outcomes, and the `err instanceof Error ? err.message : fallback` pattern.

Modules for the components:

- `MlApi`: the scoring route.
- `PredictionComponent`: the routed prediction page. It holds 13 text fields and reports the first failing rule.
- `PredictPage`: the unrouted variant. It holds a named-field object, collects every violated rule, and refuses any 0.
- `HistoryPage`: the history page.
- `UsePredictions`: the predictions hook.
- `AuthContext`: the session provider.
- `ProfilePage`: the profile page.
- `SettingsPage`: the settings page.
- `VoiceCommands`: voice navigation.
- `AppointmentCalendar`: the appointment form.

Regular expressions are modelled twice:

- as a predicate read off the pattern (`EmailPattern`, `LinkPattern`, `ImageTypeMatches`);
- as a hand-written checker (`ValidEmail`, `ScanLink`, membership in `AcceptedTypes`).

A lemma proves the two equivalent for every string.

## Model

| member | source | states |
|---|---|---|
| MlApi.Predict | fastapi-ml-api/app.py:46-72 | The model check comes first: with no model, every input, of any length, gets the model-not-loaded error. Otherwise a count other than 13 gets the count error. Otherwise a label gives `{"prediction": int(label)}` and a raised exception gives `{"error": str(e)}`. Every result has exactly one of the two keys. |
| MlApi.InputRow | fastapi-ml-api/app.py:35-39 | The i-th value goes to the i-th of the 13 fixed column names: age, sex, cp, trestbps, chol, fbs, restecg, thalach, exang, oldpeak, slope, ca, thal. |
| MlApi.PyInt | fastapi-ml-api/app.py:64 | `int(x)` truncates toward zero. For x ≥ 0 the result is the largest integer ≤ x; for x < 0 it is the smallest integer ≥ x. |
| MlApi.WrongCountMessageInjective | fastapi-ml-api/app.py:55 | The count error reports the count exactly: different counts give different messages. |
| PredictionComponent.FirstViolation | src/components/PredictionComponent.tsx:28-38 | Reading a rule table as a guard chain: `None` iff no rule is violated, otherwise the message of a violated rule. |
| PredictionComponent.Validate | src/components/PredictionComponent.tsx:28-38 | The result is "All fields must be filled." exactly when some entry trims to empty, whatever the other rules say. |
| PredictionComponent.Guards | src/components/PredictionComponent.tsx:29-38 | The guard chain over the blank test and the five numbers it reads. Blank wins; otherwise the age message appears exactly when age ≤ 0 or age > 120. |
| PredictionComponent.ValidateIsGuards | src/components/PredictionComponent.tsx:32-36 | The bound checks read entries 0, 4, 3, 7 and 9, in that order, through unary `+`. |
| PredictionComponent.ValidateIsFirstViolation | src/components/PredictionComponent.tsx:28-38 | The validator returns the message of the first failing rule, in the order blank, age, cholesterol, blood pressure, heart rate, ST depression. It returns `None` when all rules pass. |
| PredictionComponent.FirstOfSix | src/components/PredictionComponent.tsx:29-38 | A six-rule table read first-failure-wins is the nested conditional over its rules. |
| PredictionComponent.AgeBoundary | src/components/PredictionComponent.tsx:32 | Take a filled form whose age is a plain decimal numeral n. The age message is reported iff n = 0 or n > 120, so 1 and 120 pass while 0 and 121 fail. |
| PredictionComponent.NonNumericEntriesPass | src/components/PredictionComponent.tsx:32-38 | Non-blank entries that are not numeric text at the five checked positions read as NaN. They therefore pass every bound check and the validator returns `None`. |
| PredictionComponent.NonNumericIsNaN | src/components/PredictionComponent.tsx:32 | Unary `+` of a string whose trimmed text contains a character no numeral uses is NaN. |
| PredictionComponent.NaNEntriesPass | src/components/PredictionComponent.tsx:32-38 | With no blank entry, NaN at all five checked positions means no message. |
| PredictionComponent.UncheckedFieldsOnlyNeedContent | src/components/PredictionComponent.tsx:29-36 | Entries 1, 2, 5, 6, 8, 10, 11 and 12 are only tested for blankness. Two forms that agree at the five checked positions, and on which entries are blank, get the same verdict. |
| PredictionComponent.RequestBody | src/components/PredictionComponent.tsx:55-60 | The body `{features}` holds the 13 entries converted with `Number`, in the same order. |
| PredictionComponent.LabelFor | src/components/PredictionComponent.tsx:73-76 | The high-risk message iff `Number(data.prediction) === 1`; otherwise the low-risk message. |
| PredictionComponent.ClassifyReplyAsWritten | src/components/PredictionComponent.tsx:65-81 | The page as written: failure iff there is no response, the status is not OK, the body is absent, or the body's `error` is truthy. A failure yields the generic error message; a success yields `LabelFor` of the prediction. |
| PredictionComponent.ClassifiersDiffer | src/components/PredictionComponent.tsx:70 | The written and the intended test disagree exactly on an OK reply whose `error` property is present but falsy (`""`, `null`, `0`, `false`). |
| PredictionComponent.ClassifyReply | src/components/PredictionComponent.tsx:65-81 | Corrected: failure iff there is no response, the status is not OK, the body is absent, or the body carries an `error` field at all. A failure yields the generic error message; a success yields `LabelFor` of the prediction. |
| PredictionComponent.ReplyOutcome | src/components/PredictionComponent.tsx:57-81 | Takes a 13-number body end to end through the route, as the page is written. A non-finite entry (sent as `null`, refused with 422) or a missing model gives the error message. A label gives the high-risk message iff `int(label) == 1`. A raised exception gives the error message, except one with an empty message, which shows the low-risk message. |
| PredictionComponent.CorrectedReplyOutcome | fastapi-ml-api/app.py:48-72 | The same route outcomes read with the intended test: every raised exception, whatever its message, gives the error message. |
| PredictionComponent.EndToEnd | src/components/PredictionComponent.tsx:47-81 | The body a validated form sends is answered as `ReplyOutcome` says, with the page's truthiness test. |
| PredictionComponent.ServerErrorsAreFailures | fastapi-ml-api/app.py:48-72 | Every error body the route can return is shown as the fetch error. |
| PredictionComponent.EmptyServerErrorShownAsLowRisk | src/components/PredictionComponent.tsx:70 | As written, a classifier exception with an empty message yields `{"error": ""}`. That body is shown as the low-risk result. |
| PredictionComponent.PredictionForm.constructor | src/components/PredictionComponent.tsx:13-17 | Starts with thirteen empty entries, nothing shown, not loading and nothing sent. |
| PredictionComponent.PredictionForm.HandleChange | src/components/PredictionComponent.tsx:20-25 | Replaces exactly entry i and keeps 13 entries. The others are unchanged, the form error is cleared, and the rest of the state is untouched. |
| PredictionComponent.PredictionForm.HandleSubmit | src/components/PredictionComponent.tsx:42-85 | On a validation failure: the form error is set, prediction and error are null, and no request is made. Otherwise one request is sent with `RequestBody`, then the prediction or the error message is set according to `ClassifyReplyAsWritten`, the truthiness test the page uses. `loading` ends false in every case. |
| PredictionComponent.PredictionForm.ClearAndValidate | src/components/PredictionComponent.tsx:43-51 | The opening of `handleSubmit`: prediction, error and form error are cleared. The verdict returned is `Validate` of the entries, and it becomes the form error. The entries, `loading` and the requests are untouched. |
| PredictionComponent.PredictionForm.Send | src/components/PredictionComponent.tsx:53-84 | The `try` block: exactly one request is appended. A reply `ClassifyReplyAsWritten` accepts sets the prediction; any other sets the error and leaves the prediction. `loading` ends false. |
| PredictPage.PutNamed | src/pages/Predict.tsx:47-53 | Assigning one of the 13 names keeps the form's keys: exactly those names, in their order. |
| PredictPage.InitialKeys | src/pages/Predict.tsx:26-40 | The initial form has the 13 named fields. |
| PredictPage.Field | src/pages/Predict.tsx:63-67 | Reading a field the form does not have gives NaN, as `undefined` does in a comparison. |
| PredictPage.Violated | src/pages/Predict.tsx:62-72 | Collecting the violated rules yields at most one message per rule. |
| PredictPage.ViolatedMembers | src/pages/Predict.tsx:62-72 | A message is collected iff some violated rule carries it. Nothing is collected iff no rule is violated. |
| PredictPage.ViolatedSnoc | src/pages/Predict.tsx:62-72 | Checking one more rule appends its message at the end, if that rule is violated. |
| PredictPage.PushStep | src/pages/Predict.tsx:62-72 | The messages of the first k+1 rules are those of the first k, plus the push of rule k. |
| PredictPage.ViolatedFrom | src/pages/Predict.tsx:62-72 | The messages from rule k onward are the push of rule k, followed by those from rule k+1. |
| PredictPage.ViolatedSix | src/pages/Predict.tsx:62-72 | The six-rule table unrolled: its six pushes, in rule order. |
| PredictPage.ViolatedMember | src/pages/Predict.tsx:62-72 | With distinct messages, a rule's message is collected iff that rule is violated. |
| PredictPage.ChecksDistinct | src/pages/Predict.tsx:63-71 | The six messages of the page differ from one another. |
| PredictPage.ViolationsIff | src/pages/Predict.tsx:63-72 | Each message is present iff its own rule fails, independently of the others: age ≤ 0 or > 120; chol ≤ 0; trestbps ≤ 0; thalach ≤ 0; oldpeak < 0; some value equal to 0. |
| PredictPage.ViolationsAsPushes | src/pages/Predict.tsx:62-72 | The messages are the six conditional pushes in the order age, cholesterol, blood pressure, heart rate, ST depression, zero. |
| PredictPage.PushIf | src/pages/Predict.tsx:63 | `if (failed) errors.push(message)` appends the message exactly when the rule fails. |
| PredictPage.InitialFormFails | src/pages/Predict.tsx:26-40 | The all-zero initial form is always refused, with age, cholesterol, blood pressure, heart rate and the zero message, in that order. |
| PredictPage.InitialFieldsZero | src/pages/Predict.tsx:26-40 | Every field of the initial form is 0, so the zero rule fires. |
| PredictPage.ZeroBoundsFail | src/pages/Predict.tsx:63-72 | With the five checked fields at 0, every rule fails except ST depression. |
| PredictPage.AllButFifthViolated | src/pages/Predict.tsx:62-72 | A table with every rule violated except the fifth collects the other five messages, in order. |
| PredictPage.ZeroAgeReportedTwice | src/pages/Predict.tsx:63-72 | An age of 0 draws both the age message and the zero message. |
| PredictPage.ClearedFieldIsZero | src/pages/Predict.tsx:51-72 | `Number("")` is 0, so emptying any field draws the zero message. |
| PredictPage.ResultMessage | src/pages/Predict.tsx:85-91 | The high-risk message iff `Number(response.data.prediction) === 1`; otherwise the low-risk message. |
| PredictPage.Confidence | src/pages/Predict.tsx:94 | `confidence ?? null`: null iff the property is absent or null; otherwise the property itself. |
| PredictPage.PredictForm.constructor | src/pages/Predict.tsx:26-45 | Starts with the all-zero form, nothing shown, not loading and nothing posted. |
| PredictPage.PredictForm.HandleChange | src/pages/Predict.tsx:47-53 | Sets only the named field, to `Number(value)`. The other twelve and the rest of the state are unchanged. |
| PredictPage.PredictForm.SetFeature | src/pages/Predict.tsx:49-52 | The state update of `handleChange` once the text is converted: one field replaced, every other field unchanged. |
| PredictPage.PredictForm.CollectErrors | src/pages/Predict.tsx:62-72 | The pushes produce exactly `Violations(formData)`. |
| PredictPage.PredictForm.HandleSubmit | src/pages/Predict.tsx:55-100 | With any violation: the error is the messages joined with single spaces, prediction and confidence are null, and nothing is posted. Otherwise the named-field object is posted to `/api/predict`. A resolved reply sets the prediction message and the confidence. A rejected reply sets the failure message with a null prediction. `loading` ends false. |
| HistoryPage.RemoveId | src/pages/History.tsx:55 | Filtering never lengthens the list. |
| HistoryPage.RemoveIdAppend | src/pages/History.tsx:55 | Filtering distributes over concatenation, so the kept entries stay in their original relative order. |
| HistoryPage.RemoveIdMembers | src/pages/History.tsx:55 | After deleting id X, an entry remains iff it was there and its id is not X. |
| HistoryPage.RemoveAbsentId | src/pages/History.tsx:55 | Deleting an id no entry carries changes nothing. |
| HistoryPage.ExportRecordEnds | src/pages/History.tsx:77-81 | Whatever the features hold, "date" stays the first column and "result" holds the entry's result. |
| HistoryPage.ExportRecordColumns | src/pages/History.tsx:77-81 | The record's keys are date, the feature keys, then result; its values follow the same order. This needs feature keys that are distinct and are neither date nor result. |
| HistoryPage.CellTexts | src/pages/History.tsx:85 | One text per value. |
| HistoryPage.ValueLines | src/pages/History.tsx:85 | One value line per record. |
| HistoryPage.Export | src/pages/History.tsx:76-86 | Exporting fails (reading `data[0]`) iff the list is empty. |
| HistoryPage.CsvLines | src/pages/History.tsx:83-86 | When no cell holds a line break, the text splits into N+1 lines: the first row's keys joined by ",", then each row's values joined by ",". |
| HistoryPage.ExportShape | src/pages/History.tsx:76-86 | Exporting N ≥ 1 entries gives N+1 lines. The header is date, the first entry's feature keys, then result. |
| HistoryPage.CommaInCellShiftsColumns | src/pages/History.tsx:84-85 | Values are joined raw: a cell containing a comma splits its line into more fields than the header has. |
| HistoryPage.History.constructor | src/pages/History.tsx:17-21 | Starts with an empty list, loading, no error and the dialog closed. |
| HistoryPage.History.OnUserChange | src/pages/History.tsx:23-27 | Predictions are loaded (one query) only when a user is present. With no user, nothing is queried and the state is kept. |
| HistoryPage.History.LoadPredictions | src/pages/History.tsx:29-45 | Issues one query, scoped to `user_id` and ordered by `created_at` descending. Success replaces the list with the rows, or [] when they are null. Failure keeps the list and sets the error. `isLoading` ends false. |
| HistoryPage.History.HandleDelete | src/pages/History.tsx:47-59 | Deletes in the store first. Success filters out id X; failure leaves the list unchanged and sets the error. |
| HistoryPage.History.OpenClearConfirm | src/pages/History.tsx:128-130 | The dialog opens only when the list is non-empty; the button is disabled otherwise. |
| HistoryPage.History.CancelClear | src/pages/History.tsx:224 | Closes the dialog and changes nothing else. |
| HistoryPage.History.HandleClearHistory | src/pages/History.tsx:61-74 | Success empties the list and closes the dialog. Failure keeps the list, keeps the dialog open and sets the error. |
| UsePredictions.UserFilter | src/hooks/usePredictions.ts:37 | The realtime filter is `user_id=eq.` followed by the user id. |
| UsePredictions.StampedRecordOwner | src/hooks/usePredictions.ts:56 | The inserted record reads `user_id` as the hook's user id, overriding any `user_id` in the argument. Every other property is unchanged. |
| UsePredictions.StampedRecordKeys | src/hooks/usePredictions.ts:56 | A record without `user_id` gains it as its last key. |
| UsePredictions.PredictionsHook.constructor | src/hooks/usePredictions.ts:6-8 | Starts with no rows, loading and no error. |
| UsePredictions.PredictionsHook.Mount | src/hooks/usePredictions.ts:28-45 | The subscription is set up before the initial fetch. The fetch is scoped to `user_id` and ordered by `created_at` descending. |
| UsePredictions.PredictionsHook.FetchCompleted | src/hooks/usePredictions.ts:11-26 | Success replaces the list with the rows. Failure keeps the list and sets the error. `loading` ends false. |
| UsePredictions.PredictionsHook.OnInsert | src/hooks/usePredictions.ts:39-41 | An INSERT makes the list `[new] + old`: its length grows by one and the old order is kept. |
| UsePredictions.PredictionsHook.Unmount | src/hooks/usePredictions.ts:47-49 | Cleanup unsubscribes the live subscription. |
| UsePredictions.PredictionsHook.ChangeUser | src/hooks/usePredictions.ts:47-50 | A new user id unsubscribes the old channel, then subscribes and fetches for the new one. |
| UsePredictions.PredictionsHook.SavePrediction | src/hooks/usePredictions.ts:52-65 | Inserts the record stamped with the user id. Exactly one of data and error is non-null. |
| AuthContext.ProfileSteps | src/context/AuthContext.tsx:174-251 | A password update is attempted iff both passwords are non-empty, and its failure stops everything. Once the password step passes, a lookup error other than PGRST116 returns the lookup error, and the calls are exactly the password update (if any) and the lookup, with no write. Any write is an update of an existing row or an insert carrying `user_id`. Past those steps, a write error is returned and the metadata update is skipped; otherwise the metadata update is made and its error is returned. With no error, the new user is the one the metadata update returned. |
| AuthContext.ProfileStepsOrder | src/context/AuthContext.tsx:198-223 | Once the password step passes, the profile lookup is always made, right after the password update (if any); past the lookup, the update or insert comes right after it. |
| AuthContext.UpsertBranch | src/context/AuthContext.tsx:204-223 | When the lookup succeeds or reports "no rows": an existing profile is updated, otherwise a row is inserted with `user_id`. |
| AuthContext.AuthProvider.constructor | src/context/AuthContext.tsx:36-38 | Starts with no user, no session and loading. |
| AuthContext.AuthProvider.InitializeSession | src/context/AuthContext.tsx:52-73 | With no session, stale tokens are cleared, and the page redirects to /login only when the path is not /login, /signup or /. With a session, user and session are set from it. `isLoading` ends false. |
| AuthContext.AuthProvider.OnAuthStateChange | src/context/AuthContext.tsx:80-96 | SIGNED_OUT and USER_DELETED clear user and session and redirect to /login. SIGNED_IN and TOKEN_REFRESHED adopt the event's session. USER_UPDATED adopts a session only when one is given. Other events change nothing. `isLoading` ends false. |
| AuthContext.AuthProvider.SignOut | src/context/AuthContext.tsx:132-143 | Only once the sign-out succeeds: user and session are cleared, local storage is cleared and the page goes to /login. |
| AuthContext.AuthProvider.DeleteAccount | src/context/AuthContext.tsx:145-162 | With no user, an error is returned and nothing is called. Otherwise the profile row is deleted; a delete error is returned with no sign-out. After a successful delete, `signOut` is always called and no error is returned: the log is delete, sign-out, then storage clearing and the redirect only when the sign-out succeeded; a thrown sign-out leaves user and session as they were. |
| AuthContext.AuthProvider.UpdateProfile | src/context/AuthContext.tsx:164-252 | With no user, an error is returned before any call. Otherwise the calls and the error are those of `ProfileSteps`, and the user is replaced only by a returned user. |
| ProfilePage.OrElse | src/pages/Profile.tsx:37-43 | `x \|\| fallback` on an optional string: the value when truthy, otherwise the fallback. |
| ProfilePage.OrNull | src/pages/Profile.tsx:39 | `x \|\| null`: the value exactly when it is truthy. |
| ProfilePage.PopulateDefaults | src/pages/Profile.tsx:33-46 | A user with no metadata fills the form with "" for text fields, "male" for gender and null for the avatar. |
| ProfilePage.PopulateSubmitRoundTrip | src/pages/Profile.tsx:33-137 | Metadata with non-empty fields survives populating the form and submitting it. |
| ProfilePage.CountAround | src/pages/Profile.tsx:54 | Counting a character around one of its occurrences. |
| ProfilePage.EmailPatternIff | src/pages/Profile.tsx:54 | The e-mail pattern matches iff the string has exactly one "@" and no whitespace, the local part is non-empty, and the domain contains a "." that is neither its first nor its last character. |
| ProfilePage.PatternIsValid | src/pages/Profile.tsx:54 | Every string the pattern matches passes the checker. |
| ProfilePage.ValidIsPattern | src/pages/Profile.tsx:54 | Every string the checker accepts matches the pattern. |
| ProfilePage.EmailOfSplit | src/pages/Profile.tsx:54 | Every match of the pattern passes the checker. |
| ProfilePage.SplitOfEmail | src/pages/Profile.tsx:54 | Every string the checker accepts splits as the pattern requires. |
| ProfilePage.ValidMobileShape | src/pages/Profile.tsx:59 | An accepted mobile number is "+", a digit 1-9, then 1 to 14 digits: 3 to 16 characters in all. |
| ProfilePage.Validate | src/pages/Profile.tsx:48-70 | The first failure is reported, in order: name shorter than 3 UTF-16 units, then e-mail, then a non-empty mobile number that fails its pattern, then a missing city or country. The result is `None` iff the form is accepted. |
| ProfilePage.ValidateNames | src/pages/Profile.tsx:48-70 | A long enough name, a valid e-mail, no mobile number, a city and a country pass. |
| ProfilePage.ImageTypeMatchesIff | src/pages/Profile.tsx:76 | The MIME pattern matches iff the type is image/jpeg, image/png or image/gif. |
| ProfilePage.CheckImage | src/pages/Profile.tsx:76-84 | The type is checked before the size. A size over 5·1024·1024 bytes is refused. The file passes iff its type is accepted and it is within the limit. |
| ProfilePage.FiveMiBBoundary | src/pages/Profile.tsx:81 | Exactly 5 MiB passes; one byte more is refused. |
| ProfilePage.Extension | src/pages/Profile.tsx:110 | `name.split('.').pop()` holds no ".". |
| ProfilePage.Profile.constructor | src/pages/Profile.tsx:12-31 | Starts with the default form and no messages, preview or file. |
| ProfilePage.Profile.OnUserChange | src/pages/Profile.tsx:33-46 | With a user, the form is filled from the user; otherwise it is unchanged. |
| ProfilePage.Profile.HandleImageUpload | src/pages/Profile.tsx:72-91 | A file that fails a check sets that check's message and keeps the preview. A file that passes sets the preview. |
| ProfilePage.Profile.HandleUpdateProfile | src/pages/Profile.tsx:93-151 | Error and success are cleared first. A validation failure sets its message and ends with `isUpdating` false, with no upload or update. The avatar URL changes only when a preview and a selected file both exist and the upload returns data. A failed upload skips the save and reports its message. Success sets the success message and drops the preview. |
| ProfilePage.Profile.Save | src/pages/Profile.tsx:104-150 | The `try` block: the avatar is uploaded only when a preview and a selected file both exist. A failed upload skips the profile update. Success sets the saved message and clears the preview and file; any failure sets its message and keeps them. `isUpdating` ends false. |
| ProfilePage.Profile.HandleDeleteAccount | src/pages/Profile.tsx:153-163 | A failed delete sets the error and does not sign out. Success signs out and navigates to /. |
| SettingsPage.HostOf | src/pages/Settings.tsx:127-132 | Only linkedin, github and twitter have a pattern. |
| SettingsPage.PrefixConcat | src/pages/Settings.tsx:128-130 | Matching a concatenated literal prefix is matching its two parts in turn. |
| SettingsPage.TailIff | src/pages/Settings.tsx:128-130 | `[\w-]+\/?$` matches iff, after dropping one trailing "/", what remains is a non-empty run of word characters and "-". |
| SettingsPage.ScanLinkIff | src/pages/Settings.tsx:128-130 | The hand-written scanner accepts iff the anchored pattern matches: "https://", an optional "www.", the host, then the `[\w-]+` name and an optional "/". |
| SettingsPage.ValidateSocialLink | src/pages/Settings.tsx:125-133 | An empty link is always valid. An unknown platform makes a non-empty link crash (`None`). |
| SettingsPage.ValidateSocialLinkMatches | src/pages/Settings.tsx:125-133 | A non-empty link is valid iff it matches its platform's pattern. |
| SettingsPage.WellFormedLinksScan | src/pages/Settings.tsx:128-130 | Both the bare form and the "www." form with a trailing "/" pass. |
| SettingsPage.PlatformLinksAccepted | src/pages/Settings.tsx:128-132 | Each platform accepts its own well-formed links. |
| SettingsPage.PlainHttpRefused | src/pages/Settings.tsx:129 | An http link is refused. |
| SettingsPage.OtherHostRefused | src/pages/Settings.tsx:130 | A link to another platform's host is refused. |
| SettingsPage.DotInNameRefused | src/pages/Settings.tsx:130 | A "." in the name is refused. |
| SettingsPage.FirstProblem | src/pages/Settings.tsx:136-141 | The index of the first entry that fails, or the length when none does. Every earlier entry passes. |
| SettingsPage.VerdictOf | src/pages/Settings.tsx:136-141 | The links are saved iff every entry passes. Otherwise the verdict names a platform of the object. |
| SettingsPage.VerdictAtFirstProblem | src/pages/Settings.tsx:136-141 | The verdict is decided by the first failing entry, in key order. |
| SettingsPage.PassesBeyond | src/pages/Settings.tsx:136-141 | A passing entry before the first problem moves the search on. |
| SettingsPage.ToggleOnlyOwnKey | src/pages/Settings.tsx:307-310 | A toggle sets its own key, leaves every other key unchanged and keeps the key order. |
| SettingsPage.DefaultLinksSave | src/pages/Settings.tsx:49-53 | The default empty links are saved. |
| SettingsPage.Settings.constructor | src/pages/Settings.tsx:33-55 | Starts with the default visibility, notifications and links, permission "default" and push disabled. |
| SettingsPage.Settings.LoadUserPreferences | src/pages/Settings.tsx:96-113 | Visibility, notifications and links each fall back to their current value when missing. An error or no row keeps all three. |
| SettingsPage.Settings.CheckNotificationPermission | src/pages/Settings.tsx:63-67 | Copies the permission only when notifications are supported. |
| SettingsPage.Settings.RequestNotificationPermission | src/pages/Settings.tsx:69-75 | Push is enabled iff the result is "granted"; without support nothing changes. |
| SettingsPage.Settings.ToggleNotification | src/pages/Settings.tsx:307-310 | Only the toggled key changes. |
| SettingsPage.Settings.SetVisibility | src/pages/Settings.tsx:209-212 | Only the edited visibility property changes. |
| SettingsPage.Settings.EditLink | src/pages/Settings.tsx:332 | `{...socialLinks, [platform]: value}`, the change handler of each of the three link inputs (also lines 346 and 360). |
| SettingsPage.Settings.HandleSocialLinksUpdate | src/pages/Settings.tsx:135-153 | The loop stops at the first invalid platform, in key order. That platform is alerted and no update is issued. Only when every entry passes is one update issued with the links. |
| VoiceCommands.RouteFor | src/hooks/useVoiceCommands.ts:23-34 | Case-insensitive substring dispatch in priority order: "show dashboard" gives /dashboard. Otherwise "show predictions" or "show history" gives /history. Otherwise "new prediction" gives /predict. Otherwise "show profile" gives /profile. Otherwise nothing. |
| VoiceCommands.RouteForResults | src/hooks/useVoiceCommands.ts:23 | Only the last result's top transcript is read. |
| VoiceCommands.OnlyLastResultCounts | src/hooks/useVoiceCommands.ts:23 | Replacing any earlier result does not change the route. |
| VoiceCommands.LowerConcat | src/hooks/useVoiceCommands.ts:23 | Lower-casing distributes over concatenation. |
| VoiceCommands.PhraseFound | src/hooks/useVoiceCommands.ts:23-26 | A phrase written in any case anywhere in the transcript is found after lower-casing. |
| VoiceCommands.DashboardAnywhere | src/hooks/useVoiceCommands.ts:26-27 | "show dashboard" in any case, anywhere, wins over every other phrase. |
| VoiceCommands.NewPredictionAnywhere | src/hooks/useVoiceCommands.ts:28-31 | "new prediction" anywhere always navigates: to /predict unless an earlier rule matches. |
| VoiceCommands.VoiceHook.constructor | src/hooks/useVoiceCommands.ts:5 | Starts not listening, with no navigation. |
| VoiceCommands.VoiceHook.StartListening | src/hooks/useVoiceCommands.ts:8-41 | Starts iff speech recognition is supported. Without support it returns null and leaves `isListening` unchanged. |
| VoiceCommands.VoiceHook.OnStart | src/hooks/useVoiceCommands.ts:14-16 | Sets `isListening`. |
| VoiceCommands.VoiceHook.OnEnd | src/hooks/useVoiceCommands.ts:18-20 | Clears `isListening`. |
| VoiceCommands.VoiceHook.OnResult | src/hooks/useVoiceCommands.ts:22-35 | At most one navigation per result, to the route `RouteFor` picks. No match, no navigation. |
| AppointmentCalendar.Submit | src/components/AppointmentCalendar.tsx:15-27 | `onSchedule` is called iff date and time are both non-empty. The appointment is "pending", with the placeholder ids "1" and the form's date, time and type. |
| AppointmentCalendar.SubmitRoundTrip | src/components/AppointmentCalendar.tsx:17-25 | Date, time and type pass through unchanged: the form can be read back from the appointment. |
| AppointmentCalendar.InitialFormDefaults | src/components/AppointmentCalendar.tsx:11-13 | The initial form schedules nothing. With a date and a time added, it schedules a "consultation". |
| Text.ShowNatRoundTrip | src/pages/History.tsx:85 | The decimal text of a natural number reads back as that number. |
| Text.SplitJoin | src/pages/History.tsx:83-86 | Splitting a "\n"-join of parts that contain no "\n" gives back the parts. |
| Text.JoinSeparatorCount | src/pages/History.tsx:83-86 | A join of N parts without the separator holds N−1 separators. |
| Text.ContainsIff | src/hooks/useVoiceCommands.ts:26-32 | `includes` holds iff the phrase occurs at some position. |
| Text.ToLowerIdempotent | src/hooks/useVoiceCommands.ts:23 | Lower-casing twice is lower-casing once. |
| Text.Utf16Length | src/pages/Profile.tsx:49 | `.length` counts UTF-16 units: between one and two per character. |
| JsValues.TrimEmptyIff | src/components/PredictionComponent.tsx:29 | `value.trim() === ""` iff every character is JavaScript whitespace. |
| JsValues.ParseShowNat | src/components/PredictionComponent.tsx:32 | Unary `+` of a decimal numeral is its value. |
| JsValues.NonNaNIsNumericText | src/components/PredictionComponent.tsx:32 | A string that does not convert to NaN is, once trimmed, made only of characters that numerals use. |
| JsObjects.PutGet | src/pages/Predict.tsx:49-52 | After `o[k] = v`, k reads v and every other key reads as before. |
| JsObjects.PutKeys | src/pages/Predict.tsx:49-52 | Assigning an existing key keeps the key order; a new key goes last. |
| JsObjects.SpreadFresh | src/pages/History.tsx:77-81 | Spreading fresh, distinct keys appends them, with their values, in order. |
| JsObjects.SpreadCopies | src/pages/Settings.tsx:209-212 | `{...o}` of an object with distinct keys is a copy of it. |
| JsObjects.KeysValuesDetermine | src/pages/History.tsx:84-85 | An object is determined by `Object.keys` and `Object.values`. |
| Remote.MessageOr | src/pages/History.tsx:41 | `err instanceof Error ? err.message : fallback`. |

## Left out

- Floating point: numbers are exact reals. Double rounding, overflow to infinity and the precision of `Number(...)` of long numerals are not modelled.
- Number-to-text in `join` and `toLocaleString` of dates depend on the host. They are parameters of the export (`numberText`, `localeDate`).
- Lower-casing covers ASCII A-Z only. Other upper-case letters never help match the lower-case ASCII command phrases.
- Concurrency: each async handler runs as one atomic step. Stale closures, for example the captured list in `handleDelete`, interleaved requests and updates after unmount are not modelled.
- Browser effects: `window.location`, `localStorage`, FileReader, Blob download, clipboard and share, `alert`, `console` and the Notification API. Effects that matter for the contracts are recorded as log entries; the rest are dropped.
- The classifier, joblib and pandas: `model.predict` is an uninterpreted function to a label or a raised exception.
- `signUp` and `signIn` in the session provider: bare pass-throughs to the auth service with no logic of their own.
- The `Math.random()` avatar file name: only its extension is modelled.
- The login activity list, logout from all devices and the terms-and-conditions banner of the settings page: display and pass-through calls only.
- `handleShareProfile` of the profile page: clipboard and share APIs only.
- The appointments list displayed by the calendar: display only.
- The recognizer object of the voice hook: its configuration and `start()` call are not modelled. `StartListening` reports only whether it started.
- PredictPage.PredictForm.HandleChange: requires the input's name to be one of the 13 keys. The inputs are generated from the form's own keys, so no other name occurs.
- HistoryPage.ExportRecord: `input_features` is assumed to be an object of JSON values. Spreading an array or a string is not modelled.
- Array values: JSON values in the model have no arrays. A feature or cell value that is an array is not modelled: neither `Number([1])` nor the nested `join` of an array cell in the export (src/pages/History.tsx:85).
- SettingsPage.Settings.LoadUserPreferences: the `preferences` and `social_links` columns are free JSON, but the model gives them fixed shapes. A partial visibility object cannot be represented, and neither can a link that is `null` or not a string (which `url &&` skips and `.test` coerces to text).
- JsObjects.Spread: JavaScript lists integer-like keys first, in numeric order. The model keeps plain insertion order, which is exact for the non-numeric keys these objects use.
- ProfilePage.Profile.HandleDeleteAccount: a failure of the final `signOut` is not modelled. The session provider's `signOut` never throws.

## Findings

| source | as written | input that shows it | evidently intended | confidence | as-written member | corrected member |
|---|---|---|---|---|---|---|
| src/components/PredictionComponent.tsx:70 | A reply counts as failed only when `data.error` is truthy. The scoring route answers a classifier exception with `{"error": str(e)}` (fastapi-ml-api/app.py:70-72). | A classifier exception whose message is empty gives `{"error": ""}`. That body has no `prediction`, so `Number(undefined)` is NaN and the page shows "No Heart Disease Detected". | Any body that carries an `error` property is a failure and shows the error message. | not executed | PredictionComponent.EmptyServerErrorShownAsLowRisk | PredictionComponent.ServerErrorsAreFailures |

The page's state, `PredictionComponent.PredictionForm`, follows the code as written (`ClassifyReplyAsWritten`, `ReplyOutcome`, `EndToEnd`). The intended test is stated by `ClassifyReply`, `CorrectedReplyOutcome` and `ServerErrorsAreFailures`, and `ClassifiersDiffer` pins down where the two part.
