# SubForge in Dafny

SubForge is a subdomain-hosting product. It has two parts: an Express and
Mongoose REST backend over a `users` collection, and a React dashboard that
works mostly on mock data. This project models the logic in both parts and
proves properties of it.

Backend:

- the two user controllers (`backend/` and `backend-rest-api/`), over a user
  collection that keeps a unique email index;
- the `User` schema, with its setters, validators, default value and query
  statics;
- the express-validator rule chains and the `validate` middleware;
- the global error middleware;
- the JSON response envelope;
- the environment and configuration check;
- the MongoDB connection manager, with its reconnect policy and its shutdown.

Front end:

- the notification store, the notification filter and the dropdown preview;
- the subdomain creation wizard;
- the filters and counts of the admin user table, the repository list and
  the dashboard;
- the two build log panels;
- the notification and platform settings forms;
- the two toast hooks;
- the `cn` class-name joiner.

Code that changes state in place becomes a class:

- the collection (`UserStore.Collection`);
- the module state of db.js (`DbConnection.Connection`);
- the wizard (`SubdomainWizard.Wizard`);
- the build console (`BuildConsole.Console`);
- the log viewer (`BuildLogViewer.Viewer`);
- the toast queue (`ToastBus.Bus`).

Each method of these classes is specified against a pure function, and the
lemmas are stated about that function. Code that builds new values with
`map`, `filter` and object spread becomes functions and lemmas.

The model treats several things as parameters or abstractions:

- Library predicates and the ObjectId cast are passed in as parameters:
  `isEmail` (`validator.isEmail`), `isMongoId`, and `castId` (a failed cast
  is `None`).
- The clock, random ids and the `Date.now()` stamps of log entries are
  parameters.
- The MongoDB driver, timers and process signals appear as events. A connect
  call either succeeds or fails. A retry timer that fires is another connect
  call. `process.exit` is a terminal state.
- JavaScript values are a datatype (`JsValues.JsValue`) with a truthiness
  predicate. A `parseInt` that yields NaN is `None`.
- Strings are sequences of characters. `trim` removes JavaScript's white-space
  set (`Text.IsSpace`); `toLowerCase` and `toUpperCase` are modelled on ASCII
  letters.

Shared helper modules:

- `Wrappers`: `Option` and `Result`;
- `Seqs`: filter, map, subsequence and counting lemmas;
- `Text`: trimming, case, substring search, join and split, conversion
  between numbers and strings, and `parseInt`.

These helpers carry no rows of their own below.

## Model

| member | source | states |
|---|---|---|
| Responses.SuccessResponse | backend-rest-api/utils/responseHandler.js:12-19 | `success` is true and the status and message pass through; `data` is attached exactly when it is truthy, and then unchanged |
| Responses.ErrorResponse | backend-rest-api/utils/responseHandler.js:28-35 | `success` is false and the status and message pass through; `errors` is attached exactly when it is truthy |
| Responses.ResponseHandler | backend-rest-api/utils/responseHandler.js:44-48 | the status passes through unchanged; `success` is true exactly when the status is below 400 |
| Responses.ResponseHandlerBody | backend-rest-api/utils/responseHandler.js:44-48 | in the JSON body, a truthy payload appears under `data` below 400 and under `errors` from 400 on; a falsy payload appears under neither |
| Responses.MongoDbStatusResponse | backend-rest-api/utils/responseHandler.js:59-66 | a truthy `isConnected` gives 200, success, the 'healthy' message and the status object as `data`; otherwise 503, failure, the 'not available' message and the status object as `errors`; the other member is absent |
| Responses.MongoDbMetricsResponse | backend-rest-api/utils/responseHandler.js:73-75 | always 200, successful, 'MongoDB metrics retrieved successfully', with the metrics object as `data` and no `errors` |
| Responses.Body | backend-rest-api/utils/responseHandler.js:12-34 | the body holds `success` and `message` always, and `data` and `errors` exactly when present, with their values, and nothing else |
| ErrorFold.FoldErrors | backend/middlewares/validator.js:15-18 | the folded object has a key for every reported path and no other key |
| ErrorFold.FoldKeepsLast | backend/middlewares/validator.js:15-18 | a path keeps the message of the last error reported for it |
| ErrorFold.FoldEmpty | backend/middlewares/validator.js:15-18 | the fold is empty exactly when there are no errors |
| ErrorFold.FormatErrors | backend/middlewares/validator.js:15-18 | the accumulator loop of `reduce` computes the fold |
| ErrorHandler.Kind | backend/middlewares/errorHandler.js:20-58 | the checks are made in order (ValidationError, then code 11000, then CastError, then the default), so exactly one branch applies |
| ErrorHandler.HandleError | backend/middlewares/errorHandler.js:20-58 | for each branch: its status, message and errors object; the default uses a truthy `statusCode` with its message, otherwise 500 'Internal Server Error'; the stack is sent only in development |
| ErrorHandler.StackOnlyInDevelopment | backend/middlewares/errorHandler.js:53-58 | a stack trace reaches the client only from the default branch, and only when NODE_ENV is 'development' |
| ErrorHandler.UnknownErrorsAreHidden | backend/middlewares/errorHandler.js:50-51 | an error without its own status code gives 500 with the fixed message |
| ErrorHandler.ValidationErrorsListed | backend/middlewares/errorHandler.js:20-26 | every path of a ValidationError appears in the response, with the last message reported for it |
| Validator.CreateNameErrors | backend/middlewares/validator.js:32-35 | no error exactly when the trimmed name has 2..50 characters; a blank name fails both the required check and the length check |
| Validator.CreateEmailErrors | backend/middlewares/validator.js:37-41 | no error exactly when the trimmed email is non-empty and is an address |
| Validator.IdErrors | backend/middlewares/validator.js:45-46 | the id is rejected, under `id` with 'Invalid user ID', exactly when it is not an ObjectId |
| Validator.UpdateNameErrors | backend/middlewares/validator.js:48-51 | an absent name passes; a present one passes exactly when its trimmed form has 2..50 characters |
| Validator.UpdateEmailErrors | backend/middlewares/validator.js:53-57 | an absent email passes; a present one passes exactly when its trimmed form is an address |
| Validator.ListErrors | backend/middlewares/validator.js:65-78 | no error exactly when page (if present) is an integer ≥ 1, limit (if present) an integer in 1..100, and sort (if present) a non-empty run of ASCII letters |
| Validator.Validate | backend/middlewares/validator.js:13-23 | corrected middleware: the request is passed on exactly when there are no errors; otherwise 400 'Validation Error' whose `errors` is the `{ path: msg }` fold of the errors, one member per failing path |
| Validator.ValidateAsWritten | backend/middlewares/validator.js:13 | as written, the middleware always throws, because `validationChain` is undefined |
| Validator.AsWrittenBlocksValidRequests | backend/middlewares/validator.js:13-23 | a request without errors is passed on by the corrected middleware but not by the code as written |
| Validator.CreateAccepts | backend/middlewares/validator.js:31-42 | `create` passes a request exactly when the trimmed name has 2..50 characters and the trimmed email is a non-empty address |
| Validator.BlankNameFold | backend/middlewares/validator.js:31-42 | for a blank name, the fold of the create errors keeps the length message under `name` |
| Validator.BlankNameReportsLength | backend/middlewares/validator.js:32-35 | a missing or blank name is rejected, and the client sees the length message rather than 'Name is required' |
| Validator.UpdateAccepts | backend/middlewares/validator.js:44-58 | `update` passes exactly when the id is an ObjectId and each field that is present satisfies its rule |
| Validator.GetByIdAccepts | backend/middlewares/validator.js:60-63 | `getById` passes exactly the ObjectIds, and otherwise answers `{ id: 'Invalid user ID' }` |
| Validator.PageBounds | backend/middlewares/validator.js:66-68 | an integer page is accepted exactly when its value is at least 1 |
| Validator.ValidateCreate | backend/middlewares/validator.js:31-42 | the create chains' errors, name first, then email, passed to the corrected middleware |
| Validator.ValidateUpdate | backend/middlewares/validator.js:44-58 | the update chains' errors, the id first, then name and email, passed to the corrected middleware |
| Validator.ValidateReportsLast | backend/middlewares/validator.js:15-18 | for any rejected request, each failing path carries the message of its last error |
| Validator.IsIntString | backend/middlewares/validator.js:68 | the integer pattern of `isInt`: an optional sign and at least one decimal digit |
| Validator.IsIntInRange | backend/middlewares/validator.js:68-72 | `isInt({ min, max })`: the pattern, then the numeric bounds |
| Validator.IsLengthCount | backend/middlewares/validator.js:35 | the length `isLength` measures: at most the number of characters, equal to it when there is no presentation selector (U+FE0E, U+FE0F), and 0 when there are only selectors |
| Validator.SelectorNotCounted | backend/middlewares/validator.js:35 | "a" followed by U+FE0F is two characters, counts as one, and fails a minimum of 2 |
| Validator.IsLetters | backend/middlewares/validator.js:77 | `/^[a-zA-Z]+$/`: non-empty and only ASCII letters |
| Config.MissingVars | backend-rest-api/config/config.js:10-11 | the required keys that are unset or empty, in the order of the required list, and all of them |
| Config.ValidateEnv | backend-rest-api/config/config.js:9-22 | throws with the missing keys joined by ", " when any is missing; otherwise throws 'Invalid MongoDB Atlas URI format' exactly when the URI does not match the pattern |
| Config.OrDefault | backend-rest-api/config/config.js:32-33 | the variable when it is set and non-empty, the fallback otherwise |
| Config.NumberSetting | backend-rest-api/config/config.js:29-38 | the parsed variable when it is set, otherwise exactly the default number |
| Config.Load | backend-rest-api/config/config.js:24-40 | loading fails exactly when the check throws, with its message; on success the required values are copied and the URI matches the pattern |
| Config.MissingUriReportedAsMissing | backend-rest-api/config/config.js:10-21 | a missing MONGO_URI is reported as missing and never as malformed |
| Config.AcceptedUriShape | backend-rest-api/config/config.js:18-21 | an accepted URI is `mongodb+srv://`, then a non-empty user, ':', a non-empty password, '@' and a non-empty host part |
| Config.BlocksShape | backend-rest-api/config/config.js:18 | the option part never starts with '&' and never has two '&' in a row |
| Config.DefaultsApply | backend-rest-api/config/config.js:27-40 | unset optional variables take port 3000, '1d', the local CORS origin, pool sizes 10 and 50, and timeouts 30000 and 45000 |
| Config.IsAtlasUri | backend-rest-api/config/config.js:18-19 | the Atlas URI pattern: the `mongodb+srv://` scheme, a user without ':', a password without '@', then the host and option part |
| DbConnection.RetryDelay | backend-rest-api/config/db.js:86 | the delay is 1000·2^n capped at 30000 |
| DbConnection.Backoff | backend-rest-api/config/db.js:115-118 | under the cap, one more attempt and one retry scheduled with the delay for the new count; at the cap, nothing |
| DbConnection.RetrySchedule | backend-rest-api/config/db.js:83-86 | the five retries wait 2000, 4000, 8000, 16000 and 30000 ms |
| DbConnection.RetryDelayBounds | backend-rest-api/config/db.js:86 | every scheduled delay lies in 2000..30000 |
| DbConnection.StepKeepsInv | backend-rest-api/config/db.js:53-124 | no event takes the attempt counter past MAX_RETRIES = 5 or schedules a delay outside 2000..30000 |
| DbConnection.ConnectWhenConnected | backend-rest-api/config/db.js:54-57 | `connectDB` on a live connection changes nothing |
| DbConnection.FailedConnect | backend-rest-api/config/db.js:111-122 | a failed connect under the cap counts and schedules one retry; at the cap it exits with 1 and schedules nothing |
| DbConnection.LostAtCap | backend-rest-api/config/db.js:79-98 | at the cap, 'error' and 'disconnected' only mark the connection lost: no retry and no exit |
| DbConnection.FailuresExhaust | backend-rest-api/config/db.js:111-122 | failing connects use up exactly the remaining retries, and the next failure exits with 1 |
| DbConnection.SuccessResets | backend-rest-api/config/db.js:70-109 | a successful connect, or 'reconnected', sets the connection live and the counter to 0; 'connected' sets only `isConnected` |
| DbConnection.ShutdownOutcome | backend-rest-api/config/db.js:32-48 | shutdown clears only the latest metrics interval, closes only an open connection (readyState 1), and exits 0, or 1 when the close fails |
| DbConnection.NumberOr | backend-rest-api/config/db.js:61-64 | a parsed setting that is NaN or 0 takes the fallback |
| DbConnection.Options | backend-rest-api/config/db.js:59-68 | `autoIndex` is set exactly in development, and every numeric option is non-zero |
| DbConnection.Connection.constructor | backend-rest-api/config/db.js:5-10 | the module starts disconnected, with no attempts, no handlers, no metrics interval and no retries |
| DbConnection.Connection.Retry | backend-rest-api/config/db.js:115-118 | schedules a retry exactly when under the cap, as `Backoff` says |
| DbConnection.Connection.ConnectDB | backend-rest-api/config/db.js:53-124 | the new state is the connect step of the state machine, and the invariant holds |
| DbConnection.Connection.OnLost | backend-rest-api/config/db.js:79-98 | an 'error' or 'disconnected' event runs every registered copy of its handler in turn, one lost-connection step each |
| DbConnection.Connection.OnConnected | backend-rest-api/config/db.js:100-103 | the 'connected' handler takes its step |
| DbConnection.Connection.OnReconnected | backend-rest-api/config/db.js:105-109 | the 'reconnected' handler takes its step |
| DbConnection.Connection.GracefulShutdown | backend-rest-api/config/db.js:32-48 | the new state is the shutdown step of the state machine |
| DbConnection.LostRunsEveryCopy | backend-rest-api/config/db.js:79-98 | one lost-connection event runs every registered copy of the handler: it counts as many attempts as there are copies, up to the cap, and schedules one retry for each |
| DbConnection.LostKeepsInv | backend-rest-api/config/db.js:79-98 | however many copies of the handler run, the counter stays within the cap and every delay within 2000..30000 |
| DbConnection.DuplicateHandlersDoubleRetries | backend-rest-api/config/db.js:70-98 | after two successful connects, one disconnection counts two attempts and schedules retries of 2000 and 4000 ms |
| UserSchema.SetEmailIdempotent | backend-rest-api/models/User.js:52-56 | applying the trim and lowercase setters again changes nothing |
| UserSchema.NameError | backend-rest-api/models/User.js:45-51 | a name is valid exactly when it is present with 2..50 characters; 'Name is required' exactly when it is absent or empty |
| UserSchema.EmailError | backend-rest-api/models/User.js:52-61 | an email is valid exactly when it is present, non-empty and an address |
| UserSchema.DocErrors | backend-rest-api/models/User.js:44-61 | no error exactly when both paths are valid; at most one error per path |
| UserSchema.NewUser | backend-rest-api/models/User.js:44-65 | a document is created exactly when the set values validate: the trimmed name, the trimmed and lowercased email, and `isActive` true |
| UserSchema.NewUserAccepts | backend-rest-api/models/User.js:45-65 | an accepted user is well formed and active; a missing or blank name is refused with exactly 'Name is required' on the name path, followed by whatever the email path reports |
| UserSchema.FindByEmail | backend-rest-api/models/User.js:80-82 | finds a stored user whose email equals the cast argument exactly when one exists |
| UserSchema.FindActive | backend-rest-api/models/User.js:88-90 | exactly the users with `isActive` true |
| UserSchema.FindActivePartition | backend-rest-api/models/User.js:88-90 | active plus inactive users are all users, and the active ones keep the stored order |
| UserSchema.Merge | backend/controllers/userController.js:108-109 | name and email change only for a truthy value, and then through their setters; the id and `isActive` stay |
| UserSchema.MergeIdempotent | backend/controllers/userController.js:108-110 | sending the same update twice changes nothing the second time |
| UserSchema.SetName | backend-rest-api/models/User.js:48 | the `trim` setter of `name` |
| UserSchema.SetEmail | backend-rest-api/models/User.js:55-56 | the `trim` and `lowercase` setters of `email`, which also cast query filters on `email` |
| UserSchema.ValidationMessage | backend-rest-api/controllers/userController.js:36 | the message of a failed validation as the REST controller returns it: 'User validation failed: ' and each path with its message, joined by ', ' |
| UserSchema.UniqueKeys | backend-rest-api/models/User.js:73 | the unique index on `email`: no two stored documents share an email or an id |
| UserSchema.UserJson | backend-rest-api/models/User.js:66-70 | a document serialises to exactly the members `_id`, `name`, `email` and `isActive` |
| UserStore.FindById | backend/controllers/userController.js:64 | finds the stored document with that id exactly when one exists |
| UserStore.Replace | backend/controllers/userController.js:110 | the saved document takes the place of the one with its id; nothing else changes |
| UserStore.InsertKeepsUnique | backend-rest-api/models/User.js:73 | inserting a document with a new id and a new email keeps the unique index |
| UserStore.ReplaceKeepsUnique | backend-rest-api/models/User.js:73 | saving a document whose email no other document holds keeps the index, and leaves the other documents as they were |
| UserStore.WithoutRemovesExactly | backend/controllers/userController.js:119 | deleting by id removes exactly the one document with that id, or none when it is absent, and keeps the others in order |
| UserStore.ReplaceKeepsNormalized | backend-rest-api/models/User.js:52-56 | saving keeps every stored email in the setters' normal form |
| UserStore.ReplaceKeepsConsistent | backend-rest-api/models/User.js:73 | a save that the index accepts keeps the collection invariant |
| UserStore.Collection.constructor | backend-rest-api/models/User.js:100 | the collection starts empty and valid |
| UserStore.Collection.Create | backend/controllers/userController.js:85 | refused with the duplicate-key error (MongoDB code 11000) and no change when the email is taken; otherwise exactly one document appended under a fresh id |
| UserStore.Collection.Save | backend/controllers/userController.js:110 | refused with the duplicate-key error and no change when another document holds the email; otherwise the document replaces its old version |
| UserStore.Collection.Delete | backend/controllers/userController.js:119 | returns the document with that id, if any, and removes exactly it |
| BackendUsers.IntOr | backend/controllers/userController.js:43-44 | an absent, unparseable or zero parameter takes the default; the value is never 0 |
| BackendUsers.CeilDiv | backend/controllers/userController.js:52 | `Math.ceil(a / b)`: the least integer not below the quotient |
| BackendUsers.PagesBound | backend/controllers/userController.js:52 | no pages exactly for no users; otherwise (pages − 1)·limit < total ≤ pages·limit |
| BackendUsers.EveryUserOnOnePage | backend/controllers/userController.js:45-52 | with skip = (page − 1)·limit, each stored user is on exactly one page, and that page lies in 1..pages |
| BackendUsers.Window | backend/controllers/userController.js:48 | `skip(s).limit(n)` gives the documents from position s, at most n of them |
| BackendUsers.PageFilledIffInRange | backend/controllers/userController.js:45-52 | a page holds users exactly when its number is at most `pages`; every page before the last is full |
| BackendUsers.GetUsers | backend/controllers/userController.js:42-58 | 200 with that page of users and `{ total, pages, page, limit }`; a negative skip is a server error and gives 500 |
| BackendUsers.GetUsersDefaults | backend/controllers/userController.js:43-48 | without parameters, the first ten users and page 1 |
| BackendUsers.CastFailureAnswer | backend/middlewares/errorHandler.js:39-46 | the backend's answer to a malformed id: 400 'Invalid ID' with `errors` `{ _id: 'Invalid _id' }` |
| BackendUsers.GetUserById | backend/controllers/userController.js:63-71 | 400 'Invalid ID' for a malformed id, 404 'User not found' for an absent one, otherwise 200 with that user |
| BackendUsers.CreateUser | backend/controllers/userController.js:76-87 | 409 and no change when the email is taken; 400 and no change when validation fails; otherwise 201 and exactly one user added, with the index kept |
| BackendUsers.NoClashNoDuplicate | backend/controllers/userController.js:100-110 | an update that passes the email check never trips the unique index |
| BackendUsers.OwnEmailResent | backend/controllers/userController.js:101-106 | re-sending one's own stored email passes the check; the same address in another case or with spaces, in a body as sent, gives 409 |
| BackendUsers.UpdateUser | backend/controllers/userController.js:92-113 | 400 and 404 for a bad or absent id; 409 and no change when another user holds the email as sent; 400 and no change when the merged document fails validation; otherwise 200, and only the target document changes, merged field by field |
| BackendUsers.DeleteUser | backend/controllers/userController.js:118-126 | 400 and 404 for a bad or absent id, with no change; otherwise exactly that user removed |
| BackendUsers.Skip | backend/controllers/userController.js:45 | `(page - 1) * limit` |
| BackendUsers.Pages | backend/controllers/userController.js:52 | `Math.ceil(total / limit)` |
| BackendUsers.Listing | backend/controllers/userController.js:54-57 | the listing's data: the page of users, then `total`, `pages`, `page` and `limit` |
| BackendUsers.FindByBodyEmail | backend/controllers/userController.js:80 | `findOne({ email })` on the body's email; an absent email finds nothing |
| BackendUsers.EmailClash | backend/controllers/userController.js:101-102 | the update's 409 condition: an email was sent, differs from the stored one, and another document holds it |
| RestUsers.GetUsers | backend-rest-api/controllers/userController.js:3-10 | 200 with every stored user, in stored order |
| RestUsers.GetUsersShowsEach | backend-rest-api/controllers/userController.js:3-10 | each stored user appears in the listing, and no entry appears twice |
| RestUsers.GetUserById | backend-rest-api/controllers/userController.js:12-25 | 400 'Invalid user ID' for a malformed id, 404 for an absent one, otherwise 200 with that user |
| RestUsers.CreateUser | backend-rest-api/controllers/userController.js:27-38 | 400 with the validation message, or 400 'Email already exists' (code 11000), and no user added; otherwise 201 and one user appended |
| RestUsers.UpdateUser | backend-rest-api/controllers/userController.js:40-63 | 400 and 404 for a bad or absent id, with no change; omitted or empty fields keep their values; a validation or duplicate failure gives 400 and no change |
| RestUsers.DeleteUser | backend-rest-api/controllers/userController.js:65-81 | 400 and 404 with no change; otherwise exactly the target user removed |
| Notifications.UnreadCount | front-end/src/hooks/useNotifications.js:53 | at most the list length, and 0 exactly when every notification is read |
| Notifications.MarkAsRead | front-end/src/hooks/useNotifications.js:55-63 | entries with the id become read; the other entries, the order and the length are unchanged |
| Notifications.MarkAsReadIdempotent | front-end/src/hooks/useNotifications.js:55-63 | marking the same id twice is marking it once |
| Notifications.MarkAsReadAbsent | front-end/src/hooks/useNotifications.js:55-63 | marking an id that no entry has changes nothing |
| Notifications.MarkAsReadCount | front-end/src/hooks/useNotifications.js:53-63 | the unread count drops by exactly the unread entries with that id |
| Notifications.MarkAllAsRead | front-end/src/hooks/useNotifications.js:65-69 | the length is kept, only `read` changes, and the unread count becomes 0 |
| Notifications.MarkAllAbsorbs | front-end/src/hooks/useNotifications.js:55-69 | after mark-all, marking any id changes nothing |
| Notifications.DeleteNotification | front-end/src/hooks/useNotifications.js:71-73 | no entry with the id remains, every other entry remains, and the list never grows |
| Notifications.DeleteKeepsOrder | front-end/src/hooks/useNotifications.js:71-73 | the rest keep their order, and deleting an absent id changes nothing |
| Notifications.InitialUnread | front-end/src/hooks/useNotifications.js:5-53 | the mock list has five entries, two of them unread |
| Notifications.InitialNotifications | front-end/src/hooks/useNotifications.js:5-53 | the hook's five mock notifications, dated relative to the current time |
| NotificationsPage.FilteredNotifications | front-end/src/components/NotificationsPage.jsx:24-39 | the filtered list is drawn from the notifications |
| NotificationsPage.FilterSelects | front-end/src/components/NotificationsPage.jsx:24-39 | 'unread' keeps exactly the unread entries and a type keeps exactly that type; 'all' or an unknown filter keeps everything; the order is kept |
| NotificationsPage.UnreadFilterCount | front-end/src/components/NotificationsPage.jsx:26-27 | the 'unread' view holds as many entries as the unread count |
| NotificationsPage.TypeColor | front-end/src/components/NotificationsPage.jsx:41-54 | the four types get their colours, and anything else gets 'text-gray-400' |
| NotificationDropdown.FormatTimestamp | front-end/src/components/NotificationDropdown.jsx:12-22 | under an hour gives ⌊diff/60000⌋m ago, under a day ⌊diff/3600000⌋h ago, otherwise ⌊diff/86400000⌋d ago |
| NotificationDropdown.TimestampReadsBack | front-end/src/components/NotificationDropdown.jsx:14-21 | the number shown parses back, and lies in range for its unit |
| NotificationDropdown.RecentNotifications | front-end/src/components/NotificationDropdown.jsx:24 | the first min(5, n) notifications, in order |
| NotificationDropdown.PreviewControls | front-end/src/components/NotificationDropdown.jsx:44-92 | 'View All' shows exactly when the preview leaves some entry out; "No notifications" shows exactly when there are none |
| NotificationDropdown.ShowViewAll | front-end/src/components/NotificationDropdown.jsx:92 | 'View All' renders when there are more than five notifications |
| NotificationDropdown.ShowEmpty | front-end/src/components/NotificationDropdown.jsx:44 | 'No notifications' renders when the preview is empty |
| SubdomainWizard.NextStepOf | front-end/src/components/CreateSubdomainModal.jsx:38-40 | the step stays within 1..3, and the next step at 3 is 3 |
| SubdomainWizard.PrevStepOf | front-end/src/components/CreateSubdomainModal.jsx:42-44 | the step stays within 1..3, and the previous step at 1 is 1 |
| SubdomainWizard.StepsUndo | front-end/src/components/CreateSubdomainModal.jsx:38-44 | back undoes next below step 3, and next undoes back above step 1 |
| SubdomainWizard.CanProceedAt | front-end/src/components/CreateSubdomainModal.jsx:46-57 | a non-blank trimmed name at step 1, a non-blank trimmed repository at step 2, always at step 3, never elsewhere |
| SubdomainWizard.BlankNameBlocks | front-end/src/components/CreateSubdomainModal.jsx:48-49 | a name of only white space does not let step 1 proceed |
| SubdomainWizard.ContinueGate | front-end/src/components/CreateSubdomainModal.jsx:408-416 | Continue is never offered at step 3; below it, Continue is enabled exactly when the step can proceed |
| SubdomainWizard.WithoutIndex | front-end/src/components/CreateSubdomainModal.jsx:72 | removes exactly element i and keeps the order of the rest; an index out of range changes nothing |
| SubdomainWizard.AddedDomains | front-end/src/components/CreateSubdomainModal.jsx:59-67 | a non-blank input appends `{ trimmed, type, verified: false }`; a blank input changes nothing |
| SubdomainWizard.AddThenRemove | front-end/src/components/CreateSubdomainModal.jsx:59-74 | removing the entry just added restores the list |
| SubdomainWizard.AddKeepsClean | front-end/src/components/CreateSubdomainModal.jsx:59-67 | every entry stays non-empty, trimmed and unverified after adding |
| SubdomainWizard.RemoveKeepsClean | front-end/src/components/CreateSubdomainModal.jsx:69-74 | every entry stays non-empty, trimmed and unverified after removing |
| SubdomainWizard.Wizard.constructor | front-end/src/components/CreateSubdomainModal.jsx:10-24 | starts at step 1 with the initial form: branch 'main', 'npm run build', 'dist', auto-deploy on, no domains |
| SubdomainWizard.Wizard.NextStep | front-end/src/components/CreateSubdomainModal.jsx:38-40 | moves one step on below step 3, does not consult `canProceed`, and changes nothing else |
| SubdomainWizard.Wizard.PrevStep | front-end/src/components/CreateSubdomainModal.jsx:42-44 | moves one step back above step 1 and changes nothing else |
| SubdomainWizard.Wizard.EditName | front-end/src/components/CreateSubdomainModal.jsx:145 | only the form's name changes |
| SubdomainWizard.Wizard.EditRepository | front-end/src/components/CreateSubdomainModal.jsx:196 | only the form's repository changes |
| SubdomainWizard.Wizard.ChooseDomainType | front-end/src/components/CreateSubdomainModal.jsx:316 | only the domain type changes |
| SubdomainWizard.Wizard.EditNewDomain | front-end/src/components/CreateSubdomainModal.jsx:325 | only the pending domain input changes |
| SubdomainWizard.Wizard.AddCustomDomain | front-end/src/components/CreateSubdomainModal.jsx:59-67 | the domain list becomes `AddedDomains`, and the input is cleared exactly when it was not blank; no other form field changes; every listed domain stays non-empty, trimmed and unverified |
| SubdomainWizard.Wizard.RemoveDomain | front-end/src/components/CreateSubdomainModal.jsx:69-74 | the domain list loses exactly entry i; no other form field changes; every listed domain stays non-empty, trimmed and unverified |
| UserManagement.DaysSince | front-end/src/components/admin/UserManagement.jsx:94 | the whole number of days elapsed, rounded down |
| UserManagement.RemoveFirst | front-end/src/components/admin/UserManagement.jsx:115 | `replace('$', '')` removes only the first '$', and leaves a string without one unchanged |
| UserManagement.FilteredUsers | front-end/src/components/admin/UserManagement.jsx:82-133 | a user is listed exactly when all six predicates hold, in table order |
| UserManagement.EmptySearchMatchesAll | front-end/src/components/admin/UserManagement.jsx:83-84 | an empty term matches every user, and so does a term found in the name |
| UserManagement.InitialFiltersShowActive | front-end/src/components/admin/UserManagement.jsx:4-133 | with the initial controls, exactly the users who are not deleted are listed, in order |
| UserManagement.DateRangesNested | front-end/src/components/admin/UserManagement.jsx:90-110 | week ⊆ month ⊆ quarter ⊆ year, and 'all' or an unknown range matches everyone |
| UserManagement.BucketsPartition | front-end/src/components/admin/UserManagement.jsx:113-130 | the four buckets are disjoint, every non-negative revenue falls in one, and only known buckets match |
| UserManagement.NaNInNoBucket | front-end/src/components/admin/UserManagement.jsx:113-130 | a revenue that is not a number falls in no bucket, so only 'all' or an unknown bucket shows it |
| UserManagement.RevenueReadsBack | front-end/src/components/admin/UserManagement.jsx:115 | a revenue written '$' followed by n parses as n |
| UserManagement.CountsPartition | front-end/src/components/admin/UserManagement.jsx:145-146 | active plus deleted counts give the total, and the initial view shows the active count |
| UserManagement.MatchesDateRange | front-end/src/components/admin/UserManagement.jsx:90-110 | the floored day difference against 7, 30, 90 or 365 days; 'all' and unknown ranges match |
| UserManagement.Revenue | front-end/src/components/admin/UserManagement.jsx:115 | the first '$' removed, then the radix-less `parseInt`, which reads a `0x` prefix as base 16 |
| UserManagement.HexRevenueIsLow | front-end/src/components/admin/UserManagement.jsx:115-122 | '$0x1F' reads as 31, so that user falls under 'low' and not 'free' |
| UserManagement.InBucket | front-end/src/components/admin/UserManagement.jsx:116-129 | the comparison of each revenue bucket, false for NaN |
| UserManagement.Shown | front-end/src/components/admin/UserManagement.jsx:82-135 | the six predicates the filter combines |
| UserManagement.ActiveUsersCount | front-end/src/components/admin/UserManagement.jsx:145 | the number of users with no `deletedAt` |
| UserManagement.DeletedUsersCount | front-end/src/components/admin/UserManagement.jsx:146 | the number of users with a `deletedAt` |
| Repos.FilteredRepos | front-end/src/pages/Repos.jsx:152-164 | a repository is listed exactly when it is in the selected partition, matches the search and matches `filterBy`, in order |
| Repos.FilterOptions | front-end/src/pages/Repos.jsx:159-162 | 'all', 'connected', 'private' and 'public' keep what their names say |
| Repos.UnknownFilterMatchesNothing | front-end/src/pages/Repos.jsx:159-162 | an unrecognised `filterBy` empties the list |
| Repos.FilteredWithinPartition | front-end/src/pages/Repos.jsx:152-164 | the filtered list is an ordered part of the archived or active partition that `showArchived` selects |
| Repos.InsertByStars | front-end/src/pages/Repos.jsx:165-170 | inserting into a list sorted by stars keeps it sorted, and the result is the list plus the new element |
| Repos.SortByStars | front-end/src/pages/Repos.jsx:165-170 | the stars are non-increasing, and the result is a permutation of the input |
| Repos.SortByStarsKeepsSorted | front-end/src/pages/Repos.jsx:165-170 | a list already in star order is left as it is |
| Repos.CountsAddUp | front-end/src/pages/Repos.jsx:177-182 | active plus archived is the total; connected + syncing + error ≤ active; the live count counts exactly the active repositories with a truthy URL |
| Repos.MatchesFilter | front-end/src/pages/Repos.jsx:159-162 | the four filter options; any other option matches nothing |
| Repos.ActiveRepos | front-end/src/pages/Repos.jsx:177 | the repositories with no `archivedAt` |
| Repos.StatusCount | front-end/src/pages/Repos.jsx:179-181 | the number of active repositories with that status |
| Repos.LiveCount | front-end/src/pages/Repos.jsx:182 | the number of active repositories with a truthy `deployedUrl` |
| Dashboard.FilteredSubdomains | front-end/src/components/Dashboard.jsx:89-91 | exactly the deleted subdomains, or exactly the active ones, in order |
| Dashboard.ViewsPartition | front-end/src/components/Dashboard.jsx:89-94 | active plus deleted counts give the total, and each view's size is its count |
| Dashboard.StatusCountsBounded | front-end/src/components/Dashboard.jsx:93-97 | live + building + error ≤ active |
| Dashboard.ToggleShowDeleted | front-end/src/components/Dashboard.jsx:197 | only `showDeleted` changes, and it is negated |
| Dashboard.ToggleTwice | front-end/src/components/Dashboard.jsx:197 | toggling twice restores the page and the view |
| Dashboard.ViewLogs | front-end/src/components/Dashboard.jsx:84-87 | the id is selected and the log panel opens; the view and the other toggles stay |
| Dashboard.ViewLogsIdempotent | front-end/src/components/Dashboard.jsx:84-87 | opening the same logs twice equals opening them once, and never changes the view |
| Dashboard.ActiveCount | front-end/src/components/Dashboard.jsx:93 | the number of subdomains with no `deletedAt` |
| Dashboard.DeletedCount | front-end/src/components/Dashboard.jsx:94 | the number of subdomains with a `deletedAt` |
| Dashboard.StatusCount | front-end/src/components/Dashboard.jsx:95-97 | the number of non-deleted subdomains with that status |
| BuildConsole.PropOr | front-end/src/components/BuildLogsPanel.tsx:25-26 | an absent command prop takes its default, and a given one, even empty, is kept |
| BuildConsole.DefaultCommandsShown | front-end/src/components/BuildLogsPanel.tsx:25-26 | with no command props, the build log opens with `$ npm run build` and the run log with `$ npm start` |
| BuildConsole.BuildScript | front-end/src/components/BuildLogsPanel.tsx:51-73 | the simulated build writes nine entries |
| BuildConsole.BuildScriptShape | front-end/src/components/BuildLogsPanel.tsx:51-73 | the first entry is the command `$ <buildCommand>` and the last is 'Output written to dist/'; only the first carries a command |
| BuildConsole.RunScript | front-end/src/components/BuildLogsPanel.tsx:83-90 | the simulated run writes four entries |
| BuildConsole.RunScriptShape | front-end/src/components/BuildLogsPanel.tsx:83-90 | the run log opens with `$ <runCommand>` and ends with 'Watching for file changes...' |
| BuildConsole.CopyText | front-end/src/components/BuildLogsPanel.tsx:103-104 | an empty log copies as the empty string |
| BuildConsole.CopyTextLines | front-end/src/components/BuildLogsPanel.tsx:104 | the copied text splits back into one `[ts] message` line per entry |
| BuildConsole.LogIcon | front-end/src/components/BuildLogsPanel.tsx:119-127 | success ✓, error ✗, warning ⚠, command $, and • for anything else |
| BuildConsole.LogColor | front-end/src/components/BuildLogsPanel.tsx:109-117 | the four known types get their colours, and anything else gets 'text-gray-300' |
| BuildConsole.Console.constructor | front-end/src/components/BuildLogsPanel.tsx:28-31 | an empty log, not building, not running, idle |
| BuildConsole.Console.AddLog | front-end/src/components/BuildLogsPanel.tsx:34-43 | exactly one entry appended at the end; the earlier entries and the flags stay |
| BuildConsole.Console.BeginBuild | front-end/src/components/BuildLogsPanel.tsx:45-48 | building, at step 'building', with an empty log |
| BuildConsole.Console.SimulateBuild | front-end/src/components/BuildLogsPanel.tsx:45-77 | the log is exactly the nine build entries, and the build ends idle and not building |
| BuildConsole.Console.SimulateRun | front-end/src/components/BuildLogsPanel.tsx:79-91 | running at step 'running', with the four run entries appended |
| BuildConsole.Console.StopRun | front-end/src/components/BuildLogsPanel.tsx:93-97 | stopped and idle, with one warning appended |
| BuildConsole.Console.ClearLogs | front-end/src/components/BuildLogsPanel.tsx:99-101 | the log is empty, and the flags stay |
| BuildConsole.Console.CopyLogs | front-end/src/components/BuildLogsPanel.tsx:103-107 | the copied text is that of the log before the call; then one 'Logs copied' entry is appended |
| BuildLogViewer.DownloadText | front-end/src/components/BuildLogsPanel.jsx:35 | an empty log gives ""; a single entry gives its own line |
| BuildLogViewer.DownloadTextLines | front-end/src/components/BuildLogsPanel.jsx:35 | the text splits back into one `[ts] LEVEL: message` line per entry |
| BuildLogViewer.DownloadName | front-end/src/components/BuildLogsPanel.jsx:40 | `subdomain-<id>-logs.txt`, where a null id prints as `null` |
| BuildLogViewer.LevelColor | front-end/src/components/BuildLogsPanel.jsx:25-32 | error, warning and success get their colours, and anything else gets 'text-gray-300' |
| BuildLogViewer.Viewer.constructor | front-end/src/components/BuildLogsPanel.jsx:6 | the log starts empty |
| BuildLogViewer.Viewer.LoadEffect | front-end/src/components/BuildLogsPanel.jsx:10-23 | the seven-entry mock log loads exactly when the panel is open with a subdomain id; otherwise the log stays |
| BuildLogViewer.Viewer.ClearLogs | front-end/src/components/BuildLogsPanel.jsx:47-49 | the log is empty |
| BuildLogViewer.Viewer.Download | front-end/src/components/BuildLogsPanel.jsx:34-45 | the file's name and text, with the log unchanged |
| NotificationSettings.Flip | front-end/src/components/settings/NotificationSettings.jsx:30-35 | only the key changes and is negated; a missing key becomes true |
| NotificationSettings.FlipTwice | front-end/src/components/settings/NotificationSettings.jsx:30-35 | toggling a present key twice restores the map |
| NotificationSettings.FlipsCommute | front-end/src/components/settings/NotificationSettings.jsx:30-35 | toggles of different keys commute |
| NotificationSettings.EmailToggle | front-end/src/components/settings/NotificationSettings.jsx:30-35 | only the email group changes |
| NotificationSettings.PushToggle | front-end/src/components/settings/NotificationSettings.jsx:37-42 | only the push group changes |
| NotificationSettings.InAppToggle | front-end/src/components/settings/NotificationSettings.jsx:44-49 | only the in-app group changes |
| NotificationSettings.GroupsIndependent | front-end/src/components/settings/NotificationSettings.jsx:30-49 | toggles of different groups commute |
| NotificationSettings.DefaultsOff | front-end/src/components/settings/NotificationSettings.jsx:7-28 | in the defaults, only marketing e-mails and system-maintenance pushes are off |
| PlatformSettings.SettingChange | front-end/src/components/admin/PlatformSettings.jsx:32-37 | the key takes the value, and every other key keeps its own |
| PlatformSettings.LastWriteWins | front-end/src/components/admin/PlatformSettings.jsx:32-37 | two sets of the same key keep the last value |
| PlatformSettings.SetsCommute | front-end/src/components/admin/PlatformSettings.jsx:32-37 | sets of different keys commute |
| PlatformSettings.SetSameValue | front-end/src/components/admin/PlatformSettings.jsx:32-37 | setting a key to its current value changes nothing |
| PlatformSettings.DefaultLimits | front-end/src/components/admin/PlatformSettings.jsx:6-30 | defaults: password length 8, 5 login attempts, build timeout 600, maintenance mode off |
| ToastContainer.WithId | front-end/src/components/ToastContainer.jsx:11-12 | the generated id replaces any id the toast had, and every other prop is kept |
| ToastContainer.AddToast | front-end/src/components/ToastContainer.jsx:10-13 | one toast appended at the end, and the existing toasts kept |
| ToastContainer.RemoveToast | front-end/src/components/ToastContainer.jsx:15-17 | every toast with the id goes, every other stays, and the order is kept |
| ToastContainer.RemoveAbsent | front-end/src/components/ToastContainer.jsx:15-17 | removing an id that no toast has changes nothing |
| ToastContainer.AddThenRemove | front-end/src/components/ToastContainer.jsx:10-17 | adding under a fresh id and then removing that id restores the list |
| ToastBus.Stamped | front-end/src/hooks/use-toast.js:8 | the toast gets the clock's id unless it brings its own, and every prop is kept |
| ToastBus.Bus.constructor | front-end/src/hooks/use-toast.js:4-5 | an empty queue and no listeners |
| ToastBus.Bus.Toast | front-end/src/hooks/use-toast.js:7-10 | exactly one entry appended, then every registered listener holds the whole queue; unregistered setters keep what they had |
| ToastBus.Bus.UseToast | front-end/src/hooks/use-toast.js:12-21 | returns a snapshot of the queue, and registers the setter only when it is absent, so no listener appears twice |
| ClassNames.Flatten | front-end/src/lib/utils.js:4 | no nested array is left |
| ClassNames.FlattenConcat | front-end/src/lib/utils.js:4 | flattening distributes over concatenation |
| ClassNames.FlattenFlat | front-end/src/lib/utils.js:4 | a list without nested arrays flattens to itself |
| ClassNames.FlattenIdempotent | front-end/src/lib/utils.js:4 | flattening twice equals flattening once |
| ClassNames.Classes | front-end/src/lib/utils.js:3-5 | every survivor is a truthy, non-array flattened value; every truthy flattened value survives; the order is kept |
| ClassNames.Cn | front-end/src/lib/utils.js:2-7 | no surviving value gives ""; one value gives its string |
| ClassNames.AllFalsy | front-end/src/lib/utils.js:2-7 | only falsy arguments, at any depth, give "" |
| ClassNames.CnWords | front-end/src/lib/utils.js:3-6 | the result splits on spaces back into the surviving names, in order |
| ClassNames.NestingIrrelevant | front-end/src/lib/utils.js:4 | wrapping arguments in an array does not change the result |

## Left out

- backend/utils/responseHandler.js and backend/models/User.js are not part of this model. The backend controller and error middleware use the REST API's envelope (`Responses`) and schema (`UserSchema`), which have the same signatures.
- The `createdAt`/`updatedAt` timestamps, `__v`, the toJSON `id` virtual and key order: they change no outcome the model states.
- `validator.isEmail`, `isMongoId` and the ObjectId cast are library behaviour. They are passed in as parameters.
- The request validator's sanitizers: the backend controllers are modelled on the raw request body. The `trim()` and `normalizeEmail()` rewrites of `req.body` (backend/middlewares/validator.js:33, 38, 41, 50, 55 and 57) are not applied before the controller runs. `normalizeEmail` also lowercases, and for gmail.com it drops dots and `+tag` suffixes, which the schema's setters never do. So the controller's email lookup can differ from the source's. With `ab@gmail.com` stored, the source answers a create with `A.B+x@gmail.com` with 409, while the model looks up `a.b+x@gmail.com` and answers 201. This affects BackendUsers.CreateUser, BackendUsers.UpdateUser, BackendUsers.FindByBodyEmail, BackendUsers.EmailClash and BackendUsers.OwnEmailResent: the "with spaces gives 409" case holds for a controller reached with the body as sent.
- Mongoose behaviour is taken as documented, not modelled from its source. Filters on `email` are cast through the schema setters. The first failing validator of a path is reported. The ValidationError message is 'User validation failed: ' followed by `path: message` pairs.
- The REST controller's 500 branches and any other error the driver throws: the driver is not modelled, so only the errors the model raises itself (cast, validation, duplicate key) are reached.
- ErrorHandler.HandleError: a duplicate-key error (code 11000) is assumed to carry `keyPattern`. Without it, `Object.keys(err.keyPattern)` throws inside the handler itself; that case is not modelled. An empty `keyPattern` is modelled and names the field "undefined".
- `findOne({ email: undefined })` in the backend `createUser` is modelled as matching nothing, because every stored user has an email (the schema marks it `required`).
- BackendUsers.GetUsers: the listing is taken from the stored order, and a negative limit is treated like its absolute value (the server's documented behaviour).
- db.js: the real driver, what the metrics interval logs, the timers themselves (a scheduled retry is recorded by its delay, and firing it is a later `connectDB` call) and signal registration are I/O. The handlers registered again on every successful connect, and the metrics interval started on each, are modelled as counts.
- The isString check of the list sort rule has no message of its own. Query values are strings here, so it never fails.
- The pauses (`await setTimeout`) of the build console are not modelled. A build started while the server runs leaves `isRunning` true with step 'idle', as the source does.
- The clipboard write of `copyLogs` and the Blob download of the log viewer are I/O; the model returns their text.
- `Date.now()` ids (which may collide), `toLocaleTimeString`, `Math.random` ids and the current time are parameters.
- Repos sort modes 'name' (locale-dependent `localeCompare`) and 'updated' (`new Date` on relative strings, giving NaN) are not modelled. Only the star sort is.
- Repos.SortByStars: stability (entries with equal stars keep their order) is not proved. The stated contract is order and permutation.
- UserManagement: join dates are taken as milliseconds since the epoch. Parsing date strings is not modelled. The status and plan colour lookups are presentational.
- Wizard inputs for description, branch, build command, output directory, environment variables and auto-deploy copy a value into a field that no modelled logic reads, so only the name, repository, domain type and pending domain inputs are modelled.
- The use-toast hook has no unmount cleanup in the source, so none is modelled.
- JSX rendering, Tailwind classes, charts, the presentational components, MongoDBStatus.jsx (floating-point formatting and polling), the monitor controller and metrics middleware (driver internals), the front-end MongoDB service (network), Swagger, both app.js files, CORS and security middleware, and catchAsync (promise plumbing).
- JavaScript numbers are integers here. No modelled path reaches a fraction, and NaN from `parseInt` is `None`.
- Unicode case mapping: `toLowerCase` and `toUpperCase` are modelled on ASCII letters only. The white space `trim` drops (`Text.IsSpace`) is JavaScript's full set: the ASCII spaces, U+00A0, U+1680, U+2000..U+200A, U+2028, U+2029, U+202F, U+205F, U+3000 and U+FEFF.
- Schema string lengths: a Dafny `string` counts Unicode scalar values, while the schema's `minlength`/`maxlength` count UTF-16 code units (JavaScript's `length`). A character outside the Basic Multilingual Plane therefore counts once in UserSchema.NameError and twice in the source, so a name of 26 such characters passes the schema's 2..50 check here and fails it in the source. The request validator's `isLength` counts such a character once, as the model does (`Validator.IsLengthCount`).

## Findings

| source | as written | input that shows it | evidently intended | confidence | as-written member | corrected member |
|---|---|---|---|---|---|---|
| backend/middlewares/validator.js:13 | `validate` reads `validationChain.validationErrors()`, a name that is defined nowhere, so every request makes the middleware throw a ReferenceError | any request, including one that passes every rule | collect the chains' errors (`validationResult(req)`), fold them into `{ path: msg }` and answer 400, or call `next()` when there are none | high (not executed) | Validator.ValidateAsWritten, Validator.AsWrittenBlocksValidRequests | Validator.Validate |
