# Event Locator backend — a Dafny model

The Event Locator backend is an Express/PostgreSQL/Redis service. Users can:

- register, log in and keep a profile;
- publish events with a place and a time;
- search events by text, category, date or distance;
- receive notifications when an event they care about changes or is about to begin.

This project models the decision logic of that service and proves what it promises:

- **The tables.** The `events`, `notifications` and `users` tables are classes holding sequences of rows. The statements of each model (`Event`, `Notification`, `User`) are methods on those classes that change the rows, or functions that read them. The schema constraints are class invariants (`Valid`).
- **The cache and pub/sub helpers.** The Redis helpers are a key/value map and a message log, with the reconnection policy alongside.
- **The notification service.** This covers:
  - who is interested in an event;
  - the per-recipient loops that insert and push notifications;
  - the reminder decision: nothing, a pending timer, or an immediate message.
- **The controllers.** The event and notification handlers are step-by-step methods over the tables, the cache and the notification service. The cache keys, whitelists, change lists and pagination arithmetic are pure functions.
- **The middlewares.** Authentication, authorisation, the token blacklist, the request-body validators and the error handler are pure functions, except the blacklist write.

Outside effects are parameters of the operations that need them:

- `now`: the clock;
- `dist`: the database's spherical distance;
- `translate`: the i18n layer;
- `verify` / `decode`: JWT;
- `isEmail` / `isMobilePhone`: express-validator's foreign predicates;
- `castTime` / `parseFloat`: text-to-value conversions;
- `Db`: what the service's queries can see, and whether the database answers.

Files, one module each:

- `wrappers.dfy`: `Option`, `Result`, `Point`, `Time`, `UserId`.
- `strings.dfy`: JavaScript string operations — trimming, splitting, joining, `parseInt` (leading white space, one sign, a `0x` prefix, the longest run of digits), ordering.
- `seqs.dfy`: filter, stable sort, `LIMIT`/`OFFSET`.
- `events.dfy`, `notifications.dfy`, `users.dfy`: the three models.
- `redis.dfy`: the Redis configuration.
- `notification_service.dfy`: the notification service.
- `event_controller.dfy`, `notification_controller.dfy`: the two controllers.
- `auth.dfy`, `validate.dfy`, `error_handler.dfy`: the middlewares.

Where the code and its documentation disagree, the model follows the code:

- **Event ownership.** The `Event` objects the controller receives carry no `created_by` (the constructor drops it), so only admins can update or delete events (`EventController.OnlyAdminsAuthorized`).
- **`count` and `getAll`.** `count` has no end-date clause, so it can disagree with `getAll` (`EventModel.EndDateDisagreement`).
- **Duplicate users.** A duplicate registration is answered 500, not 409 (`ErrorHandler.DuplicateUserIs500`).

## Model

| member | source | states |
|---|---|---|
| EventModel.ParseStatus | src/config/db.js:115-116 | only `active`, `cancelled` and `completed` are admitted, and each is read back under its own name |
| EventModel.ToEvent | src/models/event.js:4-17 | the `Event` object keeps id, title, address, category, status and times; description and ticket price default to `''` and 0; the location is present only when the row was returned whole |
| EventModel.CreatedByOf | src/models/event.js:4-17 | an `Event` object never has a `created_by` |
| EventModel.InsertedFails | src/models/event.js:20-49 | an insert fails exactly when a NOT NULL column is unset or a status is given that the constraint rejects |
| EventModel.InsertedRow | src/models/event.js:20-49 | an inserted row records the supplied values, has no creator, has status active unless one is given, and has a location exactly when both coordinates are given |
| EventModel.Inserted | src/models/event.js:20-49 | the row an insert builds, or the constraint it violates; `InsertedFails` and `InsertedRow` state which |
| EventModel.EventStore.Create | src/models/event.js:20-49 | the row is appended on success and the table is unchanged on failure, with the database's message; the id sequence advances either way |
| EventModel.GetById | src/models/event.js:52-76 | an event is found exactly when a non-cancelled row with that id exists, and is that row's object |
| EventModel.ListRows | src/models/event.js:79-152 | an error exactly for a truthy limit that is negative or comes with a negative offset; every listed row is non-cancelled and meets every supplied filter; rows are ascending by start time; with a limit, the page holds exactly `min(limit, matching − offset)` rows, row `i` being matching row `offset + i` in start-time order; without a limit, exactly the matching rows in that order |
| EventModel.GetAll | src/models/event.js:79-152 | the listed rows as `Event` objects, one for one and in order |
| EventModel.ListIgnoresCreator | src/models/event.js:79-152 | the listing is the same whatever `created_by` is asked for |
| EventModel.CountMatchesList | src/models/event.js:312-357 | without an end date and without a limit, the count equals the number of listed rows |
| EventModel.ListNeverExceedsCount | src/models/event.js:312-357 | a page never holds more rows than the count for the same query |
| EventModel.Count | src/models/event.js:312-357 | the number of rows the count query's own WHERE clause admits, never more than the table holds |
| EventModel.EndDateDisagreement | src/models/event.js:116-121 | every row that meets the other filters but ends after the end date (for a category without surrounding white space) is counted, is not listed, and makes the count exceed the number of listed rows |
| EventModel.CountExceedsList | src/models/event.js:116-121 | a counted row ending after the end date makes the count strictly larger than the number of listed rows |
| EventModel.NearbyRows | src/models/event.js:155-221 | radius-search rows are exactly the non-cancelled rows within the radius that meet name, trimmed category, start date and address; nearest first |
| EventModel.FindNearby | src/models/event.js:155-221 | each hit is the row's `Event` object together with its distance, in the rows' order |
| EventModel.FindNearbySound | src/models/event.js:155-221 | every hit is live and within the radius, and hits are sorted by distance |
| EventModel.GetCategories | src/models/event.js:294-309 | strictly sorted, without duplicates, and exactly the categories of non-cancelled events |
| EventModel.AssignAllWrites | src/models/event.js:230-238 | after the assignment loop every assigned column holds its new value |
| EventModel.AssignAllFails | src/models/event.js:230-261 | the statement fails exactly when some key is not a column or some status is not admitted |
| EventModel.UpdatedWrites | src/models/event.js:223-268 | an update writes every supplied key except id and the coordinates; it replaces the location only when both coordinates are truthy, and then with the point (longitude, latitude) they give; it sets `updated_at` to now |
| EventModel.UpdatedKeeps | src/models/event.js:223-268 | a column no entry names keeps its value, and so does the id |
| EventModel.UpdatedFails | src/models/event.js:223-268 | an update fails exactly when a key is not a column or a status is not admitted |
| EventModel.Updated | src/models/event.js:223-268 | the row an update leaves behind, or the error it raises; `UpdatedWrites`, `UpdatedKeeps` and `UpdatedFails` state which |
| EventModel.EventStore.Update | src/models/event.js:223-268 | the row with that id (whatever its status) is replaced by the patched row; no row for an absent id; other rows and a failed statement change nothing |
| EventModel.EventStore.Delete | src/models/event.js:271-291 | true exactly when a row with that id exists, even one already cancelled; that row becomes cancelled and nothing else changes |
| EventModel.DeletedNotFound | src/models/event.js:271-291 | after the soft delete the event is no longer found |
| NotificationModel.GetByUserId | src/models/notification.js:24-39 | an error exactly for a negative limit or offset; otherwise only the user's rows, newest first, exactly `min(limit, owned − offset)` of them, row `i` being the user's row `offset + i` newest first; defaults 50 and 0 |
| NotificationModel.InboxPageOf | src/models/notification.js:24-39 | a page of the user's notifications is that `LIMIT`/`OFFSET` window of their inbox |
| NotificationModel.GetUnreadCount | src/models/notification.js:42-56 | zero exactly when every row of the user is read, and never more than the rows; `UnreadCountCountsRows` gives the exact count |
| NotificationModel.UnreadCountCountsRows | src/models/notification.js:44-51 | the count equals the number of positions holding a row of the user with `is_read = false` |
| NotificationModel.MarkAll | src/models/notification.js:77-92 | each unread row of the user is marked read; every other row is as it was |
| NotificationModel.MarkAllClearsUnread | src/models/notification.js:77-92 | afterwards the user's unread count is 0 |
| NotificationModel.MarkAllKeepsOthers | src/models/notification.js:77-92 | no other user's unread count changes |
| NotificationModel.IndexOfOwned | src/models/notification.js:59-74 | the first row whose id and owner both match, or none |
| NotificationModel.NotificationTable.Create | src/models/notification.js:5-21 | appends one unread row recording the user, type, message and event id |
| NotificationModel.NotificationTable.Reject | src/models/notification.js:5-21 | an insert rejected by a foreign key writes no row but uses up one value of the id sequence |
| NotificationModel.NotificationTable.MarkAsRead | src/models/notification.js:59-74 | marks only the row whose id and owner match; nothing otherwise; other rows unchanged |
| NotificationModel.NotificationTable.MarkAllAsRead | src/models/notification.js:77-92 | the table becomes `MarkAll`; the result is exactly the rows that were unread, as they are afterwards, and there are as many as `GetUnreadCount` counted before |
| NotificationModel.NotificationTable.Delete | src/models/notification.js:95-109 | removes only the row whose id and owner match; nothing otherwise |
| NotificationModel.MarkAsReadAgain | src/models/notification.js:59-74 | marking a row read twice keeps it read and changes only its timestamp |
| UserModel.PointOf | src/models/user.js:5-44 | a location exactly when both coordinates are given, longitude first |
| UserModel.NewRow | src/models/user.js:5-44 | language `en` and no preferred categories unless given; status active; the given hash |
| UserModel.FindByEmail | src/models/user.js:47-59 | a user with that email whose status is not deleted; none only when every user with that email is deleted |
| UserModel.FindById | src/models/user.js:62-75 | a user with that id whose status is not deleted; none only when no such user exists |
| UserModel.FirstLive | src/models/user.js:47-75 | the first row meeting the condition whose status is not deleted, or none when every row meeting it is deleted |
| UserModel.ProfilePatchedKeeps | src/models/user.js:78-142 | first name, last name, phone number and language are each replaced when given and kept otherwise; the location becomes (longitude, latitude) when both coordinates are given and is kept otherwise; `updated_at` is now; no other column changes |
| UserModel.ProfilePatchedIdempotent | src/models/user.js:78-142 | applying the same profile update twice equals applying it once |
| UserModel.UserTable.Create | src/models/user.js:5-44 | fails with "Username or email already exists" exactly when the username or email is taken (the table is unchanged); otherwise appends `NewRow` |
| UserModel.UserTable.UpdateProfile | src/models/user.js:78-142 | "No valid fields to update" exactly when no field is given; no row for an absent id; otherwise the row is patched |
| UserModel.UserTable.UpdatePreferences | src/models/user.js:145-181 | "No preferences to update" exactly when neither both coordinates nor categories are given; no row for an absent id; otherwise the row becomes `PreferencesPatched` of itself |
| UserModel.PreferencesPatchedKeeps | src/models/user.js:145-181 | the categories are replaced when given and kept otherwise; the location becomes (longitude, latitude) when both coordinates are given and is kept otherwise; `updated_at` is now; no other column changes |
| UserModel.PreferencesPatchedIdempotent | src/models/user.js:145-181 | applying the same preferences update twice equals applying it once |
| UserModel.UserTable.UpdateStatus | src/models/user.js:184-197 | "Invalid status value" exactly outside active/suspended/deleted; otherwise true exactly when the row exists, which takes the status |
| UserModel.UserTable.ChangePassword | src/models/user.js:200-227 | "User not found" or "Current password is incorrect" with the hash unchanged; otherwise the new hash is stored |
| UserModel.CreatedFoundByEmail | src/models/user.js:47-59 | a user just created is what `findByEmail` returns for that email |
| UserModel.DeletedUserHidden | src/models/user.js:47-75 | once a user is deleted neither lookup finds them |
| Redis.RetryStrategy | src/config/redis.js:14-22 | give up on ECONNREFUSED; otherwise give up after an hour of retrying; otherwise wait exactly `attempt × 100` ms up to attempt 30 and 3000 ms after it |
| Redis.RetryDelayMonotone | src/config/redis.js:21 | the wait never decreases as the attempt count grows and never exceeds 3000 ms |
| Redis.Cache.Get | src/config/redis.js:80-87 | the stored value, or none for an absent key |
| Redis.Cache.Set | src/config/redis.js:70-77 | stores the value under the key with the expiry (3600 s by default); a non-positive expiry is rejected with nothing stored |
| Redis.Cache.Delete | src/config/redis.js:90-97 | removes exactly that key and answers how many keys went |
| Redis.PubSub.Publish | src/config/redis.js:43-50 | appends the message to the log while connected, rejects it otherwise |
| Redis.PubSub.Subscribe | src/config/redis.js:53-60 | registers one more listener for the channel |
| Redis.Fired | src/config/redis.js:55-58 | a message fires exactly the listeners of its own channel, in registration order |
| NotificationService.FindInterestedUsers | src/services/notificationService.js:199-224 | active users who prefer the category, registered for the event or created it; empty when the query fails |
| NotificationService.InterestedDistinct | src/services/notificationService.js:201-215 | each user appears at most once |
| NotificationService.GetUserLanguage | src/services/notificationService.js:227-238 | the stored language, or `en` when it is missing, empty or the query fails |
| NotificationService.GetEventTitle | src/services/notificationService.js:241-252 | the stored title, or `''` in the same cases |
| NotificationService.RealtimeChannelInjective | src/services/notificationService.js:280-283 | different users get different `user-<id>-notifications` channels |
| NotificationService.PlanReminder | src/services/notificationService.js:131-171 | nothing when nobody is interested; otherwise a timer with positive delay `start − lead − now` while that lies ahead, else an immediate reminder to every interested user |
| NotificationService.Service.FanOut | src/services/notificationService.js:44-71 | one unread notification and one real-time message per recipient, in order; the first failing insert stops the loop, and when the database answered it still uses up one id |
| NotificationService.Service.HandleEventUpdate | src/services/notificationService.js:36-75 | one EVENT_UPDATE notification, carrying the event id, per interested user, with the text `UpdateTexts` asks for in that user's language |
| NotificationService.Service.HandleEventReminder | src/services/notificationService.js:78-114 | one EVENT_REMINDER notification per id in the payload, in order, with the text `ReminderTexts` asks for in the recipient's language |
| NotificationService.Service.PublishEventUpdate | src/services/notificationService.js:117-128 | true exactly when the message reaches the `event-updates` channel |
| NotificationService.Service.ScheduleEventReminder | src/services/notificationService.js:131-171 | carries out `PlanReminder`: a timer appended or a reminder published; false only when an immediate publish is rejected |
| NotificationService.Service.SendDirectNotification | src/services/notificationService.js:174-196 | exactly one row `(user, type, message, event id)` before the real-time message; false, with no row written, when the insert fails; the id sequence advances on success and on a foreign-key failure |
| EventController.Whitelist | src/controllers/eventController.js:27-30 | the loop builds exactly the whitelisted copy of the body |
| EventController.PickedMembers | src/controllers/eventController.js:27-30 | the copy holds exactly the body's entries under whitelisted keys |
| EventController.PickedWellFormed | src/controllers/eventController.js:14-30 | the copy has no unknown key, no id and no creator |
| EventController.MissingFields | src/controllers/eventController.js:32-41 | a required key is reported exactly when it is absent or falsy |
| EventController.CompleteBodyInserts | src/controllers/eventController.js:41-51 | a body passing the required-field check is rejected only for an inadmissible status, and its row has a location |
| EventController.OnlyAdminsAuthorized | src/controllers/eventController.js:219-227 | the ownership check passes exactly for admins |
| EventController.ChangedFields | src/controllers/eventController.js:229-243 | an aspect is listed exactly when its value is supplied, truthy and different; only the four names occur |
| EventController.ChangedFieldsRanked | src/controllers/eventController.js:229-243 | the names stand in the order title, description, time, location, none twice |
| EventController.StartTimeAlwaysChanges | src/controllers/eventController.js:237-241 | a supplied start time is always reported as a change of time and reschedules the reminder |
| EventController.ListParts | src/controllers/eventController.js:85-89 | the list key has eight query parts |
| EventController.ListKey | src/controllers/eventController.js:85-89 | `event:list:` and the eight query parts joined by colons, so at least nine colons (`ListKeyColons`) |
| EventController.NearbyKey | src/controllers/eventController.js:396-400 | `event:nearby:`, the latitude, longitude and radius (10 by default), then the list key's query parts |
| EventController.InvalidationMissesLists | src/controllers/eventController.js:279-289 | no key an update or delete drops equals a list key, unless a category holds six colons or more |
| EventController.CategoriesKeyKept | src/controllers/eventController.js:279-289 | an update never drops the categories key |
| EventController.UpdateInvalidates | src/controllers/eventController.js:279-289 | every key a delete drops, plus the new category's list key when the category changes |
| EventController.DeleteInvalidates | src/controllers/eventController.js:352-356 | the item key, the all-list key and the event's category list key |
| EventController.ListBodyBounds | src/controllers/eventController.js:111-122 | a computed page never holds more events than the total; `hasMore` is exactly `total > offset + limit` |
| EventController.DateFilter | src/models/event.js:110-121 | no filter for a falsy date; otherwise the cast timestamp, or the database's error exactly when the text is not one |
| EventController.FiltersOf | src/controllers/eventController.js:83-109 | fails exactly when one of the dates is rejected; the category is passed trimmed |
| EventController.HasMore | src/controllers/eventController.js:122 | `total > offset + limit`, false when either is not a number |
| EventController.ListBody | src/controllers/eventController.js:100-122 | the listed events, the count and the pagination of a cache miss; `ListBodyBounds` states how they relate |
| EventController.Controller.CreateEvent | src/controllers/eventController.js:12-68 | 400 naming the missing fields in list order and changing nothing; otherwise the insert as in `Insert` |
| EventController.Controller.Insert | src/controllers/eventController.js:50-67 | a 500 with the database's message, or the row appended, its reminder planned, the categories key dropped and a 201 |
| EventController.Controller.GetEvents | src/controllers/eventController.js:71-136 | a cache hit is returned as it is with `fromCache`; a miss computes the page and caches it under the same key for 900 s |
| EventController.Controller.GetEventById | src/controllers/eventController.js:153-187 | read-through caching of one event; 404 when there is none |
| EventController.Controller.UpdateEvent | src/controllers/eventController.js:190-303 | 404, or 403 for a non-owner, with nothing changed; otherwise the update as in `ApplyUpdate` |
| EventController.Controller.ApplyUpdate | src/controllers/eventController.js:245-295 | the row patched, the changes announced only when there are any, the reminder rescheduled when a start time is supplied, the listed keys dropped, 200 |
| EventController.Controller.NotifyUpdate | src/controllers/eventController.js:247-277 | the announcement only for a non-empty change list; the reminder only for a supplied start time |
| EventController.Controller.CollectChanges | src/controllers/eventController.js:229-243 | the pushes build exactly `ChangedFields` |
| EventController.Controller.Invalidate | src/controllers/eventController.js:279-289 | exactly the item key, the all-list key, the old category's key and the new category's key when it changed are removed |
| EventController.Controller.DeleteEvent | src/controllers/eventController.js:306-369 | 404/403 with nothing changed; otherwise the row cancelled, the cancellation announced, the three keys dropped, 200 |
| EventController.Controller.Forget | src/controllers/eventController.js:352-356 | exactly the item key, the all-list key and the category's key are removed |
| EventController.Controller.Announce | src/controllers/eventController.js:330-350 | the event-update message, then the caller's direct notification |
| EventController.Controller.FindEventsNearby | src/controllers/eventController.js:372-451 | 400 without both coordinates; radius 10 by default; read-through caching; `count` is the number of hits |
| EventController.Controller.GetCategories | src/controllers/eventController.js:454-481 | read-through caching of the category list for 1800 s |
| NotificationController.PaginationDefaults | src/controllers/notificationController.js:10-12 | page 1 and size 10 when missing, 0 or not a number; a positive number is taken as written |
| NotificationController.ParsedOr | src/controllers/notificationController.js:10-11 | never 0 unless the fallback is; the fallback for a missing value; any other value is what `parseInt` read |
| NotificationController.PageNumber | src/controllers/notificationController.js:10 | the page is never 0 |
| NotificationController.PageSize | src/controllers/notificationController.js:11 | the page size is never 0 |
| NotificationController.Offset | src/controllers/notificationController.js:12 | no rows skipped on page 1, never a negative number for a page and size of at least 1 |
| NotificationController.OffsetStep | src/controllers/notificationController.js:12 | page `p + 1` starts `limit` rows after page `p` |
| NotificationController.GetNotifications | src/controllers/notificationController.js:7-31 | the caller's rows newest first, exactly the `LIMIT size OFFSET (page − 1) × size` window of their inbox, the unread count, and `hasMore` exactly when the page is full; an error for a negative offset or size |
| NotificationController.NoMoreMeansLastPage | src/controllers/notificationController.js:25 | `hasMore` false means nothing lies past this page |
| NotificationController.FullLastPageClaimsMore | src/controllers/notificationController.js:25 | with exactly one full page, `hasMore` is true and the next page is empty |
| NotificationController.ConsecutivePages | src/controllers/notificationController.js:12 | page `p + 1` continues page `p` |
| NotificationController.Controller.MarkAsRead | src/controllers/notificationController.js:35-55 | 404 with nothing changed when the row is missing or not the caller's; otherwise the row marked, 200 |
| NotificationController.Controller.MarkAllAsRead | src/controllers/notificationController.js:59-71 | afterwards the caller has no unread notification |
| NotificationController.Controller.DeleteNotification | src/controllers/notificationController.js:75-95 | 404 with nothing changed, otherwise exactly that row removed |
| NotificationController.Controller.CreateTestNotification | src/controllers/notificationController.js:99-131 | 403 for a non-admin before anything else, 400 for a falsy user, type or message, otherwise one direct notification and 201 |
| Auth.BearerHeaderToken | src/middlewares/auth.js:17-24 | for a header starting `Bearer `, the second space-separated piece is what follows the prefix up to the next space |
| Auth.HeaderTokenPieces | src/middlewares/auth.js:24 | `split(' ')[1]` is undefined exactly when the header has no space, and otherwise is the text between the first and the second space |
| Auth.BearerToken | src/middlewares/auth.js:17-24 | what follows `Bearer `: a prefix of the rest without a space, ended by a space or by the header's end |
| Auth.SingleSpaceToken | src/middlewares/auth.js:24 | a header `Bearer <token>` yields the token whole |
| Auth.DoubleSpaceTokenEmpty | src/middlewares/auth.js:24 | with two spaces after `Bearer` the token read is empty |
| Auth.UserOf | src/middlewares/auth.js:39-44 | the attached user copies id, email and status; a missing or empty role becomes `user` |
| Auth.Authenticate | src/middlewares/auth.js:13-62 | 401 without a bearer header; 401 for a blacklisted token before verifying; 401 for expired or invalid tokens; other errors handed on; otherwise the user |
| Auth.AuthenticateAccepts | src/middlewares/auth.js:13-62 | a request passes exactly with a bearer header whose token is not blacklisted and verifies |
| Auth.Authorize | src/middlewares/auth.js:67-81 | 403 exactly when the role list is non-empty and lacks the user's role |
| Auth.AuthorizeSingleRole | src/middlewares/auth.js:67-81 | one role behaves as the list holding it; the empty list admits everyone |
| Auth.CheckAccountStatus | src/middlewares/auth.js:86-94 | 403 exactly when the status is not `active` |
| Auth.ActiveAccountsPass | src/middlewares/auth.js:13-94 | both middlewares pass exactly for a verified, unrevoked token of an active account |
| Auth.Guard.BlacklistToken | src/middlewares/auth.js:99-116 | stores `true` under `blacklist:<token>` for `exp − ⌊now/1000⌋` seconds exactly when that is positive; an undecodable token is handed on as an error |
| Auth.Remaining | src/middlewares/auth.js:107-108 | the token's `exp` minus the current time in whole seconds, none without `exp` |
| Auth.LogoutToken | src/middlewares/auth.js:103-104 | a token only when the header yields a non-empty second piece, and then that piece |
| Auth.LogoutRevokes | src/middlewares/auth.js:27-33 | after the blacklist write the same header is refused as revoked |
| Validate.Validate | src/middlewares/validate.js:4-23 | continue exactly when there is no failure, otherwise 400 with all of them |
| Validate.RegisterErrors | src/middlewares/validate.js:28-69 | the failures of the `register` rules in schema order; `RegisterAccepted` states when there are none |
| Validate.LoginErrors | src/middlewares/validate.js:72-80 | every failure names `email` or `password` |
| Validate.ProfileErrors | src/middlewares/validate.js:83-103 | every failure names one of the profile fields |
| Validate.ChangePasswordErrors | src/middlewares/validate.js:106-114 | every failure names `currentPassword` or `newPassword` |
| Validate.OneOrMoreIff | src/middlewares/validate.js:32 | `^[C]+$` matches exactly the non-empty strings of class characters |
| Validate.AheadIff | src/middlewares/validate.js:41 | a `(?=.*[C])` lookahead over text without line terminators means the text contains a class character |
| Validate.PasswordPatternIff | src/middlewares/validate.js:41 | the password pattern holds exactly for ≥ 8 allowed characters including a lower case letter, an upper case letter, a digit and one of `@$!%*?&` |
| Validate.UsernameAccepted | src/middlewares/validate.js:29-32 | a username passes exactly when, trimmed, it has 3–50 letters, digits or underscores |
| Validate.PasswordAccepted | src/middlewares/validate.js:39-42 | a password passes exactly when it is strong |
| Validate.ShortPasswordTwice | src/middlewares/validate.js:39-42 | a password under 8 characters fails both rules, in order |
| Validate.NameAccepted | src/middlewares/validate.js:44-52 | a name passes exactly when, trimmed, it has 2–50 letters, spaces, apostrophes or hyphens |
| Validate.PhoneAccepted | src/middlewares/validate.js:54-56 | a phone number passes exactly when it is absent, skipped as empty, or accepted by `isMobilePhone` |
| Validate.CoordinateAccepted | src/middlewares/validate.js:58-65 | a coordinate passes exactly when it is absent or a number within its bounds |
| Validate.LanguageAccepted | src/middlewares/validate.js:66-69 | a language passes exactly when it is absent or 2–10 characters long |
| Validate.RegisterAccepted | src/middlewares/validate.js:28-69 | registration passes exactly when every rule does, the optional ones only when their field is present |
| Validate.ProfileRulesOptional | src/middlewares/validate.js:83-103 | every profile failure names a field the body carries; an empty body passes |
| Validate.ProfileAccepted | src/middlewares/validate.js:83-103 | a profile update passes exactly when each present name is 2–50 name characters after trimming, a present phone number is a mobile number and a present language code is 2–10 characters |
| Validate.RegisteredProfileAccepted | src/middlewares/validate.js:83-103 | names, phone and language accepted at registration are accepted by a profile update |
| Validate.LoginAccepted | src/middlewares/validate.js:72-80 | login passes exactly for an email `isEmail` accepts after trimming and a non-empty password; when both rules fail, the email failure comes before the password failure |
| Validate.NewPasswordAccepted | src/middlewares/validate.js:106-114 | a password change passes exactly with a non-empty current password and a strong new one |
| ErrorHandler.Handle | src/middlewares/errorHandler.js:11-35 | ValidationError is 400 with its errors, UnauthorizedError 401, a unique violation 409 with its detail, anything else its own status or 500 with its message or the default |
| ErrorHandler.ErrorStatusKept | src/middlewares/errorHandler.js:32-35 | an error with no status or an error status is answered with an error status, its own when it has one |
| ErrorHandler.NonErrorStatusPassesThrough | src/middlewares/errorHandler.js:32 | any truthy status a plain error carries is handed to `res.status` as it is, even one that is not an error status |
| ErrorHandler.DuplicateUserIs500 | src/models/user.js:39-42 | the rethrown duplicate-user error reaches the handler without its code and is answered 500 |
| ErrorHandler.PlainErrorIs500 | src/middlewares/errorHandler.js:32-35 | a plain error is 500 with its message, or "Internal Server Error" when it has none |

## Left out

- SQL text, `$n` parameter numbering and the query-building loops: the model states what each query means over the rows.
- `LIKE` wildcards inside filter values: a `%` or `_` typed by a user is matched literally. Locale-dependent `LOWER` and collation are modelled as ASCII case folding and code-point order.
- Column lengths (`VARCHAR(n)`) and the database's own type checks, apart from the status constraint. Only the date filters of the list and nearby queries go through a `castTime` parameter; timestamps in an event body arrive already cast (see the `MissingFields` line below).
- Cache expiry: the expiry is recorded with each entry but entries never lapse. The text of a JSON round trip is taken as the identity on the cached values.
- An unreachable cache or bus. A Redis error inside a handler would answer 500; the model's cache never fails, its bus only refuses publishes while `connected` is false.
- The cache helper `redisCacheInstance`, which the controllers import but the configuration module never exports. The model gives each controller a cache object.
- The auth middleware's `new RedisCache()`: the configuration module exports a `RedisCache` instance, not the class, so that call throws when the module loads. The model gives `Auth.Guard` a working cache.
- PostGIS distance, `calculateDistance` and the km-to-miles factor: distance is the parameter `dist`.
- `parseFloat` and floating point: radius and coordinates come through a `parseFloat` parameter, and NaN is not modelled.
- `parseInt` results too large for a double: digits are read into an unbounded integer, so the rounding of huge values to floating point is not modelled.
- Event and notification ids in the URL (`getEventById`, `updateEvent`, `deleteEvent`, `markAsRead`, `deleteNotification`) are natural numbers: non-digit id text, which the database would reject, is not modelled.
- Translation: messages are i18n keys (the controllers' `LanguageUtils.translate` messages), or a `translate` parameter. `LanguageUtils.translate` passes only the key and the variables to i18next and drops the `{lng}` argument (`src/config/i18n.js:151-153`), so the service's messages come out in i18next's current language; the model's `translate` may ignore its language argument and its contracts still hold.
- Email "delivery", which is only a log line, and all logging.
- `setTimeout` delivery: a reminder timer is a pending entry and is never fired or cancelled.
- The nearby-search cache entries, which no handler ever invalidates; the model keeps them too.
- `getMyEvents` and `calculateDistance` handlers, `userController`, the routes and the server: wiring around the modelled operations.
- `initEventsTable` in the database configuration and the notifications migration: the table constraints are the `Valid` invariants instead.
- argon2 hashing and JWT signing, verification and decoding: parameters (`passwordHash`, `verify`, `decode`).
- `req.user.isAdmin`, which `authenticate` never sets: `CreateTestNotification` takes it as a parameter.
- express-validator's `isEmail`, `isMobilePhone`, `isFloat` parsing and `normalizeEmail`: parameters. Length counts code points, so combining marks and variation selectors count like any character.
- `null` body values: in the validators a field is either undefined (`None`) or a string. An event body is typed instead: each `Field` carries a value of its column's type (see the next lines).
- EventController.Controller.ApplyUpdate: on a rejected update the 500 response's message is left unstated.
- EventController.Controller.UpdateEvent: on a rejected update the 500 response's message is left unstated, as in `ApplyUpdate`.
- EventController.InvalidationMissesLists: proved only for categories with fewer than six colons, since a category can contain `:` and mimic a list key.
- Auth.DoubleSpaceTokenEmpty: section 2.1 of RFC 6750 admits one or more spaces after the scheme, but the code reads the second space-separated piece; the model keeps the code's behaviour.
- Ties in `ORDER BY start_time`, `ORDER BY distance` and `ORDER BY created_at DESC`, and the order of `SELECT DISTINCT`: PostgreSQL leaves the order of rows with equal keys unspecified, and the model settles it by table order (a stable sort, a filter in row order). The exact page windows of `EventModel.ListRows`, `NotificationModel.GetByUserId`, `NotificationController.GetNotifications` and `NotificationController.ConsecutivePages`, and the "in order" of `NotificationService.FindInterestedUsers` and `NotificationService.Service.FanOut`, rest on that choice.
- EventController.MissingFields: `start_time` and `end_time` hold timestamps that are already cast, so they are never empty and always truthy. A body with `"start_time": ""` gets a 400 naming `start_time` in the source, and the model cannot express that body. Coordinates and price are numbers: a numeric string such as `"longitude": "0"` is truthy in JavaScript and not reported missing, whereas the model's `Longitude(0.0)` is falsy and reported.
- EventController.Controller.CreateEvent: inherits the typed body of `MissingFields`, so neither the 400 for an empty `start_time` or `end_time` nor the 500 for timestamp text PostgreSQL cannot cast occurs in the model.
- EventController.StartTimeAlwaysChanges: holds because a supplied start time is never empty in the model. In the source `"start_time": ""` is falsy, so `time` is not reported, and the update then fails in the database with a 500.
- EventModel.InsertedFails: a failed timestamp cast is not among the failure conditions, since body timestamps arrive cast; the same holds for `EventModel.UpdatedFails`.
- Validate.RegisterErrors: within one field the errors follow the chain's order, but across fields the model assumes schema order. The chains run under `Promise.all` at `src/middlewares/validate.js:7`, and the order of `errors.array()` across fields is express-validator's, which the source does not fix. The same assumption underlies `Validate.LoginErrors`, `Validate.ProfileErrors` and `Validate.ChangePasswordErrors`.
- ErrorHandler.Handle: the status is the one the handler passes to `res.status`. Node refuses a code outside 100–999 when the response is written, and Express then answers 500 itself; the model does not follow that path, and `NonErrorStatusPassesThrough` states only what is handed to `res.status`.
- Column lists of `RETURNING` and `SELECT`: `UserModel.UserTable.Create`, `UserModel.FindById` and `UserModel.FindByEmail` return the whole row, whereas each query picks its own columns; in particular `create` and `findById` leave out `password_hash`, which only `findByEmail` selects.
