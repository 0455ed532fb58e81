# BistroAgis meeting scheduler — a Dafny model

BistroAgis schedules B2B meetings between manufacturers (`fabricante`) and
resellers (`revendedor`) at a trade fair. Its server keeps users, events,
meetings, meeting requests and notifications in an in-memory storage engine
(`MemStorage`). An Express route layer authenticates callers through a
token-to-user session map and applies owner-or-admin and admin-only rules. A
standalone serverless handler serves a smaller, mock-data version of the API.
A shared schema declares the records, their insert shapes, column defaults and
the login/register validators. The React client shapes the fetched lists:
filters, partitions, the earliest upcoming meetings, metrics, the schedule
grid, labels, colours and initials.

The model follows the program's structure, one module per source file:

- `Schema` (shared/schema.ts) holds the records, the insert and patch shapes, the stamping and merging of fields, the column defaults and the validators.
- `Store` holds the five tables and every storage query and update as pure functions over a database value.
- `Storage.MemStorage` (server/storage.ts) is a class with that state. Its methods are proved against the `Store` functions, and its constructor against the seed state.
- `Http` holds token extraction and session lookup, shared by both servers.
- `Routes.Server` (server/routes.ts) has one method per handler, over the storage object and the session map.
- `StandaloneApi.StandaloneApp` (api/index.ts) holds `mockUsers`, the sessions and the request dispatcher.
- `ApiTypes` holds the client's JSON shapes. `Display` holds the label, colour and initials helpers, which several client files define identically. The client pages and components get one module each (`Analytics`, `Dashboard`, `MeetingsPage`, `ParticipantsPage`, `RequestsPage`, `SchedulePage`, `ProfilePage`, `ParticipantCard`, `MeetingCard`, `Header`).
- `Seqs`, `Text`, `Rounding` and `Wrappers` are generic helpers. They model `Array.prototype.filter`/`find`/`sort`/`slice`, `String.prototype.split`/`includes`/`toLowerCase`/`replace`, `Math.round` on a quotient, and `Option`.

Time is an integer parameter `now`. A client-side date string becomes an
instant through a function parameter `instant`. zod's e-mail check is a
predicate parameter `isEmail`. A session token is any non-empty string that is
not yet a key of the session map.

## Model

| member | source | states |
|---|---|---|
| Schema.StampUser | server/storage.ts:231-236 | the stored user carries the given id and creation time, and exactly the inserted fields |
| Schema.MergeUser | server/storage.ts:238-245 | an update keeps id and createdAt, overwrites exactly the supplied fields, and an empty patch changes nothing |
| Schema.StampEvent | server/storage.ts:260-265 | the stored event carries the given id and creation time, and exactly the inserted fields |
| Schema.StampMeeting | server/storage.ts:280-290 | the stored meeting carries the given id, createdAt = updatedAt = now, and exactly the inserted fields |
| Schema.MergeMeeting | server/storage.ts:292-303 | an update keeps id and createdAt, refreshes updatedAt, and overwrites exactly the supplied fields |
| Schema.StampRequest | server/storage.ts:324-334 | the stored request carries the given id, createdAt = updatedAt = now, and exactly the inserted fields |
| Schema.MergeRequest | server/storage.ts:336-347 | an update keeps id and createdAt, refreshes updatedAt, and overwrites exactly the supplied fields |
| Schema.StampNotification | server/storage.ts:362-371 | the stored notification carries the given id and creation time, and exactly the inserted fields |
| Schema.MeetingRow | shared/schema.ts:31-44 | the declared defaults: a missing status becomes "pending" and a missing duration 30; present values and other fields are kept |
| Schema.RequestRow | shared/schema.ts:46-57 | a missing request status becomes "pending"; everything else is kept |
| Schema.NotificationRow | shared/schema.ts:59-67 | a missing `isRead` becomes false; everything else is kept |
| Schema.UserRow | shared/schema.ts:5-17 | a missing `isActive` becomes true; everything else is kept |
| Schema.EventRow | shared/schema.ts:19-29 | a missing slot duration becomes 30 and a missing `isActive` true; everything else is kept |
| Schema.RowsIdempotent | shared/schema.ts:15-66 | applying the column defaults twice is the same as applying them once |
| Schema.ParseLogin | shared/schema.ts:98-101 | accepted exactly when the e-mail is present and well formed and the password is present with length at least 1; the data is the input's |
| Schema.ParseRegister | shared/schema.ts:70-105 | the insert schema plus a password rule: accepted exactly when the required fields are present within their column lengths and the password has at least 6 characters, with no e-mail format check; the result holds the input's fields |
| Schema.RegisteredCredentialsPassLogin | shared/schema.ts:98-105 | credentials accepted by the register schema, with a well-formed e-mail, are accepted by the login schema |
| Schema.ShortPasswordNeverRegisters | shared/schema.ts:103-105 | a password shorter than 6 characters is always rejected at registration |
| Store.Values | server/storage.ts:247-249 | `Array.from(map.values())` lists the rows in id order, 1 to next-1 |
| Store.Add | server/storage.ts:231-236 | inserting at the counter adds exactly that row, bumps the counter, keeps the other rows, and appends to the listing |
| Store.Put | server/storage.ts:242-244 | overwriting a known key keeps the keys and counter, changes only that row, and replaces it in place in the listing |
| Store.GetAllUsers | server/storage.ts:247-249 | every user in id order; ids 1, 2, ..., strictly increasing |
| Store.GetUser | server/storage.ts:223-225 | found exactly for ids 1 to next-1, and then the row with that id |
| Store.GetUserByEmail | server/storage.ts:227-229 | none exactly when no user has the e-mail; otherwise a user with it, and no lower id has it |
| Store.FirstByEmail | server/storage.ts:227-229 | the user found is the first-inserted one with that e-mail |
| Store.GetUsersByType | server/storage.ts:251-253 | exactly the users of that type, in id order |
| Store.CreateUser | server/storage.ts:231-236 | the new user gets the current counter as id, the counter is bumped, no other table or row changes, and the database stays valid |
| Store.DuplicateEmailKeepsFirst | server/storage.ts:227-236 | creating a user with an e-mail already stored is allowed, and lookup by e-mail still returns the earlier user |
| Store.UpdateUser | server/storage.ts:238-245 | an unknown id gives none and an unchanged database; a known id stores the merged user and changes nothing else |
| Store.GetAllEvents | server/storage.ts:267-269 | every event in id order |
| Store.GetEvent | server/storage.ts:256-258 | found exactly for ids 1 to next-1 |
| Store.GetActiveEvents | server/storage.ts:271-273 | exactly the events with `isActive` true, in id order |
| Store.CreateEvent | server/storage.ts:260-265 | fresh id from the counter, counter bumped, nothing else changes |
| Store.GetAllMeetings | server/storage.ts:315-317 | every meeting in id order |
| Store.GetMeeting | server/storage.ts:276-278 | found exactly for ids 1 to next-1 |
| Store.GetUserMeetings | server/storage.ts:305-309 | exactly the meetings whose manufacturer or reseller is the user, in insertion order |
| Store.GetEventMeetings | server/storage.ts:311-313 | exactly the meetings of that event, in insertion order |
| Store.CreateMeeting | server/storage.ts:280-290 | fresh id from the counter, both timestamps now, counter bumped, nothing else changes |
| Store.UpdateMeeting | server/storage.ts:292-303 | an unknown id gives none and an unchanged database; a known id stores the merged meeting with a fresh updatedAt and nothing else changes |
| Store.GetAllRequests | server/storage.ts:320-322 | every request in id order |
| Store.GetMeetingRequest | server/storage.ts:320-322 | found exactly for ids 1 to next-1 |
| Store.GetUserMeetingRequests | server/storage.ts:349-353 | exactly the requests the user sent or received, in insertion order |
| Store.GetPendingRequests | server/storage.ts:355-359 | exactly the requests addressed to the user with status "pending", in insertion order |
| Store.PendingWithinUserRequests | server/storage.ts:349-359 | the pending list is the user's request list filtered by target and status, hence a subsequence of it |
| Store.CreateMeetingRequest | server/storage.ts:324-334 | fresh id from the counter, both timestamps now, the body stored as given (no status default), nothing else changes |
| Store.UpdateMeetingRequest | server/storage.ts:336-347 | an unknown id gives none and an unchanged database; a known id stores the merged request and nothing else changes |
| Store.GetAllNotifications | server/storage.ts:373-377 | every notification in id order |
| Store.GetUserNotifications | server/storage.ts:373-377 | exactly the notifications of that user, in insertion order |
| Store.CreateNotification | server/storage.ts:362-371 | fresh id from the counter, counter bumped, nothing else changes |
| Store.MarkNotificationAsRead | server/storage.ts:379-384 | an unknown id is a no-op; otherwise only that notification's `isRead` becomes true |
| Store.MarkReadIdempotent | server/storage.ts:379-384 | marking a notification read twice is the same as once |
| Storage.StampedUsers | server/storage.ts:116-119 | the seed loop stamps the i-th user with id from+i |
| Storage.StampedMeetings | server/storage.ts:169-172 | the seed loop stamps the i-th meeting with id from+i |
| Storage.StampedRequests | server/storage.ts:186-189 | the seed loop stamps the i-th request with id from+i |
| Storage.StampedNotifications | server/storage.ts:216-219 | the seed loop stamps the i-th notification with id from+i |
| Storage.SeedUsersFacts | server/storage.ts:63-119 | the seed holds users 1 to 5, all active, all with the password "123456" |
| Storage.SeedMeetingsFacts | server/storage.ts:136-172 | the three seeded meetings are all with manufacturer 1 at event 1, and all in the future |
| Storage.SeedRequestFacts | server/storage.ts:175-189 | the seed holds one request, from user 4 to user 1, and it is user 1's only pending request |
| Storage.SeedNotificationFacts | server/storage.ts:192-219 | the seed holds three notifications, all for user 1 and all unread |
| Storage.MemStorage.constructor | server/storage.ts:57-59 | a new storage holds exactly the seed: users 1-5, event 1, meetings 1-3, request 1, notifications 1-3, with next ids 6, 2, 4, 2, 4 |
| Storage.MemStorage.InitializeMockData | server/storage.ts:61-220 | from empty tables, the state becomes exactly the seed |
| Storage.MemStorage.Populate | server/storage.ts:61-220 | inserts the given users, event, meetings, requests and notifications in order, each table numbered from 1 |
| Storage.MemStorage.CreateAllUsers | server/storage.ts:116-119 | the user list grows by the stamped users and no other table changes |
| Storage.MemStorage.CreateAllMeetings | server/storage.ts:169-172 | the meeting list grows by the stamped meetings and no other table changes |
| Storage.MemStorage.CreateAllRequests | server/storage.ts:186-189 | the request list grows by the stamped requests and no other table changes |
| Storage.MemStorage.CreateAllNotifications | server/storage.ts:216-219 | the notification list grows by the stamped notifications and no other table changes |
| Storage.MemStorage.CreateUser | server/storage.ts:231-236 | the state and result are exactly `Store.CreateUser` of the old state |
| Storage.MemStorage.UpdateUser | server/storage.ts:238-245 | the state and result are exactly `Store.UpdateUser` of the old state |
| Storage.MemStorage.CreateEvent | server/storage.ts:260-265 | the state and result are exactly `Store.CreateEvent` of the old state |
| Storage.MemStorage.CreateMeeting | server/storage.ts:280-290 | the state and result are exactly `Store.CreateMeeting` of the old state |
| Storage.MemStorage.UpdateMeeting | server/storage.ts:292-303 | the state and result are exactly `Store.UpdateMeeting` of the old state |
| Storage.MemStorage.CreateMeetingRequest | server/storage.ts:324-334 | the state and result are exactly `Store.CreateMeetingRequest` of the old state |
| Storage.MemStorage.UpdateMeetingRequest | server/storage.ts:336-347 | the state and result are exactly `Store.UpdateMeetingRequest` of the old state |
| Storage.MemStorage.CreateNotification | server/storage.ts:362-371 | the state and result are exactly `Store.CreateNotification` of the old state |
| Storage.MemStorage.MarkNotificationAsRead | server/storage.ts:379-384 | the new state is exactly `Store.MarkNotificationAsRead` of the old one |
| Http.SessionToken | server/routes.ts:14-17 | no header gives no token; a token is the header with its first "Bearer " removed, and an empty result counts as none |
| Http.BearerRoundTrip | server/routes.ts:14-17 | a header "Bearer " + t presents the token t |
| Http.Lookup | server/routes.ts:19-26 | a caller is found exactly when the header's token is a key of the session map, and is the user bound to it |
| Http.LookupAfterBind | server/routes.ts:39-40 | a token just bound to a user authenticates as that user |
| Http.LookupAfterDelete | server/routes.ts:77-83 | after deleting a token it no longer authenticates, and every other header authenticates as before |
| Http.FreshTokenExists | server/routes.ts:10-12 | whatever the session map holds, a non-empty token outside it exists |
| Routes.Scrub | server/routes.ts:43 | the user sent back keeps id, e-mail, name, company, phone, type, image, description, active flag and creation time; only the password is dropped |
| Routes.ScrubForgetsOnlyPassword | server/routes.ts:88 | two users look the same once scrubbed exactly when they differ at most in the password |
| Routes.ScrubAll | server/routes.ts:86-94 | each user of the list is scrubbed, in order |
| Routes.MayEditUser | server/routes.ts:101 | an admin may edit anyone; anyone else only their own id; an id that does not parse is nobody's own |
| Routes.StatsOf | server/routes.ts:237-257 | total is the number of meetings; confirmed, completed and pending are the exact-status counts, summing to at most the total; the attendance rate is 0 for no meetings and otherwise round(100·completed/total), within 0..100 |
| Routes.Server.constructor | server/routes.ts:8 | the server starts with the seeded storage and no sessions |
| Routes.Server.Caller | server/routes.ts:19-26 | `requireAuth`: the user bound to the header's token, or none for a 401 |
| Routes.Server.Bind | server/routes.ts:10-12 | binds a non-empty token not in the map to the user, and changes no other entry |
| Routes.Server.Login | server/routes.ts:30-49 | invalid data gives 400; no user with the e-mail or an unequal password gives 401 with the sessions unchanged; otherwise a fresh token bound to the stored user, returned scrubbed |
| Routes.Server.Register | server/routes.ts:51-71 | invalid data gives 400; an e-mail already stored gives 400 with no user and no session created; otherwise exactly one user is created and a fresh token is bound to it |
| Routes.Server.AuthUser | server/routes.ts:73-75 | 401 without a session; otherwise the session's snapshot of the user, scrubbed, not a fresh read of storage |
| Routes.Server.Logout | server/routes.ts:77-83 | 401 without a session; otherwise only the caller's token is removed |
| Routes.Server.GetUsers | server/routes.ts:86-89 | 401 without a session; otherwise every stored user, scrubbed |
| Routes.Server.GetUsersByType | server/routes.ts:91-94 | 401 without a session; otherwise the users of that type, scrubbed |
| Routes.Server.UpdateUser | server/routes.ts:96-114 | 401 without a session; 403 when the caller is neither the target nor admin, before any lookup; 404 for an unknown id; otherwise the merged user, scrubbed |
| Routes.Server.GetEvents | server/routes.ts:117-120 | 401 without a session; otherwise the active events |
| Routes.Server.CreateEvent | server/routes.ts:122-133 | 401 without a session; 403 for a non-admin with storage unchanged; otherwise the created event |
| Routes.Server.GetMeetings | server/routes.ts:136-139 | 401 without a session; otherwise the caller's own meetings |
| Routes.Server.GetAllMeetings | server/routes.ts:141-147 | 401 without a session; 403 for a non-admin; otherwise every meeting |
| Routes.Server.CreateMeeting | server/routes.ts:149-156 | 401 without a session; otherwise the meeting is created as sent |
| Routes.Server.UpdateMeeting | server/routes.ts:158-171 | 401 without a session; no ownership check; 404 exactly for an unknown id; otherwise the merged meeting |
| Routes.Server.GetMeetingRequests | server/routes.ts:174-177 | 401 without a session; otherwise the requests the caller sent or received |
| Routes.Server.GetPendingRequests | server/routes.ts:179-182 | 401 without a session; otherwise the pending requests addressed to the caller |
| Routes.Server.CreateMeetingRequest | server/routes.ts:184-194 | 401 without a session; otherwise the stored request's requester is the caller, whatever the body says |
| Routes.Server.UpdateMeetingRequest | server/routes.ts:196-209 | 401 without a session; no ownership check; 404 exactly for an unknown id; otherwise the merged request |
| Routes.Server.GetNotifications | server/routes.ts:212-215 | 401 without a session; otherwise the caller's notifications |
| Routes.Server.CreateNotification | server/routes.ts:217-224 | 401 without a session; otherwise the notification is created as sent |
| Routes.Server.MarkNotificationRead | server/routes.ts:226-234 | 401 without a session; otherwise 200 whether or not the id exists or belongs to the caller, and storage marks it read |
| Routes.Server.GetStats | server/routes.ts:237-257 | 401 without a session; otherwise the stats of the caller's own meetings |
| StandaloneApi.ScrubAll | api/index.ts:156-159 | each mock user is sent back without the password, in order |
| StandaloneApi.Scrub | api/index.ts:97 | the mock user sent back keeps every field except the password (also api/index.ts:134, 144, 157) |
| StandaloneApi.InitialUsers | api/index.ts:12-37 | two mock users, numbered 1 and 2, an admin and a manufacturer, both active with the password "123456" |
| StandaloneApi.OrDefault | api/index.ts:120-123 | `s || fallback`: a missing or empty string is replaced by the fallback |
| StandaloneApi.NewUser | api/index.ts:115-128 | the new user's id is the old count + 1, it is active, created now, keeps e-mail, password, name and type, and gets the fixed defaults for missing or empty company, phone and description |
| StandaloneApi.NumberedIdsDistinct | api/index.ts:115-128 | users numbered 1..n in order have distinct ids |
| StandaloneApi.StandaloneApp.constructor | api/index.ts:9-37 | the module starts with the two mock users and no sessions |
| StandaloneApi.StandaloneApp.Caller | api/index.ts:43-55 | `requireAuth`: the mock user bound to the header's token, or none for a 401 |
| StandaloneApi.StandaloneApp.FindUser | api/index.ts:85-86 | none exactly when no mock user has the e-mail; otherwise one with it |
| StandaloneApi.StandaloneApp.Bind | api/index.ts:39-41 | binds a non-empty token not in the map to the user; the user list is unchanged |
| StandaloneApi.StandaloneApp.Handle | api/index.ts:58-169 | OPTIONS answers 200 and reaches no route, changing nothing; an unknown route answers 404 and changes nothing; health answers "OK" and changes nothing; login and register give the result and the new users and sessions their route handlers give (400 on bad data, 401 on a wrong password, 400 on a taken address, otherwise a fresh token bound to the user); logout answers 401 without a session and otherwise drops exactly that token; every other route answers 401 without a session and otherwise its fixed or scrubbed data, changing nothing |
| StandaloneApi.StandaloneApp.Login | api/index.ts:80-104 | invalid data gives 400; 401 unless a mock user has the e-mail and an equal password, with the sessions unchanged; otherwise a fresh token bound to that user |
| StandaloneApi.StandaloneApp.Register | api/index.ts:106-141 | invalid data or a known e-mail gives 400 and appends nothing; otherwise exactly one `NewUser` is appended and a fresh token bound to it; ids stay 1..n |
| StandaloneApi.StandaloneApp.AuthUser | api/index.ts:143-145 | 401 without a session; otherwise the session's user without the password |
| StandaloneApi.StandaloneApp.Logout | api/index.ts:147-153 | 401 without a session; otherwise only the caller's token is removed |
| StandaloneApi.StandaloneApp.ListUsers | api/index.ts:156-159 | 401 without a session; otherwise every mock user without the password |
| StandaloneApi.StandaloneApp.GetStats | api/index.ts:161-169 | 401 without a session; otherwise the same constant counts for every caller |
| StandaloneApi.StandaloneApp.ListMeetings | api/index.ts:171-185 | 401 without a session; otherwise the one fixed meeting |
| StandaloneApi.StandaloneApp.ListEvents | api/index.ts:187-199 | 401 without a session; otherwise the one fixed event |
| Rounding.RoundDiv | client/src/pages/analytics.tsx:28-29 | `Math.round(p / q)`: the integer nearest to p/q, halves rounded up |
| Rounding.RoundDivUnique | client/src/pages/analytics.tsx:28-29 | the nearest-integer condition determines the rounded value |
| Rounding.RoundDivBounds | client/src/pages/analytics.tsx:28-29 | a quotient within [lo, hi] rounds to a value within [lo, hi] |
| Rounding.Percent | server/routes.ts:245 | 0 for a zero total; otherwise round(100·part/total), within 0..100 when part ≤ total |
| Text.Lower | client/src/pages/participants.tsx:20-21 | `toLowerCase`: same length, each character lower-cased |
| Text.Upper | client/src/pages/profile.tsx:87 | `toUpperCase`: same length, each character upper-cased |
| Text.Contains | client/src/pages/meetings.tsx:41 | `includes`: never for a pattern longer than the string, always for a prefix occurrence and for the empty pattern |
| Text.Split | client/src/pages/profile.tsx:87 | `split(' ')`: at least one piece, none containing the separator |
| Text.ReplaceFirst | server/routes.ts:15 | `replace('Bearer ', '')`: a leading pattern is replaced, and a string without the pattern is unchanged (also api/index.ts:44) |
| Seqs.Filter | client/src/pages/meetings.tsx:39 | `filter`: an element is kept exactly when it is in the list and passes the test; never longer than the list |
| Seqs.Find | client/src/pages/schedule.tsx:86-92 | `find`: nothing exactly when no element passes; otherwise an element of the list that passes |
| Seqs.SortBy | client/src/pages/dashboard.tsx:27 | `sort` by a numeric key: sorted and a permutation of the input |
| Seqs.Take | client/src/pages/dashboard.tsx:28 | `slice(0, n)`: the first min(n, length) elements |
| Text.ContainsIff | client/src/pages/meetings.tsx:41 | `includes` holds exactly when the substring occurs at some position |
| Text.JoinSplit | client/src/pages/profile.tsx:87 | `split(' ')` loses nothing: joining the pieces back gives the string |
| Text.SplitJoin | client/src/pages/profile.tsx:87 | splitting a join of space-free pieces gives the pieces back |
| Text.LowerForgetsCase | client/src/pages/participants.tsx:20-21 | lower-casing an upper-cased string is lower-casing the original |
| Text.ReplaceFirstPrefix | server/routes.ts:15 | `replace('Bearer ', '')` on "Bearer " + t gives t |
| Text.ReplaceFirstAt | server/routes.ts:15 | `replace` with a string pattern replaces the first occurrence wherever it is and keeps the text before and after it (also api/index.ts:44) |
| Display.Heads | client/src/pages/profile.tsx:87 | the first characters of the pieces: one per non-empty piece |
| Display.HeadsOfSplit | client/src/pages/profile.tsx:87 | the heads of the space-split pieces are the characters that start a word |
| Display.WordStartsBlank | client/src/pages/profile.tsx:86-88 | no word starts exactly when the name is all spaces |
| Display.Initials | client/src/pages/profile.tsx:86-88 | "U" for a missing or blank name; otherwise the upper-cased first letter of each word, one per non-empty piece (the same `getInitials` appears in participant-card.tsx:62-64, meeting-card.tsx:53-55 and header.tsx:28-30) |
| Display.UserTypeLabel | client/src/pages/participants.tsx:26-33 | the three user types get their labels; any other type is shown unchanged (the same lookup appears in profile.tsx:68-75, participant-card.tsx:44-51 and header.tsx:32-39) |
| Display.UserTypeColor | client/src/pages/profile.tsx:77-84 | the three user types get their colours; gray exactly for any other type (the same lookup appears in participant-card.tsx:53-60) |
| Display.MeetingBadge | client/src/pages/meetings.tsx:27-36 | the four meeting statuses get label and class; any other status is its own label with an empty class, and only then is the class empty (the same lookup appears in meeting-card.tsx:22-32) |
| Display.RequestBadge | client/src/pages/requests.tsx:66-75 | pending, approved and rejected get label and class; any other status is its own label with an empty class, and only then is the class empty |
| Analytics.MeetingsSource | client/src/pages/analytics.tsx:18-20 | admins aggregate over `/api/meetings/all`, everyone else over `/api/meetings` |
| Analytics.Duration | client/src/pages/analytics.tsx:33 | `duration || 30`: a present non-zero duration is used as is, a missing or zero one counts as 30 |
| Analytics.TotalDuration | client/src/pages/analytics.tsx:33 | the summed durations; meetings that set none contribute 30 each |
| Analytics.TotalDurationAppend | client/src/pages/analytics.tsx:33 | the sum grows from the left as `reduce` does: appending a meeting adds its duration |
| Analytics.TotalDurationBounds | client/src/pages/analytics.tsx:33 | with every duration within [lo, hi], the total lies within [n·lo, n·hi] |
| Analytics.AverageDuration | client/src/pages/analytics.tsx:32-33 | 0 for no meetings; otherwise the integer nearest to the mean duration |
| Analytics.AverageDurationBounds | client/src/pages/analytics.tsx:32-33 | the rounded mean lies between any bounds of the durations |
| Analytics.DefaultDurationAverage | client/src/pages/analytics.tsx:33 | when no meeting sets a duration, the average is 30 |
| Analytics.CalculateMetrics | client/src/pages/analytics.tsx:22-44 | exact-status counts summing to at most the total; both rates 0 for no meetings and otherwise round(100·count/total), within 0..100; avgDuration is the rounded mean |
| Dashboard.UpcomingMeetings | client/src/pages/dashboard.tsx:25-28 | at most 3 meetings, namely min(3, number of future ones); all from the list and in the future; sorted by time; all of them when there are at most 3 |
| Dashboard.UpcomingAreEarliest | client/src/pages/dashboard.tsx:25-28 | a future meeting left out means three were chosen, the last no later than it |
| Dashboard.UnreadNotifications | client/src/pages/dashboard.tsx:30 | the first min(3, unread count) unread notifications, in their original order |
| Dashboard.OrZero | client/src/pages/dashboard.tsx:45-63 | `value || 0`: a missing value shows as 0, a present one as itself |
| Dashboard.Cards | client/src/pages/dashboard.tsx:45-65 | a missing stats object or field is shown as 0 |
| MeetingsPage.FilteredMeetings | client/src/pages/meetings.tsx:39-43 | an order-preserving subsequence; a meeting is kept exactly when both filters pass; a status filter other than "all" keeps only that status; a date filter keeps only dates containing it |
| MeetingsPage.UnfilteredKeepsAll | client/src/pages/meetings.tsx:39-43 | status "all" and an empty date keep every meeting |
| ParticipantsPage.FilteredUsers | client/src/pages/participants.tsx:19-24 | an order-preserving subsequence; a user is kept exactly when the lower-cased name or company contains the lower-cased term and the type filter admits them |
| ParticipantsPage.SearchIgnoresCase | client/src/pages/participants.tsx:20-21 | two terms equal up to case give the same result |
| ParticipantsPage.UpperCaseTermSameResult | client/src/pages/participants.tsx:20-21 | upper-casing the term does not change the result |
| ParticipantsPage.EmptySearchKeepsNamed | client/src/pages/participants.tsx:20-21 | an empty term keeps exactly the admitted users with a name or a company |
| RequestsPage.PendingRequests | client/src/pages/requests.tsx:85 | exactly the requests with status "pending" |
| RequestsPage.ProcessedRequests | client/src/pages/requests.tsx:86 | exactly the requests with another or no status |
| RequestsPage.PendingProcessedPartition | client/src/pages/requests.tsx:85-86 | the two lists partition the requests, as multisets and in length, each in original order |
| RequestsPage.Response | client/src/pages/requests.tsx:22-29 | the patch sets exactly status and response message, plus updatedAt |
| RequestsPage.Accept | client/src/pages/requests.tsx:50-56 | accepting sets status "approved" and the message "Solicitação aceita" |
| RequestsPage.Reject | client/src/pages/requests.tsx:58-64 | rejecting sets status "rejected" and the message "Solicitação recusada" |
| RequestsPage.AnsweredLeavesPending | client/src/pages/requests.tsx:22-29 | once a request is answered with a non-pending status, it is in no user's pending list |
| SchedulePage.MeetingForSlot | client/src/pages/schedule.tsx:83-93 | nothing without schedule data; otherwise a meeting exactly when one belongs in the cell, with the column's manufacturer at the slot's instant |
| SchedulePage.MeetingForSlotIsFirst | client/src/pages/schedule.tsx:83-93 | the meeting shown is the first in list order that belongs in the cell |
| SchedulePage.Counterpart | client/src/pages/schedule.tsx:263-267 | the reseller when the column is the meeting's manufacturer, the manufacturer otherwise |
| SchedulePage.StatusLabel | client/src/pages/schedule.tsx:73-81 | the four statuses in Portuguese, the same labels as the meeting badge; any other status unchanged |
| SchedulePage.StatusColor | client/src/pages/schedule.tsx:63-71 | a colour per known status; the gray classes exactly for any other |
| SchedulePage.SummaryOf | client/src/pages/schedule.tsx:340-370 | exact-status counts summing to at most the meetings; free slots = slots × manufacturers − meetings, negative exactly when meetings outnumber cells |
| ProfilePage.ParseProfile | client/src/pages/profile.tsx:17-23 | accepted exactly when the name is non-empty and the e-mail well formed; company, phone and description optional and passed through |
| ProfilePage.OrEmpty | client/src/pages/profile.tsx:34-40 | `field || ""` on an optional string |
| ProfilePage.FormDefaults | client/src/pages/profile.tsx:32-41 | the user's fields, or "" where a field or the user is missing |
| ProfilePage.UntouchedFormOutcome | client/src/pages/profile.tsx:17-41 | the untouched form of a named user with a valid e-mail is accepted; without a user it is rejected |
| ParticipantCard.ScheduleRequestAsWritten | client/src/components/participant-card.tsx:18-27 | the posted body: event 1, the card's user as target, no status |
| ParticipantCard.ScheduleRequest | client/src/components/participant-card.tsx:18-27 | the same body with status "pending", the declared column default |
| ParticipantCard.AsWrittenNeverPending | client/src/components/participant-card.tsx:18-27 | the request the card creates never appears in its target's pending list |
| ParticipantCard.ScheduledRequestIsPending | client/src/components/participant-card.tsx:66-68 | with the status set, the created request is pending for the card's user and sent by the caller |
| MeetingCard.UserById | client/src/components/meeting-card.tsx:14-16 | none exactly when the id is missing or no user has it; otherwise a user with that id |
| MeetingCard.Participant | client/src/components/meeting-card.tsx:18-20 | the reseller when the manufacturer is found; nobody when the manufacturer id is `null` or names no user; the reseller when the meeting has no `fabricanteId` field at all |
| MeetingCard.AvatarInitials | client/src/components/meeting-card.tsx:53-55 | "U" without a counterpart, otherwise the counterpart's initials |
| MeetingCard.LocationShown | client/src/components/meeting-card.tsx:69 | the location when present and non-empty, "Local não definido" otherwise |
| Header.UnreadCount | client/src/components/layout/header.tsx:16 | the number of notifications whose `isRead` is not true; 0 exactly when none is unread |
| Header.ShowsBadge | client/src/components/layout/header.tsx:60-64 | the badge shows exactly when some notification is unread |
| Header.DashboardAgreesWithHeader | client/src/components/layout/header.tsx:16 | the dashboard lists min(3, header count) notifications, and lists some exactly when the badge shows |

## Left out

- Floating point: `Math.round((a / b) * 100)` and the mean duration are modelled by exact rational rounding. A floating-point product that lands just beside a half is not captured.
- Case mapping: `toLowerCase`/`toUpperCase` are modelled on ASCII letters only. Strings are sequences of characters, not UTF-16 code units.
- Lookup tables are object literals in the source. A status or type named like an `Object.prototype` key (such as "constructor") would find an inherited value there. The model treats it as unknown.
- The update routes merge an untyped request body. The model takes the typed patch, which cannot carry `id` or `createdAt`, so it does not capture a body that overwrites them.
- The try/catch paths that turn a thrown storage or parse error into 400 or 500 are not modelled beyond schema validation. Storage never throws in the model.
- The standalone handler's CORS headers and the `/api/health` body's timestamp and environment are not modelled. OPTIONS and health are modelled by their status codes.
- Token randomness (`Math.random().toString(36)`) is modelled as a choice of any non-empty token not yet in the session map.
- Dates: `new Date()`, `Date.now`, parsing and locale formatting are not modelled. `now` and the `instant` function are parameters, and one `now` serves the whole seed. `navigateDate` and the date formatting in schedule.tsx and meeting-card.tsx are not part of this model. Because `instant` is total, a `scheduledAt` that does not parse is not captured: in the source it gives NaN, `getTime() ===` is then false, and such a meeting never fills a schedule cell.
- `parseInt` on path ids: an id that does not parse (NaN) is modelled as a missing id, which matches no row.
- The `/api/schedule/daily` handler is not part of this model; its data is an input to `SchedulePage`.
- React rendering, hooks, the query cache, toasts, routing and use-auth.tsx are not modelled. Neither are the files with layout only (App.tsx, main.tsx, SimpleApp.tsx, login.tsx, sidebar.tsx, mobile-nav.tsx, stats-card.tsx) or the fixtures in mock-data.ts.
- `Map` iteration order is modelled as id order. That holds because ids are inserted in increasing order and never deleted.
- Route matching in the standalone handler is abstracted into a `Route` value per path.
- Concurrency: handlers run one at a time.
- Seqs.SortBy: states that the result is sorted and a permutation, not that equal keys keep their input order (stability of `Array.prototype.sort`); only the order among meetings at the same instant depends on it.
- The meeting card's counterpart (`MeetingCard.Participant`) is expected to be nobody when the manufacturer is not found. The code picks the reseller when the meeting has no `fabricanteId` field at all, because `undefined === undefined`; a `null` id gives nobody. The model keeps the two apart (`ApiTypes.Nullable`) and follows the code.
- E-mail format at registration (`Schema.ParseRegister`): the register schema derived from the insert schema has no e-mail format check. Only `loginSchema` and `profileSchema` check the format, and the model follows that.

## Findings

| source | as written | input that shows it | evidently intended | confidence | as-written member | corrected member |
|---|---|---|---|---|---|---|
| client/src/components/participant-card.tsx:18-27 | the schedule button posts a request without `status`; neither `POST /api/meeting-requests` (server/routes.ts:184-194) nor `createMeetingRequest` (server/storage.ts:324-334) applies the column default "pending" | any click on "Agendar" for any user: the stored request has no status, so `getPendingRequests` (server/storage.ts:355-359) and the requests page (client/src/pages/requests.tsx:85) never list it as pending | the request is created with the declared default status "pending" (shared/schema.ts:53) and shows up in the target's pending list | high, not executed | ParticipantCard.AsWrittenNeverPending | ParticipantCard.ScheduledRequestIsPending |
