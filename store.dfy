/**
 * The meaning of `MemStorage` (server/storage.ts) as values: five tables,
 * each a `Map<number, Record>` with its own id counter, the read-only
 * queries over them, and each create/update as a function from the old
 * tables to the new ones. The class in module Storage performs these
 * updates in place and is proved against them.
 *
 * No operation removes a row and every insertion uses the counter, which
 * then grows, so the ids present are exactly `1 .. next-1` and the insertion
 * order `Array.from(map.values())` follows is ascending id order.
 */
module Store {
  import opened Wrappers
  import opened Seqs
  import opened Schema

  /** One table: its rows by id and the id the next insertion takes. */
  datatype Table<V> = Table(rows: map<int, V>, next: int)

  ghost predicate TableValid<V>(t: Table<V>) {
    t.next >= 1 && forall k :: k in t.rows <==> 1 <= k < t.next
  }

  /** `Array.from(map.values())`. */
  function Values<V>(t: Table<V>): (r: seq<V>)
    requires TableValid(t)
    ensures |r| == t.next - 1
    ensures forall i :: 0 <= i < |r| ==> r[i] == t.rows[i + 1]
  {
    seq(t.next - 1, i requires 0 <= i < t.next - 1 && i + 1 in t.rows => t.rows[i + 1])
  }

  /** `map.get(id)`. */
  function Get<V>(t: Table<V>, id: int): (r: Option<V>)
    ensures r.Some? <==> id in t.rows
    ensures r.Some? ==> r.value == t.rows[id]
  {
    if id in t.rows then Some(t.rows[id]) else None
  }

  /** `map.set(next, v)` with the counter moved on. */
  function Add<V>(t: Table<V>, v: V): (r: Table<V>)
    ensures r.next == t.next + 1 && t.next in r.rows && r.rows[t.next] == v
    ensures forall k :: k in t.rows && k != t.next ==> k in r.rows && r.rows[k] == t.rows[k]
    ensures TableValid(t) ==> TableValid(r) && Values(r) == Values(t) + [v]
  {
    Table(t.rows[t.next := v], t.next + 1)
  }

  /** `map.set(k, v)` on a key already present: the key keeps its place. */
  function Put<V>(t: Table<V>, k: int, v: V): (r: Table<V>)
    requires k in t.rows
    ensures r.next == t.next && r.rows.Keys == t.rows.Keys && r.rows[k] == v
    ensures forall j :: j in t.rows && j != k ==> r.rows[j] == t.rows[j]
    ensures TableValid(t) ==> TableValid(r) && Values(r) == Values(t)[k - 1 := v]
  {
    Table(t.rows[k := v], t.next)
  }

  /** The whole store. */
  datatype Db = Db(
    users: Table<User>, events: Table<Event>, meetings: Table<Meeting>,
    requests: Table<MeetingRequest>, notifications: Table<Notification>)

  /** Every table is gap-free and every row carries the id it is stored under. */
  ghost predicate DbValid(d: Db) {
    && TableValid(d.users) && TableValid(d.events) && TableValid(d.meetings)
    && TableValid(d.requests) && TableValid(d.notifications)
    && (forall k :: k in d.users.rows ==> d.users.rows[k].id == k)
    && (forall k :: k in d.events.rows ==> d.events.rows[k].id == k)
    && (forall k :: k in d.meetings.rows ==> d.meetings.rows[k].id == k)
    && (forall k :: k in d.requests.rows ==> d.requests.rows[k].id == k)
    && (forall k :: k in d.notifications.rows ==> d.notifications.rows[k].id == k)
  }

  /** The store a fresh `MemStorage` starts from, before its seed data. */
  const EmptyDb := Db(Table(map[], 1), Table(map[], 1), Table(map[], 1), Table(map[], 1), Table(map[], 1))

  function UserId(u: User): int { u.id }
  function EventId(e: Event): int { e.id }
  function MeetingId(m: Meeting): int { m.id }
  function RequestId(q: MeetingRequest): int { q.id }
  function NotificationId(n: Notification): int { n.id }

  // ----- users ---------------------------------------------------------------

  /** `getAllUsers`: every user, in the order they were created. */
  function GetAllUsers(d: Db): (r: seq<User>)
    requires DbValid(d)
    ensures |r| == d.users.next - 1
    ensures forall i :: 0 <= i < |r| ==> r[i].id == i + 1
    ensures StrictlyIncreasing(r, UserId)
  {
    Values(d.users)
  }

  /** `getUser`: the user stored under `id`, `None` for an id never handed out. */
  function GetUser(d: Db, id: int): (r: Option<User>)
    requires DbValid(d)
    ensures r.Some? <==> 1 <= id < d.users.next
    ensures r.Some? ==> r.value.id == id && r.value == GetAllUsers(d)[id - 1]
  {
    Get(d.users, id)
  }

  function HasEmail(email: string): User -> bool {
    (u: User) => u.email == email
  }

  /** `getUserByEmail`: the earliest-created user with that address. */
  function GetUserByEmail(d: Db, email: string): (r: Option<User>)
    requires DbValid(d)
    ensures r.None? <==> forall u :: u in GetAllUsers(d) ==> u.email != email
    ensures r.Some? ==> r.value in GetAllUsers(d) && r.value.email == email
    ensures r.Some? ==> forall k :: 1 <= k < r.value.id ==> d.users.rows[k].email != email
  {
    FirstByEmail(d, email);
    Find(GetAllUsers(d), HasEmail(email))
  }

  /** No user created before the one `find` picks has the address. */
  lemma FirstByEmail(d: Db, email: string)
    requires DbValid(d)
    ensures var r := Find(GetAllUsers(d), HasEmail(email));
            r.Some? ==> forall k :: 1 <= k < r.value.id ==> d.users.rows[k].email != email
  {
    var all := GetAllUsers(d);
    var r := Find(all, HasEmail(email));
    if r.Some? {
      FindPosition(all, HasEmail(email));
      var i :| FirstMatchAt(all, HasEmail(email), i) && all[i] == r.value;
      forall k | 1 <= k < r.value.id ensures d.users.rows[k].email != email {
        assert all[k - 1] == d.users.rows[k];
      }
    }
  }

  function OfType(userType: string): User -> bool {
    (u: User) => u.userType == userType
  }

  /** `getUsersByType`. */
  function GetUsersByType(d: Db, userType: string): (r: seq<User>)
    requires DbValid(d)
    ensures forall u :: u in r <==> u in GetAllUsers(d) && u.userType == userType
    ensures StrictlyIncreasing(r, UserId)
  {
    FilterStrictlyIncreasing(GetAllUsers(d), OfType(userType), UserId);
    Filter(GetAllUsers(d), OfType(userType))
  }

  /** `createUser`: stamps the next user id and the clock; the email is not checked for duplicates. */
  function CreateUser(d: Db, u: InsertUser, now: Instant): (r: Created<User>)
    ensures r.row == StampUser(u, d.users.next, now)
    ensures r.row.id == d.users.next && r.row.createdAt == now && UserFields(r.row) == u
    ensures r.db == d.(users := r.db.users) && r.db.users.next == d.users.next + 1
    ensures r.db.users.rows == d.users.rows[d.users.next := r.row]
    ensures DbValid(d) ==> && DbValid(r.db) && r.row.id !in d.users.rows
                           && GetAllUsers(r.db) == GetAllUsers(d) + [r.row]
                           && GetUser(r.db, r.row.id) == Some(r.row)
  {
    var row := StampUser(u, d.users.next, now);
    Created(d.(users := Add(d.users, row)), row)
  }

  /** `updateUser`: `None` and no change for an unknown id; otherwise the merged user replaces the old one in place. */
  function UpdateUser(d: Db, id: int, p: UserPatch): (r: Updated<User>)
    ensures r.row.None? <==> id !in d.users.rows
    ensures r.row.None? ==> r.db == d
    ensures r.row.Some? ==> r.row.value == MergeUser(d.users.rows[id], p)
    ensures r.db == d.(users := r.db.users) && r.db.users.next == d.users.next
    ensures DbValid(d) && r.row.Some? ==>
              && DbValid(r.db) && GetAllUsers(r.db) == GetAllUsers(d)[id - 1 := r.row.value]
              && GetUser(r.db, id) == r.row
  {
    match Get(d.users, id)
    case None => Updated(d, None)
    case Some(existing) =>
      var row := MergeUser(existing, p);
      Updated(d.(users := Put(d.users, id, row)), Some(row))
  }

  // ----- events --------------------------------------------------------------

  /** `getAllEvents`. */
  function GetAllEvents(d: Db): (r: seq<Event>)
    requires DbValid(d)
    ensures |r| == d.events.next - 1
    ensures forall i :: 0 <= i < |r| ==> r[i].id == i + 1
    ensures StrictlyIncreasing(r, EventId)
  {
    Values(d.events)
  }

  /** `getEvent`. */
  function GetEvent(d: Db, id: int): (r: Option<Event>)
    requires DbValid(d)
    ensures r.Some? <==> 1 <= id < d.events.next
    ensures r.Some? ==> r.value.id == id && r.value == GetAllEvents(d)[id - 1]
  {
    Get(d.events, id)
  }

  function IsActiveEvent(e: Event): bool {
    e.isActive == Some(true)
  }

  /** `getActiveEvents`: the events whose `isActive` is truthy. */
  function GetActiveEvents(d: Db): (r: seq<Event>)
    requires DbValid(d)
    ensures forall e :: e in r <==> e in GetAllEvents(d) && e.isActive == Some(true)
    ensures StrictlyIncreasing(r, EventId)
  {
    FilterStrictlyIncreasing(GetAllEvents(d), IsActiveEvent, EventId);
    Filter(GetAllEvents(d), IsActiveEvent)
  }

  /** `createEvent`. */
  function CreateEvent(d: Db, e: InsertEvent, now: Instant): (r: Created<Event>)
    ensures r.row == StampEvent(e, d.events.next, now)
    ensures r.row.id == d.events.next && r.row.createdAt == now && EventFields(r.row) == e
    ensures r.db == d.(events := r.db.events) && r.db.events.next == d.events.next + 1
    ensures r.db.events.rows == d.events.rows[d.events.next := r.row]
    ensures DbValid(d) ==> && DbValid(r.db) && r.row.id !in d.events.rows
                           && GetAllEvents(r.db) == GetAllEvents(d) + [r.row]
                           && GetEvent(r.db, r.row.id) == Some(r.row)
  {
    var row := StampEvent(e, d.events.next, now);
    Created(d.(events := Add(d.events, row)), row)
  }

  // ----- meetings ------------------------------------------------------------

  /** `getAllMeetings`. */
  function GetAllMeetings(d: Db): (r: seq<Meeting>)
    requires DbValid(d)
    ensures |r| == d.meetings.next - 1
    ensures forall i :: 0 <= i < |r| ==> r[i].id == i + 1
    ensures StrictlyIncreasing(r, MeetingId)
  {
    Values(d.meetings)
  }

  /** `getMeeting`. */
  function GetMeeting(d: Db, id: int): (r: Option<Meeting>)
    requires DbValid(d)
    ensures r.Some? <==> 1 <= id < d.meetings.next
    ensures r.Some? ==> r.value.id == id && r.value == GetAllMeetings(d)[id - 1]
  {
    Get(d.meetings, id)
  }

  /** The user takes part in the meeting, on either side. */
  function Involves(userId: int): Meeting -> bool {
    (m: Meeting) => m.fabricanteId == Some(userId) || m.revendedorId == Some(userId)
  }

  /** `getUserMeetings`: the meetings with the user as fabricante or revendedor, in creation order. */
  function GetUserMeetings(d: Db, userId: int): (r: seq<Meeting>)
    requires DbValid(d)
    ensures forall m :: m in r <==> m in GetAllMeetings(d) &&
                                    (m.fabricanteId == Some(userId) || m.revendedorId == Some(userId))
    ensures StrictlyIncreasing(r, MeetingId)
  {
    FilterStrictlyIncreasing(GetAllMeetings(d), Involves(userId), MeetingId);
    Filter(GetAllMeetings(d), Involves(userId))
  }

  function AtEvent(eventId: int): Meeting -> bool {
    (m: Meeting) => m.eventId == Some(eventId)
  }

  /** `getEventMeetings`. */
  function GetEventMeetings(d: Db, eventId: int): (r: seq<Meeting>)
    requires DbValid(d)
    ensures forall m :: m in r <==> m in GetAllMeetings(d) && m.eventId == Some(eventId)
    ensures StrictlyIncreasing(r, MeetingId)
  {
    FilterStrictlyIncreasing(GetAllMeetings(d), AtEvent(eventId), MeetingId);
    Filter(GetAllMeetings(d), AtEvent(eventId))
  }

  /** `createMeeting`: `createdAt` and `updatedAt` are both the clock. */
  function CreateMeeting(d: Db, m: InsertMeeting, now: Instant): (r: Created<Meeting>)
    ensures r.row == StampMeeting(m, d.meetings.next, now)
    ensures r.row.id == d.meetings.next && r.row.createdAt == now && r.row.updatedAt == now
    ensures MeetingFields(r.row) == m
    ensures r.db == d.(meetings := r.db.meetings) && r.db.meetings.next == d.meetings.next + 1
    ensures r.db.meetings.rows == d.meetings.rows[d.meetings.next := r.row]
    ensures DbValid(d) ==> && DbValid(r.db) && r.row.id !in d.meetings.rows
                           && GetAllMeetings(r.db) == GetAllMeetings(d) + [r.row]
                           && GetMeeting(r.db, r.row.id) == Some(r.row)
  {
    var row := StampMeeting(m, d.meetings.next, now);
    Created(d.(meetings := Add(d.meetings, row)), row)
  }

  /** `updateMeeting`: as `updateUser`, and `updatedAt` becomes the clock. */
  function UpdateMeeting(d: Db, id: int, p: MeetingPatch, now: Instant): (r: Updated<Meeting>)
    ensures r.row.None? <==> id !in d.meetings.rows
    ensures r.row.None? ==> r.db == d
    ensures r.row.Some? ==> r.row.value == MergeMeeting(d.meetings.rows[id], p, now)
    ensures r.db == d.(meetings := r.db.meetings) && r.db.meetings.next == d.meetings.next
    ensures DbValid(d) && r.row.Some? ==>
              && DbValid(r.db) && GetAllMeetings(r.db) == GetAllMeetings(d)[id - 1 := r.row.value]
              && GetMeeting(r.db, id) == r.row
  {
    match Get(d.meetings, id)
    case None => Updated(d, None)
    case Some(existing) =>
      var row := MergeMeeting(existing, p, now);
      Updated(d.(meetings := Put(d.meetings, id, row)), Some(row))
  }

  // ----- meeting requests ----------------------------------------------------

  /** All requests, in creation order. */
  function GetAllRequests(d: Db): (r: seq<MeetingRequest>)
    requires DbValid(d)
    ensures |r| == d.requests.next - 1
    ensures forall i :: 0 <= i < |r| ==> r[i].id == i + 1
    ensures StrictlyIncreasing(r, RequestId)
  {
    Values(d.requests)
  }

  /** `getMeetingRequest`. */
  function GetMeetingRequest(d: Db, id: int): (r: Option<MeetingRequest>)
    requires DbValid(d)
    ensures r.Some? <==> 1 <= id < d.requests.next
    ensures r.Some? ==> r.value.id == id && r.value == GetAllRequests(d)[id - 1]
  {
    Get(d.requests, id)
  }

  function SentOrReceived(userId: int): MeetingRequest -> bool {
    (q: MeetingRequest) => q.requesterId == Some(userId) || q.targetId == Some(userId)
  }

  /** `getUserMeetingRequests`: the requests the user sent or received. */
  function GetUserMeetingRequests(d: Db, userId: int): (r: seq<MeetingRequest>)
    requires DbValid(d)
    ensures forall q :: q in r <==> q in GetAllRequests(d) &&
                                    (q.requesterId == Some(userId) || q.targetId == Some(userId))
    ensures StrictlyIncreasing(r, RequestId)
  {
    FilterStrictlyIncreasing(GetAllRequests(d), SentOrReceived(userId), RequestId);
    Filter(GetAllRequests(d), SentOrReceived(userId))
  }

  function PendingFor(userId: int): MeetingRequest -> bool {
    (q: MeetingRequest) => q.targetId == Some(userId) && q.status == Some("pending")
  }

  /** `getPendingRequests`: the requests addressed to the user that are still "pending". */
  function GetPendingRequests(d: Db, userId: int): (r: seq<MeetingRequest>)
    requires DbValid(d)
    ensures forall q :: q in r <==> q in GetAllRequests(d) &&
                                    q.targetId == Some(userId) && q.status == Some("pending")
    ensures StrictlyIncreasing(r, RequestId)
  {
    FilterStrictlyIncreasing(GetAllRequests(d), PendingFor(userId), RequestId);
    Filter(GetAllRequests(d), PendingFor(userId))
  }

  /** The pending requests are the user's requests narrowed to pending ones addressed to them. */
  lemma PendingWithinUserRequests(d: Db, userId: int)
    requires DbValid(d)
    ensures GetPendingRequests(d, userId) == Filter(GetUserMeetingRequests(d, userId), PendingFor(userId))
    ensures IsSubsequence(GetPendingRequests(d, userId), GetUserMeetingRequests(d, userId))
  {
    FilterOfFilter(GetAllRequests(d), SentOrReceived(userId), PendingFor(userId));
    FilterIsSubsequence(GetUserMeetingRequests(d, userId), PendingFor(userId));
  }

  /** `createMeetingRequest`. */
  function CreateMeetingRequest(d: Db, q: InsertMeetingRequest, now: Instant): (r: Created<MeetingRequest>)
    ensures r.row == StampRequest(q, d.requests.next, now)
    ensures r.row.id == d.requests.next && r.row.createdAt == now && r.row.updatedAt == now
    ensures RequestFields(r.row) == q
    ensures r.db == d.(requests := r.db.requests) && r.db.requests.next == d.requests.next + 1
    ensures r.db.requests.rows == d.requests.rows[d.requests.next := r.row]
    ensures DbValid(d) ==> && DbValid(r.db) && r.row.id !in d.requests.rows
                           && GetAllRequests(r.db) == GetAllRequests(d) + [r.row]
                           && GetMeetingRequest(r.db, r.row.id) == Some(r.row)
  {
    var row := StampRequest(q, d.requests.next, now);
    Created(d.(requests := Add(d.requests, row)), row)
  }

  /** `updateMeetingRequest`. */
  function UpdateMeetingRequest(d: Db, id: int, p: RequestPatch, now: Instant): (r: Updated<MeetingRequest>)
    ensures r.row.None? <==> id !in d.requests.rows
    ensures r.row.None? ==> r.db == d
    ensures r.row.Some? ==> r.row.value == MergeRequest(d.requests.rows[id], p, now)
    ensures r.db == d.(requests := r.db.requests) && r.db.requests.next == d.requests.next
    ensures DbValid(d) && r.row.Some? ==>
              && DbValid(r.db) && GetAllRequests(r.db) == GetAllRequests(d)[id - 1 := r.row.value]
              && GetMeetingRequest(r.db, id) == r.row
  {
    match Get(d.requests, id)
    case None => Updated(d, None)
    case Some(existing) =>
      var row := MergeRequest(existing, p, now);
      Updated(d.(requests := Put(d.requests, id, row)), Some(row))
  }

  // ----- notifications -------------------------------------------------------

  /** All notifications, in creation order. */
  function GetAllNotifications(d: Db): (r: seq<Notification>)
    requires DbValid(d)
    ensures |r| == d.notifications.next - 1
    ensures forall i :: 0 <= i < |r| ==> r[i].id == i + 1
    ensures StrictlyIncreasing(r, NotificationId)
  {
    Values(d.notifications)
  }

  function AddressedTo(userId: int): Notification -> bool {
    (n: Notification) => n.userId == Some(userId)
  }

  /** `getUserNotifications`. */
  function GetUserNotifications(d: Db, userId: int): (r: seq<Notification>)
    requires DbValid(d)
    ensures forall n :: n in r <==> n in GetAllNotifications(d) && n.userId == Some(userId)
    ensures StrictlyIncreasing(r, NotificationId)
  {
    FilterStrictlyIncreasing(GetAllNotifications(d), AddressedTo(userId), NotificationId);
    Filter(GetAllNotifications(d), AddressedTo(userId))
  }

  /** `createNotification`. */
  function CreateNotification(d: Db, n: InsertNotification, now: Instant): (r: Created<Notification>)
    ensures r.row == StampNotification(n, d.notifications.next, now)
    ensures r.row.id == d.notifications.next && r.row.createdAt == now && NotificationFields(r.row) == n
    ensures r.db == d.(notifications := r.db.notifications)
    ensures r.db.notifications.rows == d.notifications.rows[d.notifications.next := r.row]
    ensures r.db.notifications.next == d.notifications.next + 1
    ensures DbValid(d) ==> && DbValid(r.db) && r.row.id !in d.notifications.rows
                           && GetAllNotifications(r.db) == GetAllNotifications(d) + [r.row]
  {
    var row := StampNotification(n, d.notifications.next, now);
    Created(d.(notifications := Add(d.notifications, row)), row)
  }

  /** `markNotificationAsRead`: sets `isRead` on a known id; an unknown id changes nothing. */
  function MarkNotificationAsRead(d: Db, id: int): (r: Db)
    ensures id !in d.notifications.rows ==> r == d
    ensures r == d.(notifications := r.notifications) && r.notifications.next == d.notifications.next
    ensures r.notifications.rows.Keys == d.notifications.rows.Keys
    ensures forall k :: k in d.notifications.rows ==>
              r.notifications.rows[k] ==
                if k == id then d.notifications.rows[k].(isRead := Some(true)) else d.notifications.rows[k]
    ensures DbValid(d) ==> DbValid(r)
  {
    match Get(d.notifications, id)
    case None => d
    case Some(n) => d.(notifications := Put(d.notifications, id, n.(isRead := Some(true))))
  }

  /** Marking a notification read a second time changes nothing more. */
  lemma MarkReadIdempotent(d: Db, id: int)
    ensures MarkNotificationAsRead(MarkNotificationAsRead(d, id), id) == MarkNotificationAsRead(d, id)
  {
    var once := MarkNotificationAsRead(d, id);
    if id in d.notifications.rows {
      assert once.notifications.rows[id := once.notifications.rows[id].(isRead := Some(true))]
             == once.notifications.rows;
    }
  }

  // ----- results of the mutations -------------------------------------------

  /** The store after a create, and the row created. */
  datatype Created<V> = Created(db: Db, row: V)

  /** The store after an update, and the updated row (`None`: unknown id). */
  datatype Updated<V> = Updated(db: Db, row: Option<V>)

  // ----- email uniqueness is not enforced -----------------------------------

  /**
   * `createUser` with an address that is already taken still succeeds; from
   * then on two users share the address and `getUserByEmail` keeps finding
   * the earlier one.
   */
  lemma DuplicateEmailKeepsFirst(d: Db, u: InsertUser, now: Instant)
    requires DbValid(d)
    requires GetUserByEmail(d, u.email).Some?
    ensures var after := CreateUser(d, u, now).db;
            && GetUserByEmail(after, u.email) == GetUserByEmail(d, u.email)
            && Count(GetAllUsers(after), HasEmail(u.email)) >= 2
  {
    var c := CreateUser(d, u, now);
    FindAppend(GetAllUsers(d), [c.row], HasEmail(u.email));
    FilterAppend(GetAllUsers(d), [c.row], HasEmail(u.email));
    var found := GetUserByEmail(d, u.email).value;
    assert found in Filter(GetAllUsers(d), HasEmail(u.email));
  }
}
