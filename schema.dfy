/**
 * The entity records of shared/schema.ts, their insert shapes (what a caller
 * supplies; storage adds the id and the timestamps), their partial updates,
 * the declared column defaults, and the login and registration validators.
 *
 * A nullable or optional column is an `Option`; a partial update holds an
 * `Option` per field (`None`: leave the field alone), so a nullable field's
 * patch is an `Option<Option<_>>`. `Date` columns are `Instant`s.
 */
module Schema {
  import opened Wrappers

  /** A `Date`, as milliseconds since the epoch. */
  type Instant = int

  /** The patch value when the field is supplied, the current value otherwise. */
  function Override<T>(patch: Option<T>, current: T): T {
    match patch
    case Some(v) => v
    case None => current
  }

  // ----- users ---------------------------------------------------------------

  datatype User = User(
    id: int, email: string, password: string, name: string,
    company: Option<string>, phone: Option<string>, userType: string,
    profileImage: Option<string>, description: Option<string>,
    isActive: Option<bool>, createdAt: Instant)

  /** `InsertUser`: a user without `id` and `createdAt`. */
  datatype InsertUser = InsertUser(
    email: string, password: string, name: string,
    company: Option<string>, phone: Option<string>, userType: string,
    profileImage: Option<string>, description: Option<string>,
    isActive: Option<bool>)

  /** `Partial<InsertUser>`. */
  datatype UserPatch = UserPatch(
    email: Option<string>, password: Option<string>, name: Option<string>,
    company: Option<Option<string>>, phone: Option<Option<string>>, userType: Option<string>,
    profileImage: Option<Option<string>>, description: Option<Option<string>>,
    isActive: Option<Option<bool>>)

  const NoUserChange := UserPatch(None, None, None, None, None, None, None, None, None)

  /** The insert fields of a stored user. */
  function UserFields(u: User): InsertUser {
    InsertUser(u.email, u.password, u.name, u.company, u.phone, u.userType,
               u.profileImage, u.description, u.isActive)
  }

  /** `{ ...user, id, createdAt: new Date() }`. */
  function StampUser(u: InsertUser, id: int, now: Instant): (r: User)
    ensures r.id == id && r.createdAt == now
    ensures UserFields(r) == u
  {
    User(id, u.email, u.password, u.name, u.company, u.phone, u.userType,
         u.profileImage, u.description, u.isActive, now)
  }

  /** `{ ...existingUser, ...patch }`. */
  function MergeUser(u: User, p: UserPatch): (r: User)
    ensures r.id == u.id && r.createdAt == u.createdAt
    ensures p == NoUserChange ==> r == u
    ensures UserFields(r) == InsertUser(
              Override(p.email, u.email), Override(p.password, u.password), Override(p.name, u.name),
              Override(p.company, u.company), Override(p.phone, u.phone), Override(p.userType, u.userType),
              Override(p.profileImage, u.profileImage), Override(p.description, u.description),
              Override(p.isActive, u.isActive))
  {
    u.(email := Override(p.email, u.email), password := Override(p.password, u.password),
       name := Override(p.name, u.name), company := Override(p.company, u.company),
       phone := Override(p.phone, u.phone), userType := Override(p.userType, u.userType),
       profileImage := Override(p.profileImage, u.profileImage),
       description := Override(p.description, u.description),
       isActive := Override(p.isActive, u.isActive))
  }

  // ----- events --------------------------------------------------------------

  datatype Event = Event(
    id: int, name: string, description: Option<string>, startDate: Instant, endDate: Instant,
    location: Option<string>, slotDuration: Option<int>, isActive: Option<bool>, createdAt: Instant)

  datatype InsertEvent = InsertEvent(
    name: string, description: Option<string>, startDate: Instant, endDate: Instant,
    location: Option<string>, slotDuration: Option<int>, isActive: Option<bool>)

  function EventFields(e: Event): InsertEvent {
    InsertEvent(e.name, e.description, e.startDate, e.endDate, e.location, e.slotDuration, e.isActive)
  }

  function StampEvent(e: InsertEvent, id: int, now: Instant): (r: Event)
    ensures r.id == id && r.createdAt == now
    ensures EventFields(r) == e
  {
    Event(id, e.name, e.description, e.startDate, e.endDate, e.location, e.slotDuration, e.isActive, now)
  }

  // ----- meetings ------------------------------------------------------------

  datatype Meeting = Meeting(
    id: int, eventId: Option<int>, fabricanteId: Option<int>, revendedorId: Option<int>,
    scheduledAt: Instant, duration: Option<int>, location: Option<string>, status: Option<string>,
    notes: Option<string>, result: Option<string>, createdAt: Instant, updatedAt: Instant)

  datatype InsertMeeting = InsertMeeting(
    eventId: Option<int>, fabricanteId: Option<int>, revendedorId: Option<int>,
    scheduledAt: Instant, duration: Option<int>, location: Option<string>, status: Option<string>,
    notes: Option<string>, result: Option<string>)

  datatype MeetingPatch = MeetingPatch(
    eventId: Option<Option<int>>, fabricanteId: Option<Option<int>>, revendedorId: Option<Option<int>>,
    scheduledAt: Option<Instant>, duration: Option<Option<int>>, location: Option<Option<string>>,
    status: Option<Option<string>>, notes: Option<Option<string>>, result: Option<Option<string>>)

  const NoMeetingChange := MeetingPatch(None, None, None, None, None, None, None, None, None)

  function MeetingFields(m: Meeting): InsertMeeting {
    InsertMeeting(m.eventId, m.fabricanteId, m.revendedorId, m.scheduledAt, m.duration,
                  m.location, m.status, m.notes, m.result)
  }

  /** `{ ...meeting, id, createdAt: new Date(), updatedAt: new Date() }`. */
  function StampMeeting(m: InsertMeeting, id: int, now: Instant): (r: Meeting)
    ensures r.id == id && r.createdAt == now && r.updatedAt == now
    ensures MeetingFields(r) == m
  {
    Meeting(id, m.eventId, m.fabricanteId, m.revendedorId, m.scheduledAt, m.duration,
            m.location, m.status, m.notes, m.result, now, now)
  }

  /** `{ ...existingMeeting, ...patch, updatedAt: new Date() }`. */
  function MergeMeeting(m: Meeting, p: MeetingPatch, now: Instant): (r: Meeting)
    ensures r.id == m.id && r.createdAt == m.createdAt && r.updatedAt == now
    ensures p == NoMeetingChange ==> r == m.(updatedAt := now)
    ensures MeetingFields(r) == InsertMeeting(
              Override(p.eventId, m.eventId), Override(p.fabricanteId, m.fabricanteId),
              Override(p.revendedorId, m.revendedorId), Override(p.scheduledAt, m.scheduledAt),
              Override(p.duration, m.duration), Override(p.location, m.location),
              Override(p.status, m.status), Override(p.notes, m.notes), Override(p.result, m.result))
  {
    m.(eventId := Override(p.eventId, m.eventId), fabricanteId := Override(p.fabricanteId, m.fabricanteId),
       revendedorId := Override(p.revendedorId, m.revendedorId),
       scheduledAt := Override(p.scheduledAt, m.scheduledAt), duration := Override(p.duration, m.duration),
       location := Override(p.location, m.location), status := Override(p.status, m.status),
       notes := Override(p.notes, m.notes), result := Override(p.result, m.result), updatedAt := now)
  }

  // ----- meeting requests ----------------------------------------------------

  datatype MeetingRequest = MeetingRequest(
    id: int, eventId: Option<int>, requesterId: Option<int>, targetId: Option<int>,
    requestedAt: Instant, message: Option<string>, status: Option<string>,
    responseMessage: Option<string>, createdAt: Instant, updatedAt: Instant)

  datatype InsertMeetingRequest = InsertMeetingRequest(
    eventId: Option<int>, requesterId: Option<int>, targetId: Option<int>,
    requestedAt: Instant, message: Option<string>, status: Option<string>,
    responseMessage: Option<string>)

  datatype RequestPatch = RequestPatch(
    eventId: Option<Option<int>>, requesterId: Option<Option<int>>, targetId: Option<Option<int>>,
    requestedAt: Option<Instant>, message: Option<Option<string>>, status: Option<Option<string>>,
    responseMessage: Option<Option<string>>)

  const NoRequestChange := RequestPatch(None, None, None, None, None, None, None)

  function RequestFields(q: MeetingRequest): InsertMeetingRequest {
    InsertMeetingRequest(q.eventId, q.requesterId, q.targetId, q.requestedAt, q.message,
                         q.status, q.responseMessage)
  }

  function StampRequest(q: InsertMeetingRequest, id: int, now: Instant): (r: MeetingRequest)
    ensures r.id == id && r.createdAt == now && r.updatedAt == now
    ensures RequestFields(r) == q
  {
    MeetingRequest(id, q.eventId, q.requesterId, q.targetId, q.requestedAt, q.message,
                   q.status, q.responseMessage, now, now)
  }

  function MergeRequest(q: MeetingRequest, p: RequestPatch, now: Instant): (r: MeetingRequest)
    ensures r.id == q.id && r.createdAt == q.createdAt && r.updatedAt == now
    ensures p == NoRequestChange ==> r == q.(updatedAt := now)
    ensures RequestFields(r) == InsertMeetingRequest(
              Override(p.eventId, q.eventId), Override(p.requesterId, q.requesterId),
              Override(p.targetId, q.targetId), Override(p.requestedAt, q.requestedAt),
              Override(p.message, q.message), Override(p.status, q.status),
              Override(p.responseMessage, q.responseMessage))
  {
    q.(eventId := Override(p.eventId, q.eventId), requesterId := Override(p.requesterId, q.requesterId),
       targetId := Override(p.targetId, q.targetId), requestedAt := Override(p.requestedAt, q.requestedAt),
       message := Override(p.message, q.message), status := Override(p.status, q.status),
       responseMessage := Override(p.responseMessage, q.responseMessage), updatedAt := now)
  }

  // ----- notifications -------------------------------------------------------

  /** `kind` is the `type` column. */
  datatype Notification = Notification(
    id: int, userId: Option<int>, title: string, message: string, kind: string,
    isRead: Option<bool>, createdAt: Instant)

  datatype InsertNotification = InsertNotification(
    userId: Option<int>, title: string, message: string, kind: string, isRead: Option<bool>)

  function NotificationFields(n: Notification): InsertNotification {
    InsertNotification(n.userId, n.title, n.message, n.kind, n.isRead)
  }

  function StampNotification(n: InsertNotification, id: int, now: Instant): (r: Notification)
    ensures r.id == id && r.createdAt == now
    ensures NotificationFields(r) == n
  {
    Notification(id, n.userId, n.title, n.message, n.kind, n.isRead, now)
  }

  // ----- declared column defaults --------------------------------------------

  const DefaultUserActive := true
  const DefaultSlotDuration := 30
  const DefaultMeetingDuration := 30
  const DefaultMeetingStatus := "pending"
  const DefaultRequestStatus := "pending"
  const DefaultNotificationRead := false

  /**
   * What the relational table stores for an insert that leaves a defaulted
   * column out: the declared default; a supplied value is kept.
   */
  function MeetingRow(m: InsertMeeting): (r: InsertMeeting)
    ensures r.status.Some? && r.duration.Some?
    ensures m.status.None? ==> r.status == Some(DefaultMeetingStatus)
    ensures m.duration.None? ==> r.duration == Some(DefaultMeetingDuration)
    ensures r == m.(status := r.status, duration := r.duration)
    ensures m.status.Some? ==> r.status == m.status
    ensures m.duration.Some? ==> r.duration == m.duration
  {
    m.(status := Some(m.status.GetOr(DefaultMeetingStatus)),
       duration := Some(m.duration.GetOr(DefaultMeetingDuration)))
  }

  function RequestRow(q: InsertMeetingRequest): (r: InsertMeetingRequest)
    ensures r.status.Some?
    ensures r.status == if q.status.Some? then q.status else Some(DefaultRequestStatus)
    ensures r == q.(status := r.status)
  {
    q.(status := Some(q.status.GetOr(DefaultRequestStatus)))
  }

  function NotificationRow(n: InsertNotification): (r: InsertNotification)
    ensures r.isRead.Some?
    ensures r.isRead == if n.isRead.Some? then n.isRead else Some(DefaultNotificationRead)
    ensures r == n.(isRead := r.isRead)
  {
    n.(isRead := Some(n.isRead.GetOr(DefaultNotificationRead)))
  }

  function UserRow(u: InsertUser): (r: InsertUser)
    ensures r.isActive.Some?
    ensures r.isActive == if u.isActive.Some? then u.isActive else Some(DefaultUserActive)
    ensures r == u.(isActive := r.isActive)
  {
    u.(isActive := Some(u.isActive.GetOr(DefaultUserActive)))
  }

  function EventRow(e: InsertEvent): (r: InsertEvent)
    ensures r.slotDuration.Some? && r.isActive.Some?
    ensures r.slotDuration == if e.slotDuration.Some? then e.slotDuration else Some(DefaultSlotDuration)
    ensures r.isActive == if e.isActive.Some? then e.isActive else Some(DefaultUserActive)
    ensures r == e.(slotDuration := r.slotDuration, isActive := r.isActive)
  {
    e.(slotDuration := Some(e.slotDuration.GetOr(DefaultSlotDuration)),
       isActive := Some(e.isActive.GetOr(DefaultUserActive)))
  }

  /** Applying the defaults a second time changes nothing. */
  lemma RowsIdempotent(m: InsertMeeting, q: InsertMeetingRequest, n: InsertNotification, u: InsertUser, e: InsertEvent)
    ensures MeetingRow(MeetingRow(m)) == MeetingRow(m)
    ensures RequestRow(RequestRow(q)) == RequestRow(q)
    ensures NotificationRow(NotificationRow(n)) == NotificationRow(n)
    ensures UserRow(UserRow(u)) == UserRow(u)
    ensures EventRow(EventRow(e)) == EventRow(e)
  {
  }

  // ----- validators ----------------------------------------------------------

  /** A login body as received: a missing field is `None`. */
  datatype LoginInput = LoginInput(email: Option<string>, password: Option<string>)

  datatype LoginData = LoginData(email: string, password: string)

  /**
   * `loginSchema.parse`: an e-mail address the `isEmail` check accepts and a
   * non-empty password; `None` is the validation error.
   */
  function ParseLogin(input: LoginInput, isEmail: string -> bool): (r: Option<LoginData>)
    ensures r.Some? <==> input.email.Some? && isEmail(input.email.value)
                         && input.password.Some? && |input.password.value| >= 1
    ensures r.Some? ==> r.value.email == input.email.value && r.value.password == input.password.value
  {
    match (input.email, input.password)
    case (Some(e), Some(pw)) =>
      if isEmail(e) && |pw| >= 1 then Some(LoginData(e, pw)) else None
    case _ => None
  }

  /** A registration body as received: a missing (or null) field is `None`. */
  datatype RegisterInput = RegisterInput(
    email: Option<string>, password: Option<string>, name: Option<string>,
    company: Option<string>, phone: Option<string>, userType: Option<string>,
    profileImage: Option<string>, description: Option<string>, isActive: Option<bool>)

  /** An optional `varchar(n)` column: absent, or at most `n` characters. */
  predicate FitsOptional(s: Option<string>, n: nat) {
    s.None? || |s.value| <= n
  }

  /** A required `varchar(n)` column: present and at most `n` characters. */
  predicate FitsRequired(s: Option<string>, n: nat) {
    s.Some? && |s.value| <= n
  }

  /**
   * `registerSchema.parse`: the insert schema derived from the users table
   * (required `email`, `name`, `userType`; `varchar` lengths as maxima),
   * with the password replaced by "at least 6 characters". The e-mail
   * format is not checked here.
   */
  function ParseRegister(input: RegisterInput): (r: Option<InsertUser>)
    ensures r.Some? <==>
              && FitsRequired(input.email, 255) && FitsRequired(input.name, 255)
              && FitsRequired(input.userType, 50)
              && input.password.Some? && |input.password.value| >= 6
              && FitsOptional(input.company, 255) && FitsOptional(input.phone, 50)
              && FitsOptional(input.profileImage, 500)
    ensures r.Some? ==> r.value == InsertUser(
              input.email.value, input.password.value, input.name.value, input.company, input.phone,
              input.userType.value, input.profileImage, input.description, input.isActive)
  {
    if && FitsRequired(input.email, 255) && FitsRequired(input.name, 255)
       && FitsRequired(input.userType, 50)
       && input.password.Some? && |input.password.value| >= 6
       && FitsOptional(input.company, 255) && FitsOptional(input.phone, 50)
       && FitsOptional(input.profileImage, 500)
    then
      Some(InsertUser(input.email.value, input.password.value, input.name.value, input.company,
                      input.phone, input.userType.value, input.profileImage, input.description,
                      input.isActive))
    else None
  }

  /**
   * Registration's password rule is stricter than login's: whoever registered
   * with an address the login check accepts passes login validation with the
   * same credentials.
   */
  lemma RegisteredCredentialsPassLogin(input: RegisterInput, isEmail: string -> bool)
    requires ParseRegister(input).Some?
    requires isEmail(input.email.value)
    ensures ParseLogin(LoginInput(input.email, input.password), isEmail)
            == Some(LoginData(input.email.value, input.password.value))
  {
  }

  /** A password shorter than 6 characters never registers, whatever else is sent. */
  lemma ShortPasswordNeverRegisters(input: RegisterInput)
    requires input.password.Some? && |input.password.value| < 6
    ensures ParseRegister(input).None?
  {
  }
}
