/**
 * The HTTP layer of server/routes.ts: a token-to-session map beside the
 * storage, and one method per handler. Each handler returns the status code
 * and body it would send; the `try`/`catch` around a handler only matters
 * for bodies that fail validation, which the typed inputs here rule out
 * except where the source validates with a schema (login, register).
 * Session tokens come from a generator whose only promise, used here, is
 * that it returns a non-empty string not already in use.
 */
module Routes {
  import opened Wrappers
  import opened Schema
  import opened Http
  import Store
  import Storage
  import Seqs
  import Rounding

  /** A user as sent to the client: `{ ...user, password: undefined }`. */
  datatype PublicUser = PublicUser(
    id: int, email: string, name: string, company: Option<string>, phone: Option<string>,
    userType: string, profileImage: Option<string>, description: Option<string>,
    isActive: Option<bool>, createdAt: Instant)

  function Scrub(u: User): (r: PublicUser)
    ensures r.id == u.id && r.email == u.email && r.name == u.name && r.userType == u.userType
    ensures r.company == u.company && r.phone == u.phone && r.profileImage == u.profileImage
    ensures r.description == u.description && r.isActive == u.isActive && r.createdAt == u.createdAt
  {
    PublicUser(u.id, u.email, u.name, u.company, u.phone, u.userType, u.profileImage,
               u.description, u.isActive, u.createdAt)
  }

  /** Scrubbing forgets only the password: two users that differ elsewhere stay apart. */
  lemma ScrubForgetsOnlyPassword(u: User, v: User)
    ensures Scrub(u) == Scrub(v) <==> u.(password := v.password) == v
  {
  }

  function ScrubAll(us: seq<User>): (r: seq<PublicUser>)
    ensures |r| == |us| && forall i :: 0 <= i < |us| ==> r[i] == Scrub(us[i])
  {
    seq(|us|, i requires 0 <= i < |us| => Scrub(us[i]))
  }

  /** The `/api/stats` body. */
  datatype Stats = Stats(
    totalMeetings: nat, confirmedMeetings: nat, completedMeetings: nat, pendingMeetings: nat,
    attendanceRate: int)

  datatype Body =
    | Message(text: string)
    | Session(user: PublicUser, token: string)
    | OneUser(publicUser: PublicUser)
    | Users(publicUsers: seq<PublicUser>)
    | OneEvent(event: Event)
    | Events(events: seq<Event>)
    | OneMeeting(meeting: Meeting)
    | Meetings(meetings: seq<Meeting>)
    | OneRequest(request: MeetingRequest)
    | Requests(requests: seq<MeetingRequest>)
    | OneNotification(notification: Notification)
    | Notifications(notifications: seq<Notification>)
    | StatsBody(stats: Stats)

  const Unauthorized: Response<Body> := Response(401, Message("Unauthorized"))
  const Forbidden: Response<Body> := Response(403, Message("Acesso negado"))
  const InvalidData: Response<Body> := Response(400, Message("Dados inválidos"))

  function HasStatus(status: string): Meeting -> bool {
    (m: Meeting) => m.status == Some(status)
  }

  /**
   * The `/api/stats` computation over the caller's meetings: exact-status
   * counts and `attendanceRate` = round(100·completed/total), 0 when there
   * are no meetings.
   */
  function StatsOf(ms: seq<Meeting>): (r: Stats)
    ensures r.totalMeetings == |ms|
    ensures r.confirmedMeetings == Seqs.Count(ms, HasStatus("confirmed"))
    ensures r.completedMeetings == Seqs.Count(ms, HasStatus("completed"))
    ensures r.pendingMeetings == Seqs.Count(ms, HasStatus("pending"))
    ensures r.confirmedMeetings + r.completedMeetings + r.pendingMeetings <= r.totalMeetings
    ensures forall m :: m in ms && m.status == Some("confirmed") ==> r.confirmedMeetings > 0
    ensures r.totalMeetings == 0 ==> r.attendanceRate == 0
    ensures 0 <= r.attendanceRate <= 100
    ensures r.totalMeetings > 0 ==>
              -(r.totalMeetings as int) < 2 * r.totalMeetings * r.attendanceRate - 200 * r.completedMeetings
                                       <= r.totalMeetings
  {
    var confirmed, completed, pending :=
      Seqs.Count(ms, HasStatus("confirmed")), Seqs.Count(ms, HasStatus("completed")), Seqs.Count(ms, HasStatus("pending"));
    Seqs.DisjointCounts(ms, HasStatus("confirmed"), HasStatus("completed"), HasStatus("pending"));
    Stats(|ms|, confirmed, completed, pending, Rounding.Percent(completed, |ms|))
  }

  /** `req.user.id !== userId && req.user.userType !== 'admin'` is the refusal; a NaN id (`None`) is nobody's own. */
  function MayEditUser(caller: User, id: Option<int>): (r: bool)
    ensures caller.userType == "admin" ==> r
    ensures caller.userType != "admin" ==> (r <==> id == Some(caller.id))
    ensures id.None? ==> (r <==> caller.userType == "admin")
  {
    id == Some(caller.id) || caller.userType == "admin"
  }

  predicate IsAdmin(caller: User) {
    caller.userType == "admin"
  }

  class Server {
    const storage: Storage.MemStorage
    /** `sessions`: each token maps to the user as they were when the token was issued. */
    var sessions: map<string, User>

    ghost predicate Valid()
      reads this, storage
    {
      storage.Valid()
    }

    /** The server at start-up: the seeded storage and no sessions. */
    constructor(now: Instant)
      ensures Valid() && fresh(storage) && sessions == map[]
      ensures Storage.Seeded(storage.State(), now)
    {
      storage := new Storage.MemStorage(now);
      sessions := map[];
    }

    /** `requireAuth`: the user bound to the header's token, `None` for a 401. */
    function Caller(authorization: Option<string>): (r: Option<User>)
      reads this
      ensures r == Lookup(sessions, authorization)
      ensures r.Some? ==> exists t :: t in sessions && sessions[t] == r.value
    {
      Lookup(sessions, authorization)
    }

    /** Binds a fresh token to `user`, as `generateSessionId` then `sessions.set` do. */
    method Bind(user: User) returns (token: string)
      modifies this
      ensures token != "" && token !in old(sessions)
      ensures sessions == old(sessions)[token := user]
    {
      FreshTokenExists(sessions);
      token :| token != "" && token !in sessions;
      sessions := sessions[token := user];
    }

    /** `POST /api/auth/login`. */
    method Login(body: LoginInput, isEmail: string -> bool) returns (resp: Response<Body>)
      requires Valid()
      modifies this
      ensures Valid()
      ensures ParseLogin(body, isEmail).None? ==> resp == InvalidData && sessions == old(sessions)
      ensures ParseLogin(body, isEmail).Some? ==>
                var data := ParseLogin(body, isEmail).value;
                var found := Store.GetUserByEmail(storage.State(), data.email);
                && (resp.status == 200 <==> found.Some? && found.value.password == data.password)
                && (resp.status != 200 ==>
                      resp == Response(401, Message("Email ou senha inválidos")) && sessions == old(sessions))
                && (resp.status == 200 ==>
                      && resp.body.Session? && resp.body.user == Scrub(found.value)
                      && resp.body.token != "" && resp.body.token !in old(sessions)
                      && sessions == old(sessions)[resp.body.token := found.value])
    {
      var parsed := ParseLogin(body, isEmail);
      if parsed.None? {
        return InvalidData;
      }
      var data := parsed.value;
      var user := Store.GetUserByEmail(storage.State(), data.email);
      if user.None? || user.value.password != data.password {
        return Response(401, Message("Email ou senha inválidos"));
      }
      var token := Bind(user.value);
      resp := Response(200, Session(Scrub(user.value), token));
    }

    /** `POST /api/auth/register`. */
    method Register(body: RegisterInput, now: Instant) returns (resp: Response<Body>)
      requires Valid()
      modifies this, storage
      ensures Valid()
      ensures ParseRegister(body).None? ==>
                resp == InvalidData && sessions == old(sessions) && storage.State() == old(storage.State())
      ensures ParseRegister(body).Some? && Store.GetUserByEmail(old(storage.State()), body.email.value).Some? ==>
                && resp == Response(400, Message("Email já cadastrado"))
                && sessions == old(sessions) && storage.State() == old(storage.State())
      ensures ParseRegister(body).Some? && Store.GetUserByEmail(old(storage.State()), body.email.value).None? ==>
                var created := Store.CreateUser(old(storage.State()), ParseRegister(body).value, now);
                && storage.State() == created.db
                && resp.status == 200 && resp.body.Session? && resp.body.user == Scrub(created.row)
                && resp.body.token != "" && resp.body.token !in old(sessions)
                && sessions == old(sessions)[resp.body.token := created.row]
    {
      var parsed := ParseRegister(body);
      if parsed.None? {
        return InvalidData;
      }
      var existing := Store.GetUserByEmail(storage.State(), parsed.value.email);
      if existing.Some? {
        return Response(400, Message("Email já cadastrado"));
      }
      var user := storage.CreateUser(parsed.value, now);
      var token := Bind(user);
      resp := Response(200, Session(Scrub(user), token));
    }

    /** `GET /api/auth/user`: the session's snapshot of the user, not a fresh read of storage. */
    method AuthUser(authorization: Option<string>) returns (resp: Response<Body>)
      ensures Caller(authorization).None? ==> resp == Unauthorized
      ensures Caller(authorization).Some? ==> resp == Response(200, OneUser(Scrub(Caller(authorization).value)))
    {
      var caller := Caller(authorization);
      if caller.None? {
        return Unauthorized;
      }
      resp := Response(200, OneUser(Scrub(caller.value)));
    }

    /** `POST /api/auth/logout`: only the caller's token goes. */
    method Logout(authorization: Option<string>) returns (resp: Response<Body>)
      modifies this
      ensures old(Caller(authorization)).None? ==> resp == Unauthorized && sessions == old(sessions)
      ensures old(Caller(authorization)).Some? ==>
                && resp == Response(200, Message("Logout realizado com sucesso"))
                && sessions == old(sessions) - {SessionToken(authorization).value}
    {
      var caller := Caller(authorization);
      if caller.None? {
        return Unauthorized;
      }
      var token := SessionToken(authorization);
      if token.Some? {
        sessions := sessions - {token.value};
      }
      resp := Response(200, Message("Logout realizado com sucesso"));
    }

    /** `GET /api/users`. */
    method GetUsers(authorization: Option<string>) returns (resp: Response<Body>)
      requires Valid()
      ensures Caller(authorization).None? ==> resp == Unauthorized
      ensures Caller(authorization).Some? ==>
                resp == Response(200, Users(ScrubAll(Store.GetAllUsers(storage.State()))))
    {
      if Caller(authorization).None? {
        return Unauthorized;
      }
      resp := Response(200, Users(ScrubAll(Store.GetAllUsers(storage.State()))));
    }

    /** `GET /api/users/type/:type`. */
    method GetUsersByType(authorization: Option<string>, userType: string) returns (resp: Response<Body>)
      requires Valid()
      ensures Caller(authorization).None? ==> resp == Unauthorized
      ensures Caller(authorization).Some? ==>
                resp == Response(200, Users(ScrubAll(Store.GetUsersByType(storage.State(), userType))))
    {
      if Caller(authorization).None? {
        return Unauthorized;
      }
      resp := Response(200, Users(ScrubAll(Store.GetUsersByType(storage.State(), userType))));
    }

    /**
     * `PUT /api/users/:id`: 401, then 403 unless the caller is the target or
     * an admin (checked before the lookup), then 404 for an unknown id.
     * `id` is `parseInt` of the path segment, `None` for NaN.
     */
    method UpdateUser(authorization: Option<string>, id: Option<int>, patch: UserPatch)
      returns (resp: Response<Body>)
      requires Valid()
      modifies storage
      ensures Valid() && sessions == old(sessions)
      ensures Caller(authorization).None? ==> resp == Unauthorized && storage.State() == old(storage.State())
      ensures Caller(authorization).Some? && !MayEditUser(Caller(authorization).value, id) ==>
                resp == Forbidden && storage.State() == old(storage.State())
      ensures Caller(authorization).Some? && MayEditUser(Caller(authorization).value, id) ==>
                if id.None? || id.value !in old(storage.State()).users.rows then
                  resp == Response(404, Message("Usuário não encontrado")) && storage.State() == old(storage.State())
                else
                  var u := Store.UpdateUser(old(storage.State()), id.value, patch);
                  storage.State() == u.db && resp == Response(200, OneUser(Scrub(u.row.value)))
    {
      var caller := Caller(authorization);
      if caller.None? {
        return Unauthorized;
      }
      if !MayEditUser(caller.value, id) {
        return Forbidden;
      }
      if id.None? {
        return Response(404, Message("Usuário não encontrado"));
      }
      var user := storage.UpdateUser(id.value, patch);
      if user.None? {
        return Response(404, Message("Usuário não encontrado"));
      }
      resp := Response(200, OneUser(Scrub(user.value)));
    }

    /** `GET /api/events`: the active events. */
    method GetEvents(authorization: Option<string>) returns (resp: Response<Body>)
      requires Valid()
      ensures Caller(authorization).None? ==> resp == Unauthorized
      ensures Caller(authorization).Some? ==> resp == Response(200, Events(Store.GetActiveEvents(storage.State())))
    {
      if Caller(authorization).None? {
        return Unauthorized;
      }
      resp := Response(200, Events(Store.GetActiveEvents(storage.State())));
    }

    /** `POST /api/events`: admins only. */
    method CreateEvent(authorization: Option<string>, event: InsertEvent, now: Instant) returns (resp: Response<Body>)
      requires Valid()
      modifies storage
      ensures Valid()
      ensures Caller(authorization).None? ==> resp == Unauthorized && storage.State() == old(storage.State())
      ensures Caller(authorization).Some? && !IsAdmin(Caller(authorization).value) ==>
                resp == Forbidden && storage.State() == old(storage.State())
      ensures Caller(authorization).Some? && IsAdmin(Caller(authorization).value) ==>
                var c := Store.CreateEvent(old(storage.State()), event, now);
                storage.State() == c.db && resp == Response(200, OneEvent(c.row))
    {
      var caller := Caller(authorization);
      if caller.None? {
        return Unauthorized;
      }
      if !IsAdmin(caller.value) {
        return Forbidden;
      }
      var e := storage.CreateEvent(event, now);
      resp := Response(200, OneEvent(e));
    }

    /** `GET /api/meetings`: the caller's own meetings. */
    method GetMeetings(authorization: Option<string>) returns (resp: Response<Body>)
      requires Valid()
      ensures Caller(authorization).None? ==> resp == Unauthorized
      ensures Caller(authorization).Some? ==>
                resp == Response(200, Meetings(Store.GetUserMeetings(storage.State(), Caller(authorization).value.id)))
    {
      var caller := Caller(authorization);
      if caller.None? {
        return Unauthorized;
      }
      resp := Response(200, Meetings(Store.GetUserMeetings(storage.State(), caller.value.id)));
    }

    /** `GET /api/meetings/all`: admins only. */
    method GetAllMeetings(authorization: Option<string>) returns (resp: Response<Body>)
      requires Valid()
      ensures Caller(authorization).None? ==> resp == Unauthorized
      ensures Caller(authorization).Some? && !IsAdmin(Caller(authorization).value) ==> resp == Forbidden
      ensures Caller(authorization).Some? && IsAdmin(Caller(authorization).value) ==>
                resp == Response(200, Meetings(Store.GetAllMeetings(storage.State())))
    {
      var caller := Caller(authorization);
      if caller.None? {
        return Unauthorized;
      }
      if !IsAdmin(caller.value) {
        return Forbidden;
      }
      resp := Response(200, Meetings(Store.GetAllMeetings(storage.State())));
    }

    /** `POST /api/meetings`: any signed-in user. */
    method CreateMeeting(authorization: Option<string>, meeting: InsertMeeting, now: Instant)
      returns (resp: Response<Body>)
      requires Valid()
      modifies storage
      ensures Valid()
      ensures Caller(authorization).None? ==> resp == Unauthorized && storage.State() == old(storage.State())
      ensures Caller(authorization).Some? ==>
                var c := Store.CreateMeeting(old(storage.State()), meeting, now);
                storage.State() == c.db && resp == Response(200, OneMeeting(c.row))
    {
      if Caller(authorization).None? {
        return Unauthorized;
      }
      var m := storage.CreateMeeting(meeting, now);
      resp := Response(200, OneMeeting(m));
    }

    /** `PUT /api/meetings/:id`: no ownership check; 404 only for an unknown id. */
    method UpdateMeeting(authorization: Option<string>, id: Option<int>, patch: MeetingPatch, now: Instant)
      returns (resp: Response<Body>)
      requires Valid()
      modifies storage
      ensures Valid()
      ensures Caller(authorization).None? ==> resp == Unauthorized && storage.State() == old(storage.State())
      ensures Caller(authorization).Some? ==>
                if id.None? || id.value !in old(storage.State()).meetings.rows then
                  resp == Response(404, Message("Reunião não encontrada")) && storage.State() == old(storage.State())
                else
                  var u := Store.UpdateMeeting(old(storage.State()), id.value, patch, now);
                  storage.State() == u.db && resp == Response(200, OneMeeting(u.row.value))
    {
      if Caller(authorization).None? {
        return Unauthorized;
      }
      if id.None? {
        return Response(404, Message("Reunião não encontrada"));
      }
      var m := storage.UpdateMeeting(id.value, patch, now);
      if m.None? {
        return Response(404, Message("Reunião não encontrada"));
      }
      resp := Response(200, OneMeeting(m.value));
    }

    /** `GET /api/meeting-requests`: requests the caller sent or received. */
    method GetMeetingRequests(authorization: Option<string>) returns (resp: Response<Body>)
      requires Valid()
      ensures Caller(authorization).None? ==> resp == Unauthorized
      ensures Caller(authorization).Some? ==>
                resp == Response(200, Requests(Store.GetUserMeetingRequests(storage.State(), Caller(authorization).value.id)))
    {
      var caller := Caller(authorization);
      if caller.None? {
        return Unauthorized;
      }
      resp := Response(200, Requests(Store.GetUserMeetingRequests(storage.State(), caller.value.id)));
    }

    /** `GET /api/meeting-requests/pending`: pending requests addressed to the caller. */
    method GetPendingRequests(authorization: Option<string>) returns (resp: Response<Body>)
      requires Valid()
      ensures Caller(authorization).None? ==> resp == Unauthorized
      ensures Caller(authorization).Some? ==>
                resp == Response(200, Requests(Store.GetPendingRequests(storage.State(), Caller(authorization).value.id)))
    {
      var caller := Caller(authorization);
      if caller.None? {
        return Unauthorized;
      }
      resp := Response(200, Requests(Store.GetPendingRequests(storage.State(), caller.value.id)));
    }

    /** `POST /api/meeting-requests`: the requester is always the caller, whatever the body says. */
    method CreateMeetingRequest(authorization: Option<string>, request: InsertMeetingRequest, now: Instant)
      returns (resp: Response<Body>)
      requires Valid()
      modifies storage
      ensures Valid()
      ensures Caller(authorization).None? ==> resp == Unauthorized && storage.State() == old(storage.State())
      ensures Caller(authorization).Some? ==>
                var c := Store.CreateMeetingRequest(old(storage.State()),
                                                    request.(requesterId := Some(Caller(authorization).value.id)), now);
                && storage.State() == c.db && resp == Response(200, OneRequest(c.row))
                && c.row.requesterId == Some(Caller(authorization).value.id)
    {
      var caller := Caller(authorization);
      if caller.None? {
        return Unauthorized;
      }
      var q := storage.CreateMeetingRequest(request.(requesterId := Some(caller.value.id)), now);
      resp := Response(200, OneRequest(q));
    }

    /** `PUT /api/meeting-requests/:id`: no ownership check; 404 only for an unknown id. */
    method UpdateMeetingRequest(authorization: Option<string>, id: Option<int>, patch: RequestPatch, now: Instant)
      returns (resp: Response<Body>)
      requires Valid()
      modifies storage
      ensures Valid()
      ensures Caller(authorization).None? ==> resp == Unauthorized && storage.State() == old(storage.State())
      ensures Caller(authorization).Some? ==>
                if id.None? || id.value !in old(storage.State()).requests.rows then
                  resp == Response(404, Message("Solicitação não encontrada")) && storage.State() == old(storage.State())
                else
                  var u := Store.UpdateMeetingRequest(old(storage.State()), id.value, patch, now);
                  storage.State() == u.db && resp == Response(200, OneRequest(u.row.value))
    {
      if Caller(authorization).None? {
        return Unauthorized;
      }
      if id.None? {
        return Response(404, Message("Solicitação não encontrada"));
      }
      var q := storage.UpdateMeetingRequest(id.value, patch, now);
      if q.None? {
        return Response(404, Message("Solicitação não encontrada"));
      }
      resp := Response(200, OneRequest(q.value));
    }

    /** `GET /api/notifications`. */
    method GetNotifications(authorization: Option<string>) returns (resp: Response<Body>)
      requires Valid()
      ensures Caller(authorization).None? ==> resp == Unauthorized
      ensures Caller(authorization).Some? ==>
                resp == Response(200, Notifications(Store.GetUserNotifications(storage.State(), Caller(authorization).value.id)))
    {
      var caller := Caller(authorization);
      if caller.None? {
        return Unauthorized;
      }
      resp := Response(200, Notifications(Store.GetUserNotifications(storage.State(), caller.value.id)));
    }

    /** `POST /api/notifications`. */
    method CreateNotification(authorization: Option<string>, notification: InsertNotification, now: Instant)
      returns (resp: Response<Body>)
      requires Valid()
      modifies storage
      ensures Valid()
      ensures Caller(authorization).None? ==> resp == Unauthorized && storage.State() == old(storage.State())
      ensures Caller(authorization).Some? ==>
                var c := Store.CreateNotification(old(storage.State()), notification, now);
                storage.State() == c.db && resp == Response(200, OneNotification(c.row))
    {
      if Caller(authorization).None? {
        return Unauthorized;
      }
      var n := storage.CreateNotification(notification, now);
      resp := Response(200, OneNotification(n));
    }

    /** `PUT /api/notifications/:id/read`: 200 whether or not the id exists, and whoever owns it. */
    method MarkNotificationRead(authorization: Option<string>, id: Option<int>) returns (resp: Response<Body>)
      requires Valid()
      modifies storage
      ensures Valid()
      ensures Caller(authorization).None? ==> resp == Unauthorized && storage.State() == old(storage.State())
      ensures Caller(authorization).Some? ==>
                && resp == Response(200, Message("Notificação marcada como lida"))
                && storage.State() == if id.None? then old(storage.State())
                                      else Store.MarkNotificationAsRead(old(storage.State()), id.value)
    {
      if Caller(authorization).None? {
        return Unauthorized;
      }
      if id.Some? {
        storage.MarkNotificationAsRead(id.value);
      }
      resp := Response(200, Message("Notificação marcada como lida"));
    }

    /** `GET /api/stats`: aggregated over the caller's own meetings. */
    method GetStats(authorization: Option<string>) returns (resp: Response<Body>)
      requires Valid()
      ensures Caller(authorization).None? ==> resp == Unauthorized
      ensures Caller(authorization).Some? ==>
                resp == Response(200, StatsBody(StatsOf(Store.GetUserMeetings(storage.State(), Caller(authorization).value.id))))
    {
      var caller := Caller(authorization);
      if caller.None? {
        return Unauthorized;
      }
      resp := Response(200, StatsBody(StatsOf(Store.GetUserMeetings(storage.State(), caller.value.id))));
    }
  }
}
