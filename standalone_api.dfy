/**
 * The self-contained handler set of api/index.ts: a list of mock users that
 * registration appends to, its own token-to-session map, a CORS step that
 * answers every `OPTIONS` request itself, and fixed data for stats,
 * meetings and events. Validation reuses `loginSchema` and
 * `registerSchema` from module Schema.
 */
module StandaloneApi {
  import opened Wrappers
  import opened Schema
  import opened Http
  import Seqs

  /** The shape of an entry of `mockUsers`. */
  datatype MockUser = MockUser(
    id: int, email: string, password: string, name: string, company: string, phone: string,
    userType: string, description: string, isActive: bool, createdAt: Instant)

  /** A mock user as sent back: the password removed. */
  datatype PublicMockUser = PublicMockUser(
    id: int, email: string, name: string, company: string, phone: string,
    userType: string, description: string, isActive: bool, createdAt: Instant)

  function Scrub(u: MockUser): (r: PublicMockUser)
    ensures r.id == u.id && r.email == u.email && r.name == u.name && r.userType == u.userType
    ensures r.company == u.company && r.phone == u.phone && r.description == u.description
    ensures r.isActive == u.isActive && r.createdAt == u.createdAt
  {
    PublicMockUser(u.id, u.email, u.name, u.company, u.phone, u.userType, u.description, u.isActive, u.createdAt)
  }

  function ScrubAll(us: seq<MockUser>): (r: seq<PublicMockUser>)
    ensures |r| == |us| && forall i :: 0 <= i < |us| ==> r[i] == Scrub(us[i])
  {
    seq(|us|, i requires 0 <= i < |us| => Scrub(us[i]))
  }

  /** The two users the module starts with; `createdAt` is the start-up instant. */
  function InitialUsers(now: Instant): (r: seq<MockUser>)
    ensures |r| == 2 && NumberedInOrder(r)
    ensures r[0].userType == "admin" && r[1].userType == "fabricante"
    ensures forall u :: u in r ==> u.isActive && u.password == "123456" && u.createdAt == now
  {
    [ MockUser(1, "admin@agis.com", "123456", "Administrador", "Agis Eventos", "(11) 5555-5555",
               "admin", "Administração da plataforma", true, now),
      MockUser(2, "joao@industriaabc.com", "123456", "João Silva", "Indústria ABC", "(11) 9999-9999",
               "fabricante", "Fabricação de componentes eletrônicos", true, now) ]
  }

  /** The fixed `/api/stats` body. */
  datatype Stats = Stats(
    totalMeetings: nat, confirmedMeetings: nat, completedMeetings: nat, pendingMeetings: nat,
    attendanceRate: int)

  const FixedStats := Stats(5, 3, 2, 2, 80)

  /** The one meeting `/api/meetings` always returns, scheduled two hours after the request. */
  datatype FixedMeeting = FixedMeeting(
    id: int, eventId: int, fabricanteId: int, revendedorId: int, scheduledAt: Instant,
    duration: int, location: string, status: string, notes: string)

  /** The one event `/api/events` always returns. */
  datatype FixedEvent = FixedEvent(
    id: int, name: string, description: string, startDate: Instant, endDate: Instant,
    location: string, isActive: bool)

  const Hour := 60 * 60 * 1000

  function MeetingsAt(now: Instant): seq<FixedMeeting> {
    [FixedMeeting(1, 1, 1, 2, now + 2 * Hour, 30, "Mesa 15", "confirmed", "Discussão sobre novos produtos")]
  }

  function EventsAt(now: Instant): seq<FixedEvent> {
    [FixedEvent(1, "Feira de Negócios 2024", "Evento de networking B2B", now, now + 7 * 24 * Hour,
                "Centro de Convenções São Paulo", true)]
  }

  datatype Body =
    | Empty
    | Message(text: string)
    | Session(user: PublicMockUser, token: string)
    | OneUser(publicUser: PublicMockUser)
    | Users(publicUsers: seq<PublicMockUser>)
    | StatsBody(stats: Stats)
    | Meetings(meetings: seq<FixedMeeting>)
    | Events(events: seq<FixedEvent>)

  const Unauthorized: Response<Body> := Response(401, Message("Unauthorized"))
  const InvalidData: Response<Body> := Response(400, Message("Dados inválidos"))

  /** The routes the module defines; anything else falls through to Express's 404. */
  datatype Route =
    | Health | Login(login: LoginInput) | Register(register: RegisterInput) | AuthUser | Logout
    | ListUsers | GetStats | ListMeetings | ListEvents | Unknown

  datatype Request = Request(verb: string, route: Route, authorization: Option<string>)

  function WithEmail(email: string): MockUser -> bool {
    (u: MockUser) => u.email == email
  }

  /**
   * `userData.x || "fallback"`: a missing value and the empty string both
   * take the fallback.
   */
  function OrDefault(s: Option<string>, fallback: string): (r: string)
    ensures s.Some? && s.value != "" ==> r == s.value
    ensures s.None? || s.value == "" ==> r == fallback
  {
    if s.Some? && s.value != "" then s.value else fallback
  }

  /** The user `register` builds from a validated body, with id `mockUsers.length + 1`. */
  function NewUser(data: InsertUser, count: nat, now: Instant): (r: MockUser)
    ensures r.id == count + 1 && r.isActive && r.createdAt == now
    ensures r.email == data.email && r.password == data.password && r.name == data.name
    ensures r.userType == data.userType
    ensures r.company == OrDefault(data.company, "Empresa não informada")
    ensures r.phone == OrDefault(data.phone, "(00) 0000-0000")
    ensures r.description == OrDefault(data.description, "Descrição não informada")
  {
    MockUser(count + 1, data.email, data.password, data.name,
             OrDefault(data.company, "Empresa não informada"),
             OrDefault(data.phone, "(00) 0000-0000"),
             data.userType,
             OrDefault(data.description, "Descrição não informada"),
             true, now)
  }

  /** The mock users carry the ids 1, 2, ..., in order. */
  ghost predicate NumberedInOrder(us: seq<MockUser>) {
    forall i :: 0 <= i < |us| ==> us[i].id == i + 1
  }

  /** Ids numbered in order are distinct. */
  lemma NumberedIdsDistinct(us: seq<MockUser>, i: int, j: int)
    requires NumberedInOrder(us)
    requires 0 <= i < |us| && 0 <= j < |us| && i != j
    ensures us[i].id != us[j].id
  {
  }

  class StandaloneApp {
    /** `mockUsers`. */
    var users: seq<MockUser>
    /** `sessions`: each token maps to the mock user as they were when it was issued. */
    var sessions: map<string, MockUser>

    ghost predicate Valid()
      reads this
    {
      NumberedInOrder(users)
    }

    constructor(now: Instant)
      ensures Valid() && users == InitialUsers(now) && sessions == map[]
    {
      users := InitialUsers(now);
      sessions := map[];
    }

    function Caller(authorization: Option<string>): (r: Option<MockUser>)
      reads this
      ensures r == Lookup(sessions, authorization)
    {
      Lookup(sessions, authorization)
    }

    /** `mockUsers.find(u => u.email === email)`. */
    function FindUser(email: string): (r: Option<MockUser>)
      reads this
      ensures r.None? <==> forall u :: u in users ==> u.email != email
      ensures r.Some? ==> r.value in users && r.value.email == email
    {
      Seqs.Find(users, WithEmail(email))
    }

    method Bind(user: MockUser) returns (token: string)
      modifies this
      ensures token != "" && token !in old(sessions)
      ensures sessions == old(sessions)[token := user] && users == old(users)
    {
      FreshTokenExists(sessions);
      token :| token != "" && token !in sessions;
      sessions := sessions[token := user];
    }

    /**
     * The whole app for one request: the CORS middleware answers `OPTIONS`
     * with 200 before any route runs; then the matching route, or 404.
     */
    method Handle(req: Request, isEmail: string -> bool, now: Instant) returns (resp: Response<Body>)
      requires Valid()
      modifies this
      ensures Valid()
      ensures req.verb == "OPTIONS" ==> resp == Response(200, Empty) && users == old(users) && sessions == old(sessions)
      ensures req.verb != "OPTIONS" && req.route.Unknown? ==> resp.status == 404 && users == old(users) && sessions == old(sessions)
      ensures req.verb != "OPTIONS" && req.route.Health? ==>
                resp == Response(200, Message("OK")) && users == old(users) && sessions == old(sessions)
      ensures req.verb != "OPTIONS" && req.route.Login? ==>
                var parsed := ParseLogin(req.route.login, isEmail);
                && users == old(users)
                && (parsed.None? ==> resp == InvalidData && sessions == old(sessions))
                && (parsed.Some? ==>
                      var found := old(FindUser(parsed.value.email));
                      && (resp.status == 200 <==> found.Some? && found.value.password == parsed.value.password)
                      && (resp.status != 200 ==>
                            resp == Response(401, Message("Email ou senha inválidos")) && sessions == old(sessions))
                      && (resp.status == 200 ==>
                            && resp.body.Session? && resp.body.user == Scrub(found.value)
                            && resp.body.token != "" && resp.body.token !in old(sessions)
                            && sessions == old(sessions)[resp.body.token := found.value]))
      ensures req.verb != "OPTIONS" && req.route.Register? ==>
                var body := req.route.register;
                && (ParseRegister(body).None? ==> resp == InvalidData && users == old(users) && sessions == old(sessions))
                && (ParseRegister(body).Some? && old(FindUser(body.email.value)).Some? ==>
                      && resp == Response(400, Message("Email já cadastrado"))
                      && users == old(users) && sessions == old(sessions))
                && (ParseRegister(body).Some? && old(FindUser(body.email.value)).None? ==>
                      var added := NewUser(ParseRegister(body).value, |old(users)|, now);
                      && users == old(users) + [added]
                      && resp.status == 200 && resp.body.Session? && resp.body.user == Scrub(added)
                      && resp.body.token != "" && resp.body.token !in old(sessions)
                      && sessions == old(sessions)[resp.body.token := added])
      ensures req.verb != "OPTIONS" && req.route.Logout? ==>
                && users == old(users)
                && (old(Caller(req.authorization)).None? ==> resp == Unauthorized && sessions == old(sessions))
                && (old(Caller(req.authorization)).Some? ==>
                      && resp == Response(200, Message("Logout realizado com sucesso"))
                      && sessions == old(sessions) - {SessionToken(req.authorization).value})
      ensures req.verb != "OPTIONS" && (req.route.AuthUser? || req.route.ListUsers? || req.route.GetStats?
                                        || req.route.ListMeetings? || req.route.ListEvents?) ==>
                && users == old(users) && sessions == old(sessions)
                && (old(Caller(req.authorization)).None? ==> resp == Unauthorized)
      ensures req.verb != "OPTIONS" && old(Caller(req.authorization)).Some? ==>
                var caller := old(Caller(req.authorization)).value;
                && (req.route.AuthUser? ==> resp == Response(200, OneUser(Scrub(caller))))
                && (req.route.ListUsers? ==> resp == Response(200, Users(ScrubAll(old(users)))))
                && (req.route.GetStats? ==> resp == Response(200, StatsBody(FixedStats)))
                && (req.route.ListMeetings? ==> resp == Response(200, Meetings(MeetingsAt(now))))
                && (req.route.ListEvents? ==> resp == Response(200, Events(EventsAt(now))))
    {
      if req.verb == "OPTIONS" {
        return Response(200, Empty);
      }
      match req.route
      case Health => resp := Response(200, Message("OK"));
      case Login(body) => resp := Login(body, isEmail);
      case Register(body) => resp := Register(body, now);
      case AuthUser => resp := AuthUser(req.authorization);
      case Logout => resp := Logout(req.authorization);
      case ListUsers => resp := ListUsers(req.authorization);
      case GetStats => resp := GetStats(req.authorization);
      case ListMeetings => resp := ListMeetings(req.authorization, now);
      case ListEvents => resp := ListEvents(req.authorization, now);
      case Unknown => resp := Response(404, Empty);
    }

    /** `POST /api/auth/login`: the first mock user with the address, and an equal password. */
    method Login(body: LoginInput, isEmail: string -> bool) returns (resp: Response<Body>)
      requires Valid()
      modifies this
      ensures Valid() && users == old(users)
      ensures ParseLogin(body, isEmail).None? ==> resp == InvalidData && sessions == old(sessions)
      ensures ParseLogin(body, isEmail).Some? ==>
                var data := ParseLogin(body, isEmail).value;
                var found := FindUser(data.email);
                && (resp.status == 200 <==> found.Some? && found.value.password == data.password)
                && (resp.status != 200 ==>
                      resp == Response(401, Message("Email ou senha inválidos")) && sessions == old(sessions))
                && (resp.status == 200 ==>
                      && resp.body.Session? && resp.body.user == Scrub(found.value)
                      && resp.body.token != "" && resp.body.token !in old(sessions)
                      && sessions == old(sessions)[resp.body.token := found.value])
    {
      var parsed := ParseLogin(body, isEmail);
      if parsed.None? {
        return InvalidData;
      }
      var user := FindUser(parsed.value.email);
      if user.None? || user.value.password != parsed.value.password {
        return Response(401, Message("Email ou senha inválidos"));
      }
      var token := Bind(user.value);
      resp := Response(200, Session(Scrub(user.value), token));
    }

    /** `POST /api/auth/register`: appends exactly one user unless the address is taken. */
    method Register(body: RegisterInput, now: Instant) returns (resp: Response<Body>)
      requires Valid()
      modifies this
      ensures Valid()
      ensures ParseRegister(body).None? ==> resp == InvalidData && users == old(users) && sessions == old(sessions)
      ensures ParseRegister(body).Some? && old(FindUser(body.email.value)).Some? ==>
                && resp == Response(400, Message("Email já cadastrado"))
                && users == old(users) && sessions == old(sessions)
      ensures ParseRegister(body).Some? && old(FindUser(body.email.value)).None? ==>
                var added := NewUser(ParseRegister(body).value, |old(users)|, now);
                && users == old(users) + [added]
                && resp.status == 200 && resp.body.Session? && resp.body.user == Scrub(added)
                && resp.body.token != "" && resp.body.token !in old(sessions)
                && sessions == old(sessions)[resp.body.token := added]
    {
      var parsed := ParseRegister(body);
      if parsed.None? {
        return InvalidData;
      }
      var existing := FindUser(parsed.value.email);
      if existing.Some? {
        return Response(400, Message("Email já cadastrado"));
      }
      var added := NewUser(parsed.value, |users|, now);
      users := users + [added];
      var token := Bind(added);
      resp := Response(200, Session(Scrub(added), token));
    }

    /** `GET /api/auth/user`. */
    method AuthUser(authorization: Option<string>) returns (resp: Response<Body>)
      ensures Caller(authorization).None? ==> resp == Unauthorized
      ensures Caller(authorization).Some? ==> resp == Response(200, OneUser(Scrub(Caller(authorization).value)))
    {
      var caller := Caller(authorization);
      if caller.None? {
        return Unauthorized;
      }
      resp := Response(200, OneUser(Scrub(caller.value)));
    }

    /** `POST /api/auth/logout`. */
    method Logout(authorization: Option<string>) returns (resp: Response<Body>)
      modifies this
      ensures users == old(users)
      ensures old(Caller(authorization)).None? ==> resp == Unauthorized && sessions == old(sessions)
      ensures old(Caller(authorization)).Some? ==>
                && resp == Response(200, Message("Logout realizado com sucesso"))
                && sessions == old(sessions) - {SessionToken(authorization).value}
    {
      var caller := Caller(authorization);
      if caller.None? {
        return Unauthorized;
      }
      var token := SessionToken(authorization);
      if token.Some? {
        sessions := sessions - {token.value};
      }
      resp := Response(200, Message("Logout realizado com sucesso"));
    }

    /** `GET /api/users`: every mock user, password removed. */
    method ListUsers(authorization: Option<string>) returns (resp: Response<Body>)
      ensures Caller(authorization).None? ==> resp == Unauthorized
      ensures Caller(authorization).Some? ==> resp == Response(200, Users(ScrubAll(users)))
    {
      if Caller(authorization).None? {
        return Unauthorized;
      }
      resp := Response(200, Users(ScrubAll(users)));
    }

    /** `GET /api/stats`: the same counts whoever asks. */
    method GetStats(authorization: Option<string>) returns (resp: Response<Body>)
      ensures Caller(authorization).None? ==> resp == Unauthorized
      ensures Caller(authorization).Some? ==> resp == Response(200, StatsBody(FixedStats))
    {
      if Caller(authorization).None? {
        return Unauthorized;
      }
      resp := Response(200, StatsBody(FixedStats));
    }

    /** `GET /api/meetings`: one fixed meeting. */
    method ListMeetings(authorization: Option<string>, now: Instant) returns (resp: Response<Body>)
      ensures Caller(authorization).None? ==> resp == Unauthorized
      ensures Caller(authorization).Some? ==> resp == Response(200, Meetings(MeetingsAt(now)))
    {
      if Caller(authorization).None? {
        return Unauthorized;
      }
      resp := Response(200, Meetings(MeetingsAt(now)));
    }

    /** `GET /api/events`: one fixed event. */
    method ListEvents(authorization: Option<string>, now: Instant) returns (resp: Response<Body>)
      ensures Caller(authorization).None? ==> resp == Unauthorized
      ensures Caller(authorization).Some? ==> resp == Response(200, Events(EventsAt(now)))
    {
      if Caller(authorization).None? {
        return Unauthorized;
      }
      resp := Response(200, Events(EventsAt(now)));
    }
  }
}
