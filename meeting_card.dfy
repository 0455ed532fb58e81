/**
 * The meeting card (client/src/components/meeting-card.tsx): which user the
 * card shows as the other party, and the location line. The badge is
 * Display.MeetingBadge, the avatar Display.Initials.
 */
module MeetingCard {
  import opened Wrappers
  import opened ApiTypes
  import Seqs
  import Display

  function HasId(id: int): ApiUser -> bool {
    (u: ApiUser) => u.id == id
  }

  /** `users.find(u => u.id === id)`: a missing id matches no user. */
  function UserById(users: seq<ApiUser>, id: Option<int>): (r: Option<ApiUser>)
    ensures r.None? <==> id.None? || forall u :: u in users ==> u.id != id.value
    ensures r.Some? ==> r.value in users && id == Some(r.value.id)
  {
    match id
    case None => None
    case Some(k) => Seqs.Find(users, HasId(k))
  }

  /**
   * `participant`: `fabricante?.id === meeting.fabricanteId ? revendedor :
   * fabricante`. When the manufacturer is found that is the reseller; when a
   * manufacturer id is given but not found, or is `null`, nobody; and when
   * the meeting has no manufacturer id at all, `undefined === undefined`
   * picks the reseller.
   */
  function Participant(users: seq<ApiUser>, m: ApiMeeting): (r: Option<ApiUser>)
    ensures UserById(users, m.fabricanteId.ToOption()).Some? ==> r == UserById(users, m.revendedorId)
    ensures m.fabricanteId.Present? && UserById(users, m.fabricanteId.ToOption()).None? ==> r.None?
    ensures m.fabricanteId.Null? ==> r.None?
    ensures m.fabricanteId.Absent? ==> r == UserById(users, m.revendedorId)
  {
    var fabricante := UserById(users, m.fabricanteId.ToOption());
    var revendedor := UserById(users, m.revendedorId);
    var fabricanteIdSeen := if fabricante.Some? then Present(fabricante.value.id) else Absent;
    if fabricanteIdSeen == m.fabricanteId then revendedor else fabricante
  }

  /** The avatar: `getInitials(participant?.name || "")`. */
  function AvatarInitials(users: seq<ApiUser>, m: ApiMeeting): (r: string)
    ensures Participant(users, m).None? ==> r == "U"
    ensures Participant(users, m).Some? ==> r == Display.Initials(Participant(users, m).value.name)
  {
    var p := Participant(users, m);
    Display.Initials(Some(if p.Some? && p.value.name.Some? then p.value.name.value else ""))
  }

  const NoLocation := "Local não definido"

  /** `meeting.location || 'Local não definido'`: a missing or empty location shows the fallback. */
  function LocationShown(location: Option<string>): (r: string)
    ensures r != ""
    ensures location.Some? && location.value != "" ==> r == location.value
    ensures location.None? || location.value == "" ==> r == NoLocation
  {
    if location.Some? && location.value != "" then location.value else NoLocation
  }
}
