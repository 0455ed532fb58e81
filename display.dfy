/**
 * The display helpers that several client pages and components each define
 * with the same body: `getInitials`, `getUserTypeLabel`, `getUserTypeColor`
 * and the meeting and request status badges. Each is defined once here.
 */
module Display {
  import opened Wrappers
  import Text
  import Seqs

  function NonEmpty(piece: string): bool {
    piece != ""
  }

  /**
   * `pieces.map(n => n[0]).join('')`: `n[0]` of an empty piece is
   * undefined, which `join` writes as nothing.
   */
  function Heads(pieces: seq<string>): (r: string)
    ensures |r| == Seqs.Count(pieces, NonEmpty)
  {
    if pieces == [] then ""
    else (if pieces[0] == "" then "" else [pieces[0][0]]) + Heads(pieces[1..])
  }

  /**
   * Reference definition by a left-to-right scan: the characters that begin
   * a word, that is, the non-spaces that come first or right after a space.
   * `afterSpace` says whether the previous character was a space, or whether
   * there was none.
   */
  function WordStarts(s: string, afterSpace: bool): string {
    if s == [] then ""
    else (if s[0] != ' ' && afterSpace then [s[0]] else "") + WordStarts(s[1..], s[0] == ' ')
  }

  /** The heads of `s.split(' ')` are exactly the word starts of `s`. */
  lemma {:induction false} HeadsOfSplit(s: string)
    ensures Heads(Text.Split(s, ' ')) == WordStarts(s, true)
    ensures Heads(Text.Split(s, ' ')[1..]) == WordStarts(s, false)
  {
    if s != [] {
      HeadsOfSplit(s[1..]);
      var rest := Text.Split(s[1..], ' ');
      var pieces := Text.Split(s, ' ');
      if s[0] == ' ' {
        assert pieces == [""] + rest;
        assert pieces[1..] == rest;
      } else {
        assert pieces == [[s[0]] + rest[0]] + rest[1..];
        assert pieces[1..] == rest[1..];
      }
    }
  }

  /** A string has no word start exactly when it is all spaces (or empty). */
  lemma {:induction false} WordStartsBlank(s: string)
    ensures WordStarts(s, true) == "" <==> forall i :: 0 <= i < |s| ==> s[i] == ' '
  {
    if s != [] {
      WordStartsBlank(s[1..]);
      assert forall i :: 1 <= i < |s| ==> s[i] == s[1..][i - 1];
    }
  }

  /**
   * `getInitials(name)`: the first character of every space-separated piece,
   * upper-cased; "U" when the name is missing or that comes out empty.
   */
  function Initials(name: Option<string>): (r: string)
    ensures r != ""
    ensures name.None? ==> r == "U"
    ensures name.Some? && (forall i :: 0 <= i < |name.value| ==> name.value[i] == ' ') ==> r == "U"
    ensures name.Some? && (exists i :: 0 <= i < |name.value| && name.value[i] != ' ') ==>
              r == Text.Upper(WordStarts(name.value, true)) &&
              |r| == Seqs.Count(Text.Split(name.value, ' '), NonEmpty)
  {
    match name
    case None => "U"
    case Some(n) =>
      HeadsOfSplit(n);
      WordStartsBlank(n);
      var joined := Text.Upper(Heads(Text.Split(n, ' ')));
      if joined == "" then "U" else joined
  }

  const UserTypes: seq<string> := ["fabricante", "revendedor", "admin"]

  /** `getUserTypeLabel`: the three known types get a label, any other is shown as it is. */
  function UserTypeLabel(userType: string): (r: string)
    ensures userType == "fabricante" ==> r == "Fabricante"
    ensures userType == "revendedor" ==> r == "Revendedor"
    ensures userType == "admin" ==> r == "Administrador"
    ensures userType !in UserTypes ==> r == userType
  {
    if userType == "fabricante" then "Fabricante"
    else if userType == "revendedor" then "Revendedor"
    else if userType == "admin" then "Administrador"
    else userType
  }

  const GrayBadge := "bg-gray-100 text-gray-800"

  /** `getUserTypeColor`: a colour per known type, the gray classes for any other. */
  function UserTypeColor(userType: string): (r: string)
    ensures userType == "fabricante" ==> r == "bg-blue-100 text-blue-800"
    ensures userType == "revendedor" ==> r == "bg-green-100 text-green-800"
    ensures userType == "admin" ==> r == "bg-purple-100 text-purple-800"
    ensures r == GrayBadge <==> userType !in UserTypes
  {
    if userType == "fabricante" then "bg-blue-100 text-blue-800"
    else if userType == "revendedor" then "bg-green-100 text-green-800"
    else if userType == "admin" then "bg-purple-100 text-purple-800"
    else GrayBadge
  }

  datatype Badge = Badge(caption: string, className: string)

  const MeetingStatuses: seq<string> := ["confirmed", "pending", "cancelled", "completed"]

  /**
   * `getStatusBadge` for a meeting: a label and a class per known status; an
   * unknown status is its own label, with no class.
   */
  function MeetingBadge(status: string): (r: Badge)
    ensures status == "confirmed" ==> r == Badge("Confirmada", "status-confirmed")
    ensures status == "pending" ==> r == Badge("Pendente", "status-pending")
    ensures status == "cancelled" ==> r == Badge("Cancelada", "status-cancelled")
    ensures status == "completed" ==> r == Badge("Concluída", "status-completed")
    ensures r.className == "" <==> status !in MeetingStatuses
    ensures status !in MeetingStatuses ==> r.caption == status
  {
    if status == "confirmed" then Badge("Confirmada", "status-confirmed")
    else if status == "pending" then Badge("Pendente", "status-pending")
    else if status == "cancelled" then Badge("Cancelada", "status-cancelled")
    else if status == "completed" then Badge("Concluída", "status-completed")
    else Badge(status, "")
  }

  const RequestStatuses: seq<string> := ["pending", "approved", "rejected"]

  /**
   * `getStatusBadge` for a meeting request: a label and colour classes per
   * known status; an unknown status is its own label, with no class.
   */
  function RequestBadge(status: string): (r: Badge)
    ensures status == "pending" ==> r == Badge("Pendente", "bg-yellow-100 text-yellow-800")
    ensures status == "approved" ==> r == Badge("Aprovada", "bg-green-100 text-green-800")
    ensures status == "rejected" ==> r == Badge("Rejeitada", "bg-red-100 text-red-800")
    ensures r.className == "" <==> status !in RequestStatuses
    ensures status !in RequestStatuses ==> r.caption == status
  {
    if status == "pending" then Badge("Pendente", "bg-yellow-100 text-yellow-800")
    else if status == "approved" then Badge("Aprovada", "bg-green-100 text-green-800")
    else if status == "rejected" then Badge("Rejeitada", "bg-red-100 text-red-800")
    else Badge(status, "")
  }
}
