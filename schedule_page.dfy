/**
 * The daily schedule grid (client/src/pages/schedule.tsx): one column per
 * manufacturer, one row per time slot, the meeting shown in each cell, the
 * counterpart named in it, the status label and colour, and the summary
 * counts. The schedule data is an input (it comes from `/api/schedule/daily`),
 * and `new Date(s).getTime()` is the parameter `instant`.
 */
module SchedulePage {
  import opened Wrappers
  import opened ApiTypes
  import Seqs
  import Display

  datatype TimeSlot = TimeSlot(time: string, hour: int, minute: int)

  datatype ScheduleData = ScheduleData(
    date: string, timeSlots: seq<TimeSlot>, fabricantes: seq<ApiUser>, meetings: seq<ApiMeeting>)

  /** `new Date(`${date}T${time}:00`)`: the instant a slot of the day starts. */
  function SlotInstant(date: string, slot: TimeSlot, instant: string -> int): int {
    instant(date + "T" + slot.time + ":00")
  }

  /** The meeting belongs in the cell: its manufacturer is the column's and it starts at the slot. */
  function InCell(date: string, fabricanteId: int, slot: TimeSlot, instant: string -> int): ApiMeeting -> bool {
    (m: ApiMeeting) => m.fabricanteId == Present(fabricanteId) && instant(m.scheduledAt) == SlotInstant(date, slot, instant)
  }

  /**
   * `getMeetingForSlot`: nothing without schedule data; otherwise a meeting of
   * the cell exactly when there is one, and then the first in list order.
   * The counterpart a filled cell names is therefore always the reseller.
   */
  function MeetingForSlot(data: Option<ScheduleData>, fabricanteId: int, slot: TimeSlot, instant: string -> int)
    : (r: Option<ApiMeeting>)
    ensures data.None? ==> r.None?
    ensures data.Some? ==>
              (r.None? <==> forall m :: m in data.value.meetings ==> !InCell(data.value.date, fabricanteId, slot, instant)(m))
    ensures r.Some? ==>
              && data.Some? && r.value in data.value.meetings
              && r.value.fabricanteId == Present(fabricanteId)
              && instant(r.value.scheduledAt) == SlotInstant(data.value.date, slot, instant)
    ensures r.Some? ==> Counterpart(r.value, fabricanteId) == r.value.revendedorId
  {
    match data
    case None => None
    case Some(d) => Seqs.Find(d.meetings, InCell(d.date, fabricanteId, slot, instant))
  }

  /** The meeting a cell shows is the first one in the list that belongs in it. */
  lemma MeetingForSlotIsFirst(d: ScheduleData, fabricanteId: int, slot: TimeSlot, instant: string -> int, i: nat)
    requires i < |d.meetings| && InCell(d.date, fabricanteId, slot, instant)(d.meetings[i])
    requires forall j :: 0 <= j < i ==> !InCell(d.date, fabricanteId, slot, instant)(d.meetings[j])
    ensures MeetingForSlot(Some(d), fabricanteId, slot, instant) == Some(d.meetings[i])
  {
    Seqs.FindIsFirst(d.meetings, InCell(d.date, fabricanteId, slot, instant), i);
  }

  /**
   * The id of the user named in a cell: the reseller when the column is the
   * meeting's manufacturer, the manufacturer otherwise (a missing or null
   * manufacturer id looks up nobody).
   */
  function Counterpart(m: ApiMeeting, columnId: int): (r: Option<int>)
    ensures m.fabricanteId == Present(columnId) ==> r == m.revendedorId
    ensures m.fabricanteId != Present(columnId) ==> r == m.fabricanteId.ToOption()
  {
    if m.fabricanteId == Present(columnId) then m.revendedorId else m.fabricanteId.ToOption()
  }

  /** `getStatusLabel`: the four statuses in Portuguese, any other unchanged. */
  function StatusLabel(status: string): (r: string)
    ensures status !in Display.MeetingStatuses ==> r == status
    ensures r == Display.MeetingBadge(status).caption
  {
    if status == "confirmed" then "Confirmada"
    else if status == "pending" then "Pendente"
    else if status == "completed" then "Concluída"
    else if status == "cancelled" then "Cancelada"
    else status
  }

  const GrayCell := "bg-gray-100 text-gray-800 border-gray-200"

  /** `getStatusColor`: a colour per known status, the gray classes for any other. */
  function StatusColor(status: string): (r: string)
    ensures status == "confirmed" ==> r == "bg-green-100 text-green-800 border-green-200"
    ensures status == "pending" ==> r == "bg-yellow-100 text-yellow-800 border-yellow-200"
    ensures status == "completed" ==> r == "bg-blue-100 text-blue-800 border-blue-200"
    ensures status == "cancelled" ==> r == "bg-red-100 text-red-800 border-red-200"
    ensures r == GrayCell <==> status !in Display.MeetingStatuses
  {
    if status == "confirmed" then "bg-green-100 text-green-800 border-green-200"
    else if status == "pending" then "bg-yellow-100 text-yellow-800 border-yellow-200"
    else if status == "completed" then "bg-blue-100 text-blue-800 border-blue-200"
    else if status == "cancelled" then "bg-red-100 text-red-800 border-red-200"
    else GrayCell
  }

  datatype Summary = Summary(confirmed: nat, pending: nat, completed: nat, freeSlots: int)

  /**
   * The summary cards: exact-status counts, which together never exceed the
   * number of meetings, and the free-slot count `slots * columns - meetings`,
   * which is not clamped: it is negative exactly when there are more
   * meetings than cells.
   */
  function SummaryOf(d: ScheduleData): (r: Summary)
    ensures r.confirmed == Seqs.Count(d.meetings, WithStatus("confirmed"))
    ensures r.pending == Seqs.Count(d.meetings, WithStatus("pending"))
    ensures r.completed == Seqs.Count(d.meetings, WithStatus("completed"))
    ensures r.confirmed + r.pending + r.completed <= |d.meetings|
    ensures r.freeSlots + |d.meetings| == |d.timeSlots| * |d.fabricantes|
    ensures r.freeSlots < 0 <==> |d.meetings| > |d.timeSlots| * |d.fabricantes|
  {
    Seqs.DisjointCounts(d.meetings, WithStatus("confirmed"), WithStatus("pending"), WithStatus("completed"));
    Summary(Seqs.Count(d.meetings, WithStatus("confirmed")), Seqs.Count(d.meetings, WithStatus("pending")),
            Seqs.Count(d.meetings, WithStatus("completed")),
            |d.timeSlots| * |d.fabricantes| - |d.meetings|)
  }
}
