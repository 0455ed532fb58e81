/**
 * The JSON shapes the client pages read back from the server
 * (client/src/types/api.ts). Fields a page tests with `?.` or `||` are
 * optional here, since the pages treat a missing value as falsy; dates stay
 * the strings the JSON carries, and a page that compares them is given a
 * parsing function `instant` as a parameter.
 */
module ApiTypes {
  import opened Wrappers

  /**
   * A JSON field that may be missing (`undefined`), `null`, or hold a value.
   * Strict equality tells the three apart; a lookup by id (`find(u => u.id
   * === v)`) sees no value in either of the first two.
   */
  datatype Nullable<T> = Absent | Null | Present(value: T) {
    function ToOption(): Option<T> {
      if Present? then Some(value) else None
    }
  }

  datatype ApiUser = ApiUser(
    id: int, email: string, name: Option<string>, company: Option<string>,
    phone: Option<string>, userType: string, description: Option<string>, isActive: bool)

  datatype ApiMeeting = ApiMeeting(
    id: int, eventId: int, fabricanteId: Nullable<int>, revendedorId: Option<int>,
    scheduledAt: string, duration: Option<int>, location: Option<string>,
    status: string, notes: Option<string>)

  datatype ApiMeetingRequest = ApiMeetingRequest(
    id: int, eventId: int, requesterId: int, targetId: int,
    message: Option<string>, status: Option<string>, responseMessage: Option<string>)

  datatype ApiNotification = ApiNotification(
    id: int, userId: int, title: string, message: string, isRead: Option<bool>)

  /** What `/api/stats` sends back, each field possibly missing. */
  datatype ApiStats = ApiStats(
    totalMeetings: Option<int>, confirmedMeetings: Option<int>,
    completedMeetings: Option<int>, pendingMeetings: Option<int>, attendanceRate: Option<int>)

  /** `m.status === status`, the test behind every per-status count. */
  function WithStatus(status: string): ApiMeeting -> bool {
    (m: ApiMeeting) => m.status == status
  }

  /** `!n.isRead`: a missing flag counts as unread. */
  function Unread(n: ApiNotification): bool {
    n.isRead != Some(true)
  }
}
