/**
 * The participant card (client/src/components/participant-card.tsx): the
 * meeting request its "schedule" button posts for the card's user. Avatar,
 * label and colour are Display.Initials, Display.UserTypeLabel and
 * Display.UserTypeColor.
 *
 * The body it posts carries no `status`, and neither the route nor
 * `MemStorage.createMeetingRequest` supplies the column default, so the
 * stored request has no status and never counts as pending.
 * ScheduleRequestAsWritten is that body; ScheduleRequest is the body with
 * the intended "pending" status.
 */
module ParticipantCard {
  import opened Wrappers
  import opened Schema
  import ApiTypes
  import Store

  const RequestMessage := "Gostaria de agendar uma reunião para discutir oportunidades de negócio"

  /** The body as the card posts it: event 1, the card's user as target, no status. */
  function ScheduleRequestAsWritten(target: ApiTypes.ApiUser, requestedAt: Instant): (r: InsertMeetingRequest)
    ensures r.eventId == Some(1) && r.targetId == Some(target.id)
    ensures r.status.None? && r.requesterId.None?
  {
    InsertMeetingRequest(Some(1), None, Some(target.id), requestedAt, Some(RequestMessage), None, None)
  }

  /** The intended body: the same request, marked "pending". */
  function ScheduleRequest(target: ApiTypes.ApiUser, requestedAt: Instant): (r: InsertMeetingRequest)
    ensures r.eventId == Some(1) && r.targetId == Some(target.id)
    ensures r.status == Some(DefaultRequestStatus)
    ensures r == RequestRow(ScheduleRequestAsWritten(target, requestedAt))
  {
    ScheduleRequestAsWritten(target, requestedAt).(status := Some(DefaultRequestStatus))
  }

  /** What `POST /api/meeting-requests` stores for a body: the caller becomes the requester. */
  function Posted(d: Store.Db, callerId: int, body: InsertMeetingRequest, now: Instant): Store.Created<MeetingRequest> {
    Store.CreateMeetingRequest(d, body.(requesterId := Some(callerId)), now)
  }

  /**
   * As written, the request the card creates is never in its target's
   * pending list, however the store looked before.
   */
  lemma AsWrittenNeverPending(d: Store.Db, callerId: int, target: ApiTypes.ApiUser, requestedAt: Instant, now: Instant)
    requires Store.DbValid(d)
    ensures var c := Posted(d, callerId, ScheduleRequestAsWritten(target, requestedAt), now);
            c.row !in Store.GetPendingRequests(c.db, target.id)
  {
  }

  /**
   * With the intended body the created request is in its target's pending
   * list, sent by the caller to the card's user for event 1.
   */
  lemma ScheduledRequestIsPending(d: Store.Db, callerId: int, target: ApiTypes.ApiUser, requestedAt: Instant, now: Instant)
    requires Store.DbValid(d)
    ensures var c := Posted(d, callerId, ScheduleRequest(target, requestedAt), now);
            && c.row in Store.GetPendingRequests(c.db, target.id)
            && c.row.requesterId == Some(callerId) && c.row.eventId == Some(1)
  {
    var c := Posted(d, callerId, ScheduleRequest(target, requestedAt), now);
    assert c.row in Store.GetAllRequests(c.db);
  }
}
