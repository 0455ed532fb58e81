/**
 * The meeting-requests page (client/src/pages/requests.tsx): the
 * pending/processed split and the bodies the accept and reject buttons send
 * to `PUT /api/meeting-requests/:id`. The badge is Display.RequestBadge.
 */
module RequestsPage {
  import opened Wrappers
  import opened ApiTypes
  import Schema
  import Seqs
  import Store

  function IsPending(q: ApiMeetingRequest): bool {
    q.status == Some("pending")
  }

  function IsProcessed(q: ApiMeetingRequest): bool {
    q.status != Some("pending")
  }

  /** `pendingRequests`: exactly the requests whose status is "pending". */
  function PendingRequests(rs: seq<ApiMeetingRequest>): (r: seq<ApiMeetingRequest>)
    ensures forall q :: q in r <==> q in rs && q.status == Some("pending")
  {
    Seqs.Filter(rs, IsPending)
  }

  /** `processedRequests`: every other request, including one with no status at all. */
  function ProcessedRequests(rs: seq<ApiMeetingRequest>): (r: seq<ApiMeetingRequest>)
    ensures forall q :: q in r <==> q in rs && q.status != Some("pending")
  {
    Seqs.Filter(rs, IsProcessed)
  }

  /**
   * The two lists partition the requests: together they hold every request
   * exactly as often as it occurs, each in the original order.
   */
  lemma PendingProcessedPartition(rs: seq<ApiMeetingRequest>)
    ensures multiset(PendingRequests(rs)) + multiset(ProcessedRequests(rs)) == multiset(rs)
    ensures |PendingRequests(rs)| + |ProcessedRequests(rs)| == |rs|
    ensures Seqs.IsSubsequence(PendingRequests(rs), rs) && Seqs.IsSubsequence(ProcessedRequests(rs), rs)
  {
    Seqs.FilterPartition(rs, IsPending, IsProcessed);
    Seqs.FilterIsSubsequence(rs, IsPending);
    Seqs.FilterIsSubsequence(rs, IsProcessed);
  }

  /** The body `{ status, responseMessage }` as the patch the server merges. */
  function Response(status: string, responseMessage: string): (p: Schema.RequestPatch)
    ensures forall q, now :: Schema.MergeRequest(q, p, now) ==
              q.(status := Some(status), responseMessage := Some(responseMessage), updatedAt := now)
  {
    Schema.RequestPatch(None, None, None, None, None, Some(Some(status)), Some(Some(responseMessage)))
  }

  /** `handleAccept`. */
  function Accept(): (p: Schema.RequestPatch)
    ensures forall q, now :: Schema.MergeRequest(q, p, now).status == Some("approved")
    ensures forall q, now :: Schema.MergeRequest(q, p, now).responseMessage == Some("Solicitação aceita")
  {
    Response("approved", "Solicitação aceita")
  }

  /** `handleReject`. */
  function Reject(): (p: Schema.RequestPatch)
    ensures forall q, now :: Schema.MergeRequest(q, p, now).status == Some("rejected")
    ensures forall q, now :: Schema.MergeRequest(q, p, now).responseMessage == Some("Solicitação recusada")
  {
    Response("rejected", "Solicitação recusada")
  }

  /**
   * Answering a request through the server with any status but "pending"
   * takes it out of every user's pending list.
   */
  lemma AnsweredLeavesPending(d: Store.Db, id: int, status: string, message: string, now: Schema.Instant, userId: int)
    requires Store.DbValid(d) && id in d.requests.rows && status != "pending"
    ensures var after := Store.UpdateMeetingRequest(d, id, Response(status, message), now).db;
            forall q :: q in Store.GetPendingRequests(after, userId) ==> q.id != id
  {
    var u := Store.UpdateMeetingRequest(d, id, Response(status, message), now);
    var all := Store.GetAllRequests(u.db);
    forall q | q in Store.GetPendingRequests(u.db, userId) ensures q.id != id {
      var i :| 0 <= i < |all| && all[i] == q;
      if i != id - 1 {
        assert q == Store.GetAllRequests(d)[i];
      }
    }
  }
}
