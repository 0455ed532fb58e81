/**
 * The meetings list (client/src/pages/meetings.tsx): the status and date
 * filters. The badge shown per meeting is Display.MeetingBadge.
 */
module MeetingsPage {
  import opened ApiTypes
  import Seqs
  import Text

  /** `statusFilter === "all"` or the meeting has exactly that status. */
  function StatusMatches(statusFilter: string, m: ApiMeeting): bool {
    statusFilter == "all" || m.status == statusFilter
  }

  /** An empty `dateFilter` is falsy; otherwise `scheduledAt.includes(dateFilter)`. */
  function DateMatches(dateFilter: string, m: ApiMeeting): bool {
    dateFilter == "" || Text.Contains(m.scheduledAt, dateFilter)
  }

  function Keep(statusFilter: string, dateFilter: string): ApiMeeting -> bool {
    (m: ApiMeeting) => StatusMatches(statusFilter, m) && DateMatches(dateFilter, m)
  }

  /**
   * `filteredMeetings`: the meetings, in order, that pass both filters; with a
   * status other than "all" every kept meeting has that status, and with a
   * date every kept meeting's timestamp text contains it.
   */
  function FilteredMeetings(ms: seq<ApiMeeting>, statusFilter: string, dateFilter: string): (r: seq<ApiMeeting>)
    ensures Seqs.IsSubsequence(r, ms)
    ensures forall m :: m in r <==> m in ms && StatusMatches(statusFilter, m) && DateMatches(dateFilter, m)
    ensures statusFilter != "all" ==> forall m :: m in r ==> m.status == statusFilter
    ensures dateFilter != "" ==> forall m :: m in r ==> exists i :: Text.OccursAt(m.scheduledAt, dateFilter, i)
  {
    Seqs.FilterIsSubsequence(ms, Keep(statusFilter, dateFilter));
    var r := Seqs.Filter(ms, Keep(statusFilter, dateFilter));
    assert dateFilter != "" ==> forall m :: m in r ==> exists i :: Text.OccursAt(m.scheduledAt, dateFilter, i) by {
      forall m | m in r && dateFilter != "" ensures exists i :: Text.OccursAt(m.scheduledAt, dateFilter, i) {
        Text.ContainsIff(m.scheduledAt, dateFilter);
      }
    }
    r
  }

  /** With the initial filters ("all" and no date) every meeting is listed. */
  lemma UnfilteredKeepsAll(ms: seq<ApiMeeting>)
    ensures FilteredMeetings(ms, "all", "") == ms
  {
    Seqs.FilterAll(ms, Keep("all", ""));
  }
}
