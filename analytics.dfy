/**
 * The analytics page (client/src/pages/analytics.tsx): `calculateMetrics`
 * over the meetings the page fetched, and the choice of which meetings to
 * fetch. `Math.round` of a quotient is exact half-up rounding of the
 * rational (Rounding.RoundDiv, Rounding.Percent).
 */
module Analytics {
  import opened Wrappers
  import opened ApiTypes
  import Seqs
  import Rounding

  datatype Metrics = Metrics(
    totalMeetings: nat, completedMeetings: nat, confirmedMeetings: nat, pendingMeetings: nat,
    attendanceRate: int, confirmationRate: int, avgDuration: int)

  /** The query key: admins aggregate over every meeting, anyone else over their own. */
  function MeetingsSource(user: Option<ApiUser>): (r: string)
    ensures r == "/api/meetings/all" <==> user.Some? && user.value.userType == "admin"
    ensures r != "/api/meetings/all" ==> r == "/api/meetings"
  {
    if user.Some? && user.value.userType == "admin" then "/api/meetings/all" else "/api/meetings"
  }

  /** `meeting.duration || 30`: a missing or zero duration counts as 30 minutes. */
  function Duration(m: ApiMeeting): (r: int)
    ensures r != 0
    ensures m.duration.Some? && m.duration.value != 0 ==> r == m.duration.value
    ensures m.duration.None? || m.duration == Some(0) ==> r == 30
  {
    if m.duration.None? || m.duration.value == 0 then 30 else m.duration.value
  }

  /** The `reduce` that sums the durations; meetings that set none contribute 30 each. */
  function TotalDuration(ms: seq<ApiMeeting>): (r: int)
    ensures (forall m :: m in ms ==> m.duration.None?) ==> r == 30 * |ms|
  {
    if ms == [] then 0
    else
      assert forall m :: m in ms[1..] ==> m in ms;
      Duration(ms[0]) + TotalDuration(ms[1..])
  }

  /** `reduce` adds from the left: appending a meeting adds its duration to the running sum. */
  lemma {:induction false} TotalDurationAppend(ms: seq<ApiMeeting>, m: ApiMeeting)
    ensures TotalDuration(ms + [m]) == TotalDuration(ms) + Duration(m)
  {
    if ms == [] {
      assert [m][1..] == [];
    } else {
      assert (ms + [m])[1..] == ms[1..] + [m];
      TotalDurationAppend(ms[1..], m);
    }
  }

  /** A sum of terms each within `lo..hi` lies within `n * lo .. n * hi`. */
  lemma {:induction false} TotalDurationBounds(ms: seq<ApiMeeting>, lo: int, hi: int)
    requires forall m :: m in ms ==> lo <= Duration(m) <= hi
    ensures |ms| * lo <= TotalDuration(ms) <= |ms| * hi
  {
    if ms != [] {
      assert forall m :: m in ms[1..] ==> m in ms;
      assert lo <= Duration(ms[0]) <= hi by { assert ms[0] in ms; }
      TotalDurationBounds(ms[1..], lo, hi);
      Rounding.MulSucc(|ms[1..]|, lo);
      Rounding.MulSucc(|ms[1..]|, hi);
    }
  }

  /** `Math.round(total / length)`, or 0 for no meetings. */
  function AverageDuration(ms: seq<ApiMeeting>): (r: int)
    ensures ms == [] ==> r == 0
    ensures ms != [] ==> -|ms| < (2 * |ms|) * r - 2 * TotalDuration(ms) <= |ms|
  {
    if ms == [] then 0 else Rounding.RoundDiv(TotalDuration(ms), |ms|)
  }

  /** The rounded mean stays within the bounds of the durations it averages. */
  lemma AverageDurationBounds(ms: seq<ApiMeeting>, lo: int, hi: int)
    requires ms != []
    requires forall m :: m in ms ==> lo <= Duration(m) <= hi
    ensures lo <= AverageDuration(ms) <= hi
  {
    TotalDurationBounds(ms, lo, hi);
    Rounding.RoundDivBounds(TotalDuration(ms), |ms|, lo, hi);
  }

  /** Meetings that carry no duration of their own average to the 30-minute default. */
  lemma DefaultDurationAverage(ms: seq<ApiMeeting>)
    requires ms != []
    requires forall m :: m in ms ==> m.duration.None? || m.duration == Some(0)
    ensures AverageDuration(ms) == 30
  {
    AverageDurationBounds(ms, 30, 30);
  }

  /**
   * `calculateMetrics`: exact-status counts, which together never exceed the
   * total (a cancelled meeting counts only in the total); the two rates are
   * 0 without meetings and otherwise the rounded percentage, within 0..100.
   */
  function CalculateMetrics(all: seq<ApiMeeting>): (r: Metrics)
    ensures r.totalMeetings == |all|
    ensures r.completedMeetings == Seqs.Count(all, WithStatus("completed"))
    ensures r.confirmedMeetings == Seqs.Count(all, WithStatus("confirmed"))
    ensures r.pendingMeetings == Seqs.Count(all, WithStatus("pending"))
    ensures r.completedMeetings + r.confirmedMeetings + r.pendingMeetings <= r.totalMeetings
    ensures 0 <= r.attendanceRate <= 100 && 0 <= r.confirmationRate <= 100
    ensures all == [] ==> r.attendanceRate == 0 && r.confirmationRate == 0 && r.avgDuration == 0
    ensures all != [] ==>
              -|all| < (2 * |all|) * r.attendanceRate - 200 * r.completedMeetings <= |all| &&
              -|all| < (2 * |all|) * r.confirmationRate - 200 * r.confirmedMeetings <= |all|
    ensures r.avgDuration == AverageDuration(all)
  {
    var completed := Seqs.Count(all, WithStatus("completed"));
    var confirmed := Seqs.Count(all, WithStatus("confirmed"));
    var pending := Seqs.Count(all, WithStatus("pending"));
    Seqs.DisjointCounts(all, WithStatus("completed"), WithStatus("confirmed"), WithStatus("pending"));
    Metrics(|all|, completed, confirmed, pending,
            Rounding.Percent(completed, |all|), Rounding.Percent(confirmed, |all|),
            AverageDuration(all))
  }
}
