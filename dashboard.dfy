/**
 * The dashboard (client/src/pages/dashboard.tsx): the next three meetings,
 * the first three unread notifications, and the stat cards with their `|| 0`
 * fallbacks. `new Date(s)` is the parameter `instant`, the current time the
 * parameter `now`.
 */
module Dashboard {
  import opened Wrappers
  import opened ApiTypes
  import Seqs

  function IsUpcoming(now: int, instant: string -> int): ApiMeeting -> bool {
    (m: ApiMeeting) => instant(m.scheduledAt) > now
  }

  function ScheduledAt(instant: string -> int): ApiMeeting -> int {
    (m: ApiMeeting) => instant(m.scheduledAt)
  }

  /**
   * `upcomingMeetings`: the meetings after `now`, sorted by time, at most
   * three of them.
   */
  function UpcomingMeetings(ms: seq<ApiMeeting>, now: int, instant: string -> int): (r: seq<ApiMeeting>)
    ensures |r| == Seqs.Min(3, Seqs.Count(ms, IsUpcoming(now, instant)))
    ensures forall m :: m in r ==> m in ms && instant(m.scheduledAt) > now
    ensures Seqs.SortedBy(r, ScheduledAt(instant))
    ensures multiset(r) <= multiset(ms)
    ensures Seqs.Count(ms, IsUpcoming(now, instant)) <= 3 ==>
              multiset(r) == multiset(Seqs.Filter(ms, IsUpcoming(now, instant)))
  {
    var future := Seqs.Filter(ms, IsUpcoming(now, instant));
    var sorted := Seqs.SortBy(future, ScheduledAt(instant));
    assert |sorted| == |future| by {
      assert |multiset(sorted)| == |multiset(future)|;
    }
    var r := Seqs.Take(sorted, 3);
    assert forall m :: m in r ==> m in future by {
      forall m | m in r ensures m in future {
        assert m in sorted;
        assert m in multiset(sorted);
      }
    }
    Seqs.PrefixMultiset(sorted, |r|);
    Seqs.FilterMultisetSub(ms, IsUpcoming(now, instant));
    r
  }

  /**
   * The three chosen are the earliest: a future meeting left out means three
   * were chosen, none later than it.
   */
  lemma UpcomingAreEarliest(ms: seq<ApiMeeting>, now: int, instant: string -> int, m: ApiMeeting)
    requires m in ms && instant(m.scheduledAt) > now
    requires m !in UpcomingMeetings(ms, now, instant)
    ensures |UpcomingMeetings(ms, now, instant)| == 3
    ensures instant(UpcomingMeetings(ms, now, instant)[2].scheduledAt) <= instant(m.scheduledAt)
  {
    var future := Seqs.Filter(ms, IsUpcoming(now, instant));
    var sorted := Seqs.SortBy(future, ScheduledAt(instant));
    var r := UpcomingMeetings(ms, now, instant);
    assert r == Seqs.Take(sorted, 3);
    assert m in multiset(sorted) by {
      assert m in future;
    }
    var k :| 0 <= k < |sorted| && sorted[k] == m;
    assert k >= |r|;
    assert ScheduledAt(instant)(sorted[2]) <= ScheduledAt(instant)(sorted[k]);
  }

  /**
   * `unreadNotifications`: the first at most three notifications whose
   * `isRead` is falsy, in their original order.
   */
  function UnreadNotifications(ns: seq<ApiNotification>): (r: seq<ApiNotification>)
    ensures |r| == Seqs.Min(3, Seqs.Count(ns, Unread))
    ensures forall n :: n in r ==> Unread(n)
    ensures Seqs.IsSubsequence(r, ns)
    ensures r == Seqs.Filter(ns, Unread)[..|r|]
  {
    var unread := Seqs.Filter(ns, Unread);
    var r := Seqs.Take(unread, 3);
    Seqs.FilterIsSubsequence(ns, Unread);
    Seqs.PrefixOfSubsequence(unread, ns, |r|);
    r
  }

  /** `x || 0` for a stats field: missing shows as 0. */
  function OrZero(v: Option<int>): (r: int)
    ensures v.None? ==> r == 0
    ensures v.Some? ==> r == v.value
  {
    v.GetOr(0)
  }

  datatype StatCards = StatCards(scheduled: int, completed: int, pending: int, attendanceRate: int)

  /** The four stat cards: `stats?.field || 0` each. */
  function Cards(stats: Option<ApiStats>): (r: StatCards)
    ensures stats.None? ==> r == StatCards(0, 0, 0, 0)
    ensures stats.Some? ==>
              r == StatCards(OrZero(stats.value.totalMeetings), OrZero(stats.value.completedMeetings),
                             OrZero(stats.value.pendingMeetings), OrZero(stats.value.attendanceRate))
  {
    match stats
    case None => StatCards(0, 0, 0, 0)
    case Some(s) =>
      StatCards(OrZero(s.totalMeetings), OrZero(s.completedMeetings),
                OrZero(s.pendingMeetings), OrZero(s.attendanceRate))
  }
}
