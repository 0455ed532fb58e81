/**
 * The page header (client/src/components/layout/header.tsx): the unread
 * counter on the bell. The avatar and the type line use Display.Initials and
 * Display.UserTypeLabel.
 */
module Header {
  import opened ApiTypes
  import Seqs
  import Dashboard

  /** `notifications.filter(n => !n.isRead).length`. */
  function UnreadCount(ns: seq<ApiNotification>): (r: nat)
    ensures r <= |ns|
    ensures r == 0 <==> forall n :: n in ns ==> !Unread(n)
    ensures r == |Seqs.Filter(ns, Unread)|
  {
    var unread := Seqs.Filter(ns, Unread);
    assert unread != [] ==> unread[0] in unread;
    |unread|
  }

  /** The badge on the bell is drawn only when something is unread. */
  function ShowsBadge(ns: seq<ApiNotification>): (r: bool)
    ensures r <==> exists n :: n in ns && Unread(n)
  {
    UnreadCount(ns) > 0
  }

  /**
   * The dashboard lists three unread notifications whenever the header
   * counts at least three, and all of them otherwise.
   */
  lemma DashboardAgreesWithHeader(ns: seq<ApiNotification>)
    ensures |Dashboard.UnreadNotifications(ns)| == Seqs.Min(3, UnreadCount(ns))
    ensures ShowsBadge(ns) <==> Dashboard.UnreadNotifications(ns) != []
  {
  }
}
