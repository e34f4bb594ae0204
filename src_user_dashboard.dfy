/**
 * The second copy of the member dashboard (src/pages/UserDashboard.js). Its
 * helpers are the same as the frontend copy's and are reused from there; it
 * differs in three places: `fetchDashboard` has no missing-token guard, the
 * Available Subscriptions section also needs a non-empty list, and the error
 * notices of the handlers fall back to fixed texts.
 */
module SrcUserDashboard {
  import opened Wrappers
  import opened Http
  import opened Views
  import opened Session
  import opened UserDashboard

  /** Line 165: shown without an active subscription AND with at least one plan to offer. */
  predicate SrcShowAvailableSection(data: DashboardData, now: int)
  {
    !HasActiveSubscription(Some(data), now) && |GetAvailableSubscriptions(Some(data))| > 0
  }

  /** An empty offer means every listed plan is already subscribed to. */
  lemma NothingAvailable(data: DashboardData)
    requires GetAvailableSubscriptions(Some(data)) == []
    ensures forall i :: 0 <= i < |data.subscriptions| ==> Subscribed(data.userSubscriptions, data.subscriptions[i].id)
  {
    forall i | 0 <= i < |data.subscriptions|
      ensures Subscribed(data.userSubscriptions, data.subscriptions[i].id)
    {
      assert data.subscriptions[i] !in GetAvailableSubscriptions(Some(data));
    }
  }

  /** The two copies disagree exactly when every plan is already subscribed to (or there are none). */
  lemma SectionCopiesDiffer(data: DashboardData, now: int)
    ensures SrcShowAvailableSection(data, now) ==> ShowAvailableSection(data, now)
    ensures ShowAvailableSection(data, now) && !SrcShowAvailableSection(data, now) <==>
      (ShowAvailableSection(data, now) &&
       forall i :: 0 <= i < |data.subscriptions| ==> Subscribed(data.userSubscriptions, data.subscriptions[i].id))
  {
    var avail := GetAvailableSubscriptions(Some(data));
    if avail == [] {
      NothingAvailable(data);
    } else {
      assert avail[0] in data.subscriptions;
    }
  }

  class SrcUserDashboardPage {
    var dashboardData: Option<DashboardData>
    var loading: bool
    var attendanceMarked: bool

    constructor ()
      ensures dashboardData == None && loading && !attendanceMarked
    {
      dashboardData := None;
      loading := true;
      attendanceMarked := false;
    }

    /**
     * `fetchDashboard()` of this copy: the request is issued whatever the
     * storage holds (with `Bearer null` when there is no token).
     */
    method FetchDashboard(storage: LocalStorage, reply: Outcome<DashboardData>, now: int) returns (e: Effect)
      modifies this, storage
      ensures e.requested && !e.reload && !loading
      ensures reply.Ok? ==>
        dashboardData == Some(reply.value) &&
        attendanceMarked == AttendanceMarkedToday(reply.value.attendance, DayOf(now)) &&
        e.navigate == None && e.toast == None && unchanged(storage)
      ensures reply.Status? ==>
        dashboardData == old(dashboardData) && attendanceMarked == old(attendanceMarked) &&
        e.toast == Some(ErrorToastOf(OrElse(reply.error, LoadFailed))) &&
        (if reply.code == Unauthorized
         then storage.token == None && storage.role == None && e.navigate == Some(LoginRoute)
         else unchanged(storage) && e.navigate == None)
      ensures reply.NetworkError? ==>
        dashboardData == old(dashboardData) && attendanceMarked == old(attendanceMarked) &&
        e.toast == Some(ErrorToastOf(NetworkErrorText)) && e.navigate == None && unchanged(storage)
    {
      e := Effect(true, None, None, false);
      match reply {
        case Ok(data) =>
          dashboardData := Some(data);
          attendanceMarked := AttendanceMarkedToday(data.attendance, DayOf(now));
        case Status(code, error) =>
          e := e.(toast := Some(ErrorToastOf(OrElse(error, LoadFailed))));
          if code == Unauthorized {
            storage.ClearSession();
            e := e.(navigate := Some(LoginRoute));
          }
        case NetworkError =>
          e := e.(toast := Some(ErrorToastOf(NetworkErrorText)));
      }
      loading := false;
    }

    /** `handleRSVP(classId)` of this copy: the error notice falls back to "Failed to RSVP". */
    method HandleRsvp(reply: Outcome<Option<string>>) returns (e: Effect)
      ensures e.requested && e.navigate == None
      ensures e.reload <==> reply.Ok?
      ensures reply.Ok? ==> e.toast == Some(Toast(SuccessToast, reply.value))
      ensures reply.Status? ==> e.toast == Some(ErrorToastOf(OrElse(reply.error, "Failed to RSVP")))
      ensures reply.NetworkError? ==> e.toast == Some(ErrorToastOf(NetworkErrorText))
    {
      match reply {
        case Ok(message) => e := Effect(true, None, Some(Toast(SuccessToast, message)), true);
        case Status(_, error) => e := Effect(true, None, Some(ErrorToastOf(OrElse(error, "Failed to RSVP"))), false);
        case NetworkError => e := Effect(true, None, Some(ErrorToastOf(NetworkErrorText)), false);
      }
    }

    /** `handleMarkAttendance()` of this copy. */
    method HandleMarkAttendance(reply: Outcome<Option<string>>) returns (e: Effect)
      modifies this`attendanceMarked
      ensures e.requested && e.navigate == None
      ensures e.reload <==> reply.Ok?
      ensures attendanceMarked == (reply.Ok? || old(attendanceMarked))
      ensures reply.Ok? ==> e.toast == Some(Toast(SuccessToast, reply.value))
      ensures reply.Status? ==> e.toast == Some(ErrorToastOf(OrElse(reply.error, "Failed to mark attendance")))
      ensures reply.NetworkError? ==> e.toast == Some(ErrorToastOf(NetworkErrorText))
    {
      match reply {
        case Ok(message) =>
          attendanceMarked := true;
          e := Effect(true, None, Some(Toast(SuccessToast, message)), true);
        case Status(_, error) => e := Effect(true, None, Some(ErrorToastOf(OrElse(error, "Failed to mark attendance"))), false);
        case NetworkError => e := Effect(true, None, Some(ErrorToastOf(NetworkErrorText)), false);
      }
    }
  }
}
