/**
 * The member dashboard (frontend copy): the helpers that decide what the page
 * shows, and the page state that `fetchDashboard` and the handlers update.
 */
module UserDashboard {
  import opened Wrappers
  import opened Seqs
  import opened Http
  import opened Views
  import opened Session

  /** The `/api/dashboard` payload. */
  datatype DashboardData = DashboardData(
    user: UserView,
    subscriptions: seq<PlanView>,
    userSubscriptions: seq<SubscriptionView>,
    attendance: seq<AttendanceView>,
    trainerDetails: Option<UserView>,
    classes: seq<ClassView>,
    rsvps: seq<RsvpView>)

  /** What `calculateDaysLeft` renders: `'N/A'`, a day count or `'Expired'`. */
  datatype DaysLeft = NotAvailable | Days(n: int) | Expired

  /** `Math.ceil(a / b)` for an integer `a` and a positive integer `b`. */
  function CeilDiv(a: int, b: int): (r: int)
    requires b > 0
    ensures (r - 1) * b < a <= r * b
  {
    var q := (-a) / b;
    assert -a == q * b + (-a) % b;
    -q
  }

  /** The ceiling is unique: any integer with the same bracketing property is it. */
  lemma CeilDivUnique(a: int, b: int, r: int)
    requires b > 0 && (r - 1) * b < a <= r * b
    ensures r == CeilDiv(a, b)
  {
    var c := CeilDiv(a, b);
    assert r < c ==> r * b <= (c - 1) * b;
    assert r > c ==> c * b <= (r - 1) * b;
  }

  /** `calculateDaysLeft(endDate)` evaluated at instant `now`. */
  function CalculateDaysLeft(endDate: Option<int>, now: int): (r: DaysLeft)
    ensures endDate.None? <==> r == NotAvailable
    ensures endDate.Some? ==> (r == Expired <==> endDate.value <= now)
    ensures r.Days? ==> r.n >= 1 && (r.n - 1) * MsPerDay < endDate.value - now <= r.n * MsPerDay
  {
    match endDate
    case None => NotAvailable
    case Some(end) =>
      var diffDays := CeilDiv(end - now, MsPerDay);
      if diffDays > 0 then Days(diffDays) else Expired
  }

  /** `new Date(sub.end_date)` as an instant: a null end date is the epoch. */
  function EndInstant(endDate: Option<int>): int
  {
    endDate.GetOr(0)
  }

  /** `hasActiveSubscription()`: `dashboardData?.user_subscriptions.some(sub => new Date(sub.end_date) > new Date())`. */
  function HasActiveSubscription(data: Option<DashboardData>, now: int): (r: bool)
    ensures r <==> (data.Some? &&
      exists i :: 0 <= i < |data.value.userSubscriptions| && EndInstant(data.value.userSubscriptions[i].endDate) > now)
  {
    data.Some? && Any(data.value.userSubscriptions, (s: SubscriptionView) => EndInstant(s.endDate) > now)
  }

  /** `subscribedPlanIds.includes(planId)`. */
  predicate Subscribed(subs: seq<SubscriptionView>, planId: int)
  {
    Any(subs, (s: SubscriptionView) => s.planId == planId)
  }

  /** `getAvailableSubscriptions()`. */
  function GetAvailableSubscriptions(data: Option<DashboardData>): (r: seq<PlanView>)
    ensures data.None? ==> r == []
    ensures data.Some? ==> forall i :: 0 <= i < |r| ==>
      r[i] in data.value.subscriptions &&
      forall j :: 0 <= j < |data.value.userSubscriptions| ==> data.value.userSubscriptions[j].planId != r[i].id
    ensures data.Some? ==> forall i :: 0 <= i < |data.value.subscriptions| ==>
      (forall j :: 0 <= j < |data.value.userSubscriptions| ==> data.value.userSubscriptions[j].planId != data.value.subscriptions[i].id) ==>
      data.value.subscriptions[i] in r
  {
    match data
    case None => []
    case Some(d) => Available(d.subscriptions, d.userSubscriptions)
  }

  /** The filter inside `getAvailableSubscriptions`, on its two inputs. */
  function Available(plans: seq<PlanView>, subs: seq<SubscriptionView>): seq<PlanView>
  {
    Filter(plans, (p: PlanView) => !Subscribed(subs, p.id))
  }

  /** The available plans of a concatenated plan list are the available plans of each part, in order. */
  lemma AvailablePreservesOrder(a: seq<PlanView>, b: seq<PlanView>, subs: seq<SubscriptionView>)
    ensures Available(a + b, subs) == Available(a, subs) + Available(b, subs)
  {
    FilterAppend(a, b, (p: PlanView) => !Subscribed(subs, p.id));
  }

  /** A member without subscriptions is offered every plan, in the order the backend lists them. */
  lemma NoSubscriptionsAllAvailable(data: DashboardData)
    requires data.userSubscriptions == []
    ensures GetAvailableSubscriptions(Some(data)) == data.subscriptions
  {
    FilterAll(data.subscriptions, (p: PlanView) => !Subscribed(data.userSubscriptions, p.id));
  }

  /** The Available Subscriptions section (line 173) is rendered only without an active subscription. */
  predicate ShowAvailableSection(data: DashboardData, now: int)
  {
    !HasActiveSubscription(Some(data), now)
  }

  lemma ShowAvailableSectionIff(data: DashboardData, now: int)
    ensures ShowAvailableSection(data, now) <==>
      forall i :: 0 <= i < |data.userSubscriptions| ==> EndInstant(data.userSubscriptions[i].endDate) <= now
  {
  }

  /** The derived `attendanceMarked` flag: some record for today that is attended. */
  function AttendanceMarkedToday(attendance: seq<AttendanceView>, today: int): (r: bool)
    ensures r <==> exists i :: 0 <= i < |attendance| && attendance[i].date == today && attendance[i].attended
  {
    Any(attendance, (a: AttendanceView) => a.date == today && a.attended)
  }

  datatype ButtonState = ButtonState(disabled: bool, caption: string)

  /** The RSVP button of one class: disabled and labelled "RSVPed" once the member has an RSVP for it. */
  function RsvpButton(rsvps: seq<RsvpView>, classId: int): (r: ButtonState)
    ensures r.disabled <==> exists i :: 0 <= i < |rsvps| && rsvps[i].classId == classId
    ensures r.caption == (if r.disabled then "RSVPed" else "RSVP")
  {
    var taken := Any(rsvps, (v: RsvpView) => v.classId == classId);
    ButtonState(taken, if taken then "RSVPed" else "RSVP")
  }

  const DashboardPath: string := "/api/dashboard"
  const PleaseLogIn: string := "Please log in to access the dashboard"
  const LoadFailed: string := "Failed to load dashboard"

  /** The component's state. */
  class UserDashboardPage {
    var dashboardData: Option<DashboardData>
    var loading: bool
    var attendanceMarked: bool

    constructor ()
      ensures dashboardData == None && loading && !attendanceMarked
    {
      dashboardData := None;
      loading := true;
      attendanceMarked := false;
    }

    /**
     * `fetchDashboard()`. Without a token it redirects before the `try`, so no
     * request is issued and `loading` is left as it was. `reply` is what the
     * request settles to when it is issued; `now` is the client clock.
     */
    method FetchDashboard(storage: LocalStorage, reply: Outcome<DashboardData>, now: int) returns (e: Effect)
      modifies this, storage
      ensures !old(storage.HasToken()) ==>
        e == Effect(false, Some(LoginRoute), Some(ErrorToastOf(PleaseLogIn)), false) &&
        unchanged(this) && unchanged(storage)
      ensures old(storage.HasToken()) ==> e.requested && !e.reload && !loading
      ensures old(storage.HasToken()) && reply.Ok? ==>
        dashboardData == Some(reply.value) &&
        attendanceMarked == AttendanceMarkedToday(reply.value.attendance, DayOf(now)) &&
        e.navigate == None && e.toast == None && unchanged(storage)
      ensures old(storage.HasToken()) && reply.Status? ==>
        dashboardData == old(dashboardData) && attendanceMarked == old(attendanceMarked) &&
        e.toast == Some(ErrorToastOf(OrElse(reply.error, LoadFailed))) &&
        (if reply.code == Unauthorized
         then storage.token == None && storage.role == None && e.navigate == Some(LoginRoute)
         else unchanged(storage) && e.navigate == None)
      ensures old(storage.HasToken()) && reply.NetworkError? ==>
        dashboardData == old(dashboardData) && attendanceMarked == old(attendanceMarked) &&
        e.toast == Some(ErrorToastOf(NetworkErrorText)) && e.navigate == None && unchanged(storage)
    {
      if !storage.HasToken() {
        return Effect(false, Some(LoginRoute), Some(ErrorToastOf(PleaseLogIn)), false);
      }
      e := Effect(true, None, None, false);
      match reply {
        case Ok(data) =>
          dashboardData := Some(data);
          attendanceMarked := AttendanceMarkedToday(data.attendance, DayOf(now));
        case Status(code, error) =>
          e := e.(toast := Some(ErrorToastOf(OrElse(error, LoadFailed))));
          if code == Unauthorized {
            storage.ClearSession();
            e := e.(navigate := Some(LoginRoute));
          }
        case NetworkError =>
          e := e.(toast := Some(ErrorToastOf(NetworkErrorText)));
      }
      loading := false;
    }

    /** `handleRSVP(classId)`: a notice, and a re-fetch on success; the page's own state is untouched. */
    method HandleRsvp(reply: Outcome<Option<string>>) returns (e: Effect)
      ensures e.requested && e.navigate == None
      ensures e.reload <==> reply.Ok?
      ensures reply.Ok? ==> e.toast == Some(Toast(SuccessToast, reply.value))
      ensures reply.Status? ==> e.toast == Some(Toast(ErrorToast, reply.error))
      ensures reply.NetworkError? ==> e.toast == Some(ErrorToastOf(NetworkErrorText))
    {
      match reply {
        case Ok(message) => e := Effect(true, None, Some(Toast(SuccessToast, message)), true);
        case Status(_, error) => e := Effect(true, None, Some(Toast(ErrorToast, error)), false);
        case NetworkError => e := Effect(true, None, Some(ErrorToastOf(NetworkErrorText)), false);
      }
    }

    /** `handleMarkAttendance()`: on success the button turns to "Attendance Marked" before the re-fetch. */
    method HandleMarkAttendance(reply: Outcome<Option<string>>) returns (e: Effect)
      modifies this`attendanceMarked
      ensures e.requested && e.navigate == None
      ensures e.reload <==> reply.Ok?
      ensures attendanceMarked == (reply.Ok? || old(attendanceMarked))
      ensures reply.Ok? ==> e.toast == Some(Toast(SuccessToast, reply.value))
      ensures reply.Status? ==> e.toast == Some(Toast(ErrorToast, reply.error))
      ensures reply.NetworkError? ==> e.toast == Some(ErrorToastOf(NetworkErrorText))
    {
      match reply {
        case Ok(message) =>
          attendanceMarked := true;
          e := Effect(true, None, Some(Toast(SuccessToast, message)), true);
        case Status(_, error) => e := Effect(true, None, Some(Toast(ErrorToast, error)), false);
        case NetworkError => e := Effect(true, None, Some(ErrorToastOf(NetworkErrorText)), false);
      }
    }

    /** `handleRegisterSubscription(planId)`. */
    method HandleRegisterSubscription(reply: Outcome<Option<string>>) returns (e: Effect)
      ensures e.requested && e.navigate == None
      ensures e.reload <==> reply.Ok?
      ensures reply.Ok? ==> e.toast == Some(SuccessToastOf("Subscribed successfully!"))
      ensures reply.Status? ==> e.toast == Some(ErrorToastOf(OrElse(reply.error, "Failed to subscribe")))
      ensures reply.NetworkError? ==> e.toast == Some(ErrorToastOf(NetworkErrorText))
    {
      match reply {
        case Ok(_) => e := Effect(true, None, Some(SuccessToastOf("Subscribed successfully!")), true);
        case Status(_, error) => e := Effect(true, None, Some(ErrorToastOf(OrElse(error, "Failed to subscribe"))), false);
        case NetworkError => e := Effect(true, None, Some(ErrorToastOf(NetworkErrorText)), false);
      }
    }
  }
}
