/**
 * The frontend's view of the backend's JSON payloads: the fields of each
 * `to_dict` that the pages read. Date-times are integer milliseconds since the
 * epoch; an attendance `date` is a day number (milliseconds divided by the
 * length of a day), so comparing it with today's ISO date is comparing days.
 */
module Views {
  import opened Wrappers

  const MsPerDay: int := 86400000

  datatype UserView = UserView(id: int, username: string, email: string, role: string)

  datatype PlanView = PlanView(id: int, name: string, durationDays: int, price: real, description: Option<string>)

  datatype SubscriptionView = SubscriptionView(id: int, userId: int, planId: int, name: string, startDate: int, endDate: Option<int>)

  datatype AttendanceView = AttendanceView(id: int, userId: int, date: int, attended: bool)

  datatype ClassView = ClassView(id: int, name: string, dateTime: int, description: Option<string>,
                                 trainerId: Option<int>, maxCapacity: int, currentCapacity: int)

  datatype RsvpView = RsvpView(id: int, userId: int, classId: int, attending: bool)

  /** The UTC day of an instant: `new Date(now).toISOString().split('T')[0]`. */
  function DayOf(instant: int): int
  {
    instant / MsPerDay
  }
}
