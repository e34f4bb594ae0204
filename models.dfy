/**
 * The database records of the backend, the defaults their columns declare,
 * password setting and checking, and the dictionaries their `to_dict` methods
 * build. Date-times are integer milliseconds; an attendance date is a day number.
 */
module Models {
  import opened Wrappers

  /** A JSON value, as `jsonify` renders a Python dictionary. */
  datatype Json = JNull | JBool(b: bool) | JInt(i: int) | JNum(r: real) | JStr(s: string)
                | JArray(items: seq<Json>) | JObject(fields: map<string, Json>)

  /**
   * A user row. `passwordHash` is the stored output of the password hashing
   * function; the model never looks inside it.
   */
  datatype User = User(id: int, username: string, email: string, passwordHash: string, role: string, createdAt: int)

  datatype SubscriptionPlan = SubscriptionPlan(id: int, name: string, durationDays: int, price: real, description: Option<string>)

  datatype UserSubscription = UserSubscription(id: int, userId: int, planId: int, startDate: int, endDate: Option<int>)

  datatype Attendance = Attendance(id: int, userId: int, date: int, attended: bool)

  datatype WorkoutClass = WorkoutClass(id: int, name: string, dateTime: int, description: Option<string>,
                                       trainerId: Option<int>, maxCapacity: int, currentCapacity: int)

  datatype ClassRsvp = ClassRsvp(id: int, userId: int, classId: int, attending: bool)

  /** A row of `trainer_trainee`; the pair of ids is the table's primary key. */
  datatype Assignment = Assignment(trainerId: int, traineeId: int)

  const DefaultMaxCapacity: int := 10

  /**
   * `set_password(p)`: only the hash column changes. `hash` stands for
   * werkzeug's `generate_password_hash`.
   */
  function SetPassword(u: User, hash: string -> string, password: string): (r: User)
    ensures r.passwordHash == hash(password)
    ensures r.(passwordHash := u.passwordHash) == u
  {
    u.(passwordHash := hash(password))
  }

  /** `check_password(p)`: `check_password_hash` modelled as comparing `hash(p)` with the stored hash. */
  predicate CheckPassword(u: User, hash: string -> string, password: string)
  {
    u.passwordHash == hash(password)
  }

  /** After `set_password(p)`, `check_password(p)` holds, and only passwords with the same hash also pass. */
  lemma SetThenCheck(u: User, hash: string -> string, p: string, q: string)
    ensures CheckPassword(SetPassword(u, hash, p), hash, p)
    ensures CheckPassword(SetPassword(u, hash, p), hash, q) <==> hash(q) == hash(p)
  {
  }

  /** A new `WorkoutClass`: `max_capacity` defaults to 10 and `current_capacity` to 0. */
  function NewWorkoutClass(id: int, name: string, dateTime: int, description: Option<string>,
                           trainerId: Option<int>, maxCapacity: Option<int>): (r: WorkoutClass)
    ensures r.currentCapacity == 0
    ensures r.maxCapacity == (if maxCapacity.Some? then maxCapacity.value else 10)
    ensures r.id == id && r.name == name && r.dateTime == dateTime && r.description == description && r.trainerId == trainerId
  {
    WorkoutClass(id, name, dateTime, description, trainerId, maxCapacity.GetOr(DefaultMaxCapacity), 0)
  }

  /** A new `Attendance`: `attended` defaults to false. */
  function NewAttendance(id: int, userId: int, date: int, attended: Option<bool>): (r: Attendance)
    ensures r.attended <==> attended == Some(true)
    ensures r.id == id && r.userId == userId && r.date == date
  {
    Attendance(id, userId, date, attended.GetOr(false))
  }

  /** A new `ClassRSVP`: `attending` defaults to false. */
  function NewClassRsvp(id: int, userId: int, classId: int, attending: Option<bool>): (r: ClassRsvp)
    ensures r.attending <==> attending == Some(true)
    ensures r.id == id && r.userId == userId && r.classId == classId
  {
    ClassRsvp(id, userId, classId, attending.GetOr(false))
  }

  function OptionalText(s: Option<string>): Json
  {
    match s
    case None => JNull
    case Some(t) => JStr(t)
  }

  function OptionalInt(i: Option<int>): Json
  {
    match i
    case None => JNull
    case Some(v) => JInt(v)
  }

  /** `User.to_dict`: exactly `id`, `username`, `email` and `role`. */
  function UserToDict(u: User): (r: map<string, Json>)
    ensures r.Keys == {"id", "username", "email", "role"}
    ensures r["id"] == JInt(u.id) && r["username"] == JStr(u.username) && r["email"] == JStr(u.email) && r["role"] == JStr(u.role)
  {
    map["id" := JInt(u.id), "username" := JStr(u.username), "email" := JStr(u.email), "role" := JStr(u.role)]
  }

  /** The dictionary does not depend on the password hash: setting a password never changes what is exposed. */
  lemma UserToDictHidesPassword(u: User, hash: string -> string, p: string)
    ensures UserToDict(SetPassword(u, hash, p)) == UserToDict(u)
    ensures "password_hash" !in UserToDict(u)
  {
  }

  function PlanToDict(p: SubscriptionPlan): (r: map<string, Json>)
    ensures r.Keys == {"id", "name", "duration_days", "price", "description"}
    ensures r["duration_days"] == JInt(p.durationDays) && r["price"] == JNum(p.price)
  {
    map["id" := JInt(p.id), "name" := JStr(p.name), "duration_days" := JInt(p.durationDays),
        "price" := JNum(p.price), "description" := OptionalText(p.description)]
  }

  /** `UserSubscription.to_dict`: carries the plan's name; `end_date` is null when the column is empty. */
  function SubscriptionToDict(s: UserSubscription, plan: SubscriptionPlan): (r: map<string, Json>)
    ensures r.Keys == {"id", "user_id", "plan_id", "name", "start_date", "end_date"}
    ensures r["name"] == JStr(plan.name)
    ensures r["end_date"] == JNull <==> s.endDate.None?
    ensures s.endDate.Some? ==> r["end_date"] == JInt(s.endDate.value)
  {
    map["id" := JInt(s.id), "user_id" := JInt(s.userId), "plan_id" := JInt(s.planId), "name" := JStr(plan.name),
        "start_date" := JInt(s.startDate), "end_date" := OptionalInt(s.endDate)]
  }

  function AttendanceToDict(a: Attendance): (r: map<string, Json>)
    ensures r.Keys == {"id", "user_id", "date", "attended"}
    ensures r["attended"] == JBool(a.attended) && r["date"] == JInt(a.date)
  {
    map["id" := JInt(a.id), "user_id" := JInt(a.userId), "date" := JInt(a.date), "attended" := JBool(a.attended)]
  }

  function ClassToDict(c: WorkoutClass): (r: map<string, Json>)
    ensures r.Keys == {"id", "name", "date_time", "description", "trainer_id", "max_capacity", "current_capacity"}
    ensures r["max_capacity"] == JInt(c.maxCapacity) && r["current_capacity"] == JInt(c.currentCapacity)
  {
    map["id" := JInt(c.id), "name" := JStr(c.name), "date_time" := JInt(c.dateTime),
        "description" := OptionalText(c.description), "trainer_id" := OptionalInt(c.trainerId),
        "max_capacity" := JInt(c.maxCapacity), "current_capacity" := JInt(c.currentCapacity)]
  }

  function RsvpToDict(v: ClassRsvp): (r: map<string, Json>)
    ensures r.Keys == {"id", "user_id", "class_id", "attending"}
    ensures r["class_id"] == JInt(v.classId) && r["attending"] == JBool(v.attending)
  {
    map["id" := JInt(v.id), "user_id" := JInt(v.userId), "class_id" := JInt(v.classId), "attending" := JBool(v.attending)]
  }
}
