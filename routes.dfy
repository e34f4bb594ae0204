/**
 * The Flask backend as a store with one sequence per table and one method per
 * route. Tables keep insertion order, which is the order of `.all()` and the
 * row `.first()` returns. The caller's identity (decoded from the JWT), the
 * request body and the clock are parameters; hashing and token issuance are
 * opaque functions fixed when the store is created.
 */
module Routes {
  import opened Wrappers
  import opened Seqs
  import opened Models

  const MsPerDay: int := 86400000

  /** The largest value of a 32-bit SQL INTEGER column. */
  const IntegerLimit: int := 2147483647

  /** A reply: HTTP status and JSON body. */
  datatype Response = Response(status: int, body: Json)

  function ErrorResponse(status: int, text: string): Response
  {
    Response(status, JObject(map["error" := JStr(text)]))
  }

  function MessageResponse(status: int, text: string): Response
  {
    Response(status, JObject(map["message" := JStr(text)]))
  }

  /** What every route's `except Exception` branch answers. */
  const InternalError: Response := ErrorResponse(500, "Internal server error")

  const AccessDenied: Response := ErrorResponse(403, "Access denied")

  function AuthBody(token: string, role: string): Json
  {
    JObject(map["access_token" := JStr(token), "role" := JStr(role)])
  }

  // ---------------------------------------------------------------------------
  // Request bodies. `None` is a key missing from the JSON object.
  // ---------------------------------------------------------------------------

  datatype RegisterRequest = RegisterRequest(username: Option<string>, email: Option<string>,
                                             password: Option<string>, role: Option<string>)

  datatype LoginRequest = LoginRequest(username: Option<string>, password: Option<string>)

  datatype ClassRequest = ClassRequest(name: Option<string>, dateTime: Option<int>, maxCapacity: Option<int>)

  /**
   * A numeric field passed through `int(...)` or `float(...)`: missing (the
   * `.get` default applies), JSON null (`TypeError`), a value the conversion
   * refuses (`ValueError`), or a number.
   */
  datatype NumField<T> = Absent | Null | Malformed | Num(value: T)

  datatype PlanRequest = PlanRequest(planName: Option<string>, durationMonths: NumField<int>,
                                     price: NumField<real>, description: Option<string>)

  /** The body of a PUT on users or trainers. */
  datatype UpdateRequest = UpdateRequest(id: Option<int>, username: Option<string>, email: Option<string>,
                                         role: Option<string>, password: Option<string>)

  // ---------------------------------------------------------------------------
  // Row lookups.
  // ---------------------------------------------------------------------------

  function HasId(id: int): User -> bool
  {
    (u: User) => u.id == id
  }

  function HasRole(role: string): User -> bool
  {
    (u: User) => u.role == role
  }

  /** `User.query.get(id)`. */
  function UserIndex(users: seq<User>, id: int): (r: Option<nat>)
    ensures r.Some? ==> r.value < |users| && users[r.value].id == id
    ensures r.None? <==> forall j :: 0 <= j < |users| ==> users[j].id != id
  {
    Find(users, HasId(id))
  }

  function RoleOf(users: seq<User>, id: int): Option<string>
  {
    match UserIndex(users, id)
    case None => None
    case Some(k) => Some(users[k].role)
  }

  /**
   * `user = User.query.get(uid)` followed by `if user.role != role: 403`, as in
   * every mutating route: a caller with no row makes `user.role` raise, so the
   * answer is 500. `None` means the caller passes.
   */
  function Gate(users: seq<User>, uid: int, role: string): (r: Option<Response>)
    ensures r.None? <==> RoleOf(users, uid) == Some(role)
    ensures r == Some(InternalError) <==> RoleOf(users, uid).None?
    ensures r == Some(AccessDenied) <==> RoleOf(users, uid).Some? && RoleOf(users, uid).value != role
  {
    match RoleOf(users, uid)
    case None => Some(InternalError)
    case Some(actual) => if actual == role then None else Some(AccessDenied)
  }

  function UsernameTaken(users: seq<User>, name: string): bool
  {
    Any(users, (u: User) => u.username == name)
  }

  function EmailTaken(users: seq<User>, email: string): bool
  {
    Any(users, (u: User) => u.email == email)
  }

  /** Some row other than index `k` already has this username or email, so the unique constraint fails on commit. */
  predicate ClashesWithOthers(users: seq<User>, k: int, u: User)
  {
    exists j :: 0 <= j < |users| && j != k && (users[j].username == u.username || users[j].email == u.email)
  }

  function ForClass(classId: int): ClassRsvp -> bool
  {
    (v: ClassRsvp) => v.classId == classId
  }

  /** The number of RSVP rows for a class. */
  function RsvpsFor(rsvps: seq<ClassRsvp>, classId: int): nat
  {
    Count(rsvps, ForClass(classId))
  }

  /** `end_date > now`, false when the column is empty (SQL comparison with NULL). */
  predicate ActiveAt(s: UserSubscription, now: int)
  {
    s.endDate.Some? && s.endDate.value > now
  }

  /** The filter of the active-subscription query. */
  function ActiveFor(uid: int, now: int): UserSubscription -> bool
  {
    (s: UserSubscription) => s.userId == uid && ActiveAt(s, now)
  }

  /** The filter of the existing-subscription query. */
  function OnPlan(uid: int, planId: int): UserSubscription -> bool
  {
    (s: UserSubscription) => s.userId == uid && s.planId == planId
  }

  function Without<T>(s: seq<T>, k: nat): (r: seq<T>)
    requires k < |s|
    ensures |r| == |s| - 1
    ensures forall i :: 0 <= i < k ==> r[i] == s[i]
    ensures forall i :: k <= i < |r| ==> r[i] == s[i + 1]
  {
    s[..k] + s[k + 1..]
  }

  // ---------------------------------------------------------------------------
  // Table invariants.
  // ---------------------------------------------------------------------------

  /**
   * Ids are below the next id to hand out, and `id`, `username` and `email` are
   * unique (the primary key and the two unique columns of `users`).
   */
  predicate UsersWellFormed(users: seq<User>, nextId: int)
  {
    1 <= nextId &&
    (forall i :: 0 <= i < |users| ==> 1 <= users[i].id < nextId) &&
    (forall i, j :: 0 <= i < |users| && 0 <= j < |users| && i != j ==>
       users[i].id != users[j].id && users[i].username != users[j].username && users[i].email != users[j].email)
  }

  /** Plans only ever come from `create_subscription`: a whole number of 30-day months, 1 to 60 of them, at a positive price. */
  predicate PlansWellFormed(plans: seq<SubscriptionPlan>)
  {
    forall i :: 0 <= i < |plans| ==>
      plans[i].id == i + 1 && 30 <= plans[i].durationDays <= 1800 && plans[i].durationDays % 30 == 0 && plans[i].price > 0.0
  }

  /**
   * Every RSVP names an existing class, and each class's `current_capacity` is
   * its number of RSVP rows, never above `max_capacity` unless it is 0.
   */
  predicate ClassesConsistent(classes: seq<WorkoutClass>, rsvps: seq<ClassRsvp>)
  {
    (forall i :: 0 <= i < |classes| ==>
       classes[i].id == i + 1 && classes[i].currentCapacity == RsvpsFor(rsvps, i + 1) &&
       (classes[i].currentCapacity == 0 || classes[i].currentCapacity <= classes[i].maxCapacity)) &&
    (forall k :: 0 <= k < |rsvps| ==> rsvps[k].id == k + 1 && 1 <= rsvps[k].classId <= |classes|)
  }

  /**
   * Every subscription has an end after its start and names an existing plan;
   * a user's subscriptions, in the order they were taken, do not overlap and
   * are to different plans.
   */
  predicate SubscriptionsConsistent(subs: seq<UserSubscription>, planCount: int)
  {
    (forall i :: 0 <= i < |subs| ==>
       subs[i].id == i + 1 && 1 <= subs[i].planId <= planCount &&
       subs[i].endDate.Some? && subs[i].startDate < subs[i].endDate.value) &&
    (forall i, j :: 0 <= i < j < |subs| && subs[i].userId == subs[j].userId ==>
       !ActiveAt(subs[i], subs[j].startDate) && subs[i].planId != subs[j].planId)
  }

  predicate AttendancesNumbered(attendances: seq<Attendance>)
  {
    forall i :: 0 <= i < |attendances| ==> attendances[i].id == i + 1
  }

  // ---------------------------------------------------------------------------
  // Rows the routes insert.
  // ---------------------------------------------------------------------------

  /** The subscription `register_subscription` inserts: it starts now and ends `duration_days` later. */
  function NewSubscription(id: int, uid: int, plan: SubscriptionPlan, now: int): (r: UserSubscription)
    ensures r.startDate == now && r.endDate == Some(now + plan.durationDays * MsPerDay)
    ensures r.id == id && r.userId == uid && r.planId == plan.id
  {
    UserSubscription(id, uid, plan.id, now, Some(now + plan.durationDays * MsPerDay))
  }

  /** One more seat taken in a class. */
  function TakePlace(c: WorkoutClass): (r: WorkoutClass)
    ensures r.currentCapacity == c.currentCapacity + 1
    ensures r.(currentCapacity := c.currentCapacity) == c
  {
    c.(currentCapacity := c.currentCapacity + 1)
  }

  /**
   * The PUT partial update: each of `username`, `email` and `role` keeps its
   * value unless the body supplies one, and the password is re-hashed only for
   * a non-empty one.
   */
  function PatchUser(u: User, req: UpdateRequest, hash: string -> string): (r: User)
    ensures r.id == u.id && r.createdAt == u.createdAt
    ensures req.username.None? ==> r.username == u.username
    ensures req.username.Some? ==> r.username == req.username.value
    ensures req.email.None? ==> r.email == u.email
    ensures req.email.Some? ==> r.email == req.email.value
    ensures req.role.None? ==> r.role == u.role
    ensures req.role.Some? ==> r.role == req.role.value
    ensures req.password.Some? && req.password.value != "" ==> CheckPassword(r, hash, req.password.value)
    ensures !(req.password.Some? && req.password.value != "") ==> r.passwordHash == u.passwordHash
  {
    var v := u.(username := req.username.GetOr(u.username), email := req.email.GetOr(u.email),
                role := req.role.GetOr(u.role));
    if req.password.Some? && req.password.value != "" then SetPassword(v, hash, req.password.value) else v
  }

  /** The trainer PUT: the same partial update, with no role field. */
  function PatchTrainer(u: User, req: UpdateRequest, hash: string -> string): (r: User)
    ensures r.role == u.role
    ensures r == PatchUser(u, req.(role := None), hash)
  {
    PatchUser(u, req.(role := None), hash)
  }

  /** A body that supplies nothing leaves the row as it was. */
  lemma EmptyPatchIsIdentity(u: User, id: Option<int>, hash: string -> string)
    ensures PatchUser(u, UpdateRequest(id, None, None, None, None), hash) == u
    ensures PatchUser(u, UpdateRequest(id, None, None, None, Some("")), hash) == u
  {
  }

  // ---------------------------------------------------------------------------
  // The routes' inserts, updates and deletes keep the invariants.
  // ---------------------------------------------------------------------------

  /** Inserting a user with the next id and an unused username and email. */
  lemma AddUserKeepsUsers(users: seq<User>, nextId: int, u: User)
    requires UsersWellFormed(users, nextId)
    requires u.id == nextId
    requires forall i :: 0 <= i < |users| ==> users[i].username != u.username && users[i].email != u.email
    ensures UsersWellFormed(users + [u], nextId + 1)
  {
  }

  /** Updating a row in place, keeping its id, with no clash against the other rows. */
  lemma ReplaceUserKeepsUsers(users: seq<User>, nextId: int, k: nat, u: User)
    requires UsersWellFormed(users, nextId)
    requires k < |users| && u.id == users[k].id
    requires !ClashesWithOthers(users, k, u)
    ensures UsersWellFormed(users[k := u], nextId)
  {
  }

  /** Deleting a row. */
  lemma RemoveUserKeepsUsers(users: seq<User>, nextId: int, k: nat)
    requires UsersWellFormed(users, nextId)
    requires k < |users|
    ensures UsersWellFormed(Without(users, k), nextId)
  {
    var r := Without(users, k);
    forall i, j | 0 <= i < |r| && 0 <= j < |r| && i != j
      ensures r[i].id != r[j].id && r[i].username != r[j].username && r[i].email != r[j].email
    {
      var i' := if i < k then i else i + 1;
      var j' := if j < k then j else j + 1;
      assert r[i] == users[i'] && r[j] == users[j'];
    }
  }

  /** A successful RSVP: one more row for class `k`, and its capacity goes up by one. */
  lemma {:induction false} TakePlaceKeepsClasses(classes: seq<WorkoutClass>, rsvps: seq<ClassRsvp>, k: nat, uid: int)
    requires ClassesConsistent(classes, rsvps)
    requires k < |classes| && classes[k].currentCapacity < classes[k].maxCapacity
    ensures ClassesConsistent(classes[k := TakePlace(classes[k])],
                              rsvps + [ClassRsvp(|rsvps| + 1, uid, classes[k].id, true)])
  {
    var v := ClassRsvp(|rsvps| + 1, uid, classes[k].id, true);
    forall c | 1 <= c <= |classes|
      ensures RsvpsFor(rsvps + [v], c) == RsvpsFor(rsvps, c) + (if c == k + 1 then 1 else 0)
    {
      CountAppend(rsvps, v, ForClass(c));
    }
  }

  /** A new class starts with no RSVP rows, matching its `current_capacity` of 0. */
  lemma AddClassKeepsClasses(classes: seq<WorkoutClass>, rsvps: seq<ClassRsvp>, c: WorkoutClass)
    requires ClassesConsistent(classes, rsvps)
    requires c.id == |classes| + 1 && c.currentCapacity == 0
    ensures ClassesConsistent(classes + [c], rsvps)
  {
    assert RsvpsFor(rsvps, c.id) == 0 by {
      forall j | 0 <= j < |rsvps|
        ensures !ForClass(c.id)(rsvps[j])
      {
      }
    }
  }

  /**
   * `register_subscription` inserts only when the user has no active
   * subscription and none to this plan; the new row then follows all of the
   * user's earlier ones.
   */
  lemma RegisterKeepsSubscriptions(subs: seq<UserSubscription>, planCount: int, uid: int,
                                   plan: SubscriptionPlan, now: int)
    requires SubscriptionsConsistent(subs, planCount)
    requires 1 <= plan.id <= planCount && plan.durationDays > 0
    requires forall i :: 0 <= i < |subs| ==> !ActiveFor(uid, now)(subs[i])
    requires forall i :: 0 <= i < |subs| ==> !OnPlan(uid, plan.id)(subs[i])
    ensures SubscriptionsConsistent(subs + [NewSubscription(|subs| + 1, uid, plan, now)], planCount)
  {
    var s := NewSubscription(|subs| + 1, uid, plan, now);
    var r := subs + [s];
    forall i, j | 0 <= i < j < |r| && r[i].userId == r[j].userId
      ensures !ActiveAt(r[i], r[j].startDate) && r[i].planId != r[j].planId
    {
      if j == |subs| {
        assert !ActiveFor(uid, now)(subs[i]) && !OnPlan(uid, plan.id)(subs[i]);
      }
    }
  }

  /**
   * At most one active subscription per user: two of a user's subscriptions
   * that have both begun by `t` cannot both end after `t`.
   */
  lemma AtMostOneActive(subs: seq<UserSubscription>, planCount: int, i: nat, j: nat, t: int)
    requires SubscriptionsConsistent(subs, planCount)
    requires i < |subs| && j < |subs| && subs[i].userId == subs[j].userId
    requires subs[i].startDate <= t && subs[j].startDate <= t
    requires ActiveAt(subs[i], t) && ActiveAt(subs[j], t)
    ensures i == j
  {
  }

  /** Right after a successful registration the new subscription is the user's only active one. */
  lemma OnlyNewSubscriptionActive(subs: seq<UserSubscription>, planCount: int, uid: int,
                                  plan: SubscriptionPlan, now: int)
    requires SubscriptionsConsistent(subs, planCount)
    requires plan.durationDays > 0
    requires forall i :: 0 <= i < |subs| ==> !ActiveFor(uid, now)(subs[i])
    ensures var r := subs + [NewSubscription(|subs| + 1, uid, plan, now)];
            forall i :: 0 <= i < |r| && r[i].userId == uid ==> (ActiveAt(r[i], now) <==> i == |subs|)
  {
    var r := subs + [NewSubscription(|subs| + 1, uid, plan, now)];
    forall i | 0 <= i < |r| && r[i].userId == uid
      ensures ActiveAt(r[i], now) <==> i == |subs|
    {
      if i < |subs| {
        assert !ActiveFor(uid, now)(subs[i]);
      }
    }
  }

  function ClassIndex(classes: seq<WorkoutClass>, id: int): (r: Option<nat>)
    ensures r.Some? ==> r.value < |classes| && classes[r.value].id == id
    ensures r.None? <==> forall j :: 0 <= j < |classes| ==> classes[j].id != id
  {
    Find(classes, (c: WorkoutClass) => c.id == id)
  }

  /** `SubscriptionPlan.query.get(id)`. */
  function PlanIndex(plans: seq<SubscriptionPlan>, id: int): (r: Option<nat>)
    ensures r.Some? ==> r.value < |plans| && plans[r.value].id == id
    ensures r.None? <==> forall j :: 0 <= j < |plans| ==> plans[j].id != id
  {
    Find(plans, (p: SubscriptionPlan) => p.id == id)
  }

  /** The class exists and `current_capacity < max_capacity`: the RSVP guard, which never looks at existing RSVPs. */
  predicate HasRoom(classes: seq<WorkoutClass>, classId: int)
  {
    var k := ClassIndex(classes, classId);
    k.Some? && classes[k.value].currentCapacity < classes[k.value].maxCapacity
  }

  predicate HasActive(subs: seq<UserSubscription>, uid: int, now: int)
  {
    exists i :: 0 <= i < |subs| && subs[i].userId == uid && ActiveAt(subs[i], now)
  }

  predicate HasPlan(subs: seq<UserSubscription>, uid: int, planId: int)
  {
    exists i :: 0 <= i < |subs| && subs[i].userId == uid && subs[i].planId == planId
  }

  /** `int(data.get('duration_months', 0))`: `TypeError` is answered 500, `ValueError` 400. */
  function MonthsArg(f: NumField<int>): (r: Result<int, Response>)
    ensures f.Absent? ==> r == Success(0)
    ensures f.Null? ==> r == Failure(InternalError)
    ensures f.Malformed? ==> r == Failure(ErrorResponse(400, "Invalid input format"))
    ensures f.Num? ==> r == Success(f.value)
  {
    match f
    case Absent => Success(0)
    case Null => Failure(InternalError)
    case Malformed => Failure(ErrorResponse(400, "Invalid input format"))
    case Num(m) => Success(m)
  }

  /** `float(data.get('price', 0))`, with the same two failures. */
  function PriceArg(f: NumField<real>): (r: Result<real, Response>)
    ensures f.Absent? ==> r == Success(0.0)
    ensures f.Null? ==> r == Failure(InternalError)
    ensures f.Malformed? ==> r == Failure(ErrorResponse(400, "Invalid input format"))
    ensures f.Num? ==> r == Success(f.value)
  {
    match f
    case Absent => Success(0.0)
    case Null => Failure(InternalError)
    case Malformed => Failure(ErrorResponse(400, "Invalid input format"))
    case Num(p) => Success(p)
  }

  /** A duration that passed the 1 to 60 month check is at most 1800 days, far below the column limit. */
  lemma DurationFitsColumn(months: int)
    requires 1 <= months <= 60
    ensures 30 <= months * 30 <= 1800 < IntegerLimit
  {
  }

  lemma DistinctErrors(status: int, a: string, b: string)
    requires a != b
    ensures ErrorResponse(status, a) != ErrorResponse(status, b)
  {
    assert ErrorResponse(status, a).body.fields["error"] == JStr(a);
  }

  /** The dashboard gate `if not user or user.role != role`: a missing caller is refused like a wrong role. */
  function DashboardGate(users: seq<User>, uid: int, role: string): (r: Option<Response>)
    ensures r.None? <==> RoleOf(users, uid) == Some(role)
    ensures r.Some? ==> r.value == AccessDenied
  {
    if RoleOf(users, uid) == Some(role) then None else Some(AccessDenied)
  }

  function Rows<T>(s: seq<T>, f: T -> map<string, Json>): (r: seq<Json>)
    ensures |r| == |s|
    ensures forall i :: 0 <= i < |s| ==> r[i] == JObject(f(s[i]))
  {
    seq(|s|, i requires 0 <= i < |s| => JObject(f(s[i])))
  }

  /** The plan a subscription names; every stored subscription names an existing one (`SubscriptionsConsistent`). */
  function PlanFor(plans: seq<SubscriptionPlan>, id: int): SubscriptionPlan
  {
    match PlanIndex(plans, id)
    case Some(k) => plans[k]
    case None => SubscriptionPlan(id, "", 0, 0.0, None)
  }

  /** `user.trainers.first()`: the first assignment of this trainee whose trainer row exists. */
  function FirstTrainer(rows: seq<Assignment>, users: seq<User>, traineeId: int): (r: Option<User>)
    ensures r.Some? ==> r.value in users && exists i :: 0 <= i < |rows| && rows[i] == Assignment(r.value.id, traineeId)
    ensures r.None? ==> forall i :: 0 <= i < |rows| && rows[i].traineeId == traineeId ==> UserIndex(users, rows[i].trainerId).None?
  {
    if rows == [] then None
    else if rows[0].traineeId == traineeId && UserIndex(users, rows[0].trainerId).Some? then
      Some(users[UserIndex(users, rows[0].trainerId).value])
    else
      match FirstTrainer(rows[1..], users, traineeId)
      case None => None
      case Some(t) => assert rows[1..][0..] == rows[1..]; Some(t)
  }

  /** `trainer.trainees.all()`: the existing users assigned to this trainer, in assignment order. */
  function TraineesOf(rows: seq<Assignment>, users: seq<User>, trainerId: int): (r: seq<User>)
    ensures |r| <= |rows|
    ensures forall u :: u in r ==> u in users && Assignment(trainerId, u.id) in rows
  {
    if rows == [] then []
    else
      var rest := TraineesOf(rows[1..], users, trainerId);
      var k := UserIndex(users, rows[0].traineeId);
      if rows[0].trainerId == trainerId && k.Some? then [users[k.value]] + rest else rest
  }

  /** Completeness of `trainees.all()`: every assignment of this trainer whose trainee row exists lists that user. */
  lemma {:induction false} TraineesOfComplete(rows: seq<Assignment>, users: seq<User>, trainerId: int, i: int)
    requires 0 <= i < |rows| && rows[i].trainerId == trainerId && UserIndex(users, rows[i].traineeId).Some?
    ensures users[UserIndex(users, rows[i].traineeId).value] in TraineesOf(rows, users, trainerId)
  {
    if i > 0 {
      assert rows[1..][i - 1] == rows[i];
      TraineesOfComplete(rows[1..], users, trainerId, i - 1);
    }
  }

  /** The shape of `class_stats`: one entry per class with its name and current capacity. */
  function ClassStats(classes: seq<WorkoutClass>): (r: seq<Json>)
    ensures |r| == |classes|
    ensures forall i :: 0 <= i < |classes| ==>
              r[i] == JObject(map["name" := JStr(classes[i].name), "attendance_count" := JInt(classes[i].currentCapacity)])
  {
    seq(|classes|, i requires 0 <= i < |classes| =>
      JObject(map["name" := JStr(classes[i].name), "attendance_count" := JInt(classes[i].currentCapacity)]))
  }

  /**
   * The checks of `register_subscription`, in order: caller and role, the
   * `plan_id` key, the plan row, any subscription still running at `now`,
   * any earlier subscription to the same plan. On success, the plan's index.
   */
  function SubscriptionCheck(users: seq<User>, plans: seq<SubscriptionPlan>, subs: seq<UserSubscription>,
                             uid: int, planId: Option<int>, now: int): (r: Result<nat, Response>)
    ensures Gate(users, uid, "user").Some? ==> r == Failure(Gate(users, uid, "user").value)
    ensures Gate(users, uid, "user").None? && planId.None? ==> r == Failure(InternalError)
    ensures Gate(users, uid, "user").None? && planId.Some? && PlanIndex(plans, planId.value).None? ==>
              r == Failure(ErrorResponse(404, "Subscription plan not found"))
    ensures Gate(users, uid, "user").None? && planId.Some? && PlanIndex(plans, planId.value).Some? &&
            HasActive(subs, uid, now) ==>
              r == Failure(ErrorResponse(400, "You have an active subscription. Cannot register for a new one until the current one expires"))
    ensures Gate(users, uid, "user").None? && planId.Some? && PlanIndex(plans, planId.value).Some? &&
            !HasActive(subs, uid, now) && HasPlan(subs, uid, planId.value) ==>
              r == Failure(ErrorResponse(400, "Already subscribed to this plan"))
    ensures r.Success? <==> Gate(users, uid, "user").None? && planId.Some? && PlanIndex(plans, planId.value).Some? &&
                            !HasActive(subs, uid, now) && !HasPlan(subs, uid, planId.value)
    ensures r.Success? ==> r.value < |plans| && plans[r.value].id == planId.value &&
                           (forall i :: 0 <= i < |subs| ==> !ActiveFor(uid, now)(subs[i])) &&
                           (forall i :: 0 <= i < |subs| ==> !OnPlan(uid, planId.value)(subs[i]))
  {
    var gate := Gate(users, uid, "user");
    if gate.Some? then Failure(gate.value)
    else if planId.None? then Failure(InternalError)
    else
      var found := PlanIndex(plans, planId.value);
      if found.None? then Failure(ErrorResponse(404, "Subscription plan not found"))
      else
        var active := Find(subs, ActiveFor(uid, now));
        assert active.Some? ==> HasActive(subs, uid, now);
        assert active.None? ==> !HasActive(subs, uid, now);
        if active.Some? then
          Failure(ErrorResponse(400, "You have an active subscription. Cannot register for a new one until the current one expires"))
        else
          var same := Find(subs, OnPlan(uid, planId.value));
          assert same.Some? ==> HasPlan(subs, uid, planId.value);
          assert same.None? ==> !HasPlan(subs, uid, planId.value);
          if same.Some? then Failure(ErrorResponse(400, "Already subscribed to this plan"))
          else Success(found.value)
  }

  /** The seven keys of the user dashboard; `trainer_details` is null exactly when no trainer is assigned. */
  function UserDashboardFields(me: User, plans: seq<Json>, mySubscriptions: seq<Json>, myAttendance: seq<Json>,
                               trainer: Option<User>, classes: seq<Json>, myRsvps: seq<Json>): (r: map<string, Json>)
    ensures r.Keys == {"user", "subscriptions", "user_subscriptions", "attendance", "trainer_details", "classes", "rsvps"}
    ensures r["trainer_details"] == JNull <==> trainer.None?
  {
    map["user" := JObject(UserToDict(me)),
        "subscriptions" := JArray(plans),
        "user_subscriptions" := JArray(mySubscriptions),
        "attendance" := JArray(myAttendance),
        "trainer_details" := (if trainer.Some? then JObject(UserToDict(trainer.value)) else JNull),
        "classes" := JArray(classes),
        "rsvps" := JArray(myRsvps)]
  }

  /** The admin dashboard's keys, with `stats` counting the rows listed beside it. */
  function AdminDashboardFields(me: User, users: seq<User>, trainers: seq<User>, plans: seq<SubscriptionPlan>): (r: map<string, Json>)
    ensures r.Keys == {"user", "users", "trainers", "subscriptions", "stats"}
    ensures r["stats"] == JObject(map["user_count" := JInt(|users|), "trainer_count" := JInt(|trainers|),
                                      "subscription_count" := JInt(|plans|)])
    ensures r["users"] == JArray(Rows(users, UserToDict)) && r["trainers"] == JArray(Rows(trainers, UserToDict))
  {
    map["user" := JObject(UserToDict(me)),
        "users" := JArray(Rows(users, UserToDict)),
        "trainers" := JArray(Rows(trainers, UserToDict)),
        "subscriptions" := JArray(Rows(plans, PlanToDict)),
        "stats" := JObject(map["user_count" := JInt(|users|), "trainer_count" := JInt(|trainers|),
                               "subscription_count" := JInt(|plans|)])]
  }

  // ---------------------------------------------------------------------------
  // The store.
  // ---------------------------------------------------------------------------

  class GymStore {
    /** werkzeug's password hash and flask_jwt_extended's token for a user id. */
    const hash: string -> string
    const issueToken: int -> string

    var users: seq<User>
    var nextUserId: int
    var plans: seq<SubscriptionPlan>
    var subscriptions: seq<UserSubscription>
    var attendances: seq<Attendance>
    var classes: seq<WorkoutClass>
    var rsvps: seq<ClassRsvp>
    var assignments: seq<Assignment>

    predicate Valid()
      reads this
    {
      UsersWellFormed(users, nextUserId) && PlansWellFormed(plans) && ClassesConsistent(classes, rsvps) &&
      SubscriptionsConsistent(subscriptions, |plans|) && AttendancesNumbered(attendances) &&
      NoDuplicates(assignments)
    }

    constructor (hash: string -> string, issueToken: int -> string)
      ensures Valid()
      ensures this.hash == hash && this.issueToken == issueToken
      ensures users == [] && plans == [] && subscriptions == [] && attendances == [] && classes == [] && rsvps == [] && assignments == []
    {
      this.hash := hash;
      this.issueToken := issueToken;
      users := [];
      nextUserId := 1;
      plans := [];
      subscriptions := [];
      attendances := [];
      classes := [];
      rsvps := [];
      assignments := [];
    }

    /** The insert shared by registration and the admin create routes: the next id, a hashed password. */
    method InsertUser(username: string, email: string, password: string, role: string, now: int) returns (u: User)
      requires Valid()
      requires !UsernameTaken(users, username) && !EmailTaken(users, email)
      modifies this`users, this`nextUserId
      ensures Valid()
      ensures u == User(old(nextUserId), username, email, hash(password), role, now)
      ensures CheckPassword(u, hash, password)
      ensures users == old(users) + [u] && nextUserId == old(nextUserId) + 1
    {
      u := SetPassword(User(nextUserId, username, email, "", role, now), hash, password);
      AddUserKeepsUsers(users, nextUserId, u);
      users := users + [u];
      nextUserId := nextUserId + 1;
    }

    /**
     * POST /api/register. The username is looked up first and `or`
     * short-circuits, so a taken username is reported even when the email
     * key is missing.
     */
    method Register(req: RegisterRequest, now: int) returns (r: Response)
      requires Valid()
      modifies this`users, this`nextUserId
      ensures Valid()
      ensures req.username.None? ==> r == InternalError && unchanged(this)
      ensures req.username.Some? && UsernameTaken(old(users), req.username.value) ==>
                r == ErrorResponse(400, "User exists") && unchanged(this)
      ensures req.username.Some? && !UsernameTaken(old(users), req.username.value) && req.email.None? ==>
                r == InternalError && unchanged(this)
      ensures req.username.Some? && !UsernameTaken(old(users), req.username.value) &&
              req.email.Some? && EmailTaken(old(users), req.email.value) ==>
                r == ErrorResponse(400, "User exists") && unchanged(this)
      ensures req.username.Some? && !UsernameTaken(old(users), req.username.value) &&
              req.email.Some? && !EmailTaken(old(users), req.email.value) && req.password.None? ==>
                r == InternalError && unchanged(this)
      ensures req.username.Some? && !UsernameTaken(old(users), req.username.value) &&
              req.email.Some? && !EmailTaken(old(users), req.email.value) && req.password.Some? ==>
                var u := User(old(nextUserId), req.username.value, req.email.value, hash(req.password.value),
                              req.role.GetOr("user"), now);
                users == old(users) + [u] && nextUserId == old(nextUserId) + 1 &&
                r == Response(201, AuthBody(issueToken(u.id), u.role))
    {
      if req.username.None? {
        return InternalError;
      }
      if UsernameTaken(users, req.username.value) {
        return ErrorResponse(400, "User exists");
      }
      if req.email.None? {
        return InternalError;
      }
      if EmailTaken(users, req.email.value) {
        return ErrorResponse(400, "User exists");
      }
      if req.password.None? {
        return InternalError;
      }
      var u := InsertUser(req.username.value, req.email.value, req.password.value, req.role.GetOr("user"), now);
      r := Response(201, AuthBody(issueToken(u.id), u.role));
    }

    /**
     * POST /api/login. An unknown username and a wrong password get the same
     * reply; with usernames unique, success means exactly that the named user's
     * stored hash matches.
     */
    function Login(req: LoginRequest): (r: Response)
      requires Valid()
      reads this
      ensures req.username.None? || req.password.None? ==> r == ErrorResponse(400, "Missing username or password")
      ensures r.status == 200 || r == ErrorResponse(400, "Missing username or password") || r == ErrorResponse(401, "Invalid credentials")
      ensures req.username.Some? && req.password.Some? ==>
                (r.status == 200 <==> exists i :: 0 <= i < |users| && users[i].username == req.username.value &&
                                                 CheckPassword(users[i], hash, req.password.value))
      ensures r.status == 200 ==>
                exists i :: 0 <= i < |users| && users[i].username == req.username.value &&
                            r == Response(200, AuthBody(issueToken(users[i].id), users[i].role))
    {
      if req.username.None? || req.password.None? then ErrorResponse(400, "Missing username or password")
      else
        var found := Find(users, (u: User) => u.username == req.username.value);
        if found.None? then ErrorResponse(401, "Invalid credentials")
        else if !CheckPassword(users[found.value], hash, req.password.value) then ErrorResponse(401, "Invalid credentials")
        else Response(200, AuthBody(issueToken(users[found.value].id), users[found.value].role))
    }

    /** GET /api/dashboard. */
    function UserDashboard(uid: int): (r: Response)
      reads this
      ensures r.status == 200 || r == AccessDenied
      ensures r.status == 200 <==> RoleOf(users, uid) == Some("user")
      ensures r.status == 200 ==>
                r.body.JObject? &&
                r.body.fields.Keys == {"user", "subscriptions", "user_subscriptions", "attendance", "trainer_details", "classes", "rsvps"} &&
                (r.body.fields["trainer_details"] == JNull <==> FirstTrainer(assignments, users, uid).None?)
    {
      if DashboardGate(users, uid, "user").Some? then AccessDenied
      else
        var plans := plans;
        Response(200, JObject(UserDashboardFields(
          users[UserIndex(users, uid).value],
          Rows(plans, PlanToDict),
          Rows(Filter(subscriptions, (s: UserSubscription) => s.userId == uid),
               (s: UserSubscription) => SubscriptionToDict(s, PlanFor(plans, s.planId))),
          Rows(Filter(attendances, (a: Attendance) => a.userId == uid), AttendanceToDict),
          FirstTrainer(assignments, users, uid),
          Rows(classes, ClassToDict),
          Rows(Filter(rsvps, (v: ClassRsvp) => v.userId == uid), RsvpToDict))))
    }

    /** GET /api/admin-dashboard: the three counts are the sizes of the listed tables. */
    function AdminDashboard(uid: int): (r: Response)
      reads this
      ensures r.status == 200 || r == AccessDenied
      ensures r.status == 200 <==> RoleOf(users, uid) == Some("admin")
      ensures r.status == 200 ==>
                r.body.JObject? && r.body.fields.Keys == {"user", "users", "trainers", "subscriptions", "stats"} &&
                r.body.fields["stats"] == JObject(map["user_count" := JInt(|users|),
                                                      "trainer_count" := JInt(|Filter(users, HasRole("trainer"))|),
                                                      "subscription_count" := JInt(|plans|)])
    {
      if DashboardGate(users, uid, "admin").Some? then AccessDenied
      else
        Response(200, JObject(AdminDashboardFields(users[UserIndex(users, uid).value], users,
                                                   Filter(users, HasRole("trainer")), plans)))
    }

    /**
     * GET /api/trainer-dashboard. Each `attendance_count` is the class's
     * `current_capacity`, which the store keeps equal to its number of RSVPs.
     */
    function TrainerDashboard(uid: int): (r: Response)
      requires Valid()
      reads this
      ensures r.status == 200 || r == AccessDenied
      ensures r.status == 200 <==> RoleOf(users, uid) == Some("trainer")
      ensures r.status == 200 ==>
                var taught := Filter(classes, (c: WorkoutClass) => c.trainerId == Some(uid));
                r.body.JObject? && r.body.fields.Keys == {"user", "classes", "trained_users", "class_stats"} &&
                r.body.fields["trained_users"] == JArray(Rows(TraineesOf(assignments, users, uid), UserToDict)) &&
                r.body.fields["class_stats"].JArray? && |r.body.fields["class_stats"].items| == |taught| &&
                forall i :: 0 <= i < |taught| ==>
                  r.body.fields["class_stats"].items[i] ==
                    JObject(map["name" := JStr(taught[i].name), "attendance_count" := JInt(RsvpsFor(rsvps, taught[i].id))])
    {
      if DashboardGate(users, uid, "trainer").Some? then AccessDenied
      else
        var me := users[UserIndex(users, uid).value];
        var taught := Filter(classes, (c: WorkoutClass) => c.trainerId == Some(uid));
        assert forall i :: 0 <= i < |taught| ==> taught[i].currentCapacity == RsvpsFor(rsvps, taught[i].id) by {
          forall i | 0 <= i < |taught|
            ensures taught[i].currentCapacity == RsvpsFor(rsvps, taught[i].id)
          {
            var j :| 0 <= j < |classes| && classes[j] == taught[i];
          }
        }
        Response(200, JObject(map[
          "user" := JObject(UserToDict(me)),
          "classes" := JArray(Rows(taught, ClassToDict)),
          "trained_users" := JArray(Rows(TraineesOf(assignments, users, uid), UserToDict)),
          "class_stats" := JArray(ClassStats(taught))]))
    }

    /** POST /api/attendance: a record for today's date, attended. */
    method MarkAttendance(uid: int, now: int) returns (r: Response)
      requires Valid()
      modifies this`attendances
      ensures Valid()
      ensures Gate(old(users), uid, "user").Some? ==> r == Gate(old(users), uid, "user").value && unchanged(this)
      ensures Gate(old(users), uid, "user").None? ==>
                attendances == old(attendances) + [NewAttendance(|old(attendances)| + 1, uid, now / MsPerDay, Some(true))] &&
                r == MessageResponse(200, "Attendance marked")
    {
      var gate := Gate(users, uid, "user");
      if gate.Some? {
        return gate.value;
      }
      attendances := attendances + [NewAttendance(|attendances| + 1, uid, now / MsPerDay, Some(true))];
      r := MessageResponse(200, "Attendance marked");
    }

    /** GET /api/attendance: the caller's own records. */
    function ListAttendance(uid: int): (r: Response)
      reads this
      ensures Gate(users, uid, "user").Some? ==> r == Gate(users, uid, "user").value
      ensures Gate(users, uid, "user").None? ==>
                r.status == 200 && r.body.JArray? &&
                r.body.items == Rows(Filter(attendances, (a: Attendance) => a.userId == uid), AttendanceToDict)
    {
      var gate := Gate(users, uid, "user");
      if gate.Some? then gate.value
      else Response(200, JArray(Rows(Filter(attendances, (a: Attendance) => a.userId == uid), AttendanceToDict)))
    }

    /**
     * POST /api/rsvp. The guard looks only at the class, never at the caller's
     * earlier RSVPs, so one user may hold several RSVPs for the same class.
     */
    method Rsvp(uid: int, classId: Option<int>) returns (r: Response)
      requires Valid()
      modifies this`classes, this`rsvps
      ensures Valid()
      ensures Gate(old(users), uid, "user").Some? ==> r == Gate(old(users), uid, "user").value && unchanged(this)
      ensures Gate(old(users), uid, "user").None? && classId.None? ==> r == InternalError && unchanged(this)
      ensures Gate(old(users), uid, "user").None? && classId.Some? && !HasRoom(old(classes), classId.value) ==>
                r == ErrorResponse(400, "Class full or not found") && unchanged(this)
      ensures Gate(old(users), uid, "user").None? && classId.Some? && HasRoom(old(classes), classId.value) ==>
                var k := ClassIndex(old(classes), classId.value).value;
                r == MessageResponse(200, "RSVP successful") &&
                rsvps == old(rsvps) + [ClassRsvp(|old(rsvps)| + 1, uid, classId.value, true)] &&
                classes == old(classes)[k := TakePlace(old(classes)[k])]
    {
      var gate := Gate(users, uid, "user");
      if gate.Some? {
        return gate.value;
      }
      if classId.None? {
        return InternalError;
      }
      var found := ClassIndex(classes, classId.value);
      if found.None? || classes[found.value].currentCapacity >= classes[found.value].maxCapacity {
        return ErrorResponse(400, "Class full or not found");
      }
      var k := found.value;
      TakePlaceKeepsClasses(classes, rsvps, k, uid);
      rsvps := rsvps + [ClassRsvp(|rsvps| + 1, uid, classId.value, true)];
      classes := classes[k := TakePlace(classes[k])];
      r := MessageResponse(200, "RSVP successful");
    }

    /** GET /api/classes: every class, for any caller. */
    function ListClasses(): (r: Response)
      reads this
      ensures r.status == 200 && r.body == JArray(Rows(classes, ClassToDict))
    {
      Response(200, JArray(Rows(classes, ClassToDict)))
    }

    /** POST /api/classes: a trainer's new class, taught by the caller, with the default capacity when none is given. */
    method CreateClass(uid: int, req: ClassRequest) returns (r: Response)
      requires Valid()
      modifies this`classes
      ensures Valid()
      ensures Gate(old(users), uid, "trainer").Some? ==> r == Gate(old(users), uid, "trainer").value && unchanged(this)
      ensures Gate(old(users), uid, "trainer").None? && (req.name.None? || req.dateTime.None?) ==>
                r == InternalError && unchanged(this)
      ensures Gate(old(users), uid, "trainer").None? && req.name.Some? && req.dateTime.Some? ==>
                var c := NewWorkoutClass(|old(classes)| + 1, req.name.value, req.dateTime.value, None, Some(uid), req.maxCapacity);
                classes == old(classes) + [c] && r == Response(201, JObject(ClassToDict(c)))
    {
      var gate := Gate(users, uid, "trainer");
      if gate.Some? {
        return gate.value;
      }
      if req.name.None? || req.dateTime.None? {
        return InternalError;
      }
      var c := NewWorkoutClass(|classes| + 1, req.name.value, req.dateTime.value, None, Some(uid), req.maxCapacity);
      AddClassKeepsClasses(classes, rsvps, c);
      classes := classes + [c];
      r := Response(201, JObject(ClassToDict(c)));
    }

    /**
     * POST /api/subscriptions. The checks run in the source's order; the
     * column-limit check after the month range is never reached.
     */
    method CreateSubscription(uid: int, req: PlanRequest) returns (r: Response)
      requires Valid()
      modifies this`plans
      ensures Valid()
      ensures r.status != 201 ==> unchanged(this)
      ensures r != ErrorResponse(400, "Duration too large")
      ensures Gate(old(users), uid, "admin").Some? ==> r == Gate(old(users), uid, "admin").value
      ensures Gate(old(users), uid, "admin").None? && MonthsArg(req.durationMonths).Failure? ==>
                r == MonthsArg(req.durationMonths).error
      ensures Gate(old(users), uid, "admin").None? && MonthsArg(req.durationMonths).Success? &&
              !(1 <= MonthsArg(req.durationMonths).value <= 60) ==>
                r == ErrorResponse(400, "Duration must be between 1 and 60 months")
      ensures Gate(old(users), uid, "admin").None? && MonthsArg(req.durationMonths).Success? &&
              1 <= MonthsArg(req.durationMonths).value <= 60 ==>
                if PriceArg(req.price).Failure? then r == PriceArg(req.price).error
                else if PriceArg(req.price).value <= 0.0 then r == ErrorResponse(400, "Price must be positive")
                else if req.planName.None? then r == InternalError
                else
                  var p := SubscriptionPlan(|old(plans)| + 1, req.planName.value, MonthsArg(req.durationMonths).value * 30,
                                            PriceArg(req.price).value, Some(req.description.GetOr("")));
                  plans == old(plans) + [p] && r == Response(201, JObject(PlanToDict(p))) && p.durationDays <= 1800
    {
      var gate := Gate(users, uid, "admin");
      if gate.Some? {
        return gate.value;
      }
      var months := MonthsArg(req.durationMonths);
      if months.Failure? {
        DistinctErrors(400, "Invalid input format", "Duration too large");
        return months.error;
      }
      if months.value < 1 || months.value > 60 {
        DistinctErrors(400, "Duration must be between 1 and 60 months", "Duration too large");
        return ErrorResponse(400, "Duration must be between 1 and 60 months");
      }
      var durationDays := months.value * 30;
      DurationFitsColumn(months.value);
      if durationDays > IntegerLimit {
        return ErrorResponse(400, "Duration too large");
      }
      var price := PriceArg(req.price);
      if price.Failure? {
        DistinctErrors(400, "Invalid input format", "Duration too large");
        return price.error;
      }
      if price.value <= 0.0 {
        DistinctErrors(400, "Price must be positive", "Duration too large");
        return ErrorResponse(400, "Price must be positive");
      }
      if req.planName.None? {
        return InternalError;
      }
      var p := SubscriptionPlan(|plans| + 1, req.planName.value, durationDays, price.value, Some(req.description.GetOr("")));
      plans := plans + [p];
      r := Response(201, JObject(PlanToDict(p)));
    }

    /** GET /api/users. */
    function ListUsers(uid: int): (r: Response)
      reads this
      ensures Gate(users, uid, "admin").Some? ==> r == Gate(users, uid, "admin").value
      ensures Gate(users, uid, "admin").None? ==> r == Response(200, JArray(Rows(users, UserToDict)))
    {
      var gate := Gate(users, uid, "admin");
      if gate.Some? then gate.value else Response(200, JArray(Rows(users, UserToDict)))
    }

    /** GET /api/trainers: only rows whose role is `trainer`. */
    function ListTrainers(uid: int): (r: Response)
      reads this
      ensures Gate(users, uid, "admin").Some? ==> r == Gate(users, uid, "admin").value
      ensures Gate(users, uid, "admin").None? ==> r == Response(200, JArray(Rows(Filter(users, HasRole("trainer")), UserToDict)))
    {
      var gate := Gate(users, uid, "admin");
      if gate.Some? then gate.value else Response(200, JArray(Rows(Filter(users, HasRole("trainer")), UserToDict)))
    }

    /**
     * POST /api/users (`role` defaults to `user`) and POST /api/trainers
     * (`role` is `trainer`). There is no explicit uniqueness check: a taken
     * username or email fails the commit, which is answered 500.
     */
    method CreateAccount(uid: int, req: RegisterRequest, asTrainer: bool, now: int) returns (r: Response)
      requires Valid()
      modifies this`users, this`nextUserId
      ensures Valid()
      ensures Gate(old(users), uid, "admin").Some? ==> r == Gate(old(users), uid, "admin").value && unchanged(this)
      ensures Gate(old(users), uid, "admin").None? &&
              (req.username.None? || req.email.None? || req.password.None?) ==>
                r == InternalError && unchanged(this)
      ensures Gate(old(users), uid, "admin").None? && req.username.Some? && req.email.Some? && req.password.Some? &&
              (UsernameTaken(old(users), req.username.value) || EmailTaken(old(users), req.email.value)) ==>
                r == InternalError && unchanged(this)
      ensures Gate(old(users), uid, "admin").None? && req.username.Some? && req.email.Some? && req.password.Some? &&
              !UsernameTaken(old(users), req.username.value) && !EmailTaken(old(users), req.email.value) ==>
                var u := User(old(nextUserId), req.username.value, req.email.value, hash(req.password.value),
                              if asTrainer then "trainer" else req.role.GetOr("user"), now);
                users == old(users) + [u] && nextUserId == old(nextUserId) + 1 && r == Response(201, JObject(UserToDict(u)))
    {
      var gate := Gate(users, uid, "admin");
      if gate.Some? {
        return gate.value;
      }
      if req.username.None? || req.email.None? || req.password.None? {
        return InternalError;
      }
      if UsernameTaken(users, req.username.value) || EmailTaken(users, req.email.value) {
        return InternalError;
      }
      var role := if asTrainer then "trainer" else req.role.GetOr("user");
      var u := InsertUser(req.username.value, req.email.value, req.password.value, role, now);
      r := Response(201, JObject(UserToDict(u)));
    }

    /**
     * PUT /api/users (`asTrainer` false) and PUT /api/trainers (`asTrainer`
     * true, which never changes the role). Any user id is accepted as the
     * target. An update that would duplicate another row's username or email
     * fails the commit, answered 500.
     */
    method UpdateAccount(uid: int, req: UpdateRequest, asTrainer: bool) returns (r: Response)
      requires Valid()
      modifies this`users
      ensures Valid()
      ensures Gate(old(users), uid, "admin").Some? ==> r == Gate(old(users), uid, "admin").value && unchanged(this)
      ensures Gate(old(users), uid, "admin").None? && req.id.None? ==> r == InternalError && unchanged(this)
      ensures Gate(old(users), uid, "admin").None? && req.id.Some? && UserIndex(old(users), req.id.value).None? ==>
                r == ErrorResponse(404, if asTrainer then "Trainer not found" else "User not found") && unchanged(this)
      ensures Gate(old(users), uid, "admin").None? && req.id.Some? && UserIndex(old(users), req.id.value).Some? ==>
                var k := UserIndex(old(users), req.id.value).value;
                var u := if asTrainer then PatchTrainer(old(users)[k], req, hash) else PatchUser(old(users)[k], req, hash);
                if ClashesWithOthers(old(users), k, u) then r == InternalError && unchanged(this)
                else users == old(users)[k := u] && r == Response(200, JObject(UserToDict(u)))
    {
      var gate := Gate(users, uid, "admin");
      if gate.Some? {
        return gate.value;
      }
      if req.id.None? {
        return InternalError;
      }
      var found := UserIndex(users, req.id.value);
      if found.None? {
        return ErrorResponse(404, if asTrainer then "Trainer not found" else "User not found");
      }
      var k := found.value;
      var u := if asTrainer then PatchTrainer(users[k], req, hash) else PatchUser(users[k], req, hash);
      if ClashesWithOthers(users, k, u) {
        return InternalError;
      }
      ReplaceUserKeepsUsers(users, nextUserId, k, u);
      users := users[k := u];
      r := Response(200, JObject(UserToDict(u)));
    }

    /** DELETE /api/users and DELETE /api/trainers: remove the row with the given id, of any role. */
    method DeleteAccount(uid: int, id: Option<int>, asTrainer: bool) returns (r: Response)
      requires Valid()
      modifies this`users
      ensures Valid()
      ensures Gate(old(users), uid, "admin").Some? ==> r == Gate(old(users), uid, "admin").value && unchanged(this)
      ensures Gate(old(users), uid, "admin").None? && id.None? ==> r == InternalError && unchanged(this)
      ensures Gate(old(users), uid, "admin").None? && id.Some? && UserIndex(old(users), id.value).None? ==>
                r == ErrorResponse(404, if asTrainer then "Trainer not found" else "User not found") && unchanged(this)
      ensures Gate(old(users), uid, "admin").None? && id.Some? && UserIndex(old(users), id.value).Some? ==>
                users == Without(old(users), UserIndex(old(users), id.value).value) &&
                r == MessageResponse(200, if asTrainer then "Trainer deleted" else "User deleted")
      ensures forall i :: 0 <= i < |users| ==> users[i] in old(users)
    {
      var gate := Gate(users, uid, "admin");
      if gate.Some? {
        return gate.value;
      }
      if id.None? {
        return InternalError;
      }
      var found := UserIndex(users, id.value);
      if found.None? {
        return ErrorResponse(404, if asTrainer then "Trainer not found" else "User not found");
      }
      RemoveUserKeepsUsers(users, nextUserId, found.value);
      users := Without(users, found.value);
      r := MessageResponse(200, if asTrainer then "Trainer deleted" else "User deleted");
    }

    /** POST /api/assign-trainer. */
    method AssignTrainer(uid: int, userId: Option<int>, trainerId: Option<int>) returns (r: Response)
      requires Valid()
      modifies this`assignments
      ensures Valid()
      ensures Gate(old(users), uid, "admin").Some? ==> r == Gate(old(users), uid, "admin").value && unchanged(this)
      ensures Gate(old(users), uid, "admin").None? && (userId.None? || trainerId.None?) ==>
                r == InternalError && unchanged(this)
      ensures Gate(old(users), uid, "admin").None? && userId.Some? && trainerId.Some? ==>
                if RoleOf(old(users), userId.value).None? || RoleOf(old(users), trainerId.value).None? then
                  r == ErrorResponse(404, "User or trainer not found") && unchanged(this)
                else if RoleOf(old(users), trainerId.value) != Some("trainer") then
                  r == ErrorResponse(400, "Selected user is not a trainer") && unchanged(this)
                else if Assignment(trainerId.value, userId.value) in old(assignments) then
                  r == ErrorResponse(400, "Trainer already assigned to this user") && unchanged(this)
                else
                  assignments == old(assignments) + [Assignment(trainerId.value, userId.value)] &&
                  r == MessageResponse(200, "Trainer assigned successfully")
    {
      var gate := Gate(users, uid, "admin");
      if gate.Some? {
        return gate.value;
      }
      if userId.None? || trainerId.None? {
        return InternalError;
      }
      if RoleOf(users, userId.value).None? || RoleOf(users, trainerId.value).None? {
        return ErrorResponse(404, "User or trainer not found");
      }
      if RoleOf(users, trainerId.value) != Some("trainer") {
        return ErrorResponse(400, "Selected user is not a trainer");
      }
      var pair := Assignment(trainerId.value, userId.value);
      if pair in assignments {
        return ErrorResponse(400, "Trainer already assigned to this user");
      }
      AppendFresh(assignments, pair);
      assignments := assignments + [pair];
      r := MessageResponse(200, "Trainer assigned successfully");
    }

    /** POST /api/user-subscriptions. */
    method RegisterSubscription(uid: int, planId: Option<int>, now: int) returns (r: Response)
      requires Valid()
      modifies this`subscriptions
      ensures Valid()
      ensures SubscriptionCheck(old(users), plans, old(subscriptions), uid, planId, now).Failure? ==>
                r == SubscriptionCheck(old(users), plans, old(subscriptions), uid, planId, now).error && unchanged(this)
      ensures SubscriptionCheck(old(users), plans, old(subscriptions), uid, planId, now).Success? ==>
                var plan := plans[SubscriptionCheck(old(users), plans, old(subscriptions), uid, planId, now).value];
                var s := NewSubscription(|old(subscriptions)| + 1, uid, plan, now);
                subscriptions == old(subscriptions) + [s] && r == Response(201, JObject(SubscriptionToDict(s, plan)))
    {
      var check := SubscriptionCheck(users, plans, subscriptions, uid, planId, now);
      if check.Failure? {
        return check.error;
      }
      var plan := plans[check.value];
      var s := NewSubscription(|subscriptions| + 1, uid, plan, now);
      RegisterKeepsSubscriptions(subscriptions, |plans|, uid, plan, now);
      subscriptions := subscriptions + [s];
      r := Response(201, JObject(SubscriptionToDict(s, plan)));
    }
  }
}
