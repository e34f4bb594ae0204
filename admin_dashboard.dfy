/**
 * The admin dashboard: the drafts behind its forms, the local checks made
 * before a request, the update payloads, and the edit/cancel lifecycle.
 */
module AdminDashboard {
  import opened Wrappers
  import opened Seqs
  import opened Http
  import opened Views
  import opened Session

  /** The `/api/admin-dashboard` payload. */
  datatype AdminData = AdminData(user: UserView, users: seq<UserView>, trainers: seq<UserView>, subscriptions: seq<PlanView>,
                                 userCount: int, trainerCount: int, subscriptionCount: int)

  /** The create-subscription form; `price` and `durationMonths` are the raw input strings. */
  datatype SubscriptionDraft = SubscriptionDraft(planName: string, price: string, durationMonths: string, description: string)

  const EmptySubscriptionDraft: SubscriptionDraft := SubscriptionDraft("", "", "", "")

  /** The body posted to `/api/subscriptions`: the draft with the two numbers parsed. */
  datatype SubscriptionBody = SubscriptionBody(planName: string, price: real, durationMonths: int, description: string)

  datatype NewUserDraft = NewUserDraft(username: string, email: string, password: string, role: string)

  const EmptyNewUser: NewUserDraft := NewUserDraft("", "", "", "user")

  datatype NewTrainerDraft = NewTrainerDraft(username: string, email: string, password: string)

  const EmptyNewTrainer: NewTrainerDraft := NewTrainerDraft("", "", "")

  /** The body posted to `/api/trainers`: `{ ...newTrainer, role: 'trainer' }`. */
  datatype NewTrainerBody = NewTrainerBody(username: string, email: string, password: string, role: string)

  /** The edit forms' drafts; the trainer draft has no role. */
  datatype UserEdit = UserEdit(id: int, username: string, email: string, role: string, password: string)
  datatype TrainerEdit = TrainerEdit(id: int, username: string, email: string, password: string)

  /** A PUT body: `role` only in the user form, `password` only when one was typed. */
  datatype UpdatePayload = UpdatePayload(id: int, username: string, email: string, role: Option<string>, password: Option<string>)

  /** The assign form: the two `<select>` values, `''` when nothing is chosen. */
  datatype AssignDraft = AssignDraft(userId: string, trainerId: string)

  const EmptyAssign: AssignDraft := AssignDraft("", "")

  const DurationError: string := "Duration must be between 1 and 60 months"
  const PriceError: string := "Price must be a positive number"

  /**
   * The checks of `handleSubscriptionSubmit` (lines 46-55) on the parsed values;
   * `None` stands for `NaN`. The duration is checked first.
   */
  function ValidateSubscription(months: Option<int>, price: Option<real>): (r: Result<(int, real), string>)
    ensures r.Success? <==> months.Some? && 1 <= months.value <= 60 && price.Some? && price.value > 0.0
    ensures r.Success? ==> r.value == (months.value, price.value)
    ensures !(months.Some? && 1 <= months.value <= 60) ==> r == Failure(DurationError)
    ensures months.Some? && 1 <= months.value <= 60 && !(price.Some? && price.value > 0.0) ==> r == Failure(PriceError)
  {
    if months.None? || months.value < 1 || months.value > 60 then Failure(DurationError)
    else if price.None? || price.value <= 0.0 then Failure(PriceError)
    else Success((months.value, price.value))
  }

  /** `{ ...newSubscription, duration_months: durationMonths, price }`. */
  function SubscriptionBodyOf(d: SubscriptionDraft, months: int, price: real): (r: SubscriptionBody)
    ensures r.planName == d.planName && r.description == d.description
    ensures r.durationMonths == months && r.price == price
  {
    SubscriptionBody(d.planName, price, months, d.description)
  }

  /** `handleEditUser(user)`: the draft copies the listed user with an empty password. */
  function EditUserDraft(u: UserView): (r: UserEdit)
    ensures r.id == u.id && r.username == u.username && r.email == u.email && r.role == u.role && r.password == ""
  {
    UserEdit(u.id, u.username, u.email, u.role, "")
  }

  /** `handleEditTrainer(trainer)`. */
  function EditTrainerDraft(t: UserView): (r: TrainerEdit)
    ensures r.id == t.id && r.username == t.username && r.email == t.email && r.password == ""
  {
    TrainerEdit(t.id, t.username, t.email, "")
  }

  /** The password field is added only when the draft's password is non-empty. */
  function OptionalPassword(password: string): (r: Option<string>)
    ensures r.Some? <==> password != ""
    ensures r.Some? ==> r.value == password
  {
    if password != "" then Some(password) else None
  }

  /** Lines 129-137. */
  function UserUpdatePayload(d: UserEdit): (r: UpdatePayload)
    ensures r.id == d.id && r.username == d.username && r.email == d.email && r.role == Some(d.role)
    ensures r.password == OptionalPassword(d.password)
  {
    UpdatePayload(d.id, d.username, d.email, Some(d.role), OptionalPassword(d.password))
  }

  /** Lines 189-196: the trainer form never sends a role. */
  function TrainerUpdatePayload(d: TrainerEdit): (r: UpdatePayload)
    ensures r.id == d.id && r.username == d.username && r.email == d.email && r.role == None
    ensures r.password == OptionalPassword(d.password)
  {
    UpdatePayload(d.id, d.username, d.email, None, OptionalPassword(d.password))
  }

  /** Pressing Edit and then Update without touching the form sends the listed values and no password. */
  lemma UntouchedEditRoundTrip(u: UserView)
    ensures UserUpdatePayload(EditUserDraft(u)) == UpdatePayload(u.id, u.username, u.email, Some(u.role), None)
    ensures TrainerUpdatePayload(EditTrainerDraft(u)) == UpdatePayload(u.id, u.username, u.email, None, None)
  {
  }

  /** The three `<option>`s of the user edit form's role `<select>` (lines 455-463). */
  datatype RoleOption = UserOption | TrainerOption | AdminOption

  predicate SelectableRole(role: string)
  {
    role == "user" || role == "trainer" || role == "admin"
  }

  function RoleValue(o: RoleOption): (r: string)
    ensures SelectableRole(r)
  {
    match o
    case UserOption => "user"
    case TrainerOption => "trainer"
    case AdminOption => "admin"
  }

  /** One `onChange` of the user edit form: the field and its new value. */
  datatype UserFormChange = UsernameTyped(text: string) | EmailTyped(text: string) | RoleChosen(option: RoleOption) | PasswordTyped(text: string)

  /** One `onChange` of the trainer edit form, which has no role field. */
  datatype TrainerFormChange = TrainerUsernameTyped(text: string) | TrainerEmailTyped(text: string) | TrainerPasswordTyped(text: string)

  /** `{ ...editingUser, <field>: value }`: the named field is replaced; the id and the other fields are kept. */
  function ApplyUserChange(d: UserEdit, c: UserFormChange): (r: UserEdit)
    ensures r.id == d.id
    ensures r.username == (if c.UsernameTyped? then c.text else d.username)
    ensures r.email == (if c.EmailTyped? then c.text else d.email)
    ensures r.role == (if c.RoleChosen? then RoleValue(c.option) else d.role)
    ensures r.password == (if c.PasswordTyped? then c.text else d.password)
  {
    match c
    case UsernameTyped(t) => d.(username := t)
    case EmailTyped(t) => d.(email := t)
    case RoleChosen(o) => d.(role := RoleValue(o))
    case PasswordTyped(t) => d.(password := t)
  }

  /** `{ ...editingTrainer, <field>: value }`. */
  function ApplyTrainerChange(d: TrainerEdit, c: TrainerFormChange): (r: TrainerEdit)
    ensures r.id == d.id
    ensures r.username == (if c.TrainerUsernameTyped? then c.text else d.username)
    ensures r.email == (if c.TrainerEmailTyped? then c.text else d.email)
    ensures r.password == (if c.TrainerPasswordTyped? then c.text else d.password)
  {
    match c
    case TrainerUsernameTyped(t) => d.(username := t)
    case TrainerEmailTyped(t) => d.(email := t)
    case TrainerPasswordTyped(t) => d.(password := t)
  }

  /**
   * A run of edits in the user form. However the form is edited, the draft
   * keeps the id of the row whose Edit button opened it, a selectable role
   * stays selectable, and without a password keystroke the password stays as it was.
   */
  function ApplyUserChanges(d: UserEdit, cs: seq<UserFormChange>): (r: UserEdit)
    ensures r.id == d.id
    ensures SelectableRole(d.role) ==> SelectableRole(r.role)
    ensures (forall i :: 0 <= i < |cs| ==> !cs[i].PasswordTyped?) ==> r.password == d.password
    decreases |cs|
  {
    if cs == [] then d else ApplyUserChanges(ApplyUserChange(d, cs[0]), cs[1..])
  }

  /** A run of edits in the trainer form keeps the id, and the password without a password keystroke. */
  function ApplyTrainerChanges(d: TrainerEdit, cs: seq<TrainerFormChange>): (r: TrainerEdit)
    ensures r.id == d.id
    ensures (forall i :: 0 <= i < |cs| ==> !cs[i].TrainerPasswordTyped?) ==> r.password == d.password
    decreases |cs|
  {
    if cs == [] then d else ApplyTrainerChanges(ApplyTrainerChange(d, cs[0]), cs[1..])
  }

  /**
   * Edit, any edits, then Update: the PUT names the listed row's id, and no
   * password is sent unless one was typed.
   */
  lemma EditedUpdateTargetsRow(u: UserView, cs: seq<UserFormChange>, ts: seq<TrainerFormChange>)
    ensures UserUpdatePayload(ApplyUserChanges(EditUserDraft(u), cs)).id == u.id
    ensures (forall i :: 0 <= i < |cs| ==> !cs[i].PasswordTyped?) ==>
              UserUpdatePayload(ApplyUserChanges(EditUserDraft(u), cs)).password == None
    ensures TrainerUpdatePayload(ApplyTrainerChanges(EditTrainerDraft(u), ts)).id == u.id
    ensures (forall i :: 0 <= i < |ts| ==> !ts[i].TrainerPasswordTyped?) ==>
              TrainerUpdatePayload(ApplyTrainerChanges(EditTrainerDraft(u), ts)).password == None
  {
  }

  /** Line 405: the user dropdown of the assign form lists only role `'user'`, in listing order. */
  function AssignableUsers(users: seq<UserView>): (r: seq<UserView>)
    ensures forall i :: 0 <= i < |r| ==> r[i] in users && r[i].role == "user"
    ensures forall i :: 0 <= i < |users| && users[i].role == "user" ==> users[i] in r
  {
    Filter(users, (u: UserView) => u.role == "user")
  }

  /** Line 241: both selects must be non-empty. */
  predicate AssignReady(d: AssignDraft)
  {
    d.userId != "" && d.trainerId != ""
  }

  /** The notice and reload after a mutation request: `data.error || fallback` on rejection. */
  function MutationEffect<T>(reply: Outcome<T>, successText: string, failureText: string): (e: Effect)
    ensures e.requested && e.navigate == None
    ensures e.reload <==> reply.Ok?
    ensures reply.Ok? ==> e.toast == Some(SuccessToastOf(successText))
    ensures reply.Status? ==> e.toast == Some(ErrorToastOf(OrElse(reply.error, failureText)))
    ensures reply.NetworkError? ==> e.toast == Some(ErrorToastOf(NetworkErrorText))
  {
    match reply
    case Ok(_) => Effect(true, None, Some(SuccessToastOf(successText)), true)
    case Status(_, error) => Effect(true, None, Some(ErrorToastOf(OrElse(error, failureText))), false)
    case NetworkError => Effect(true, None, Some(ErrorToastOf(NetworkErrorText)), false)
  }

  class AdminPage {
    var dashboardData: Option<AdminData>
    var loading: bool
    var newSubscription: SubscriptionDraft
    var newUser: NewUserDraft
    var newTrainer: NewTrainerDraft
    var editingUser: Option<UserEdit>
    var editingTrainer: Option<TrainerEdit>
    var assignTrainer: AssignDraft

    constructor ()
      ensures dashboardData == None && loading
      ensures newSubscription == EmptySubscriptionDraft && newUser == EmptyNewUser && newTrainer == EmptyNewTrainer
      ensures editingUser == None && editingTrainer == None && assignTrainer == EmptyAssign
    {
      dashboardData := None;
      loading := true;
      newSubscription := EmptySubscriptionDraft;
      newUser := EmptyNewUser;
      newTrainer := EmptyNewTrainer;
      editingUser := None;
      editingTrainer := None;
      assignTrainer := EmptyAssign;
    }

    /** `fetchDashboard()`: no token guard; a 401 clears the session. */
    method FetchDashboard(storage: LocalStorage, reply: Outcome<AdminData>) returns (e: Effect)
      modifies this`dashboardData, this`loading, storage
      ensures e.requested && !e.reload && !loading
      ensures reply.Ok? ==> dashboardData == Some(reply.value) && e.toast == None && e.navigate == None && unchanged(storage)
      ensures reply.Status? ==>
        dashboardData == old(dashboardData) &&
        e.toast == Some(ErrorToastOf(OrElse(reply.error, "Failed to load dashboard"))) &&
        (if reply.code == Unauthorized
         then storage.token == None && storage.role == None && e.navigate == Some(LoginRoute)
         else unchanged(storage) && e.navigate == None)
      ensures reply.NetworkError? ==>
        dashboardData == old(dashboardData) && e.toast == Some(ErrorToastOf(NetworkErrorText)) &&
        e.navigate == None && unchanged(storage)
    {
      e := Effect(true, None, None, false);
      match reply {
        case Ok(data) =>
          dashboardData := Some(data);
        case Status(code, error) =>
          e := e.(toast := Some(ErrorToastOf(OrElse(error, "Failed to load dashboard"))));
          if code == Unauthorized {
            storage.ClearSession();
            e := e.(navigate := Some(LoginRoute));
          }
        case NetworkError =>
          e := e.(toast := Some(ErrorToastOf(NetworkErrorText)));
      }
      loading := false;
    }

    /**
     * `handleSubscriptionSubmit`. `months` and `price` are `parseInt` and
     * `parseFloat` of the draft's strings. Returns the body sent, if any.
     */
    method HandleSubscriptionSubmit(months: Option<int>, price: Option<real>, reply: Outcome<Option<string>>)
      returns (sent: Option<SubscriptionBody>, e: Effect)
      modifies this`newSubscription
      ensures ValidateSubscription(months, price).Failure? ==>
        sent == None && unchanged(this) &&
        e == Effect(false, None, Some(ErrorToastOf(ValidateSubscription(months, price).error)), false)
      ensures ValidateSubscription(months, price).Success? ==>
        sent == Some(SubscriptionBodyOf(old(newSubscription), months.value, price.value)) &&
        e == MutationEffect(reply, "Subscription created!", "Failed to create subscription") &&
        newSubscription == (if reply.Ok? then EmptySubscriptionDraft else old(newSubscription))
    {
      var checked := ValidateSubscription(months, price);
      if checked.Failure? {
        return None, Effect(false, None, Some(ErrorToastOf(checked.error)), false);
      }
      sent := Some(SubscriptionBodyOf(newSubscription, checked.value.0, checked.value.1));
      e := MutationEffect(reply, "Subscription created!", "Failed to create subscription");
      if reply.Ok? {
        newSubscription := EmptySubscriptionDraft;
      }
    }

    /** `handleCreateUser`: posts the draft as it is; resets it on success. */
    method HandleCreateUser(reply: Outcome<Option<string>>) returns (sent: NewUserDraft, e: Effect)
      modifies this`newUser
      ensures sent == old(newUser)
      ensures e == MutationEffect(reply, "User created!", "Failed to create user")
      ensures newUser == (if reply.Ok? then EmptyNewUser else old(newUser))
    {
      sent := newUser;
      e := MutationEffect(reply, "User created!", "Failed to create user");
      if reply.Ok? {
        newUser := EmptyNewUser;
      }
    }

    /** `handleCreateTrainer`: posts the draft with role `'trainer'`; resets it on success. */
    method HandleCreateTrainer(reply: Outcome<Option<string>>) returns (sent: NewTrainerBody, e: Effect)
      modifies this`newTrainer
      ensures sent == NewTrainerBody(old(newTrainer).username, old(newTrainer).email, old(newTrainer).password, "trainer")
      ensures e == MutationEffect(reply, "Trainer created!", "Failed to create trainer")
      ensures newTrainer == (if reply.Ok? then EmptyNewTrainer else old(newTrainer))
    {
      sent := NewTrainerBody(newTrainer.username, newTrainer.email, newTrainer.password, "trainer");
      e := MutationEffect(reply, "Trainer created!", "Failed to create trainer");
      if reply.Ok? {
        newTrainer := EmptyNewTrainer;
      }
    }

    /** The Edit button of the user list. */
    method HandleEditUser(u: UserView)
      modifies this`editingUser
      ensures editingUser == Some(EditUserDraft(u))
    {
      editingUser := Some(EditUserDraft(u));
    }

    /** An `onChange` of the user edit form, which is shown only while a draft is open. */
    method EditUserForm(c: UserFormChange)
      requires editingUser.Some?
      modifies this`editingUser
      ensures editingUser == Some(ApplyUserChange(old(editingUser).value, c))
      ensures editingUser.value.id == old(editingUser).value.id
    {
      editingUser := Some(ApplyUserChange(editingUser.value, c));
    }

    /**
     * `handleUpdateUser`. The draft is cleared only on success; a rejection
     * keeps it for correction. With no draft, reading `editingUser.id` throws
     * inside the `try`, which reports a network error and sends nothing.
     */
    method HandleUpdateUser(reply: Outcome<Option<string>>) returns (sent: Option<UpdatePayload>, e: Effect)
      modifies this`editingUser
      ensures old(editingUser).None? ==>
        sent == None && editingUser == None && e == Effect(false, None, Some(ErrorToastOf(NetworkErrorText)), false)
      ensures old(editingUser).Some? ==>
        sent == Some(UserUpdatePayload(old(editingUser).value)) &&
        e == MutationEffect(reply, "User updated!", "Failed to update user") &&
        editingUser == (if reply.Ok? then None else old(editingUser))
    {
      if editingUser.None? {
        return None, Effect(false, None, Some(ErrorToastOf(NetworkErrorText)), false);
      }
      sent := Some(UserUpdatePayload(editingUser.value));
      e := MutationEffect(reply, "User updated!", "Failed to update user");
      if reply.Ok? {
        editingUser := None;
      }
    }

    /** Cancel in the user edit form. */
    method CancelEditUser()
      modifies this`editingUser
      ensures editingUser == None
    {
      editingUser := None;
    }

    method HandleEditTrainer(t: UserView)
      modifies this`editingTrainer
      ensures editingTrainer == Some(EditTrainerDraft(t))
    {
      editingTrainer := Some(EditTrainerDraft(t));
    }

    /** An `onChange` of the trainer edit form. */
    method EditTrainerForm(c: TrainerFormChange)
      requires editingTrainer.Some?
      modifies this`editingTrainer
      ensures editingTrainer == Some(ApplyTrainerChange(old(editingTrainer).value, c))
      ensures editingTrainer.value.id == old(editingTrainer).value.id
    {
      editingTrainer := Some(ApplyTrainerChange(editingTrainer.value, c));
    }

    /** `handleUpdateTrainer`, with the same lifecycle as the user form. */
    method HandleUpdateTrainer(reply: Outcome<Option<string>>) returns (sent: Option<UpdatePayload>, e: Effect)
      modifies this`editingTrainer
      ensures old(editingTrainer).None? ==>
        sent == None && editingTrainer == None && e == Effect(false, None, Some(ErrorToastOf(NetworkErrorText)), false)
      ensures old(editingTrainer).Some? ==>
        sent == Some(TrainerUpdatePayload(old(editingTrainer).value)) &&
        e == MutationEffect(reply, "Trainer updated!", "Failed to update trainer") &&
        editingTrainer == (if reply.Ok? then None else old(editingTrainer))
    {
      if editingTrainer.None? {
        return None, Effect(false, None, Some(ErrorToastOf(NetworkErrorText)), false);
      }
      sent := Some(TrainerUpdatePayload(editingTrainer.value));
      e := MutationEffect(reply, "Trainer updated!", "Failed to update trainer");
      if reply.Ok? {
        editingTrainer := None;
      }
    }

    method CancelEditTrainer()
      modifies this`editingTrainer
      ensures editingTrainer == None
    {
      editingTrainer := None;
    }

    /** `handleDeleteUser(id)` after the confirmation dialog; `confirmed` is the dialog's answer. */
    method HandleDeleteUser(id: int, confirmed: bool, reply: Outcome<Option<string>>) returns (sent: Option<int>, e: Effect)
      ensures !confirmed ==> sent == None && e == Effect(false, None, None, false)
      ensures confirmed ==> sent == Some(id) && e == MutationEffect(reply, "User deleted!", "Failed to delete user")
    {
      if !confirmed {
        return None, Effect(false, None, None, false);
      }
      sent := Some(id);
      e := MutationEffect(reply, "User deleted!", "Failed to delete user");
    }

    method HandleDeleteTrainer(id: int, confirmed: bool, reply: Outcome<Option<string>>) returns (sent: Option<int>, e: Effect)
      ensures !confirmed ==> sent == None && e == Effect(false, None, None, false)
      ensures confirmed ==> sent == Some(id) && e == MutationEffect(reply, "Trainer deleted!", "Failed to delete trainer")
    {
      if !confirmed {
        return None, Effect(false, None, None, false);
      }
      sent := Some(id);
      e := MutationEffect(reply, "Trainer deleted!", "Failed to delete trainer");
    }

    /** `handleAssignTrainer`: nothing is sent unless both ids are chosen; both reset on success. */
    method HandleAssignTrainer(reply: Outcome<Option<string>>) returns (sent: Option<AssignDraft>, e: Effect)
      modifies this`assignTrainer
      ensures !AssignReady(old(assignTrainer)) ==>
        sent == None && unchanged(this) &&
        e == Effect(false, None, Some(ErrorToastOf("Please select both a user and a trainer")), false)
      ensures AssignReady(old(assignTrainer)) ==>
        sent == Some(old(assignTrainer)) &&
        e == MutationEffect(reply, "Trainer assigned successfully!", "Failed to assign trainer") &&
        assignTrainer == (if reply.Ok? then EmptyAssign else old(assignTrainer))
    {
      if !AssignReady(assignTrainer) {
        return None, Effect(false, None, Some(ErrorToastOf("Please select both a user and a trainer")), false);
      }
      sent := Some(assignTrainer);
      e := MutationEffect(reply, "Trainer assigned successfully!", "Failed to assign trainer");
      if reply.Ok? {
        assignTrainer := EmptyAssign;
      }
    }
  }
}
