/** The class RSVP page: the class list with a local `rsvped` flag, and its optimistic update. */
module ClassRsvp {
  import opened Wrappers
  import opened Http
  import opened Views
  import opened Session

  /** A fetched class spread with the page's own flag: `{ ...cls, rsvped }`. */
  datatype ClassItem = ClassItem(info: ClassView, rsvped: bool)

  /** `data.map(cls => ({ ...cls, rsvped: false }))`. */
  function InitialItems(data: seq<ClassView>): (r: seq<ClassItem>)
    ensures |r| == |data|
    ensures forall i :: 0 <= i < |r| ==> r[i].info == data[i] && !r[i].rsvped
  {
    seq(|data|, i requires 0 <= i < |data| => ClassItem(data[i], false))
  }

  predicate AtCapacity(item: ClassItem)
  {
    item.info.currentCapacity >= item.info.maxCapacity
  }

  /** Line 96: the button is disabled once RSVPed or when the class is full. */
  predicate ButtonDisabled(item: ClassItem)
  {
    item.rsvped || AtCapacity(item)
  }

  /** Line 103: "RSVPed" takes precedence over "Full". */
  function ButtonCaption(item: ClassItem): (r: string)
    ensures r == "RSVPed" <==> item.rsvped
    ensures r == "Full" <==> !item.rsvped && AtCapacity(item)
    ensures r == "RSVP" <==> !ButtonDisabled(item)
  {
    if item.rsvped then "RSVPed" else if AtCapacity(item) then "Full" else "RSVP"
  }

  /** The item after a successful RSVP: flagged and one more place taken. */
  function Reserved(item: ClassItem): ClassItem
  {
    ClassItem(item.info.(currentCapacity := item.info.currentCapacity + 1), true)
  }

  /** The mapped copy that `handleRSVP` installs on success (lines 52-54). */
  function ApplyRsvp(items: seq<ClassItem>, classId: int): (r: seq<ClassItem>)
    ensures |r| == |items|
    ensures forall i :: 0 <= i < |r| && items[i].info.id != classId ==> r[i] == items[i]
    ensures forall i :: 0 <= i < |r| && items[i].info.id == classId ==> r[i] == Reserved(items[i])
  {
    seq(|items|, i requires 0 <= i < |items| => if items[i].info.id == classId then Reserved(items[i]) else items[i])
  }

  /** After the update every class with that id shows a disabled "RSVPed" button. */
  lemma ApplyRsvpDisables(items: seq<ClassItem>, classId: int, i: int)
    requires 0 <= i < |items| && items[i].info.id == classId
    ensures ButtonDisabled(ApplyRsvp(items, classId)[i])
    ensures ButtonCaption(ApplyRsvp(items, classId)[i]) == "RSVPed"
  {
  }

  /**
   * A click is possible only on an enabled button, and then the optimistic
   * increment keeps the shown count within the class's capacity.
   */
  lemma EnabledRsvpKeepsCapacity(items: seq<ClassItem>, classId: int, i: int)
    requires 0 <= i < |items| && items[i].info.id == classId && !ButtonDisabled(items[i])
    ensures ApplyRsvp(items, classId)[i].info.currentCapacity <= ApplyRsvp(items, classId)[i].info.maxCapacity
  {
  }

  /** The update changes nothing but the flag and the count, so the shown class details stay those fetched. */
  lemma ApplyRsvpKeepsDetails(items: seq<ClassItem>, classId: int, i: int)
    requires 0 <= i < |items|
    ensures ApplyRsvp(items, classId)[i].info.(currentCapacity := 0) == items[i].info.(currentCapacity := 0)
  {
  }

  const ClassesPath: string := "/api/classes"

  class ClassRsvpPage {
    var classes: seq<ClassItem>
    var loading: bool

    constructor ()
      ensures classes == [] && loading
    {
      classes := [];
      loading := true;
    }

    /** The fetch effect of lines 11-34; there is no missing-token guard on this page. */
    method FetchClasses(storage: LocalStorage, reply: Outcome<seq<ClassView>>) returns (e: Effect)
      modifies this, storage
      ensures e.requested && !e.reload && !loading
      ensures reply.Ok? ==> classes == InitialItems(reply.value) && e.toast == None && e.navigate == None && unchanged(storage)
      ensures reply.Status? ==>
        classes == old(classes) &&
        e.toast == Some(ErrorToastOf(OrElse(reply.error, "Failed to fetch classes"))) &&
        (if reply.code == Unauthorized
         then storage.token == None && storage.role == None && e.navigate == Some(LoginRoute)
         else unchanged(storage) && e.navigate == None)
      ensures reply.NetworkError? ==>
        classes == old(classes) && e.toast == Some(ErrorToastOf(NetworkErrorText)) && e.navigate == None && unchanged(storage)
    {
      e := Effect(true, None, None, false);
      match reply {
        case Ok(data) =>
          classes := InitialItems(data);
        case Status(code, error) =>
          e := e.(toast := Some(ErrorToastOf(OrElse(error, "Failed to fetch classes"))));
          if code == Unauthorized {
            storage.ClearSession();
            e := e.(navigate := Some(LoginRoute));
          }
        case NetworkError =>
          e := e.(toast := Some(ErrorToastOf(NetworkErrorText)));
      }
      loading := false;
    }

    /** `handleRSVP(classId)`: the list changes only on success, and then by `ApplyRsvp`. */
    method HandleRsvp(classId: int, reply: Outcome<Option<string>>) returns (e: Effect)
      modifies this`classes
      ensures e.requested && e.navigate == None && !e.reload
      ensures reply.Ok? ==> classes == ApplyRsvp(old(classes), classId) && e.toast == Some(SuccessToastOf("RSVP successful!"))
      ensures reply.Status? ==> classes == old(classes) && e.toast == Some(ErrorToastOf(OrElse(reply.error, "Failed to RSVP")))
      ensures reply.NetworkError? ==> classes == old(classes) && e.toast == Some(ErrorToastOf(NetworkErrorText))
    {
      match reply {
        case Ok(_) =>
          classes := ApplyRsvp(classes, classId);
          e := Effect(true, None, Some(SuccessToastOf("RSVP successful!")), false);
        case Status(_, error) =>
          e := Effect(true, None, Some(ErrorToastOf(OrElse(error, "Failed to RSVP"))), false);
        case NetworkError =>
          e := Effect(true, None, Some(ErrorToastOf(NetworkErrorText)), false);
      }
    }
  }
}
