/**
 * The registration form (src/components/RegistrationForm.tsx): ask the
 * store's `get_next_attendee_id` for an id, then insert the attendee bound to
 * the scanned code, and report completion only when both steps succeed. The
 * allocator runs in the store and is not part of this model: it is a
 * parameter that returns an id or an error, and nothing is assumed about the
 * ids it returns.
 */
module RegistrationForm {
  import opened Schema

  datatype FormData = FormData(name: string, email: string, phone: string, kind: string)

  /** The form starts empty with the category `alumni`. */
  const DefaultForm: FormData := FormData("", "", "", "alumni")

  /** The answer of `rpc("get_next_attendee_id", { attendee_type })`. */
  datatype Allocation = Allocated(id: string) | AllocationError(message: string)

  datatype Submission = Registered(attendeeId: string) | AllocationFailed(message: string) | InsertFailed

  /** The row inserted for a newly allocated id. */
  function NewAttendee(id: string, form: FormData, qrCode: string): AttendeeInsert {
    AttendeeInsert(id, form.kind, form.name, form.email, form.phone, qrCode, true)
  }

  class Form {
    const qrCode: string
    var form: FormData
    var loading: bool
    /** How many times `onComplete` has been called. */
    var completions: nat
    /** The categories sent to the allocator, in order. */
    var allocationRequests: seq<string>
    /** The rows sent to the store, in order. */
    var inserts: seq<AttendeeInsert>

    /** The category select offers only the values of the `attendee_type` enumeration. */
    ghost predicate Valid()
      reads this
    {
      form.kind in AttendeeTypes
    }

    constructor(qrCode: string)
      ensures Valid() && this.qrCode == qrCode && form == DefaultForm && !loading
      ensures completions == 0 && allocationRequests == [] && inserts == []
    {
      this.qrCode := qrCode;
      form := DefaultForm;
      loading := false;
      completions := 0;
      allocationRequests := [];
      inserts := [];
    }

    method SetName(value: string)
      modifies this
      ensures form == old(form).(name := value)
      ensures Valid() == old(Valid()) && loading == old(loading) && completions == old(completions)
      ensures allocationRequests == old(allocationRequests) && inserts == old(inserts)
    {
      form := form.(name := value);
    }

    method SetEmail(value: string)
      modifies this
      ensures form == old(form).(email := value)
      ensures Valid() == old(Valid()) && loading == old(loading) && completions == old(completions)
      ensures allocationRequests == old(allocationRequests) && inserts == old(inserts)
    {
      form := form.(email := value);
    }

    method SetPhone(value: string)
      modifies this
      ensures form == old(form).(phone := value)
      ensures Valid() == old(Valid()) && loading == old(loading) && completions == old(completions)
      ensures allocationRequests == old(allocationRequests) && inserts == old(inserts)
    {
      form := form.(phone := value);
    }

    /** `onValueChange` of the category select. */
    method SetKind(value: string)
      requires value in AttendeeTypes
      modifies this
      ensures Valid() && form == old(form).(kind := value)
      ensures loading == old(loading) && completions == old(completions)
      ensures allocationRequests == old(allocationRequests) && inserts == old(inserts)
    {
      form := form.(kind := value);
    }

    /**
     * `handleSubmit`. An allocation error stops before the insert; an insert
     * error stops before `onComplete`; `onComplete` is called once, and only
     * when both succeeded. The inserted row carries the allocated id, the
     * scanned code, the form's fields and `assigned` true. Loading ends false.
     * The browser submits the form only when the three `required` fields are
     * filled in.
     */
    method HandleSubmit(allocate: string -> Allocation, insert: AttendeeInsert -> bool) returns (r: Submission)
      requires Valid()
      requires form.name != "" && form.email != "" && form.phone != ""
      modifies this
      ensures Valid() && form == old(form) && !loading
      ensures allocationRequests == old(allocationRequests) + [form.kind]
      ensures allocate(form.kind).AllocationError? ==>
        && r == AllocationFailed(allocate(form.kind).message)
        && inserts == old(inserts) && completions == old(completions)
      ensures allocate(form.kind).Allocated? ==>
        var row := NewAttendee(allocate(form.kind).id, form, qrCode);
        && inserts == old(inserts) + [row]
        && inserts[|inserts| - 1].kind in AttendeeTypes
        && inserts[|inserts| - 1].name != "" && inserts[|inserts| - 1].email != "" && inserts[|inserts| - 1].phone != ""
        && (insert(row) ==> r == Registered(row.attendeeId) && completions == old(completions) + 1)
        && (!insert(row) ==> r == InsertFailed && completions == old(completions))
    {
      loading := true;
      allocationRequests := allocationRequests + [form.kind];
      var allocation := allocate(form.kind);
      if allocation.AllocationError? {
        loading := false;
        return AllocationFailed(allocation.message);
      }
      var row := NewAttendee(allocation.id, form, qrCode);
      inserts := inserts + [row];
      if !insert(row) {
        loading := false;
        return InsertFailed;
      }
      completions := completions + 1;
      loading := false;
      r := Registered(allocation.id);
    }
  }
}
