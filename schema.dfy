/**
 * The rows of the backing store that the pages read and write
 * (`attendees`, `event_settings`, `activity_log`) and the `attendee_type`
 * enumeration. Timestamps the store fills in (`created_at`, `updated_at`,
 * `timestamp`) are kept as opaque optional strings.
 */
module Schema {
  import opened Wrappers

  /** The values of the `attendee_type` enumeration. */
  const AttendeeTypes: set<string> := {"alumni", "faculty", "volunteer", "other"}

  /** One of the seven per-day completion columns (there is no `day2_dinner`). */
  datatype Flag = Day1Entrance | Day1Lunch | Day1Dinner | Day1Kit | Day2Entrance | Day2Lunch | Day2Kit

  /** A row of `attendees`; `kind` is the `type` column. */
  datatype Attendee = Attendee(
    id: string,
    attendeeId: string,
    qrCode: string,
    name: string,
    email: string,
    phone: string,
    kind: string,
    assignedFlag: Option<bool>,
    createdAt: Option<string>,
    day1Entrance: Option<bool>,
    day1Lunch: Option<bool>,
    day1Dinner: Option<bool>,
    day1Kit: Option<bool>,
    day2Entrance: Option<bool>,
    day2Lunch: Option<bool>,
    day2Kit: Option<bool>)

  /** The name of a completion column in `attendees`. */
  function ColumnName(f: Flag): string {
    match f
    case Day1Entrance => "day1_entrance"
    case Day1Lunch => "day1_lunch"
    case Day1Dinner => "day1_dinner"
    case Day1Kit => "day1_kit"
    case Day2Entrance => "day2_entrance"
    case Day2Lunch => "day2_lunch"
    case Day2Kit => "day2_kit"
  }

  /** The value of a completion column. */
  function Get(a: Attendee, f: Flag): Option<bool> {
    match f
    case Day1Entrance => a.day1Entrance
    case Day1Lunch => a.day1Lunch
    case Day1Dinner => a.day1Dinner
    case Day1Kit => a.day1Kit
    case Day2Entrance => a.day2Entrance
    case Day2Lunch => a.day2Lunch
    case Day2Kit => a.day2Kit
  }

  /** `{ ...a, [f]: v }`: the row with one completion column replaced. */
  function Set(a: Attendee, f: Flag, v: Option<bool>): (r: Attendee)
    ensures Get(r, f) == v
    ensures forall g :: g != f ==> Get(r, g) == Get(a, g)
    ensures SameIdentity(r, a)
  {
    match f
    case Day1Entrance => a.(day1Entrance := v)
    case Day1Lunch => a.(day1Lunch := v)
    case Day1Dinner => a.(day1Dinner := v)
    case Day1Kit => a.(day1Kit := v)
    case Day2Entrance => a.(day2Entrance := v)
    case Day2Lunch => a.(day2Lunch := v)
    case Day2Kit => a.(day2Kit := v)
  }

  /** Two rows agree on every column other than the completion columns. */
  predicate SameIdentity(a: Attendee, b: Attendee) {
    && a.id == b.id && a.attendeeId == b.attendeeId && a.qrCode == b.qrCode
    && a.name == b.name && a.email == b.email && a.phone == b.phone
    && a.kind == b.kind && a.assignedFlag == b.assignedFlag && a.createdAt == b.createdAt
  }

  /** The `attendees` insert the registration form sends; the store fills in the rest. */
  datatype AttendeeInsert = AttendeeInsert(
    attendeeId: string,
    kind: string,
    name: string,
    email: string,
    phone: string,
    qrCode: string,
    assignedFlag: bool)

  /** A row of `event_settings`. */
  datatype EventSettings = EventSettings(
    id: string,
    day1Enabled: Option<bool>,
    day2Enabled: Option<bool>,
    updatedAt: Option<string>)

  /** An `activity_log` insert: `id` and `timestamp` are filled in by the store. */
  datatype ActivityEntry = ActivityEntry(
    attendeeId: string,
    action: string,
    day: int,
    performedBy: Option<string>)
}
