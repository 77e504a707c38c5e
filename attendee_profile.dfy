/**
 * The attendee profile screen (src/components/AttendeeProfile.tsx): the
 * category table that decides which action buttons are rendered, the button
 * state, and `handleAction`, which runs four short-circuit checks and then
 * marks exactly one `day{d}_{action}` column.
 *
 * `handleAction` never consults the category table: permission is enforced
 * only by which buttons are rendered. The model keeps the guard as written
 * and proves separately that every offered button is a permitted action.
 */
module AttendeeProfile {
  import opened Wrappers
  import opened Text
  import opened Schema
  import Seqs

  /** The two event days. */
  type Day = d: int | 1 <= d <= 2 witness 1

  datatype Action = Entrance | Lunch | Dinner | Kit

  function ActionName(a: Action): string {
    match a
    case Entrance => "entrance"
    case Lunch => "lunch"
    case Dinner => "dinner"
    case Kit => "kit"
  }

  /** Milliseconds a performed action stays in the recent-action set. */
  const SuppressionWindow: int := 10000

  function DayDigit(day: Day): string {
    if day == 1 then "1" else "2"
  }

  /** `day${day}_${action}`: the column name, also the `action` of the activity-log row. */
  function FieldName(action: Action, day: Day): string {
    "day" + DayDigit(day) + "_" + ActionName(action)
  }

  /** `${action}_day${day}`: the key of the recent-action set. */
  function RecentKey(action: Action, day: Day): string {
    ActionName(action) + "_day" + DayDigit(day)
  }

  /** The column `FieldName(action, day)` names; the schema has none for dinner on day 2. */
  function Column(action: Action, day: Day): (r: Option<Flag>)
    ensures r.None? <==> action == Dinner && day == 2
    ensures r.Some? ==> ColumnName(r.value) == FieldName(action, day)
    ensures r.None? ==> forall f :: ColumnName(f) != FieldName(action, day)
  {
    ColumnNamesSpelled();
    match (action, day)
    case (Entrance, 1) => Some(Day1Entrance)
    case (Lunch, 1) => Some(Day1Lunch)
    case (Dinner, 1) => Some(Day1Dinner)
    case (Kit, 1) => Some(Day1Kit)
    case (Entrance, _) => Some(Day2Entrance)
    case (Lunch, _) => Some(Day2Lunch)
    case (Dinner, _) => NoDinnerColumnOnDay2(); None
    case (Kit, _) => Some(Day2Kit)
  }

  /** The seven column names are spelled `day{d}_{action}`. */
  lemma ColumnNamesSpelled()
    ensures ColumnName(Day1Entrance) == FieldName(Entrance, 1) && ColumnName(Day1Lunch) == FieldName(Lunch, 1)
    ensures ColumnName(Day1Dinner) == FieldName(Dinner, 1) && ColumnName(Day1Kit) == FieldName(Kit, 1)
    ensures ColumnName(Day2Entrance) == FieldName(Entrance, 2) && ColumnName(Day2Lunch) == FieldName(Lunch, 2)
    ensures ColumnName(Day2Kit) == FieldName(Kit, 2)
  {
  }

  /** `day2_dinner` is the name of no column. */
  lemma NoDinnerColumnOnDay2()
    ensures forall f :: ColumnName(f) != FieldName(Dinner, 2)
  {
    assert FieldName(Dinner, 2) == "day2_dinner";
    forall f ensures ColumnName(f) != "day2_dinner" {
      if f == Day1Dinner {
        assert ColumnName(f)[3] != "day2_dinner"[3];
      } else {
        assert |ColumnName(f)| != |"day2_dinner"|;
      }
    }
  }

  /** Different action-day pairs name different columns. */
  lemma ColumnInjective(a1: Action, d1: Day, a2: Action, d2: Day)
    requires Column(a1, d1).Some? && Column(a1, d1) == Column(a2, d2)
    ensures a1 == a2 && d1 == d2
  {
  }

  /** `new Date().getDate()` 21 is day 1, 22 is day 2, any other date day 1. */
  function CurrentDay(dayOfMonth: int): (d: Day)
    ensures d == 2 <==> dayOfMonth == 22
  {
    if dayOfMonth == 21 then 1 else if dayOfMonth == 22 then 2 else 1
  }

  // ---------------------------------------------------------------------------
  // Category table

  const TypeAliases: map<string, string> :=
    map["al" := "alumni", "fl" := "faculty", "vl" := "volunteer", "stu" := "student", "pr" := "press"]

  const FullAccessTypes: seq<string> := ["alumni", "faculty"]

  const LimitedAccessTypes: seq<string> := ["volunteer", "student", "press"]

  /**
   * `getNormalizedAttendeeType`: lower-cased, then an abbreviation replaced
   * by its category. The result is empty only for the empty category, holds
   * no upper-case letter and is never itself an abbreviation.
   */
  function NormalizedType(t: string): (r: string)
    ensures r == "" <==> t == ""
    ensures forall i :: 0 <= i < |r| ==> !IsUpperLetter(r[i])
    ensures r !in TypeAliases
    ensures ToLower(t) in TypeAliases ==> r == TypeAliases[ToLower(t)]
    ensures ToLower(t) !in TypeAliases ==> r == ToLower(t)
  {
    if t == "" then ""
    else
      var lower := ToLower(t);
      if lower in TypeAliases then
        AliasTargetsAreLower(lower);
        TypeAliases[lower]
      else lower
  }

  /** Each abbreviation stands for a lower-case category that is not itself an abbreviation. */
  lemma AliasTargetsAreLower(alias: string)
    requires alias in TypeAliases
    ensures TypeAliases[alias] !in TypeAliases && TypeAliases[alias] != ""
    ensures forall i :: 0 <= i < |TypeAliases[alias]| ==> !IsUpperLetter(TypeAliases[alias][i])
  {
  }

  /** Normalising twice is normalising once. */
  lemma NormalizedTypeIdempotent(t: string)
    ensures NormalizedType(NormalizedType(t)) == NormalizedType(t)
  {
    var n := NormalizedType(t);
    ToLowerOfLower(n);
  }

  /**
   * `getAvailableActions`: full-access categories get entrance, lunch and kit,
   * plus dinner on day 1 only; limited-access categories get entrance and
   * lunch; every other category gets nothing. No action is listed twice.
   */
  function AvailableActions(t: string, day: Day): (r: seq<Action>)
    ensures Kit in r <==> NormalizedType(t) in FullAccessTypes
    ensures Dinner in r <==> NormalizedType(t) in FullAccessTypes && day == 1
    ensures Entrance in r <==> NormalizedType(t) in FullAccessTypes + LimitedAccessTypes
    ensures Lunch in r <==> Entrance in r
    ensures forall i, j :: 0 <= i < j < |r| ==> r[i] != r[j]
  {
    var normalized := NormalizedType(t);
    if normalized in FullAccessTypes then
      [Entrance, Lunch, Kit] + (if day == 1 then [Dinner] else [])
    else if normalized in LimitedAccessTypes then
      [Entrance, Lunch]
    else
      []
  }

  /** The table does not depend on the letter case of the category. */
  lemma AvailableActionsIgnoreCase(t1: string, t2: string, day: Day)
    requires ToLower(t1) == ToLower(t2)
    ensures AvailableActions(t1, day) == AvailableActions(t2, day)
  {
    assert t1 == "" <==> t2 == "";
  }

  /** Each abbreviation gets the actions of the category it stands for. */
  lemma AliasesShareActions(alias: string, day: Day)
    requires alias in TypeAliases
    ensures AvailableActions(alias, day) == AvailableActions(TypeAliases[alias], day)
  {
    var full := TypeAliases[alias];
    ToLowerOfLower(alias);
    ToLowerOfLower(full);
    assert full !in TypeAliases;
  }

  /** The `other` value of the enumeration gets no action at all. */
  lemma OtherHasNoActions(day: Day)
    ensures AvailableActions("other", day) == []
  {
    ToLowerOfLower("other");
  }

  /** A category that is neither an abbreviation nor in either access list gets no action. */
  lemma UnknownCategoryHasNoActions(t: string, day: Day)
    requires ToLower(t) !in TypeAliases
    requires ToLower(t) !in FullAccessTypes + LimitedAccessTypes
    ensures AvailableActions(t, day) == []
  {
  }

  const Labels: map<string, string> :=
    map["alumni" := "Alumni", "faculty" := "Faculty", "volunteer" := "Volunteer", "student" := "Student", "press" := "Press"]

  /** `getTypeLabel`: the label of the normalized category, or the normalized text itself. */
  function TypeLabel(t: string): (r: string)
    ensures NormalizedType(t) in Labels ==> r == Capitalized(NormalizedType(t))
    ensures NormalizedType(t) !in Labels ==> r == NormalizedType(t)
  {
    var normalized := NormalizedType(t);
    if normalized in Labels then LabelIsCapitalized(normalized); Labels[normalized] else normalized
  }

  /** Each label is its category with the first letter upper-cased. */
  lemma LabelIsCapitalized(t: string)
    requires t in Labels
    ensures Labels[t] == Capitalized(t)
  {
    if t == "alumni" {
      assert Capitalized(t) == "Alumni";
    } else if t == "faculty" {
      assert Capitalized(t) == "Faculty";
    } else if t == "volunteer" {
      assert Capitalized(t) == "Volunteer";
    } else if t == "student" {
      assert Capitalized(t) == "Student";
    } else {
      assert Capitalized(t) == "Press";
    }
  }

  // ---------------------------------------------------------------------------
  // The checks of handleAction

  /** `attendee[fieldName]` is truthy; a column the schema lacks reads as undefined. */
  predicate IsDone(a: Attendee, action: Action, day: Day) {
    match Column(action, day)
    case None => false
    case Some(f) => Truthy(Get(a, f))
  }

  /** `eventSettings?.day{d}_enabled` is truthy: settings are loaded and the day is enabled. */
  predicate DayOpen(settings: Option<EventSettings>, day: Day) {
    settings.Some? && Truthy(if day == 1 then settings.value.day1Enabled else settings.value.day2Enabled)
  }

  /** `attendee.day1_kit || attendee.day2_kit` */
  predicate KitTaken(a: Attendee) {
    Truthy(a.day1Kit) || Truthy(a.day2Kit)
  }

  /** The recent-action set holds `key` at time `now`: it was added and its removal timer has not fired. */
  predicate Suppressed(recent: map<string, int>, key: string, now: int) {
    key in recent && now < recent[key]
  }

  datatype Reason = DuplicateSubmission | AlreadyCompleted | DayClosed | KitAlreadyTaken

  /** Checks 2 to 4 of `handleAction`, in order: already done, day locked, kit taken. */
  function RecordCheck(a: Attendee, settings: Option<EventSettings>, action: Action, day: Day): Option<Reason> {
    if IsDone(a, action, day) then Some(AlreadyCompleted)
    else if !DayOpen(settings, day) then Some(DayClosed)
    else if action == Kit && KitTaken(a) then Some(KitAlreadyTaken)
    else None
  }

  /** All four checks of `handleAction`; the first that fails gives the reason. */
  function Guard(a: Attendee, settings: Option<EventSettings>, recent: map<string, int>,
                 action: Action, day: Day, now: int): Option<Reason>
  {
    if Suppressed(recent, RecentKey(action, day), now) then Some(DuplicateSubmission)
    else RecordCheck(a, settings, action, day)
  }

  // ---------------------------------------------------------------------------
  // handleAction as a function of the screen's state

  /**
   * One click: the action and day of the button, the time in milliseconds,
   * whether the store accepted the column update, and the signed-in user.
   */
  datatype Request = Request(action: Action, day: Day, now: int, updateOk: bool, performedBy: Option<string>)

  datatype Outcome = Marked | Rejected(reason: Reason) | UpdateFailed

  /** What `handleAction` reads and writes: the local record, the settings, the recent set, the log rows sent. */
  datatype Snapshot = Snapshot(attendee: Attendee, settings: Option<EventSettings>,
                               recent: map<string, int>, log: seq<ActivityEntry>)

  /**
   * `handleAction(action, day)`. The checks run in a fixed order and the
   * first that fails names the rejection. A rejected request and a failed
   * update change nothing. A marked request sets exactly the one column to
   * true, appends the one activity-log row for it and suppresses a repeat
   * for the next ten seconds, leaving the other recent keys as they were.
   */
  function Perform(s: Snapshot, q: Request): (r: (Snapshot, Outcome))
    ensures r.1 != Marked ==> r.0 == s
    ensures r.1.Rejected? <==> Guard(s.attendee, s.settings, s.recent, q.action, q.day, q.now).Some?
    ensures Suppressed(s.recent, RecentKey(q.action, q.day), q.now) ==> r.1 == Rejected(DuplicateSubmission)
    ensures !Suppressed(s.recent, RecentKey(q.action, q.day), q.now) ==>
      && (IsDone(s.attendee, q.action, q.day) ==> r.1 == Rejected(AlreadyCompleted))
      && (!IsDone(s.attendee, q.action, q.day) && !DayOpen(s.settings, q.day) ==> r.1 == Rejected(DayClosed))
      && (!IsDone(s.attendee, q.action, q.day) && DayOpen(s.settings, q.day) && q.action == Kit && KitTaken(s.attendee)
          ==> r.1 == Rejected(KitAlreadyTaken))
    ensures r.1 == Marked <==>
      Guard(s.attendee, s.settings, s.recent, q.action, q.day, q.now).None? && q.updateOk && Column(q.action, q.day).Some?
    ensures r.1 == Marked ==>
      && Get(r.0.attendee, Column(q.action, q.day).value) == Some(true)
      && (forall g :: g != Column(q.action, q.day).value ==> Get(r.0.attendee, g) == Get(s.attendee, g))
      && SameIdentity(r.0.attendee, s.attendee)
      && r.0.settings == s.settings
      && |r.0.log| == |s.log| + 1 && r.0.log[..|s.log|] == s.log
      && r.0.log[|s.log|] == ActivityEntry(s.attendee.attendeeId, FieldName(q.action, q.day), q.day, q.performedBy)
      && r.0.recent == s.recent[RecentKey(q.action, q.day) := q.now + SuppressionWindow]
      && (forall t :: q.now <= t < q.now + SuppressionWindow ==> Suppressed(r.0.recent, RecentKey(q.action, q.day), t))
  {
    var reason := Guard(s.attendee, s.settings, s.recent, q.action, q.day, q.now);
    if reason.Some? then (s, Rejected(reason.value))
    else
      match Column(q.action, q.day)
      case None => (s, UpdateFailed)
      case Some(f) =>
        if !q.updateOk then (s, UpdateFailed)
        else
          var entry := ActivityEntry(s.attendee.attendeeId, FieldName(q.action, q.day), q.day, q.performedBy);
          var recent := s.recent[RecentKey(q.action, q.day) := q.now + SuppressionWindow];
          (Snapshot(Set(s.attendee, f, Some(true)), s.settings, recent, s.log + [entry]), Marked)
  }

  /** A sequence of clicks on one mounted profile screen. */
  function Run(s: Snapshot, qs: seq<Request>): (r: (Snapshot, seq<Outcome>))
    ensures |r.1| == |qs|
    decreases |qs|
  {
    if qs == [] then (s, [])
    else
      var (s1, o) := Perform(s, qs[0]);
      var (s2, os) := Run(s1, qs[1..]);
      (s2, [o] + os)
  }

  /** One click never undoes a completion, never takes a kit back and never changes the settings. */
  lemma PerformKeepsDone(s: Snapshot, q: Request)
    ensures forall action, day :: IsDone(s.attendee, action, day) ==> IsDone(Perform(s, q).0.attendee, action, day)
    ensures KitTaken(s.attendee) ==> KitTaken(Perform(s, q).0.attendee)
    ensures Perform(s, q).0.settings == s.settings
  {
    var r := Perform(s, q).0;
    if Perform(s, q).1 == Marked {
      assert s.attendee.day1Kit == Get(s.attendee, Day1Kit) && s.attendee.day2Kit == Get(s.attendee, Day2Kit);
      assert r.attendee.day1Kit == Get(r.attendee, Day1Kit) && r.attendee.day2Kit == Get(r.attendee, Day2Kit);
    }
  }

  /** A marked kit click leaves a kit taken. */
  lemma MarkedKitIsTaken(s: Snapshot, q: Request)
    requires Perform(s, q).1 == Marked && q.action == Kit
    ensures KitTaken(Perform(s, q).0.attendee)
  {
    var r := Perform(s, q).0;
    assert r.attendee.day1Kit == Get(r.attendee, Day1Kit) && r.attendee.day2Kit == Get(r.attendee, Day2Kit);
  }

  /** Completion is monotonic: no run turns a true column false, and only the completion columns change. */
  lemma {:induction false} RunMonotone(s: Snapshot, qs: seq<Request>)
    ensures forall g :: Truthy(Get(s.attendee, g)) ==> Truthy(Get(Run(s, qs).0.attendee, g))
    ensures SameIdentity(Run(s, qs).0.attendee, s.attendee)
    ensures Run(s, qs).0.settings == s.settings
    decreases |qs|
  {
    if qs != [] {
      RunMonotone(Perform(s, qs[0]).0, qs[1..]);
    }
  }

  /** A run never ends with both kit columns true when it did not start so. */
  lemma {:induction false} RunKeepsOneKit(s: Snapshot, qs: seq<Request>)
    requires !(Truthy(s.attendee.day1Kit) && Truthy(s.attendee.day2Kit))
    ensures !(Truthy(Run(s, qs).0.attendee.day1Kit) && Truthy(Run(s, qs).0.attendee.day2Kit))
    decreases |qs|
  {
    if qs != [] {
      var s1 := Perform(s, qs[0]).0;
      assert s.attendee.day1Kit == Get(s.attendee, Day1Kit) && s.attendee.day2Kit == Get(s.attendee, Day2Kit);
      assert s1.attendee.day1Kit == Get(s1.attendee, Day1Kit) && s1.attendee.day2Kit == Get(s1.attendee, Day2Kit);
      RunKeepsOneKit(s1, qs[1..]);
    }
  }

  /** The outcome of the first click of a run, and the run of the rest from the state it leaves. */
  lemma RunStep(s: Snapshot, qs: seq<Request>)
    requires qs != []
    ensures Run(s, qs).1 == [Perform(s, qs[0]).1] + Run(Perform(s, qs[0]).0, qs[1..]).1
  {
  }

  /** A click that ends up marked found its column not yet done and, for a kit, no kit taken at the start of the run. */
  lemma {:induction false} MarkedWasOpenAtStart(s: Snapshot, qs: seq<Request>, j: nat)
    requires j < |qs| && Run(s, qs).1[j] == Marked
    ensures !IsDone(s.attendee, qs[j].action, qs[j].day)
    ensures qs[j].action == Kit ==> !KitTaken(s.attendee)
    ensures DayOpen(s.settings, qs[j].day)
    decreases |qs|
  {
    var s1 := Perform(s, qs[0]).0;
    RunStep(s, qs);
    if j > 0 {
      MarkedWasOpenAtStart(s1, qs[1..], j - 1);
      PerformKeepsDone(s, qs[0]);
    }
  }

  /** At most once: in any run, no action on a day is marked twice. */
  lemma {:induction false} MarkedAtMostOnce(s: Snapshot, qs: seq<Request>, i: nat, j: nat)
    requires i < j < |qs|
    requires Run(s, qs).1[i] == Marked && Run(s, qs).1[j] == Marked
    ensures (qs[i].action, qs[i].day) != (qs[j].action, qs[j].day)
    decreases |qs|
  {
    var s1 := Perform(s, qs[0]).0;
    RunStep(s, qs);
    if i == 0 {
      MarkedWasOpenAtStart(s1, qs[1..], j - 1);
    } else {
      MarkedAtMostOnce(s1, qs[1..], i - 1, j - 1);
    }
  }

  /** At most one kit: in any run, at most one kit click is marked, whichever its day. */
  lemma {:induction false} KitMarkedAtMostOnce(s: Snapshot, qs: seq<Request>, i: nat, j: nat)
    requires i < j < |qs|
    requires Run(s, qs).1[i] == Marked && Run(s, qs).1[j] == Marked
    ensures qs[i].action != Kit || qs[j].action != Kit
    decreases |qs|
  {
    var s1 := Perform(s, qs[0]).0;
    RunStep(s, qs);
    if i == 0 {
      MarkedWasOpenAtStart(s1, qs[1..], j - 1);
      if qs[0].action == Kit {
        MarkedKitIsTaken(s, qs[0]);
      }
    } else {
      KitMarkedAtMostOnce(s1, qs[1..], i - 1, j - 1);
    }
  }

  /** With the day closed (or the settings not loaded) no click on that day is ever marked. */
  lemma ClosedDayMarksNothing(s: Snapshot, qs: seq<Request>, j: nat)
    requires j < |qs| && !DayOpen(s.settings, qs[j].day)
    ensures Run(s, qs).1[j] != Marked
  {
    if Run(s, qs).1[j] == Marked {
      MarkedWasOpenAtStart(s, qs, j);
    }
  }

  /** A repeat of a marked click within ten seconds is rejected as a duplicate, after that as already completed. */
  lemma RepeatRejected(s: Snapshot, q: Request, q': Request)
    requires Perform(s, q).1 == Marked
    requires q'.action == q.action && q'.day == q.day && q.now <= q'.now
    ensures q'.now < q.now + SuppressionWindow ==> Perform(Perform(s, q).0, q').1 == Rejected(DuplicateSubmission)
    ensures q'.now >= q.now + SuppressionWindow ==> Perform(Perform(s, q).0, q').1 == Rejected(AlreadyCompleted)
  {
  }

  /** `handleAction` does not look at the category: changing it changes no outcome. */
  lemma PerformIgnoresCategory(s: Snapshot, q: Request, kind: string)
    ensures Perform(s.(attendee := s.attendee.(kind := kind)), q).1 == Perform(s, q).1
  {
  }

  // ---------------------------------------------------------------------------
  // Buttons

  /** What `ActionButton` renders: whether it can be clicked and its text. */
  datatype Button = Button(action: Action, day: Day, enabled: bool, text: string)

  /**
   * `ActionButton`: disabled while loading and whenever the done, lockout or
   * kit check of `handleAction` would reject; the label says why it is locked.
   */
  function ActionButton(a: Attendee, settings: Option<EventSettings>, loading: bool,
                        action: Action, day: Day, caption: string): (b: Button)
    ensures b.action == action && b.day == day
    ensures !loading ==> (b.enabled <==> RecordCheck(a, settings, action, day).None?)
    ensures loading ==> !b.enabled
  {
    var isDone := IsDone(a, action, day);
    var isDayLocked := !DayOpen(settings, day);
    var isKitTaken := action == Kit && KitTaken(a);
    Button(action, day, !(loading || isDone || isDayLocked || isKitTaken),
           caption + (if isDayLocked then " (Closed)" else "") + (if isKitTaken then " (Taken)" else ""))
  }

  function NotKit(x: Action): bool { x != Kit }

  /**
   * The actions whose buttons the screen renders for a day: the table's on
   * day 1; on day 2 the table's without kit, then kit only when the table
   * permits it and no kit was taken on day 1.
   */
  function OfferedActions(a: Attendee, day: Day): (r: seq<Action>)
    ensures forall x :: x in r ==> x in AvailableActions(a.kind, day)
    ensures day == 1 ==> r == AvailableActions(a.kind, 1)
    ensures day == 2 ==> forall x :: x != Kit ==> (x in r <==> x in AvailableActions(a.kind, 2))
    ensures day == 2 ==> (Kit in r <==> Kit in AvailableActions(a.kind, 2) && !Truthy(a.day1Kit))
    ensures Seqs.Distinct(r)
  {
    var available := AvailableActions(a.kind, day);
    if day == 1 then available
    else
      Seqs.FilterMembership(available, NotKit);
      Seqs.FilterKeepsDistinct(available, NotKit);
      Seqs.Filter(available, NotKit)
      + (if Kit in available && !Truthy(a.day1Kit) then [Kit] else [])
  }

  function ButtonLabel(action: Action): string {
    Capitalized(ActionName(action))
  }

  /** The buttons of one day's card, in order. */
  function Buttons(a: Attendee, settings: Option<EventSettings>, loading: bool, day: Day): (r: seq<Button>)
    ensures |r| == |OfferedActions(a, day)|
    ensures forall i :: 0 <= i < |r| ==> r[i].action == OfferedActions(a, day)[i] && r[i].day == day
    ensures forall i :: 0 <= i < |r| ==> (r[i].enabled <==> !loading && RecordCheck(a, settings, r[i].action, day).None?)
  {
    var offered := OfferedActions(a, day);
    seq(|offered|, i requires 0 <= i < |offered| => ActionButton(a, settings, loading, offered[i], day, ButtonLabel(offered[i])))
  }

  /**
   * A click on an enabled button is a permitted action, and the guard accepts
   * it unless the same action was performed within the last ten seconds.
   */
  lemma EnabledButtonIsPermitted(s: Snapshot, loading: bool, day: Day, b: Button, now: int)
    requires b in Buttons(s.attendee, s.settings, loading, day) && b.enabled
    ensures b.action in AvailableActions(s.attendee.kind, day)
    ensures !Suppressed(s.recent, RecentKey(b.action, day), now) ==>
      Guard(s.attendee, s.settings, s.recent, b.action, day, now).None?
  {
    var r := Buttons(s.attendee, s.settings, loading, day);
    var i :| 0 <= i < |r| && r[i] == b;
    assert b.action in OfferedActions(s.attendee, day);
  }

  // ---------------------------------------------------------------------------
  // The screen

  class ProfileView {
    var attendee: Attendee
    var settings: Option<EventSettings>
    var currentDay: Day
    var loading: bool
    /** The recent-action set: each key with the time its removal timer fires. */
    var recent: map<string, int>
    /** The activity-log rows this screen has sent; the insert's error is not checked. */
    var log: seq<ActivityEntry>

    function Snap(): Snapshot
      reads this
    {
      Snapshot(attendee, settings, recent, log)
    }

    /** Mounting the screen for a scanned attendee on a given day of the month. */
    constructor(initial: Attendee, dayOfMonth: int)
      ensures Snap() == Snapshot(initial, None, map[], [])
      ensures currentDay == CurrentDay(dayOfMonth) && !loading
    {
      attendee := initial;
      settings := None;
      currentDay := CurrentDay(dayOfMonth);
      loading := false;
      recent := map[];
      log := [];
    }

    /** `fetchEventSettings` resolved; `data` is `null` when the read failed. */
    method SettingsLoaded(data: Option<EventSettings>)
      modifies this
      ensures settings == data
      ensures attendee == old(attendee) && recent == old(recent) && log == old(log)
      ensures loading == old(loading) && currentDay == old(currentDay)
    {
      settings := data;
    }

    /** `handleAction(action, day)`. */
    method HandleAction(q: Request) returns (o: Outcome)
      modifies this
      ensures (Snap(), o) == Perform(old(Snap()), q)
      ensures loading == (if o.Rejected? then old(loading) else false)
      ensures currentDay == old(currentDay)
    {
      var key := RecentKey(q.action, q.day);
      if key in recent && q.now < recent[key] {
        return Rejected(DuplicateSubmission);
      }
      if IsDone(attendee, q.action, q.day) {
        return Rejected(AlreadyCompleted);
      }
      if q.day == 1 && !DayOpen(settings, 1) {
        return Rejected(DayClosed);
      }
      if q.day == 2 && !DayOpen(settings, 2) {
        return Rejected(DayClosed);
      }
      if q.action == Kit {
        if KitTaken(attendee) {
          return Rejected(KitAlreadyTaken);
        }
      }
      loading := true;
      var column := Column(q.action, q.day);
      if !q.updateOk || column.None? {
        loading := false;
        return UpdateFailed;
      }
      log := log + [ActivityEntry(attendee.attendeeId, FieldName(q.action, q.day), q.day, q.performedBy)];
      attendee := Set(attendee, column.value, Some(true));
      recent := recent[key := q.now + SuppressionWindow];
      loading := false;
      o := Marked;
    }

    /**
     * The buttons of one day's card as the screen renders them now: one per
     * offered action, and an enabled one only while no click is in flight and
     * only for an action the attendee's category permits.
     */
    function DayButtons(day: Day): (r: seq<Button>)
      reads this
      ensures |r| == |OfferedActions(attendee, day)|
      ensures forall i :: 0 <= i < |r| ==> r[i].action == OfferedActions(attendee, day)[i] && r[i].day == day
      ensures forall i :: 0 <= i < |r| && r[i].enabled ==>
        !loading && r[i].action in AvailableActions(attendee.kind, day)
    {
      Buttons(attendee, settings, loading, day)
    }
  }
}
