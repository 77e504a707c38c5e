/**
 * The stand-alone dashboard page (src/pages/dashboard.tsx): a name-or-email
 * search, seven counters and a label table. The page declares its own record
 * shape, whose completion fields (`entrance`, `kit`, `lunch_day_1`, ...) are
 * not columns of `attendees`; rows read from the store therefore leave them
 * undefined, which `FromRow` and `SchemaRowsCountNothing` make explicit.
 */
module Dashboard {
  import opened Wrappers
  import opened Text
  import opened Seqs
  import Schema
  import AttendeeProfile

  /** The page's `Attendee` type; a field the row lacks is `None` (undefined). */
  datatype DashboardAttendee = DashboardAttendee(
    id: string,
    name: string,
    email: string,
    kind: string,
    lunchDay1: Option<bool>,
    lunchDay2: Option<bool>,
    dinnerDay1: Option<bool>,
    dinnerDay2: Option<bool>,
    kit: Option<bool>,
    entrance: Option<bool>,
    alDay1: Option<bool>,
    alDay2: Option<bool>,
    flDay1: Option<bool>,
    flDay2: Option<bool>,
    vlDay1: Option<bool>,
    vlDay2: Option<bool>)

  /** `data as unknown as Attendee[]` on one `attendees` row: the shared fields carry over, the rest is undefined. */
  function FromRow(a: Schema.Attendee): (r: DashboardAttendee)
    ensures r.id == a.id && r.name == a.name && r.email == a.email && r.kind == a.kind
    ensures r.lunchDay1 == None && r.lunchDay2 == None && r.dinnerDay1 == None && r.dinnerDay2 == None
    ensures r.kit == None && r.entrance == None
    ensures r.alDay1 == None && r.alDay2 == None && r.flDay1 == None && r.flDay2 == None
    ensures r.vlDay1 == None && r.vlDay2 == None
  {
    DashboardAttendee(a.id, a.name, a.email, a.kind,
      None, None, None, None, None, None, None, None, None, None, None, None)
  }

  // ---------------------------------------------------------------------------
  // Search

  /** The lower-cased name or email contains the lower-cased term; the term is not trimmed. */
  predicate MatchesTerm(a: DashboardAttendee, searchTerm: string) {
    Contains(ToLower(a.name), ToLower(searchTerm)) || Contains(ToLower(a.email), ToLower(searchTerm))
  }

  /** `filteredAttendees` */
  function FilteredAttendees(attendees: seq<DashboardAttendee>, searchTerm: string): (r: seq<DashboardAttendee>)
    ensures |r| <= |attendees|
    ensures forall a :: a in r ==> a in attendees && MatchesTerm(a, searchTerm)
  {
    Filter(attendees, a => MatchesTerm(a, searchTerm))
  }

  /**
   * The search keeps, in their order, exactly the attendees that match: a
   * matching attendee as often as it occurs, a non-matching one never.
   */
  lemma SearchResult(attendees: seq<DashboardAttendee>, searchTerm: string)
    ensures IsSublist(FilteredAttendees(attendees, searchTerm), attendees)
    ensures forall a :: a in FilteredAttendees(attendees, searchTerm) <==> a in attendees && MatchesTerm(a, searchTerm)
    ensures forall a :: a in attendees && MatchesTerm(a, searchTerm) ==>
      multiset(FilteredAttendees(attendees, searchTerm))[a] == multiset(attendees)[a]
  {
    var matches := a => MatchesTerm(a, searchTerm);
    FilterIsSublist(attendees, matches);
    forall a | a in attendees && MatchesTerm(a, searchTerm)
      ensures multiset(Filter(attendees, matches))[a] == multiset(attendees)[a]
    {
      FilterKeepsMultiplicity(attendees, matches, a);
    }
  }

  /** The empty term keeps every attendee, in order. */
  lemma EmptyTermKeepsAll(attendees: seq<DashboardAttendee>)
    ensures FilteredAttendees(attendees, "") == attendees
  {
    forall a | a in attendees ensures MatchesTerm(a, "") {
      ContainsEmpty(ToLower(a.name));
    }
    FilterKeepsAll(attendees, a => MatchesTerm(a, ""));
  }

  /** Narrowing the term narrows the result: a longer term that contains a shorter one keeps a sub-list of what the shorter one keeps. */
  lemma NarrowerTermNarrowerResult(attendees: seq<DashboardAttendee>, t1: string, t2: string)
    requires Contains(t2, t1)
    ensures IsSublist(FilteredAttendees(attendees, t2), FilteredAttendees(attendees, t1))
  {
    ToLowerKeepsContains(t2, t1);
    forall a | a in attendees && MatchesTerm(a, t2) ensures MatchesTerm(a, t1) {
      if Contains(ToLower(a.name), ToLower(t2)) {
        ContainsTransitive(ToLower(a.name), ToLower(t2), ToLower(t1));
      } else {
        ContainsTransitive(ToLower(a.email), ToLower(t2), ToLower(t1));
      }
    }
    FilterMonotone(attendees, a => MatchesTerm(a, t2), a => MatchesTerm(a, t1));
  }

  /** The term is not trimmed: a single space drops an attendee whose name and email hold no space, although the empty term keeps it. */
  lemma SpaceTermIsLiteral(a: DashboardAttendee)
    requires ' ' !in a.name && ' ' !in a.email
    ensures FilteredAttendees([a], " ") == []
    ensures FilteredAttendees([a], "") == [a]
  {
    EmptyTermKeepsAll([a]);
    NoSpaceAfterLowering(a.name);
    NoSpaceAfterLowering(a.email);
    assert ToLower(" ") == " ";
  }

  lemma NoSpaceAfterLowering(s: string)
    requires ' ' !in s
    ensures !Contains(ToLower(s), " ")
  {
    forall i: nat | i <= |ToLower(s)| ensures !OccursAt(ToLower(s), " ", i) {
      if i < |s| {
        assert s[i] in s;
        assert ToLower(s)[i..i + 1][0] == LowerChar(s[i]);
      }
    }
  }

  // ---------------------------------------------------------------------------
  // Counters

  datatype DashboardStats = DashboardStats(
    total: nat,
    checkedIn: nat,
    kitPickedUp: nat,
    lunchDay1: nat,
    lunchDay2: nat,
    dinnerDay1: nat,
    dinnerDay2: nat)

  predicate CheckedIn(a: DashboardAttendee) { Truthy(a.entrance) }
  predicate PickedUpKit(a: DashboardAttendee) { Truthy(a.kit) }
  predicate LunchedDay1(a: DashboardAttendee) { Truthy(a.lunchDay1) }
  predicate LunchedDay2(a: DashboardAttendee) { Truthy(a.lunchDay2) }
  predicate DinedDay1(a: DashboardAttendee) { Truthy(a.dinnerDay1) }
  predicate DinedDay2(a: DashboardAttendee) { Truthy(a.dinnerDay2) }

  /** `stats`: the total and, for each field, how many attendees have it true; none exceeds the total. */
  function Stats(attendees: seq<DashboardAttendee>): (s: DashboardStats)
    ensures s.total == |attendees|
    ensures s.checkedIn <= s.total && s.kitPickedUp <= s.total
    ensures s.lunchDay1 <= s.total && s.lunchDay2 <= s.total
    ensures s.dinnerDay1 <= s.total && s.dinnerDay2 <= s.total
  {
    DashboardStats(
      |attendees|,
      |Filter(attendees, CheckedIn)|,
      |Filter(attendees, PickedUpKit)|,
      |Filter(attendees, LunchedDay1)|,
      |Filter(attendees, LunchedDay2)|,
      |Filter(attendees, DinedDay1)|,
      |Filter(attendees, DinedDay2)|)
  }

  /** With no attendees every counter is zero. */
  lemma StatsOfNoAttendees()
    ensures Stats([]) == DashboardStats(0, 0, 0, 0, 0, 0, 0)
  {
  }

  /**
   * One more attendee adds one to the total and one to exactly the counters
   * whose field it has true. With `StatsOfNoAttendees` this fixes every
   * counter of every list.
   */
  lemma StatsAddOne(attendees: seq<DashboardAttendee>, a: DashboardAttendee)
    ensures var s := Stats(attendees); var s' := Stats(attendees + [a]);
      && s'.total == s.total + 1
      && s'.checkedIn == s.checkedIn + (if Truthy(a.entrance) then 1 else 0)
      && s'.kitPickedUp == s.kitPickedUp + (if Truthy(a.kit) then 1 else 0)
      && s'.lunchDay1 == s.lunchDay1 + (if Truthy(a.lunchDay1) then 1 else 0)
      && s'.lunchDay2 == s.lunchDay2 + (if Truthy(a.lunchDay2) then 1 else 0)
      && s'.dinnerDay1 == s.dinnerDay1 + (if Truthy(a.dinnerDay1) then 1 else 0)
      && s'.dinnerDay2 == s.dinnerDay2 + (if Truthy(a.dinnerDay2) then 1 else 0)
  {
    FilterSnoc(attendees, a, CheckedIn);
    FilterSnoc(attendees, a, PickedUpKit);
    FilterSnoc(attendees, a, LunchedDay1);
    FilterSnoc(attendees, a, LunchedDay2);
    FilterSnoc(attendees, a, DinedDay1);
    FilterSnoc(attendees, a, DinedDay2);
  }

  /** Rows of the store, read through the page's record shape, leave every counter but the total at zero. */
  lemma SchemaRowsCountNothing(rows: seq<Schema.Attendee>)
    ensures var s := Stats(seq(|rows|, i requires 0 <= i < |rows| => FromRow(rows[i])));
      s.total == |rows| && s.checkedIn == 0 && s.kitPickedUp == 0
      && s.lunchDay1 == 0 && s.lunchDay2 == 0 && s.dinnerDay1 == 0 && s.dinnerDay2 == 0
  {
    var xs := seq(|rows|, i requires 0 <= i < |rows| => FromRow(rows[i]));
    assert forall a :: a in xs ==>
      a.entrance == None && a.kit == None && a.lunchDay1 == None
      && a.lunchDay2 == None && a.dinnerDay1 == None && a.dinnerDay2 == None;
    FilterRejectsAll(xs, CheckedIn);
    FilterRejectsAll(xs, PickedUpKit);
    FilterRejectsAll(xs, LunchedDay1);
    FilterRejectsAll(xs, LunchedDay2);
    FilterRejectsAll(xs, DinedDay1);
    FilterRejectsAll(xs, DinedDay2);
  }

  // ---------------------------------------------------------------------------
  // Labels

  /** `getTypeLabel`: the table of the profile screen, looked up without normalisation. */
  function TypeLabel(t: string): (r: string)
    ensures t in AttendeeProfile.Labels ==> r == Capitalized(t)
    ensures t !in AttendeeProfile.Labels ==> r == t
  {
    if t in AttendeeProfile.Labels then AttendeeProfile.LabelIsCapitalized(t); AttendeeProfile.Labels[t] else t
  }

  /** The profile screen's label is this page's label of the normalised category. */
  lemma ProfileLabelNormalizesFirst(t: string)
    ensures AttendeeProfile.TypeLabel(t) == TypeLabel(AttendeeProfile.NormalizedType(t))
  {
  }

  /** Abbreviations and upper case are labelled differently here: "al" stays "al" where the profile shows "Alumni". */
  lemma AbbreviationNotLabelled()
    ensures TypeLabel("al") == "al"
    ensures AttendeeProfile.TypeLabel("al") == "Alumni"
  {
    ToLowerOfLower("al");
  }
}
