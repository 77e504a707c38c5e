/**
 * The admin page (src/pages/Admin.tsx): the statistics over all attendees,
 * the case-insensitive search, the day switches and the CSV export text.
 * Reading and writing the store are parameters; the download link is not
 * modelled.
 */
module Admin {
  import opened Wrappers
  import opened Text
  import opened Schema
  import opened Seqs
  import AttendeeProfile

  // ---------------------------------------------------------------------------
  // Statistics

  datatype Stats = Stats(
    total: nat,
    alumni: nat,
    faculty: nat,
    volunteer: nat,
    other: nat,
    day1Entrance: nat,
    day2Entrance: nat,
    day1Lunch: nat,
    day2Lunch: nat,
    day1Dinner: nat,
    kits: nat)

  predicate IsAlumni(a: Attendee) { a.kind == "alumni" }
  predicate IsFaculty(a: Attendee) { a.kind == "faculty" }
  predicate IsVolunteer(a: Attendee) { a.kind == "volunteer" }
  predicate IsOther(a: Attendee) { a.kind == "other" }
  predicate EnteredDay1(a: Attendee) { Truthy(a.day1Entrance) }
  predicate EnteredDay2(a: Attendee) { Truthy(a.day2Entrance) }
  predicate LunchedDay1(a: Attendee) { Truthy(a.day1Lunch) }
  predicate LunchedDay2(a: Attendee) { Truthy(a.day2Lunch) }
  predicate DinedDay1(a: Attendee) { Truthy(a.day1Dinner) }
  predicate KitDay1(a: Attendee) { Truthy(a.day1Kit) }
  predicate KitDay2(a: Attendee) { Truthy(a.day2Kit) }
  predicate HasKit(a: Attendee) { Truthy(a.day1Kit) || Truthy(a.day2Kit) }

  /**
   * `calculateStats`: each figure is the number of attendees with the
   * property, so none exceeds the total.
   */
  function CalculateStats(data: seq<Attendee>): (s: Stats)
    ensures s.total == |data|
    ensures s.alumni <= s.total && s.faculty <= s.total && s.volunteer <= s.total && s.other <= s.total
    ensures s.day1Entrance <= s.total && s.day2Entrance <= s.total
    ensures s.day1Lunch <= s.total && s.day2Lunch <= s.total && s.day1Dinner <= s.total
    ensures s.kits <= s.total
  {
    Stats(
      |data|,
      |Filter(data, IsAlumni)|,
      |Filter(data, IsFaculty)|,
      |Filter(data, IsVolunteer)|,
      |Filter(data, IsOther)|,
      |Filter(data, EnteredDay1)|,
      |Filter(data, EnteredDay2)|,
      |Filter(data, LunchedDay1)|,
      |Filter(data, LunchedDay2)|,
      |Filter(data, DinedDay1)|,
      |Filter(data, HasKit)|)
  }

  /** With no attendees every figure is zero. */
  lemma StatsOfNoAttendees()
    ensures CalculateStats([]) == Stats(0, 0, 0, 0, 0, 0, 0, 0, 0, 0, 0)
  {
  }

  /**
   * One more attendee adds one to the total and one to exactly the figures
   * whose test it passes: its `type` equals the category, or its column is
   * true. With `StatsOfNoAttendees` this fixes every figure of every list.
   */
  lemma StatsAddOne(data: seq<Attendee>, a: Attendee)
    ensures var s := CalculateStats(data); var s' := CalculateStats(data + [a]);
      && s'.total == s.total + 1
      && s'.alumni == s.alumni + (if a.kind == "alumni" then 1 else 0)
      && s'.faculty == s.faculty + (if a.kind == "faculty" then 1 else 0)
      && s'.volunteer == s.volunteer + (if a.kind == "volunteer" then 1 else 0)
      && s'.other == s.other + (if a.kind == "other" then 1 else 0)
      && s'.day1Entrance == s.day1Entrance + (if Truthy(a.day1Entrance) then 1 else 0)
      && s'.day2Entrance == s.day2Entrance + (if Truthy(a.day2Entrance) then 1 else 0)
      && s'.day1Lunch == s.day1Lunch + (if Truthy(a.day1Lunch) then 1 else 0)
      && s'.day2Lunch == s.day2Lunch + (if Truthy(a.day2Lunch) then 1 else 0)
      && s'.day1Dinner == s.day1Dinner + (if Truthy(a.day1Dinner) then 1 else 0)
      && s'.kits == s.kits + (if Truthy(a.day1Kit) || Truthy(a.day2Kit) then 1 else 0)
  {
    FilterSnoc(data, a, IsAlumni);
    FilterSnoc(data, a, IsFaculty);
    FilterSnoc(data, a, IsVolunteer);
    FilterSnoc(data, a, IsOther);
    FilterSnoc(data, a, EnteredDay1);
    FilterSnoc(data, a, EnteredDay2);
    FilterSnoc(data, a, LunchedDay1);
    FilterSnoc(data, a, LunchedDay2);
    FilterSnoc(data, a, DinedDay1);
    FilterSnoc(data, a, HasKit);
  }

  /** The four type counts add up to the total when every type is a value of the enumeration. */
  lemma TypeCountsSumToTotal(data: seq<Attendee>)
    requires forall a :: a in data ==> a.kind in AttendeeTypes
    ensures var s := CalculateStats(data); s.alumni + s.faculty + s.volunteer + s.other == s.total
  {
    TypeFiltersPartition(data);
  }

  lemma {:induction false} TypeFiltersPartition(data: seq<Attendee>)
    requires forall a :: a in data ==> a.kind in AttendeeTypes
    ensures |Filter(data, IsAlumni)| + |Filter(data, IsFaculty)| + |Filter(data, IsVolunteer)| + |Filter(data, IsOther)| == |data|
  {
    if data != [] {
      assert data[0] in data;
      assert forall a :: a in data[1..] ==> a in data;
      TypeFiltersPartition(data[1..]);
    }
  }

  /**
   * An attendee with a kit counts once, whichever day it was taken: the kit
   * figure lies between the larger and the sum of the per-day counts, and is
   * the sum when nobody holds both kits, as the profile screen guarantees.
   */
  lemma KitsCountedOnce(data: seq<Attendee>)
    ensures var kits := CalculateStats(data).kits;
      && |Filter(data, KitDay1)| <= kits && |Filter(data, KitDay2)| <= kits
      && kits <= |Filter(data, KitDay1)| + |Filter(data, KitDay2)|
    ensures (forall a :: a in data ==> !(Truthy(a.day1Kit) && Truthy(a.day2Kit))) ==>
      CalculateStats(data).kits == |Filter(data, KitDay1)| + |Filter(data, KitDay2)|
  {
    FilterCountOr(data, KitDay1, KitDay2, HasKit);
  }

  // ---------------------------------------------------------------------------
  // Search

  /** `a` matches a lower-cased query on its name, email, id or code, or on its phone as stored. */
  predicate MatchesQuery(a: Attendee, query: string) {
    || Contains(ToLower(a.name), query)
    || Contains(ToLower(a.email), query)
    || Contains(a.phone, query)
    || Contains(ToLower(a.attendeeId), query)
    || Contains(ToLower(a.qrCode), query)
  }

  /** `attendees.filter(...)` with the search predicate of `filterAttendees`. */
  function Matching(attendees: seq<Attendee>, query: string): (r: seq<Attendee>)
    ensures |r| <= |attendees|
  {
    if attendees == [] then []
    else if MatchesQuery(attendees[0], query) then [attendees[0]] + Matching(attendees[1..], query)
    else Matching(attendees[1..], query)
  }

  /** `Matching` is the generic filter with the search predicate. */
  lemma {:induction false} MatchingIsFilter(attendees: seq<Attendee>, query: string)
    ensures Matching(attendees, query) == Filter(attendees, a => MatchesQuery(a, query))
  {
    if attendees != [] {
      MatchingIsFilter(attendees[1..], query);
    }
  }

  /** `filterAttendees`; `!searchQuery.trim()` holds exactly for a blank query (`Text.Trim`). */
  function FilterAttendees(attendees: seq<Attendee>, searchQuery: string): (r: seq<Attendee>)
    ensures IsBlank(searchQuery) ==> r == attendees
    ensures |r| <= |attendees|
  {
    if IsBlank(searchQuery) then attendees else Matching(attendees, ToLower(searchQuery))
  }

  /**
   * A blank query keeps the list as it is; any other query keeps the
   * attendees matching the lower-cased query, in their order, each as often
   * as it occurs.
   */
  lemma SearchResult(attendees: seq<Attendee>, searchQuery: string)
    ensures IsBlank(searchQuery) ==> FilterAttendees(attendees, searchQuery) == attendees
    ensures !IsBlank(searchQuery) ==>
      var r := FilterAttendees(attendees, searchQuery);
      && IsSublist(r, attendees)
      && (forall a :: a in r ==> MatchesQuery(a, ToLower(searchQuery)))
      && (forall a :: a in attendees && MatchesQuery(a, ToLower(searchQuery)) ==> multiset(r)[a] == multiset(attendees)[a])
  {
    if !IsBlank(searchQuery) {
      var query := ToLower(searchQuery);
      var matches := a => MatchesQuery(a, query);
      MatchingIsFilter(attendees, query);
      assert FilterAttendees(attendees, searchQuery) == Filter(attendees, matches);
      FilterIsSublist(attendees, matches);
      forall a | a in attendees && MatchesQuery(a, query)
        ensures multiset(Filter(attendees, matches))[a] == multiset(attendees)[a]
      {
        FilterKeepsMultiplicity(attendees, matches, a);
      }
    }
  }

  /** Searching for an attendee's code, in any letter case, finds that attendee. */
  lemma SearchFindsCode(attendees: seq<Attendee>, a: Attendee, searchQuery: string)
    requires a in attendees && ToLower(searchQuery) == ToLower(a.qrCode)
    ensures a in FilterAttendees(attendees, searchQuery)
  {
    if !IsBlank(searchQuery) {
      ContainsSelf(ToLower(a.qrCode));
      assert MatchesQuery(a, ToLower(searchQuery));
      SearchResult(attendees, searchQuery);
      assert multiset(attendees)[a] > 0;
    }
  }

  /** Lower-casing never turns a character into white space or back. */
  lemma BlankIgnoresCase(s: string)
    ensures IsBlank(ToLower(s)) <==> IsBlank(s)
  {
    assert forall i :: 0 <= i < |s| ==> (IsSpace(ToLower(s)[i]) <==> IsSpace(s[i]));
  }

  /** Queries that differ only in letter case give the same result. */
  lemma SearchIgnoresCase(attendees: seq<Attendee>, q1: string, q2: string)
    requires ToLower(q1) == ToLower(q2)
    ensures FilterAttendees(attendees, q1) == FilterAttendees(attendees, q2)
  {
    BlankIgnoresCase(q1);
    BlankIgnoresCase(q2);
  }

  // ---------------------------------------------------------------------------
  // Day switches

  /** `{ ...eventSettings, [day{d}_enabled]: enabled }` */
  function WithDay(s: EventSettings, day: AttendeeProfile.Day, enabled: bool): (r: EventSettings)
    ensures day == 1 ==> r.day1Enabled == Some(enabled) && r.day2Enabled == s.day2Enabled
    ensures day == 2 ==> r.day2Enabled == Some(enabled) && r.day1Enabled == s.day1Enabled
    ensures r.id == s.id && r.updatedAt == s.updatedAt
  {
    if day == 1 then s.(day1Enabled := Some(enabled)) else s.(day2Enabled := Some(enabled))
  }

  /**
   * Switching a day off closes it for every profile screen that reads the new
   * settings, switching it on opens it, and the other day stays as it was.
   */
  lemma SwitchDecidesLockout(s: EventSettings, day: AttendeeProfile.Day, enabled: bool, other: AttendeeProfile.Day)
    requires other != day
    ensures AttendeeProfile.DayOpen(Some(WithDay(s, day, enabled)), day) == enabled
    ensures AttendeeProfile.DayOpen(Some(WithDay(s, day, enabled)), other) == AttendeeProfile.DayOpen(Some(s), other)
  {
  }

  datatype ToggleOutcome = Toggled | ToggleFailed | NoSettings

  // ---------------------------------------------------------------------------
  // CSV export

  const CsvHeaders: seq<string> := [
    "Attendee ID", "Type", "Name", "Email", "Phone", "QR Code",
    "Day1 Entrance", "Day1 Lunch", "Day1 Dinner", "Day1 Kit",
    "Day2 Entrance", "Day2 Lunch", "Day2 Kit"]

  /** The completion columns in the order of the last seven headers. */
  const CsvFlags: seq<Flag> := [Day1Entrance, Day1Lunch, Day1Dinner, Day1Kit, Day2Entrance, Day2Lunch, Day2Kit]

  const CsvPrefix: string := "data:text/csv;charset=utf-8,"

  function YesNo(b: Option<bool>): string {
    if Truthy(b) then "Yes" else "No"
  }

  /**
   * One attendee's row: thirteen fields aligned with the thirteen headers,
   * the six text columns as stored and each completion column as "Yes" when
   * it is true and "No" otherwise.
   */
  function CsvRow(a: Attendee): (r: seq<string>)
    ensures |r| == |CsvHeaders|
    ensures r[..6] == [a.attendeeId, a.kind, a.name, a.email, a.phone, a.qrCode]
    ensures forall k :: 0 <= k < |CsvFlags| ==> (r[6 + k] == "Yes" <==> Truthy(Get(a, CsvFlags[k])))
    ensures forall k :: 6 <= k < |r| ==> r[k] == "Yes" || r[k] == "No"
  {
    [ a.attendeeId, a.kind, a.name, a.email, a.phone, a.qrCode,
      YesNo(a.day1Entrance), YesNo(a.day1Lunch), YesNo(a.day1Dinner), YesNo(a.day1Kit),
      YesNo(a.day2Entrance), YesNo(a.day2Lunch), YesNo(a.day2Kit) ]
  }

  /** `row.join(",")` */
  function CsvLine(row: seq<string>): string {
    Join(row, ",")
  }

  /** `rows.map((r) => r.join(","))`: one line per attendee, in list order. */
  function CsvRowLines(attendees: seq<Attendee>): (r: seq<string>)
    ensures |r| == |attendees|
    ensures forall i :: 0 <= i < |attendees| ==> r[i] == CsvLine(CsvRow(attendees[i]))
  {
    seq(|attendees|, i requires 0 <= i < |attendees| => CsvLine(CsvRow(attendees[i])))
  }

  /** The text `exportCSV` puts behind the download link, before URI encoding. */
  function CsvContent(attendees: seq<Attendee>): (r: string)
    ensures |CsvPrefix| <= |r| && r[..|CsvPrefix|] == CsvPrefix
  {
    CsvPrefix + Join([CsvLine(CsvHeaders)] + CsvRowLines(attendees), "\n")
  }

  /** None of the six text fields of `a` holds `c`. */
  predicate RowAvoids(a: Attendee, c: char) {
    && c !in a.attendeeId && c !in a.kind && c !in a.name
    && c !in a.email && c !in a.phone && c !in a.qrCode
  }

  /** The header line splits back into the headers and holds no line break. */
  lemma HeaderLineReadsBack()
    ensures '\n' !in CsvLine(CsvHeaders)
    ensures Split(CsvLine(CsvHeaders), ',') == CsvHeaders
  {
    assert forall k :: 0 <= k < |CsvHeaders| ==> ',' !in CsvHeaders[k] && '\n' !in CsvHeaders[k];
    JoinAvoids(CsvHeaders, ",", '\n');
    SplitJoin(CsvHeaders, ',');
  }

  /** A row whose text fields hold no comma and no line break splits back into its fields. */
  lemma RowLineReadsBack(a: Attendee)
    requires RowAvoids(a, ',') && RowAvoids(a, '\n')
    ensures '\n' !in CsvLine(CsvRow(a))
    ensures Split(CsvLine(CsvRow(a)), ',') == CsvRow(a)
  {
    var row := CsvRow(a);
    assert forall k :: 0 <= k < 6 ==> row[k] == row[..6][k];
    assert forall k :: 0 <= k < |row| ==> ',' !in row[k] && '\n' !in row[k];
    JoinAvoids(row, ",", '\n');
    SplitJoin(row, ',');
  }

  /**
   * Reading the export back: when no text field holds a comma or a line
   * break, the text after the prefix splits at line breaks into the header
   * line and one line per attendee, and each line splits at commas into the
   * headers or into that attendee's row.
   */
  lemma CsvReadsBack(attendees: seq<Attendee>)
    requires forall a :: a in attendees ==> RowAvoids(a, ',') && RowAvoids(a, '\n')
    ensures CsvContent(attendees)[..|CsvPrefix|] == CsvPrefix
    ensures var lines := Split(CsvContent(attendees)[|CsvPrefix|..], '\n');
      && |lines| == |attendees| + 1
      && Split(lines[0], ',') == CsvHeaders
      && forall i :: 0 <= i < |attendees| ==> Split(lines[i + 1], ',') == CsvRow(attendees[i])
  {
    var lines := [CsvLine(CsvHeaders)] + CsvRowLines(attendees);
    assert CsvContent(attendees)[|CsvPrefix|..] == Join(lines, "\n");
    HeaderLineReadsBack();
    forall i | 0 <= i < |attendees|
      ensures '\n' !in lines[i + 1] && Split(lines[i + 1], ',') == CsvRow(attendees[i])
    {
      assert attendees[i] in attendees;
      RowLineReadsBack(attendees[i]);
    }
    SplitJoin(lines, '\n');
  }

  // ---------------------------------------------------------------------------
  // The page

  class AdminPage {
    var attendees: seq<Attendee>
    var filteredAttendees: seq<Attendee>
    var searchQuery: string
    var eventSettings: Option<EventSettings>
    var stats: Stats

    /** The search effect has run: the visible list is the search over the loaded list. */
    ghost predicate Valid()
      reads this
    {
      filteredAttendees == FilterAttendees(attendees, searchQuery)
    }

    constructor()
      ensures Valid() && attendees == [] && searchQuery == "" && eventSettings == None
      ensures stats == Stats(0, 0, 0, 0, 0, 0, 0, 0, 0, 0, 0)
    {
      attendees := [];
      filteredAttendees := [];
      searchQuery := "";
      eventSettings := None;
      stats := Stats(0, 0, 0, 0, 0, 0, 0, 0, 0, 0, 0);
    }

    /**
     * `fetchData` resolved: a returned list replaces the attendees and the
     * statistics, and returned settings replace the settings; a failed read
     * (`null`) leaves its part as it was.
     */
    method DataLoaded(rows: Option<seq<Attendee>>, settings: Option<EventSettings>)
      modifies this
      ensures Valid() && searchQuery == old(searchQuery)
      ensures attendees == (if rows.Some? then rows.value else old(attendees))
      ensures stats == (if rows.Some? then CalculateStats(rows.value) else old(stats))
      ensures eventSettings == (if settings.Some? then settings else old(eventSettings))
    {
      if rows.Some? {
        attendees := rows.value;
        stats := CalculateStats(rows.value);
      }
      if settings.Some? {
        eventSettings := settings;
      }
      SearchEffect();
    }

    /** Typing in the search box; the effect re-filters. */
    method SetSearchQuery(query: string)
      modifies this
      ensures Valid() && searchQuery == query
      ensures attendees == old(attendees) && eventSettings == old(eventSettings) && stats == old(stats)
    {
      searchQuery := query;
      SearchEffect();
    }

    /** The effect that runs when the query or the list changes: the visible list becomes the search result. */
    method SearchEffect()
      modifies this
      ensures Valid()
      ensures attendees == old(attendees) && searchQuery == old(searchQuery)
      ensures eventSettings == old(eventSettings) && stats == old(stats)
    {
      filteredAttendees := FilterAttendees(attendees, searchQuery);
    }

    /**
     * `toggleDaySetting(day, enabled)`: without loaded settings the handler
     * fails before writing; a failed write leaves the settings unchanged; a
     * successful one changes only that day's flag, to `enabled`.
     */
    method ToggleDaySetting(day: AttendeeProfile.Day, enabled: bool, writeOk: bool) returns (o: ToggleOutcome)
      modifies this
      ensures old(eventSettings).None? ==> o == NoSettings && eventSettings == old(eventSettings)
      ensures old(eventSettings).Some? && !writeOk ==> o == ToggleFailed && eventSettings == old(eventSettings)
      ensures old(eventSettings).Some? && writeOk ==>
        o == Toggled && eventSettings == Some(WithDay(old(eventSettings).value, day, enabled))
      ensures attendees == old(attendees) && filteredAttendees == old(filteredAttendees)
      ensures searchQuery == old(searchQuery) && stats == old(stats)
    {
      if eventSettings.None? {
        return NoSettings;
      }
      if !writeOk {
        return ToggleFailed;
      }
      eventSettings := Some(WithDay(eventSettings.value, day, enabled));
      o := Toggled;
    }
  }
}
