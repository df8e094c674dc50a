/**
 * The Calendar page: the `YYYY-MM-DD` key of a date, the current user's events
 * on a day, the month grid with at most two events per cell, adding an event,
 * the per-date mood map and the weekly streak dots. The month's length and
 * first weekday, today's date and the clicked dates are passed in by the caller.
 */
module Calendar {
  import opened Wrappers
  import opened Text
  import opened Seqs
  import opened JsMath
  import opened UserRecord

  /** A calendar date as the JavaScript `Date` getters give it: the month counts from 0. */
  datatype Date = Date(year: nat, month: nat, day: nat)

  /** The month shown: `currentDate`'s year and month. */
  datatype View = View(year: nat, month: nat)

  datatype Event = Event(id: int, date: string, title: string, kind: string, mood: string, userId: string)

  /** One cell of the month grid: a blank before the 1st, or a day with what it shows. */
  datatype Cell =
    | Blank(index: nat)
    | DayCell(day: nat, shown: seq<Event>, more: Option<nat>, isToday: bool, isSelected: bool)

  predicate ValidDate(d: Date) { d.month < 12 && 1 <= d.day <= 31 }

  /** The key used for lookup, moods and new events: year, month+1 and day padded to two digits. */
  function DateKey(year: nat, month: nat, day: nat): string {
    NatToString(year) + "-" + PadTwo(month + 1) + "-" + PadTwo(day)
  }

  function KeyOf(d: Date): string { DateKey(d.year, d.month, d.day) }

  /** The events on the page when nothing has been added, all owned by the current user. */
  function SeedEvents(userId: string): seq<Event> {
    [ Event(1, "2024-01-15", "Physics Exam", "exam", "\U{1F630}", userId),
      Event(2, "2024-01-16", "Math Assignment Due", "assignment", "\U{1F4DD}", userId),
      Event(3, "2024-01-18", "Study Session - Chemistry", "study", "\U{1F9EA}", userId),
      Event(4, "2024-01-20", "Review Notes", "review", "\U{1F4DA}", userId),
      Event(5, "2024-01-22", "Group Study", "social", "\U{1F465}", userId) ]
  }

  const DefaultEventMood: string := "\U{1F60A}"

  /** `userEvents`. */
  function UserEvents(events: seq<Event>, userId: string): seq<Event> {
    Filter(events, (e: Event) => e.userId == userId)
  }

  /** `getEventsForDate(day)` in the shown month. */
  function EventsForDate(events: seq<Event>, userId: string, view: View, day: nat): seq<Event> {
    Filter(UserEvents(events, userId), (e: Event) => e.date == DateKey(view.year, view.month, day))
  }

  /** One day's cell: the first two events, and "+N more" when there are more than two. */
  function DayCellFor(events: seq<Event>, userId: string, view: View, day: nat, today: Date, selected: Option<Date>): Cell {
    var de := EventsForDate(events, userId, view, day);
    DayCell(
      day,
      if |de| <= 2 then de else de[..2],
      if |de| > 2 then Some(|de| - 2) else None,
      today == Date(view.year, view.month, day),
      selected == Some(Date(view.year, view.month, day)))
  }

  /** `renderCalendarDays`: blank cells up to the first weekday, then one cell per day of the month. */
  method RenderCalendarDays(
    events: seq<Event>, userId: string, view: View,
    daysInMonth: nat, firstDay: nat, today: Date, selected: Option<Date>)
    returns (days: seq<Cell>)
    ensures |days| == firstDay + daysInMonth
    ensures forall i :: 0 <= i < firstDay ==> days[i] == Blank(i)
    ensures forall d :: 1 <= d <= daysInMonth ==>
      days[firstDay + d - 1] == DayCellFor(events, userId, view, d, today, selected)
  {
    var cellOf := (d: nat) => DayCellFor(events, userId, view, d, today, selected);
    days := FillMonth(daysInMonth, firstDay, cellOf);
    forall d | 1 <= d <= daysInMonth
      ensures days[firstDay + d - 1] == DayCellFor(events, userId, view, d, today, selected)
    {
      assert days[firstDay + d - 1] == cellOf(d);
    }
  }

  /** The two loops of `renderCalendarDays`, for any way of drawing one day's cell. */
  method FillMonth(daysInMonth: nat, firstDay: nat, cellOf: nat -> Cell) returns (days: seq<Cell>)
    ensures |days| == firstDay + daysInMonth
    ensures forall i :: 0 <= i < firstDay ==> days[i] == Blank(i)
    ensures forall d :: 1 <= d <= daysInMonth ==> days[firstDay + d - 1] == cellOf(d)
  {
    days := [];
    var i := 0;
    while i < firstDay
      invariant 0 <= i <= firstDay
      invariant |days| == i
      invariant forall k :: 0 <= k < i ==> days[k] == Blank(k)
    {
      days := days + [Blank(i)];
      i := i + 1;
    }
    var day := 1;
    while day <= daysInMonth
      invariant 1 <= day <= daysInMonth + 1
      invariant |days| == firstDay + day - 1
      invariant forall k :: 0 <= k < firstDay ==> days[k] == Blank(k)
      invariant forall d :: 1 <= d < day ==> days[firstDay + d - 1] == cellOf(d)
    {
      days := days + [cellOf(day)];
      day := day + 1;
    }
  }

  /** The event the modal's Add button appends. */
  function NewEvent(events: seq<Event>, date: Date, title: string, mood: string, userId: string): Event {
    Event(|events| + 1, KeyOf(date), title, "custom", mood, userId)
  }

  /** The Add button of the modal: nothing happens with a blank title or no selected date. */
  function EventAdded(events: seq<Event>, title: string, selected: Option<Date>, mood: string, userId: string): seq<Event> {
    if Trim(title) == "" || selected.None? then events
    else events + [NewEvent(events, selected.value, title, mood, userId)]
  }

  /** What the Add button of the modal acts on: the events, the typed title and whether the modal is open. */
  datatype AddModal = AddModal(events: seq<Event>, title: string, open: bool)

  /** The Add button: on success the event is added, the title cleared and the modal closed; otherwise nothing changes. */
  function AddPressed(m: AddModal, selected: Option<Date>, mood: string, userId: string): AddModal {
    if Trim(m.title) == "" || selected.None? then m
    else AddModal(EventAdded(m.events, m.title, selected, mood, userId), "", false)
  }

  /** A mood button with a selected date: that date's entry becomes the emoji. */
  function MoodChosen(moods: map<string, string>, selected: Option<Date>, emoji: string): map<string, string> {
    if selected.None? then moods else moods[KeyOf(selected.value) := emoji]
  }

  /** A mood button: today's mood becomes the emoji exactly when the selected date has today's key. */
  function TodayMoodAfter(todayMood: Option<string>, selected: Option<Date>, emoji: string, today: Date): (r: Option<string>)
    ensures selected.Some? && KeyOf(selected.value) == KeyOf(today) ==> r == Some(emoji)
    ensures selected.None? || KeyOf(selected.value) != KeyOf(today) ==> r == todayMood
  {
    if selected.Some? && KeyOf(selected.value) == KeyOf(today) then Some(emoji) else todayMood
  }

  /** Event ids are 1, 2, 3, ... in list order. */
  predicate SequentialIds(events: seq<Event>) {
    forall i :: 0 <= i < |events| ==> events[i].id == i + 1
  }

  /** The streak shown: `currentUser?.studyStreak || 0`. */
  function StreakValue(user: Option<User>): int {
    if user.Some? then user.value.studyStreak else 0
  }

  /** The seven streak dots: dot `i` is lit when `i < streak % 7`, with JavaScript's `%`. */
  function StreakDots(streak: int): seq<bool> {
    seq(7, i requires 0 <= i < 7 => i < JsRem(streak, 7))
  }

  /** The "Upcoming" list: the first four of the user's events. */
  function Upcoming(events: seq<Event>, userId: string): seq<Event> {
    var mine := UserEvents(events, userId);
    if |mine| <= 4 then mine else mine[..4]
  }

  // ---- Properties ----

  /** A key is the year's digits, a dash, two month digits, a dash and two day digits. */
  lemma DateKeyShape(d: Date)
    requires ValidDate(d)
    ensures var key := KeyOf(d);
      var n := |NatToString(d.year)|;
      && |key| == n + 6
      && key[..n] == NatToString(d.year)
      && key[n] == '-' && key[n + 3] == '-'
      && key[n + 1..n + 3] == PadTwo(d.month + 1)
      && key[n + 4..] == PadTwo(d.day)
  {
    NatToStringDigits(d.year);
    PadTwoDigits(d.month + 1);
    PadTwoDigits(d.day);
  }

  /** Different valid dates have different keys, so lookups, moods and new events never mix up two days. */
  lemma DateKeyInjective(d1: Date, d2: Date)
    requires ValidDate(d1) && ValidDate(d2) && KeyOf(d1) == KeyOf(d2)
    ensures d1 == d2
  {
    DateKeyShape(d1);
    DateKeyShape(d2);
    var n := |NatToString(d1.year)|;
    assert |NatToString(d2.year)| == n;
    NatToStringInjective(d1.year, d2.year);
    ParsePadTwo(d1.month + 1);
    ParsePadTwo(d2.month + 1);
    ParsePadTwo(d1.day);
    ParsePadTwo(d2.day);
  }

  /** A sample key: 5 January 2024 is "2024-01-05". */
  lemma DateKeySample()
    ensures DateKey(2024, 0, 5) == "2024-01-05"
  {
    assert NatToString(2024) == "2024" by {
      assert NatToString(2) == "2";
      assert NatToString(20) == "20";
      assert NatToString(202) == "202";
    }
  }

  /** A day's events are exactly the user's events with that day's key, in their original order. */
  lemma EventsForDateExact(events: seq<Event>, userId: string, view: View, day: nat, e: Event)
    ensures var key := DateKey(view.year, view.month, day);
      && (e in EventsForDate(events, userId, view, day) <==> e in events && e.userId == userId && e.date == key)
      && EventsForDate(events, userId, view, day) == Filter(events, (x: Event) => x.userId == userId && x.date == key)
  {
    var key := DateKey(view.year, view.month, day);
    FilterMembership(events, (x: Event) => x.userId == userId, e);
    FilterMembership(UserEvents(events, userId), (x: Event) => x.date == key, e);
    FilterFilter(events, (x: Event) => x.userId == userId, (x: Event) => x.date == key,
                 (x: Event) => x.userId == userId && x.date == key);
  }

  /** A cell shows at most two events, the first ones, and "+N more" exactly when N = count - 2 > 0. */
  lemma CellTruncation(events: seq<Event>, userId: string, view: View, day: nat, today: Date, selected: Option<Date>)
    ensures var c := DayCellFor(events, userId, view, day, today, selected);
      var de := EventsForDate(events, userId, view, day);
      && c.DayCell? && |c.shown| <= 2 && c.shown <= de
      && (c.more.Some? <==> |de| > 2)
      && (c.more.Some? ==> c.more.value == |de| - 2 && |c.shown| + c.more.value == |de|)
      && (c.more.None? ==> c.shown == de)
  {
  }

  /** A blank title or a missing date adds nothing. */
  lemma AddEventRejected(events: seq<Event>, title: string, selected: Option<Date>, mood: string, userId: string)
    requires Trim(title) == "" || selected.None?
    ensures EventAdded(events, title, selected, mood, userId) == events
  {
  }

  /** A successful add appends one custom event with the next id and the selected date's key. */
  lemma AddEventAppends(events: seq<Event>, title: string, date: Date, mood: string, userId: string)
    requires Trim(title) != ""
    ensures var r := EventAdded(events, title, Some(date), mood, userId);
      && |r| == |events| + 1 && r[..|events|] == events
      && r[|events|] == Event(|events| + 1, KeyOf(date), title, "custom", mood, userId)
  {
    var r := EventAdded(events, title, Some(date), mood, userId);
    assert r == events + [NewEvent(events, date, title, mood, userId)];
  }

  /** The seeded ids are 1 to 5. */
  lemma SeedIdsSequential(userId: string)
    ensures SequentialIds(SeedEvents(userId))
  {
  }

  /** Every add keeps the ids sequential. */
  lemma IdsStaySequential(events: seq<Event>, title: string, selected: Option<Date>, mood: string, userId: string)
    requires SequentialIds(events)
    ensures SequentialIds(EventAdded(events, title, selected, mood, userId))
  {
  }

  /** The Add button adds exactly `EventAdded`, keeps the ids sequential, and resets the modal only on success. */
  lemma AddPressedEffect(m: AddModal, selected: Option<Date>, mood: string, userId: string)
    ensures var r := AddPressed(m, selected, mood, userId);
      && r.events == EventAdded(m.events, m.title, selected, mood, userId)
      && (SequentialIds(m.events) ==> SequentialIds(r.events))
      && (Trim(m.title) == "" || selected.None? ==> r == m)
      && (Trim(m.title) != "" && selected.Some? ==> r.title == "" && !r.open && |r.events| == |m.events| + 1)
  {
    if SequentialIds(m.events) {
      IdsStaySequential(m.events, m.title, selected, mood, userId);
    }
  }

  /** With sequential ids, the new event's id is not taken. */
  lemma NewEventIdFresh(events: seq<Event>, date: Date, title: string, mood: string, userId: string)
    requires SequentialIds(events)
    ensures forall i :: 0 <= i < |events| ==> events[i].id != NewEvent(events, date, title, mood, userId).id
  {
  }

  /** Choosing a mood sets the selected date's entry and leaves every other date alone. */
  lemma MoodOnlyForSelectedDate(moods: map<string, string>, date: Date, emoji: string, key: string)
    ensures MoodChosen(moods, Some(date), emoji)[KeyOf(date)] == emoji
    ensures key != KeyOf(date) ==>
      (key in MoodChosen(moods, Some(date), emoji) <==> key in moods)
      && (key in moods ==> MoodChosen(moods, Some(date), emoji)[key] == moods[key])
    ensures MoodChosen(moods, None, emoji) == moods
  {
  }

  /** Dot `i` is lit exactly when `i` is below the streak modulo 7; a negative streak lights none. */
  lemma StreakDotsLit(streak: int, i: int)
    requires 0 <= i < 7
    ensures streak >= 0 ==> (StreakDots(streak)[i] <==> i < streak % 7)
    ensures streak < 0 ==> !StreakDots(streak)[i]
  {
    assert StreakDots(streak)[i] == (i < JsRem(streak, 7));
  }

  /** The number of lit dots is the streak modulo 7. */
  lemma StreakDotsCount(streak: nat)
    ensures |Filter(StreakDots(streak), (b: bool) => b)| == streak % 7
  {
    var r := streak % 7;
    var dots := StreakDots(streak);
    var lit: seq<bool> := seq(r, _ => true);
    var unlit: seq<bool> := seq(7 - r, _ => false);
    forall k | 0 <= k < 7 ensures dots[k] == (lit + unlit)[k] {
      assert dots[k] == (k < JsRem(streak, 7));
    }
    assert dots == lit + unlit;
    FilterConcat(lit, unlit, (b: bool) => b);
    FilterKeepsAll(lit, (b: bool) => b);
    AllFalseFiltered(unlit);
  }

  lemma {:induction false} AllFalseFiltered(s: seq<bool>)
    requires forall k :: 0 <= k < |s| ==> !s[k]
    ensures Filter(s, (b: bool) => b) == []
  {
    if s != [] {
      AllFalseFiltered(s[1..]);
    }
  }

  /** The upcoming list is the first at most four of the user's events. */
  lemma UpcomingPrefix(events: seq<Event>, userId: string)
    ensures |Upcoming(events, userId)| <= 4
    ensures Upcoming(events, userId) <= UserEvents(events, userId)
    ensures |UserEvents(events, userId)| >= 4 ==> |Upcoming(events, userId)| == 4
  {
  }

  /** The page state that the handlers change, as one value. */
  datatype PageState = PageState(
    events: seq<Event>,
    moods: map<string, string>,
    todayMood: Option<string>,
    selectedDate: Option<Date>,
    newEventTitle: string,
    newEventMood: string,
    showAddEvent: bool)

  /** The page's `useState` fields. */
  class CalendarPage {
    var events: seq<Event>
    var moods: map<string, string>
    var todayMood: Option<string>
    var selectedDate: Option<Date>
    var newEventTitle: string
    var newEventMood: string
    var showAddEvent: bool

    /** The fields as a value. */
    function State(): PageState
      reads this
    {
      PageState(events, moods, todayMood, selectedDate, newEventTitle, newEventMood, showAddEvent)
    }

    ghost predicate Valid()
      reads this
    {
      SequentialIds(events)
    }

    constructor (userId: string)
      ensures Valid()
      ensures State() == PageState(SeedEvents(userId), map[], None, None, "", DefaultEventMood, false)
    {
      events := SeedEvents(userId);
      moods := map[];
      todayMood := None;
      selectedDate := None;
      newEventTitle := "";
      newEventMood := DefaultEventMood;
      showAddEvent := false;
    }

    /** Clicking a day cell of the shown month. */
    method SelectDay(view: View, day: nat)
      modifies this
      ensures State() == old(State()).(selectedDate := Some(Date(view.year, view.month, day)))
    {
      selectedDate := Some(Date(view.year, view.month, day));
    }

    /** "New Event": opens the modal only once a date is selected. */
    method OpenAddEvent()
      modifies this
      ensures State() == old(State()).(showAddEvent := old(showAddEvent) || old(selectedDate).Some?)
    {
      if selectedDate.None? {
        return;
      }
      showAddEvent := true;
    }

    method TypeTitle(title: string)
      modifies this
      ensures State() == old(State()).(newEventTitle := title)
    {
      newEventTitle := title;
    }

    method PickEventMood(mood: string)
      modifies this
      ensures State() == old(State()).(newEventMood := mood)
    {
      newEventMood := mood;
    }

    /** The modal's Add button: the events, the typed title and the modal change together. */
    method AddEvent(userId: string)
      requires Valid()
      modifies this
      ensures Valid()
      ensures var m := AddPressed(AddModal(old(events), old(newEventTitle), old(showAddEvent)),
                                  old(selectedDate), old(newEventMood), userId);
        State() == old(State()).(events := m.events, newEventTitle := m.title, showAddEvent := m.open)
    {
      var m := AddPressed(AddModal(events, newEventTitle, showAddEvent), selectedDate, newEventMood, userId);
      AddPressedEffect(AddModal(events, newEventTitle, showAddEvent), selectedDate, newEventMood, userId);
      events, newEventTitle, showAddEvent := m.events, m.title, m.open;
    }

    method CancelAddEvent()
      modifies this
      ensures State() == old(State()).(showAddEvent := false)
    {
      showAddEvent := false;
    }

    /** A mood button: without a selected date nothing changes; today's mood follows only today's key. */
    method ChooseMood(emoji: string, today: Date)
      modifies this
      ensures State() == old(State()).(moods := MoodChosen(old(moods), old(selectedDate), emoji),
                                       todayMood := TodayMoodAfter(old(todayMood), old(selectedDate), emoji, today))
    {
      if selectedDate.None? {
        return;
      }
      var key := KeyOf(selectedDate.value);
      moods := moods[key := emoji];
      if key == KeyOf(today) {
        todayMood := Some(emoji);
      }
    }
  }
}
