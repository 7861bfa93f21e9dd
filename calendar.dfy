/** The event calendar (`components/calendar.tsx`): the event list with its add dialog, the events of
    the selected day and the day markers. Dates are timestamps in milliseconds and `toDateString()`
    equality is equality of the day number; `now` stands for `new Date()` and `freshId` for the
    random id. */
module Calendar {
  import opened Util
  import opened Text

  datatype Event = Event(id: string, title: string, date: int, description: string, kind: string)

  /** The dialog's `newEvent`. */
  datatype Draft = Draft(title: string, description: string, date: int, kind: string)

  const DayMs: int := 24 * 60 * 60 * 1000

  /** The calendar day of a timestamp. */
  function Day(t: int): int
  {
    t / DayMs
  }

  predicate SameDay(a: int, b: int)
  {
    Day(a) == Day(b)
  }

  /** An empty draft for the moment `now`, of type "meeting". */
  function EmptyDraft(now: int): Draft
  {
    Draft("", "", now, "meeting")
  }

  /** The event `handleAddEvent` appends: the random id followed by the draft's fields. */
  function FromDraft(freshId: string, d: Draft): Event
  {
    Event(freshId, d.title, d.date, d.description, d.kind)
  }

  function OnDay(day: int): Event -> bool
  {
    (e: Event) => SameDay(e.date, day)
  }

  /** `selectedDateEvents`: with no date selected the filter keeps nothing. */
  function SelectedDateEvents(events: seq<Event>, date: Option<int>): seq<Event>
  {
    if date.None? then [] else Filter(events, OnDay(date.value))
  }

  /** `hasEvents(day)`. */
  predicate HasEvents(events: seq<Event>, day: int)
  {
    exists i :: 0 <= i < |events| && SameDay(events[i].date, day)
  }

  /** The selected day's list holds exactly the events on that calendar day, in their order; it is
      empty without a selected date. */
  lemma SelectedDateEventsIff(events: seq<Event>, date: Option<int>, e: Event)
    ensures date.None? ==> SelectedDateEvents(events, date) == []
    ensures date.Some? ==> (e in SelectedDateEvents(events, date) <==> e in events && SameDay(e.date, date.value))
  {
    if date.Some? {
      FilterMembers(events, OnDay(date.value), e);
    }
  }

  /** A day is marked exactly when the list for that day is not empty. */
  lemma HasEventsIffListed(events: seq<Event>, day: int)
    ensures HasEvents(events, day) <==> SelectedDateEvents(events, Some(day)) != []
  {
    var listed := SelectedDateEvents(events, Some(day));
    if HasEvents(events, day) {
      var i :| 0 <= i < |events| && SameDay(events[i].date, day);
      FilterMembers(events, OnDay(day), events[i]);
    }
    if listed != [] {
      FilterMembers(events, OnDay(day), listed[0]);
    }
  }

  /** The description under the day's title. */
  function EventsSummary(count: nat): string
  {
    if count == 0 then "No events scheduled for this day."
    else NatToString(count) + " event" + (if count == 1 then "" else "s") + " scheduled."
  }

  /** With no events the summary says so; otherwise it opens with the count's digits, which read
      back as the count, followed by the noun, plural exactly when the count is not one. */
  lemma EventsSummaryNamesCount(count: nat)
    ensures count == 0 ==> EventsSummary(count) == "No events scheduled for this day."
    ensures count > 0 ==> var digits := NatToString(count);
      digits <= EventsSummary(count) && DigitsValue(digits) == count &&
      EventsSummary(count)[|digits|..] == " event" + (if count == 1 then "" else "s") + " scheduled."
  {
    NatToStringRoundTrip(count);
    if count > 0 {
      var digits := NatToString(count);
      var rest := " event" + (if count == 1 then "" else "s") + " scheduled.";
      calc {
        EventsSummary(count);
        { ConcatAssoc(digits, " event", if count == 1 then "" else "s"); }
        digits + (" event" + (if count == 1 then "" else "s")) + " scheduled.";
        { ConcatAssoc(digits, " event" + (if count == 1 then "" else "s"), " scheduled."); }
        digits + rest;
      }
      assert (digits + rest)[|digits|..] == rest;
    }
  }

  /** Different counts give different summaries. */
  lemma EventsSummaryInjective(m: nat, n: nat)
    requires EventsSummary(m) == EventsSummary(n)
    ensures m == n
  {
    if m == 0 && n > 0 {
      ZeroSummaryDiffers(n);
    } else if n == 0 && m > 0 {
      ZeroSummaryDiffers(m);
    } else if m > 0 && n > 0 {
      var s := EventsSummary(m);
      var dm, dn := NatToString(m), NatToString(n);
      SummaryDigitsThenSpace(m);
      SummaryDigitsThenSpace(n);
      DigitsBeforeSpace(dm, dn, s);
      DigitsBeforeSpace(dn, dm, s);
      assert dm == s[..|dm|] == dn;
      NatToStringInjective(m, n);
    }
  }

  /** A positive count's summary starts with its digits, followed by a space. */
  lemma SummaryDigitsThenSpace(count: nat)
    requires count > 0
    ensures var s, digits := EventsSummary(count), NatToString(count);
      digits <= s && |digits| < |s| && s[|digits|] == ' '
  {
    var s, digits := EventsSummary(count), NatToString(count);
    EventsSummaryNamesCount(count);
    assert s[|digits|] == s[|digits|..][0];
  }

  /** A positive count's summary starts with a digit, the empty day's with a letter. */
  lemma ZeroSummaryDiffers(count: nat)
    requires count > 0
    ensures EventsSummary(count) != EventsSummary(0)
  {
    assert EventsSummary(count)[0] == NatToString(count)[0];
    assert EventsSummary(0)[0] == 'N';
  }

  /** A run of digits that `s` starts with, followed there by a space, is no shorter than any other
      run of digits that `s` starts with. */
  lemma DigitsBeforeSpace(a: string, b: string, s: string)
    requires forall i :: 0 <= i < |b| ==> '0' <= b[i] <= '9'
    requires a <= s && b <= s && |a| < |s| && s[|a|] == ' '
    ensures |b| <= |a|
  {
  }

  lemma EventsSummarySamples()
    ensures EventsSummary(1) == "1 event scheduled." && EventsSummary(2) == "2 events scheduled."
  {
    assert NatToString(1) == "1" && NatToString(2) == "2";
    calc {
      EventsSummary(1);
      NatToString(1) + " event" + "" + " scheduled.";
      "1" + " event" + "" + " scheduled.";
    }
    calc {
      EventsSummary(2);
      NatToString(2) + " event" + "s" + " scheduled.";
      "2" + " event" + "s" + " scheduled.";
    }
  }

  class EventCalendar {
    var date: Option<int>
    var events: seq<Event>
    var isDialogOpen: bool
    var newEvent: Draft

    constructor (initialEvents: seq<Event>, now: int)
      ensures date == Some(now) && events == initialEvents && !isDialogOpen && newEvent == EmptyDraft(now)
    {
      date := Some(now);
      events := initialEvents;
      isDialogOpen := false;
      newEvent := EmptyDraft(now);
    }

    method SetDraft(d: Draft)
      modifies this`newEvent
      ensures newEvent == d
    {
      newEvent := d;
    }

    method SetDate(d: Option<int>)
      modifies this`date
      ensures date == d
    {
      date := d;
    }

    /** `handleAddEvent()`: a title that is blank after trimming changes nothing; otherwise one event
        is appended, the draft is emptied and the dialog closes. */
    method HandleAddEvent(freshId: string, now: int)
      modifies this`events, this`newEvent, this`isDialogOpen
      ensures IsBlank(old(newEvent).title) ==>
        events == old(events) && newEvent == old(newEvent) && isDialogOpen == old(isDialogOpen)
      ensures !IsBlank(old(newEvent).title) ==>
        events == old(events) + [FromDraft(freshId, old(newEvent))] && newEvent == EmptyDraft(now) && !isDialogOpen
    {
      if IsBlank(newEvent.title) {
        return;
      }
      events := events + [FromDraft(freshId, newEvent)];
      newEvent := EmptyDraft(now);
      isDialogOpen := false;
    }

    function Listed(): seq<Event>
      reads this
    {
      SelectedDateEvents(events, date)
    }
  }

  /** An added event shows up in the list of its own day, after the events already there. */
  lemma AddedEventListedOnItsDay(events: seq<Event>, e: Event)
    ensures SelectedDateEvents(events + [e], Some(e.date)) == SelectedDateEvents(events, Some(e.date)) + [e]
    ensures HasEvents(events + [e], e.date)
  {
    FilterConcat(events, [e], OnDay(e.date));
    FilterSingleton(e, OnDay(e.date));
    assert (events + [e])[|events|] == e;
  }
}
