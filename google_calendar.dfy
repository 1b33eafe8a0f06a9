/**
 * The calendar connector (app/connectors/google_calendar.py): the body sent to
 * create an event, the filter that picks update candidates out of a window of
 * listed events, and the patch body built for an update.
 *
 * An instant is an integer count of minutes on the calendar's local wall
 * clock. What dateparser, `datetime.fromisoformat`, `strftime` and the clock
 * would produce is handed in by the caller as a `Parsing` record of functions,
 * and the service's list and patch calls become the list of events given and
 * the patch body returned.
 */
module GoogleCalendar {
  import opened Common
  import Models

  /** A calendar date and a wall-clock time as the code extracts them (`date().isoformat()`, `strftime("%H:%M")`). */
  datatype Moment = Moment(date: string, hhmm: string)

  /**
   * The parsing the connector delegates:
   * `resolve` is the start instant `normalize_event_datetimes` settles on for a phrase,
   * `fromIso` reads an ISO timestamp, `freeParse` is `normalize_free_datetime`
   * (`None` when the phrase does not parse), `freeDay` is the day number of that
   * result, and `now` is the current local time.
   */
  datatype Parsing = Parsing(
    resolve: string -> int,
    fromIso: string -> Moment,
    freeParse: string -> Option<Moment>,
    freeDay: string -> Option<int>,
    now: Moment,
    today: int)

  // ---------------------------------------------------------------------
  // normalize_event_datetimes, the parts that do not parse
  // ---------------------------------------------------------------------

  /**
   * The phrase handed to dateparser, as written: `f"{start_date} {start_time}".strip() or "in 1 hour"`.
   * A missing start time is formatted as the word `None`.
   */
  function EventPhraseAsWritten(startDate: string, startTime: Option<string>): string
  {
    var p := Strip(startDate + " " + (if startTime.Some? then startTime.value else "None"));
    if p == "" then "in 1 hour" else p
  }

  /** As written, a date with no time of day reaches dateparser with the word `None` after it. */
  lemma MissingTimeBecomesWordNone()
    ensures EventPhraseAsWritten("2025-03-01", None) == "2025-03-01 None"
  {
    var s := "2025-03-01" + " " + "None";
    assert s == "2025-03-01 None";
    assert !IsSpace(s[0]) && !IsSpace(s[|s| - 1]);
    StripUnpadded(s);
  }

  /** The phrase the code evidently means: the date, then the time when there is one. */
  function EventPhrase(startDate: string, startTime: Option<string>): (r: string)
    ensures r != ""
    ensures startTime.None? && Strip(startDate) != "" ==> r == Strip(startDate)
  {
    var p := if startTime.Some? then Strip(startDate + " " + startTime.value) else Strip(startDate);
    if p == "" then "in 1 hour" else p
  }

  /** With a time of day the corrected phrase is the one the source builds. */
  lemma EventPhraseAgreesWithTime(startDate: string, time: string)
    ensures EventPhrase(startDate, Some(time)) == EventPhraseAsWritten(startDate, Some(time))
  {
  }

  /** `duration_minutes or 60` */
  function DurationOrDefault(d: Option<int>): (r: int)
    ensures d.Some? && d.value != 0 ==> r == d.value
    ensures d.None? || d.value == 0 ==> r == 60
  {
    if d.Some? && d.value != 0 then d.value else 60
  }

  /**
   * The (start, end) pair of `normalize_event_datetimes`: the end is the start
   * plus the duration. The start is resolved from the corrected phrase; with a
   * time of day that is the phrase the code builds.
   */
  function EventTimes(e: Models.EventCreate, p: Parsing): (r: (int, int))
    ensures r.0 == p.resolve(EventPhrase(e.startDate, e.startTime))
    ensures e.startTime.Some? ==> r.0 == p.resolve(EventPhraseAsWritten(e.startDate, e.startTime))
    ensures r.1 - r.0 == DurationOrDefault(e.durationMinutes)
  {
    var s := p.resolve(EventPhrase(e.startDate, e.startTime));
    (s, s + DurationOrDefault(e.durationMinutes))
  }

  // ---------------------------------------------------------------------
  // create_event
  // ---------------------------------------------------------------------

  datatype Stamp = Stamp(minute: int, timeZone: string)

  datatype EventBody = EventBody(
    summary: string,
    location: string,
    description: string,
    start: Stamp,
    end: Stamp,
    useDefaultReminders: bool)

  /** The body `create_event` inserts. */
  function CreateBody(e: Models.EventCreate, p: Parsing, tz: string): (b: EventBody)
    ensures b.summary == if e.title == "" then "Untitled" else e.title
    ensures b.location == OrEmpty(e.location) && b.description == OrEmpty(e.notes)
    ensures b.start.timeZone == tz && b.end.timeZone == tz && b.useDefaultReminders
    ensures b.start.minute == EventTimes(e, p).0
    ensures b.end.minute - b.start.minute == DurationOrDefault(e.durationMinutes)
  {
    var (s, t) := EventTimes(e, p);
    EventBody(if e.title == "" then "Untitled" else e.title, OrEmpty(e.location), OrEmpty(e.notes),
              Stamp(s, tz), Stamp(t, tz), true)
  }

  // ---------------------------------------------------------------------
  // find_candidates
  // ---------------------------------------------------------------------

  /**
   * A listed event. `startIso` is `start.dateTime or start.date`; `startHour`
   * is the hour of the start in the calendar's time zone, `None` when the
   * start is missing, empty or does not parse.
   */
  datatype CalEvent = CalEvent(
    id: string,
    summary: Option<string>,
    location: Option<string>,
    description: Option<string>,
    startIso: Option<string>,
    startHour: Option<int>)

  /** `EventUpdateCriteria`; a missing criteria object behaves like one whose fields are all `None`. */
  datatype Criteria = Criteria(who: Option<string>, dateHint: Option<string>, timeHint: Option<string>, titleHint: Option<string>)

  /** `(h or "").lower() if criteria and h else ""` */
  function Hint(h: Option<string>): (r: string)
    ensures |r| == |OrEmpty(h)|
    ensures r == "" <==> !NonEmpty(h)
  {
    if NonEmpty(h) then Lower(h.value) else ""
  }

  /** The inclusive hour window of a time-of-day hint; other hints accept every hour. */
  predicate HourFits(timeHint: string, hour: int)
  {
    if timeHint == "morning" then 6 <= hour <= 11
    else if timeHint == "afternoon" then 12 <= hour <= 17
    else if timeHint == "evening" then 18 <= hour <= 22
    else true
  }

  /** Whether the loop body reaches `filtered.append(ev)`. */
  predicate Keeps(ev: CalEvent, c: Criteria)
  {
    var summary := Lower(OrEmpty(ev.summary));
    var who, title, time := Hint(c.who), Hint(c.titleHint), Hint(c.timeHint);
    (who == "" || Contains(summary, who))
    && (title == "" || Contains(summary, title))
    && (ev.startHour.None? || HourFits(time, ev.startHour.value))
  }

  /** The candidates among `items`, in listing order. */
  function Candidates(items: seq<CalEvent>, c: Criteria): (r: seq<CalEvent>)
    ensures |r| <= |items|
  {
    if items == [] then []
    else Candidates(items[..|items| - 1], c) + (if Keeps(items[|items| - 1], c) then [items[|items| - 1]] else [])
  }

  /** `r` is `s` with some elements left out and the rest in their original order. */
  predicate IsSubsequence(r: seq<CalEvent>, s: seq<CalEvent>)
    decreases |s|
  {
    r == []
    || (s != [] && ((r[|r| - 1] == s[|s| - 1] && IsSubsequence(r[..|r| - 1], s[..|s| - 1]))
                    || IsSubsequence(r, s[..|s| - 1])))
  }

  /** The candidates are a subsequence of the listed events. */
  lemma {:induction false} CandidatesInOrder(items: seq<CalEvent>, c: Criteria)
    ensures IsSubsequence(Candidates(items, c), items)
    decreases |items|
  {
    if items != [] {
      var init, last := items[..|items| - 1], items[|items| - 1];
      CandidatesInOrder(init, c);
      var r := Candidates(items, c);
      if Keeps(last, c) {
        assert r[..|r| - 1] == Candidates(init, c);
      } else {
        assert r == Candidates(init, c);
      }
    }
  }

  /** An event is a candidate exactly when it was listed and passes every filter. */
  lemma {:induction false} CandidatesMembers(items: seq<CalEvent>, c: Criteria, ev: CalEvent)
    ensures ev in Candidates(items, c) <==> ev in items && Keeps(ev, c)
    decreases |items|
  {
    if items != [] {
      var init := items[..|items| - 1];
      CandidatesMembers(init, c, ev);
      assert items == init + [items[|items| - 1]];
    }
  }

  /** Criteria without hints filter nothing. */
  lemma {:induction false} NoHintsKeepAll(items: seq<CalEvent>, c: Criteria)
    requires !NonEmpty(c.who) && !NonEmpty(c.titleHint) && !NonEmpty(c.timeHint)
    ensures Candidates(items, c) == items
    decreases |items|
  {
    if items != [] {
      NoHintsKeepAll(items[..|items| - 1], c);
      assert items == items[..|items| - 1] + [items[|items| - 1]];
    }
  }

  /**
   * The hour filter in any letter case: a morning hint keeps hours 6 to 11, an
   * afternoon hint 12 to 17, an evening hint 18 to 22; any other hint, and an
   * event whose start does not parse, are not filtered by time.
   */
  lemma TimeHintWindows(ev: CalEvent, c: Criteria)
    requires !NonEmpty(c.who) && !NonEmpty(c.titleHint) && NonEmpty(c.timeHint)
    ensures ev.startHour.None? ==> Keeps(ev, c)
    ensures ev.startHour.Some? && Lower(c.timeHint.value) == "morning" ==> (Keeps(ev, c) <==> 6 <= ev.startHour.value <= 11)
    ensures ev.startHour.Some? && Lower(c.timeHint.value) == "afternoon" ==> (Keeps(ev, c) <==> 12 <= ev.startHour.value <= 17)
    ensures ev.startHour.Some? && Lower(c.timeHint.value) == "evening" ==> (Keeps(ev, c) <==> 18 <= ev.startHour.value <= 22)
    ensures (var h := Lower(c.timeHint.value); h != "morning" && h != "afternoon" && h != "evening") ==> Keeps(ev, c)
  {
  }

  /** The who and title hints match the summary whatever the letter case of either. */
  lemma WhoMatchesAnyCase(ev: CalEvent, who: string, pre: string, post: string)
    requires who != "" && ev.summary == Some(pre + Upper(who) + post)
    ensures Keeps(ev, Criteria(Some(who), None, None, None))
  {
    LowerOfUpper(who);
    LowerAppend(pre, Upper(who));
    LowerAppend(pre + Upper(who), post);
    var summary := Lower(pre + Upper(who) + post);
    var k := |Lower(pre)|;
    assert summary == Lower(pre) + Lower(who) + Lower(post);
    assert summary[k..k + |Lower(who)|] == Lower(who);
    ContainsAt(summary, Lower(who), k);
    assert Hint(Some(who)) == Lower(who);
  }

  /** The search window: midnight of the hint's day, or of today, and `window_days` days on. */
  function SearchWindow(c: Criteria, p: Parsing, windowDays: int): (r: (int, int))
    ensures NonEmpty(c.dateHint) && p.freeDay(c.dateHint.value).Some? ==> r.0 == p.freeDay(c.dateHint.value).value * 1440
    ensures !(NonEmpty(c.dateHint) && p.freeDay(c.dateHint.value).Some?) ==> r.0 == p.today * 1440
    ensures r.1 - r.0 == windowDays * 1440
  {
    var base := if NonEmpty(c.dateHint) then p.freeDay(c.dateHint.value) else None;
    var day := if base.Some? then base.value else p.today;
    (day * 1440, day * 1440 + windowDays * 1440)
  }

  /**
   * `find_candidates`: `listing` is what the service returns for the window,
   * which is returned alongside the filtered events.
   */
  method FindCandidates(c: Criteria, p: Parsing, windowDays: int, listing: seq<CalEvent>)
    returns (window: (int, int), filtered: seq<CalEvent>)
    ensures window == SearchWindow(c, p, windowDays)
    ensures filtered == Candidates(listing, c)
  {
    window := SearchWindow(c, p, windowDays);
    filtered := [];
    var i := 0;
    while i < |listing|
      invariant 0 <= i <= |listing|
      invariant filtered == Candidates(listing[..i], c)
    {
      var ev := listing[i];
      assert listing[..i + 1][..i] == listing[..i];
      if Keeps(ev, c) {
        filtered := filtered + [ev];
      }
      i := i + 1;
    }
    assert listing[..i] == listing;
  }

  // ---------------------------------------------------------------------
  // apply_update
  // ---------------------------------------------------------------------

  /** `EventUpdateChanges` */
  datatype Changes = Changes(
    newTitle: Option<string>,
    newDate: Option<string>,
    newTime: Option<string>,
    newDurationMinutes: Option<int>,
    newLocation: Option<string>,
    newNotes: Option<string>)

  /** A value of the patch body: a text field, or a start/end object. */
  datatype Field = Text(text: string) | At(stamp: Stamp)

  /**
   * The moment the new start is built from: the event's own start when it is
   * a date-time, otherwise the new date (or the event's all-day date) read as
   * free text, otherwise now.
   */
  function StartBasis(ev: CalEvent, ch: Changes, p: Parsing): (m: Moment)
    ensures NonEmpty(ev.startIso) && Contains(ev.startIso.value, "T") ==> m == p.fromIso(ev.startIso.value)
  {
    if NonEmpty(ev.startIso) && Contains(ev.startIso.value, "T") then p.fromIso(ev.startIso.value)
    else
      var hint := if NonEmpty(ch.newDate) then ch.newDate.value else OrEmpty(ev.startIso);
      var nd := if hint != "" then p.freeParse(hint) else None;
      nd.GetOr(p.now)
  }

  /** The date and time phrases: each change wins when it is non-empty. */
  function NewPhrases(ev: CalEvent, ch: Changes, p: Parsing): (r: (string, string))
    ensures r.0 == if NonEmpty(ch.newDate) then ch.newDate.value else StartBasis(ev, ch, p).date
    ensures r.1 == if NonEmpty(ch.newTime) then ch.newTime.value else StartBasis(ev, ch, p).hhmm
  {
    var b := StartBasis(ev, ch, p);
    (if NonEmpty(ch.newDate) then ch.newDate.value else b.date,
     if NonEmpty(ch.newTime) then ch.newTime.value else b.hhmm)
  }

  /** The start and end `apply_update` writes. */
  function NewTimes(ev: CalEvent, ch: Changes, p: Parsing): (r: (int, int))
    ensures r.1 - r.0 == DurationOrDefault(ch.newDurationMinutes)
  {
    var (d, t) := NewPhrases(ev, ch, p);
    var e := Models.EventCreate("Untitled", d, Some(t), Some(DurationOrDefault(ch.newDurationMinutes)), None, None);
    EventTimes(e, p)
  }

  /** The text fields of the patch: the title only when non-empty, notes and location whenever given. */
  method PatchTexts(ch: Changes) returns (patched: map<string, Field>)
    ensures patched.Keys <= {"summary", "description", "location"}
    ensures "summary" in patched <==> NonEmpty(ch.newTitle)
    ensures "summary" in patched ==> patched["summary"] == Text(ch.newTitle.value)
    ensures "description" in patched <==> ch.newNotes.Some?
    ensures "description" in patched ==> patched["description"] == Text(ch.newNotes.value)
    ensures "location" in patched <==> ch.newLocation.Some?
    ensures "location" in patched ==> patched["location"] == Text(ch.newLocation.value)
  {
    patched := map[];
    if NonEmpty(ch.newTitle) {
      patched := patched["summary" := Text(ch.newTitle.value)];
    }
    if ch.newNotes.Some? {
      patched := patched["description" := Text(ch.newNotes.value)];
    }
    if ch.newLocation.Some? {
      patched := patched["location" := Text(ch.newLocation.value)];
    }
  }

  /** `apply_update`: builds `patched` field by field, and returns it with the id it is sent for. */
  method ApplyUpdate(ev: CalEvent, ch: Changes, p: Parsing, tz: string)
    returns (eventId: string, patched: map<string, Field>)
    ensures eventId == ev.id
    ensures patched.Keys <= {"summary", "description", "location", "start", "end"}
    ensures "summary" in patched <==> NonEmpty(ch.newTitle)
    ensures "summary" in patched ==> patched["summary"] == Text(ch.newTitle.value)
    ensures "description" in patched <==> ch.newNotes.Some?
    ensures "description" in patched ==> patched["description"] == Text(ch.newNotes.value)
    ensures "location" in patched <==> ch.newLocation.Some?
    ensures "location" in patched ==> patched["location"] == Text(ch.newLocation.value)
    ensures "start" in patched && "end" in patched
    ensures patched["start"] == At(Stamp(NewTimes(ev, ch, p).0, tz))
    ensures patched["end"] == At(Stamp(NewTimes(ev, ch, p).1, tz))
    ensures patched["end"].stamp.minute - patched["start"].stamp.minute == DurationOrDefault(ch.newDurationMinutes)
  {
    var texts := PatchTexts(ch);
    var times := NewTimes(ev, ch, p);
    patched := texts["start" := At(Stamp(times.0, tz))]["end" := At(Stamp(times.1, tz))];
    eventId := ev.id;
  }

  /**
   * Changing nothing but the duration keeps a timed event's date and time:
   * the new start is whatever the event's own date and `HH:MM` resolve to.
   */
  lemma TimedEventKeepsStart(ev: CalEvent, ch: Changes, p: Parsing)
    requires NonEmpty(ev.startIso) && Contains(ev.startIso.value, "T")
    requires !NonEmpty(ch.newDate) && !NonEmpty(ch.newTime)
    ensures var m := p.fromIso(ev.startIso.value);
      NewTimes(ev, ch, p).0 == p.resolve(EventPhrase(m.date, Some(m.hhmm)))
  {
  }

  /** A new date on an all-day event is read as free text before the default comes in. */
  lemma AllDayEventUsesNewDate(ev: CalEvent, ch: Changes, p: Parsing)
    requires !(NonEmpty(ev.startIso) && Contains(ev.startIso.value, "T"))
    requires NonEmpty(ch.newDate) && !NonEmpty(ch.newTime)
    ensures NewPhrases(ev, ch, p) == (ch.newDate.value, p.freeParse(ch.newDate.value).GetOr(p.now).hhmm)
  {
  }
}
