/**
 * The calendar and task helpers of the enhanced NLP processor
 * (app/connectors/enhanced_nlp.py): keyword-driven date ranges, the task status
 * filter, the free-slot sweep and the summary text.
 *
 * Dates are day numbers counted from 1970-01-01 (a Thursday), so a range that
 * starts at midnight of day `d` is the day number `d`. Clock times of events are
 * integer minutes; parsing ISO strings and `strftime` formatting are done by the
 * caller, which hands in the parsed minute (or `None` when a time is missing or
 * does not parse) and the formatted text.
 */
module EnhancedNlp {
  import opened Common

  // ---------------------------------------------------------------------
  // parse_date_range
  // ---------------------------------------------------------------------

  /** `date.weekday()`: Monday is 0, Sunday is 6. */
  function Weekday(day: int): (w: int)
    ensures 0 <= w < 7
  {
    (day + 3) % 7
  }

  lemma WeekdayNext(day: int)
    ensures Weekday(day + 1) == (Weekday(day) + 1) % 7
  {
  }

  /** A half-open range of whole days `[start, end)`. */
  datatype DayRange = DayRange(start: int, end: int)

  /** `parse_date_range(text)` when the local date is `today`. */
  function ParseDateRange(text: string, today: int): (r: DayRange)
    ensures r.start < r.end
  {
    var t := Lower(text);
    if Contains(t, "next sunday") then
      var ahead := 6 - Weekday(today);
      var ahead' := if ahead <= 0 then ahead + 7 else ahead;
      DayRange(today + ahead', today + ahead' + 1)
    else if Contains(t, "next week") then
      var untilMonday := 7 - Weekday(today);
      DayRange(today + untilMonday, today + untilMonday + 7)
    else if Contains(t, "this week") then
      DayRange(today - Weekday(today), today - Weekday(today) + 7)
    else if Contains(t, "tomorrow") then
      DayRange(today + 1, today + 2)
    else if Contains(t, "today") then
      DayRange(today, today + 1)
    else
      DayRange(today, today + 1)
  }

  /** The first day strictly after `today` that falls on weekday `w`. */
  predicate FirstAfter(today: int, w: int, day: int)
  {
    today < day && Weekday(day) == w && forall d :: today < d < day ==> Weekday(d) != w
  }

  lemma FirstAfterStep(today: int, w: int, k: int)
    requires 0 <= w < 7 && 1 <= k <= 7 && k == if w - Weekday(today) <= 0 then w - Weekday(today) + 7 else w - Weekday(today)
    ensures FirstAfter(today, w, today + k)
  {
    var a := Weekday(today);
    forall d | today < d < today + k ensures Weekday(d) != w {
      var j := d - today;
      WeekdayAdd(today, j);
      if a + j < 7 {
        assert Weekday(d) == a + j;
      } else {
        assert Weekday(d) == a + j - 7;
      }
    }
    WeekdayAdd(today, k);
    if a + k < 7 {
      assert Weekday(today + k) == a + k;
    } else {
      assert Weekday(today + k) == a + k - 7;
    }
  }

  /** Moving `j` days ahead moves the weekday `j` steps round the week. */
  lemma WeekdayAdd(day: int, j: int)
    ensures Weekday(day + j) == (Weekday(day) + j) % 7
  {
    var q := (day + 3) / 7;
    assert day + 3 == 7 * q + Weekday(day);
    assert day + j + 3 == 7 * q + (Weekday(day) + j);
  }

  /**
   * "next sunday" is the first Sunday strictly after today (a week ahead on a
   * Sunday) and spans one day.
   */
  lemma NextSundayRange(text: string, today: int)
    requires Contains(Lower(text), "next sunday")
    ensures var r := ParseDateRange(text, today);
      FirstAfter(today, 6, r.start) && today + 1 <= r.start <= today + 7 && r.end == r.start + 1
  {
    var ahead := 6 - Weekday(today);
    FirstAfterStep(today, 6, if ahead <= 0 then ahead + 7 else ahead);
  }

  /** "next week" starts on the first Monday strictly after today and spans seven days. */
  lemma NextWeekRange(text: string, today: int)
    requires !Contains(Lower(text), "next sunday") && Contains(Lower(text), "next week")
    ensures var r := ParseDateRange(text, today);
      FirstAfter(today, 0, r.start) && today + 1 <= r.start <= today + 7 && r.end == r.start + 7
  {
    FirstAfterStep(today, 0, 7 - Weekday(today));
  }

  /** "this week" is the Monday-to-Sunday week that contains today. */
  lemma ThisWeekRange(text: string, today: int)
    requires !Contains(Lower(text), "next sunday") && !Contains(Lower(text), "next week")
    requires Contains(Lower(text), "this week")
    ensures var r := ParseDateRange(text, today);
      Weekday(r.start) == 0 && r.start <= today < r.end && r.end == r.start + 7
  {
  }

  /** "tomorrow" is the single next day; with no keyword the range is today. */
  lemma TomorrowAndDefaultRange(text: string, today: int)
    requires !Contains(Lower(text), "next sunday") && !Contains(Lower(text), "next week")
    requires !Contains(Lower(text), "this week")
    ensures Contains(Lower(text), "tomorrow") ==> ParseDateRange(text, today) == DayRange(today + 1, today + 2)
    ensures !Contains(Lower(text), "tomorrow") ==> ParseDateRange(text, today) == DayRange(today, today + 1)
  {
  }

  // ---------------------------------------------------------------------
  // extract_task_status_filter
  // ---------------------------------------------------------------------

  datatype StatusFilter = Open | Completed | All

  const OpenPatterns: seq<string> := ["open", "pending", "todo", "incomplete", "active"]
  const CompletedPatterns: seq<string> := ["completed", "done", "finished", "closed"]
  const AllPatterns: seq<string> := ["all", "everything", "any"]

  /** `any(pattern in text for pattern in patterns)` */
  predicate AnyIn(text: string, patterns: seq<string>)
  {
    exists i :: 0 <= i < |patterns| && Contains(text, patterns[i])
  }

  /** `extract_task_status_filter(text)`: the first status, in the order open, completed, all, with a matching pattern. */
  function ExtractTaskStatusFilter(text: string): (r: Option<StatusFilter>)
    ensures r == Some(Open) <==> AnyIn(Lower(text), OpenPatterns)
    ensures r == Some(Completed) <==> !AnyIn(Lower(text), OpenPatterns) && AnyIn(Lower(text), CompletedPatterns)
    ensures r == Some(All) <==>
      !AnyIn(Lower(text), OpenPatterns) && !AnyIn(Lower(text), CompletedPatterns) && AnyIn(Lower(text), AllPatterns)
    ensures r.None? <==>
      !AnyIn(Lower(text), OpenPatterns) && !AnyIn(Lower(text), CompletedPatterns) && !AnyIn(Lower(text), AllPatterns)
  {
    var t := Lower(text);
    if AnyIn(t, OpenPatterns) then Some(Open)
    else if AnyIn(t, CompletedPatterns) then Some(Completed)
    else if AnyIn(t, AllPatterns) then Some(All)
    else None
  }

  /** A lower-case word inside a text is found in the lower-cased text. */
  lemma WordFound(before: string, w: string, after: string)
    requires Lower(w) == w
    ensures Contains(Lower(before + w + after), w)
  {
    LowerAppend(before + w, after);
    LowerAppend(before, w);
    var t := Lower(before + w + after);
    assert t == Lower(before) + w + Lower(after);
    assert t[|before|..|before| + |w|] == w;
    ContainsAt(t, w, |before|);
  }

  /** Any text that mentions "done" (and no open pattern) is a completed filter, even with "all" in it. */
  lemma DoneBeatsAll(before: string, after: string)
    requires !AnyIn(Lower(before + "done" + after), OpenPatterns)
    ensures ExtractTaskStatusFilter(before + "done" + after) == Some(Completed)
  {
    LowerOfLowercase("done");
    WordFound(before, "done", after);
    assert Contains(Lower(before + "done" + after), CompletedPatterns[1]);
  }

  /** An open pattern anywhere wins over every other pattern. */
  lemma OpenWins(before: string, k: nat, after: string)
    requires k < |OpenPatterns|
    ensures ExtractTaskStatusFilter(before + OpenPatterns[k] + after) == Some(Open)
  {
    LowerOfLowercase(OpenPatterns[k]);
    WordFound(before, OpenPatterns[k], after);
  }

  // ---------------------------------------------------------------------
  // find_free_slots
  // ---------------------------------------------------------------------

  /** An event's parsed start and end minute; `None` when absent or unparseable. */
  datatype TimedEvent = TimedEvent(start: Option<int>, end: Option<int>)

  datatype Slot = Slot(start: int, end: int)

  /**
   * The sort key of `find_free_slots`: an event without a start sorts as
   * `datetime.min`, before every event with one.
   */
  predicate KeyLt(a: TimedEvent, b: TimedEvent)
  {
    b.start.Some? && (a.start.None? || a.start.value < b.start.value)
  }

  predicate KeyLe(a: TimedEvent, b: TimedEvent)
  {
    !KeyLt(b, a)
  }

  predicate SortedByStart(evs: seq<TimedEvent>)
  {
    forall i, j :: 0 <= i < j < |evs| ==> KeyLe(evs[i], evs[j])
  }

  /** Insert `e` before the first event whose key is not smaller, so that equal keys keep their order. */
  function Insert(e: TimedEvent, evs: seq<TimedEvent>): (r: seq<TimedEvent>)
    ensures |r| == |evs| + 1
    ensures multiset(r) == multiset(evs) + multiset{e}
  {
    if evs == [] then [e]
    else if KeyLt(evs[0], e) then
      assert evs == [evs[0]] + evs[1..];
      [evs[0]] + Insert(e, evs[1..])
    else
      [e] + evs
  }

  lemma {:induction false} InsertSorted(e: TimedEvent, evs: seq<TimedEvent>)
    requires SortedByStart(evs)
    ensures SortedByStart(Insert(e, evs))
    decreases |evs|
  {
    if evs != [] && KeyLt(evs[0], e) {
      var tail := evs[1..];
      assert SortedByStart(tail) by {
        forall i, j | 0 <= i < j < |tail| ensures KeyLe(tail[i], tail[j]) {
          assert tail[i] == evs[i + 1] && tail[j] == evs[j + 1];
        }
      }
      InsertSorted(e, tail);
      var rest := Insert(e, tail);
      var r := [evs[0]] + rest;
      forall j | 0 <= j < |rest| ensures KeyLe(evs[0], rest[j]) {
        assert rest[j] in multiset(rest);
        if rest[j] != e {
          assert rest[j] in multiset(tail);
          var m :| 0 <= m < |tail| && tail[m] == rest[j];
          assert tail[m] == evs[m + 1];
        }
      }
      forall i, j | 0 <= i < j < |r| ensures KeyLe(r[i], r[j]) {
        if i > 0 {
          assert r[i] == rest[i - 1] && r[j] == rest[j - 1];
        } else {
          assert r[j] == rest[j - 1];
        }
      }
    }
  }

  /** `sorted(events, key=...)` */
  function SortByStart(evs: seq<TimedEvent>): (r: seq<TimedEvent>)
    ensures SortedByStart(r)
    ensures multiset(r) == multiset(evs)
    ensures |r| == |evs|
  {
    if evs == [] then []
    else
      assert evs == [evs[0]] + evs[1..];
      InsertSorted(evs[0], SortByStart(evs[1..]));
      Insert(evs[0], SortByStart(evs[1..]))
  }

  function Max(a: int, b: int): int
  {
    if a < b then b else a
  }

  /** The gap before event `e` when the cursor is at `cursor`, if it is long enough. */
  function Gap(e: TimedEvent, cursor: int, minLen: int): seq<Slot>
  {
    if e.start.Some? && cursor < e.start.value && e.start.value - cursor >= minLen
    then [Slot(cursor, e.start.value)] else []
  }

  /** `current_time = max(current_time, event_end)` when the event has an end. */
  function Advance(e: TimedEvent, cursor: int): int
  {
    if e.end.Some? then Max(cursor, e.end.value) else cursor
  }

  /**
   * The loop of `find_free_slots` over the sorted events from cursor `cursor`,
   * keeping gaps of at least `minLen` minutes: the gaps found and the final cursor.
   */
  function Sweep(evs: seq<TimedEvent>, cursor: int, minLen: int): (r: (seq<Slot>, int))
    decreases |evs|
  {
    if evs == [] then ([], cursor)
    else
      var rest := Sweep(evs[1..], Advance(evs[0], cursor), minLen);
      (Gap(evs[0], cursor, minLen) + rest.0, rest.1)
  }

  lemma SweepCons(evs: seq<TimedEvent>, cursor: int, minLen: int)
    requires evs != []
    ensures Sweep(evs, cursor, minLen).0 == Gap(evs[0], cursor, minLen) + Sweep(evs[1..], Advance(evs[0], cursor), minLen).0
    ensures Sweep(evs, cursor, minLen).1 == Sweep(evs[1..], Advance(evs[0], cursor), minLen).1
  {
  }

  /** The slot after the last event, when the cursor is still before the end of the window. */
  function Tail(cursor: int, windowEnd: int, minLen: int): seq<Slot>
  {
    if cursor < windowEnd && windowEnd - cursor >= minLen then [Slot(cursor, windowEnd)] else []
  }

  /** `find_free_slots(events, start, end, duration_hours)` in minutes. */
  function FreeSlots(evs: seq<TimedEvent>, windowStart: int, windowEnd: int, hours: int): seq<Slot>
  {
    if evs == [] then [Slot(windowStart, windowEnd)]
    else
      var s := Sweep(SortByStart(evs), windowStart, hours * 60);
      s.0 + Tail(s.1, windowEnd, hours * 60)
  }

  /** The `for event in sorted_events` loop of `find_free_slots`. */
  method SweepGaps(sorted: seq<TimedEvent>, windowStart: int, minLen: int) returns (slots: seq<Slot>, cursor: int)
    ensures (slots, cursor) == Sweep(sorted, windowStart, minLen)
  {
    slots := [];
    cursor := windowStart;
    var i := 0;
    while i < |sorted|
      invariant 0 <= i <= |sorted|
      invariant Sweep(sorted, windowStart, minLen).0 == slots + Sweep(sorted[i..], cursor, minLen).0
      invariant Sweep(sorted, windowStart, minLen).1 == Sweep(sorted[i..], cursor, minLen).1
    {
      var e := sorted[i];
      assert sorted[i..][1..] == sorted[i + 1..];
      SweepCons(sorted[i..], cursor, minLen);
      var gap, next := Visit(e, cursor, minLen);
      assert slots + gap + Sweep(sorted[i + 1..], next, minLen).0 == slots + (gap + Sweep(sorted[i + 1..], next, minLen).0);
      slots, cursor := slots + gap, next;
      i := i + 1;
    }
    assert sorted[i..] == [];
    assert slots + [] == slots;
  }

  /** One pass of the loop body: the gap before `e`, if long enough, and the advanced cursor. */
  method Visit(e: TimedEvent, cursor0: int, minLen: int) returns (gap: seq<Slot>, cursor: int)
    ensures gap == Gap(e, cursor0, minLen) && cursor == Advance(e, cursor0)
  {
    gap := [];
    cursor := cursor0;
    if e.start.Some? && cursor < e.start.value {
      if e.start.value - cursor >= minLen {
        gap := [Slot(cursor, e.start.value)];
      }
    }
    if e.end.Some? {
      cursor := Max(cursor, e.end.value);
    }
  }

  /** `find_free_slots(events, start_date, end_date, duration_hours)`, times in minutes. */
  method FindFreeSlots(evs: seq<TimedEvent>, windowStart: int, windowEnd: int, hours: int)
    returns (slots: seq<Slot>)
    ensures slots == FreeSlots(evs, windowStart, windowEnd, hours)
  {
    if evs == [] {
      return [Slot(windowStart, windowEnd)];
    }
    var sorted := SortByStart(evs);
    var minLen := hours * 60;
    var cursor;
    slots, cursor := SweepGaps(sorted, windowStart, minLen);
    if cursor < windowEnd {
      if windowEnd - cursor >= minLen {
        slots := slots + [Slot(cursor, windowEnd)];
      }
    }
  }

  /** With no events the whole window is one slot, whatever its length. */
  lemma EmptyCalendarIsOneSlot(windowStart: int, windowEnd: int, hours: int)
    ensures FreeSlots([], windowStart, windowEnd, hours) == [Slot(windowStart, windowEnd)]
  {
  }

  /**
   * The sweep's cursor only moves forward: the final cursor is at least the
   * start cursor and every known end, and every gap it reports lies after the
   * start cursor, is at least `minLen` long and is non-empty.
   */
  lemma {:induction false} SweepBounds(evs: seq<TimedEvent>, cursor: int, minLen: int)
    ensures var r := Sweep(evs, cursor, minLen);
      r.1 >= cursor
      && (forall k :: 0 <= k < |evs| && evs[k].end.Some? ==> r.1 >= evs[k].end.value)
      && (forall s :: s in r.0 ==> cursor <= s.start < s.end && s.end - s.start >= minLen)
    decreases |evs|
  {
    if evs != [] {
      SweepBounds(evs[1..], Advance(evs[0], cursor), minLen);
      var r := Sweep(evs, cursor, minLen);
      forall k | 1 <= k < |evs| && evs[k].end.Some? ensures r.1 >= evs[k].end.value {
        assert evs[1..][k - 1] == evs[k];
      }
    }
  }

  /**
   * Whatever the events, the cursor never moves back, so the gaps start in
   * non-decreasing order, between the start cursor and the final one.
   */
  lemma {:induction false} SweepStartsMonotone(evs: seq<TimedEvent>, cursor: int, minLen: int)
    ensures var r := Sweep(evs, cursor, minLen);
      (forall s :: s in r.0 ==> cursor <= s.start <= r.1)
      && (forall i, j :: 0 <= i < j < |r.0| ==> r.0[i].start <= r.0[j].start)
    decreases |evs|
  {
    if evs != [] {
      var next := Advance(evs[0], cursor);
      SweepStartsMonotone(evs[1..], next, minLen);
      SweepBounds(evs[1..], next, minLen);
      var g := Gap(evs[0], cursor, minLen);
      var rest := Sweep(evs[1..], next, minLen).0;
      var r := g + rest;
      assert cursor <= next;
      forall i, j | 0 <= i < j < |r| ensures r[i].start <= r[j].start {
        if i >= |g| {
          assert r[i] == rest[i - |g|] && r[j] == rest[j - |g|];
        } else {
          assert r[i] == Slot(cursor, evs[0].start.value);
          assert r[j] == rest[j - |g|];
          assert r[j] in rest;
        }
      }
    }
  }

  /** Every gap is well-formed when every timed event ends no earlier than it starts. */
  predicate WellFormed(evs: seq<TimedEvent>)
  {
    forall k :: 0 <= k < |evs| && evs[k].start.Some? ==> evs[k].end.Some? && evs[k].start.value <= evs[k].end.value
  }

  /**
   * The gaps come out in order and do not overlap, and all of them end before
   * the final cursor, when every timed event is well-formed.
   */
  lemma {:induction false} SweepOrdered(evs: seq<TimedEvent>, cursor: int, minLen: int)
    requires WellFormed(evs)
    ensures var r := Sweep(evs, cursor, minLen);
      (forall i, j :: 0 <= i < j < |r.0| ==> r.0[i].end <= r.0[j].start)
      && (forall s :: s in r.0 ==> s.end <= r.1)
    decreases |evs|
  {
    if evs != [] {
      var e := evs[0];
      var next := Advance(e, cursor);
      assert WellFormed(evs[1..]) by {
        forall k | 0 <= k < |evs[1..]| && evs[1..][k].start.Some?
          ensures evs[1..][k].end.Some? && evs[1..][k].start.value <= evs[1..][k].end.value
        {
          assert evs[1..][k] == evs[k + 1];
        }
      }
      SweepOrdered(evs[1..], next, minLen);
      SweepBounds(evs[1..], next, minLen);
      var rest := Sweep(evs[1..], next, minLen).0;
      if Gap(e, cursor, minLen) != [] {
        var r := Gap(e, cursor, minLen) + rest;
        assert e.start.value <= next;
        forall i, j | 0 <= i < j < |r| ensures r[i].end <= r[j].start {
          if i > 0 {
            assert r[i] == rest[i - 1] && r[j] == rest[j - 1];
          } else {
            assert r[j] in rest;
          }
        }
      }
    }
  }

  /** A timed event occupies `[start, end)`; a slot is free of it when the two do not intersect. */
  predicate Avoids(s: Slot, e: TimedEvent)
  {
    e.start.None? || e.end.None? || e.end.value <= s.start || s.end <= e.start.value
  }

  /** On sorted events, no gap the sweep reports intersects any of them. */
  lemma {:induction false} SweepAvoids(evs: seq<TimedEvent>, cursor: int, minLen: int)
    requires SortedByStart(evs)
    ensures var r := Sweep(evs, cursor, minLen);
      forall s, k :: s in r.0 && 0 <= k < |evs| ==> Avoids(s, evs[k])
    decreases |evs|
  {
    if evs != [] {
      var e := evs[0];
      var next := Advance(e, cursor);
      assert SortedByStart(evs[1..]) by {
        forall i, j | 0 <= i < j < |evs[1..]| ensures KeyLe(evs[1..][i], evs[1..][j]) {
          assert evs[1..][i] == evs[i + 1] && evs[1..][j] == evs[j + 1];
        }
      }
      SweepAvoids(evs[1..], next, minLen);
      SweepBounds(evs[1..], next, minLen);
      var r := Sweep(evs, cursor, minLen);
      var rest := Sweep(evs[1..], next, minLen).0;
      forall s, k | s in r.0 && 0 <= k < |evs| ensures Avoids(s, evs[k]) {
        if s in rest {
          if k > 0 {
            assert evs[1..][k - 1] == evs[k];
          }
        } else {
          // the gap that ends where `e` starts; every later event starts no earlier
          assert s == Slot(cursor, e.start.value);
          if k > 0 {
            assert KeyLe(evs[0], evs[k]);
          }
        }
      }
    }
  }

  /** The final cursor is past every known end, so the tail slot avoids every event. */
  lemma TailAvoids(evs: seq<TimedEvent>, cursor: int, windowEnd: int, minLen: int)
    ensures forall s, k ::
      s in Tail(Sweep(evs, cursor, minLen).1, windowEnd, minLen) && 0 <= k < |evs| ==> Avoids(s, evs[k])
  {
    SweepBounds(evs, cursor, minLen);
  }

  /** The free slots start in non-decreasing order for any events, the slot after the last event included. */
  lemma FreeSlotStartsMonotone(evs: seq<TimedEvent>, windowStart: int, windowEnd: int, hours: int)
    ensures var slots := FreeSlots(evs, windowStart, windowEnd, hours);
      forall i, j :: 0 <= i < j < |slots| ==> slots[i].start <= slots[j].start
  {
    if evs != [] {
      var sw := Sweep(SortByStart(evs), windowStart, hours * 60);
      SweepStartsMonotone(SortByStart(evs), windowStart, hours * 60);
      var slots := sw.0 + Tail(sw.1, windowEnd, hours * 60);
      forall i, j | 0 <= i < j < |slots| ensures slots[i].start <= slots[j].start {
        if j < |sw.0| {
          assert slots[i] == sw.0[i] && slots[j] == sw.0[j];
        } else {
          assert slots[j] == Slot(sw.1, windowEnd);
          if i < |sw.0| { assert slots[i] == sw.0[i]; }
        }
      }
    }
  }

  /**
   * For a non-empty event list: every free slot is at least `hours` long, starts
   * no earlier than the window, and intersects no event; with well-formed
   * events the slots are in order and disjoint.
   */
  lemma FreeSlotsSound(evs: seq<TimedEvent>, windowStart: int, windowEnd: int, hours: int)
    requires evs != []
    ensures var slots := FreeSlots(evs, windowStart, windowEnd, hours);
      (forall s :: s in slots ==> windowStart <= s.start < s.end && s.end - s.start >= hours * 60)
      && (forall s, e :: s in slots && e in evs ==> Avoids(s, e))
      && (forall i, j :: 0 <= i < j < |slots| ==> slots[i].start <= slots[j].start)
      && (WellFormed(evs) ==> forall i, j :: 0 <= i < j < |slots| ==> slots[i].end <= slots[j].start)
  {
    FreeSlotsInWindow(evs, windowStart, windowEnd, hours);
    FreeSlotStartsMonotone(evs, windowStart, windowEnd, hours);
    FreeSlotsAvoidEvents(evs, windowStart, windowEnd, hours);
    if WellFormed(evs) {
      FreeSlotsOrdered(evs, windowStart, windowEnd, hours);
    }
  }

  lemma FreeSlotsInWindow(evs: seq<TimedEvent>, windowStart: int, windowEnd: int, hours: int)
    requires evs != []
    ensures forall s :: s in FreeSlots(evs, windowStart, windowEnd, hours) ==>
      windowStart <= s.start < s.end && s.end - s.start >= hours * 60
  {
    var sorted := SortByStart(evs);
    var minLen := hours * 60;
    SweepBounds(sorted, windowStart, minLen);
    TailAvoids(sorted, windowStart, windowEnd, minLen);
  }

  lemma FreeSlotsAvoidEvents(evs: seq<TimedEvent>, windowStart: int, windowEnd: int, hours: int)
    requires evs != []
    ensures forall s, e :: s in FreeSlots(evs, windowStart, windowEnd, hours) && e in evs ==> Avoids(s, e)
  {
    var sorted := SortByStart(evs);
    var minLen := hours * 60;
    var sw := Sweep(sorted, windowStart, minLen);
    var tail := Tail(sw.1, windowEnd, minLen);
    var slots := FreeSlots(evs, windowStart, windowEnd, hours);
    assert slots == sw.0 + tail;
    SweepAvoids(sorted, windowStart, minLen);
    SweepBounds(sorted, windowStart, minLen);
    forall s, e | s in slots && e in evs ensures Avoids(s, e) {
      assert e in multiset(sorted);
      var k :| 0 <= k < |sorted| && sorted[k] == e;
      if s !in sw.0 {
        assert s == Slot(sw.1, windowEnd);
        assert e.end.Some? ==> sw.1 >= e.end.value;
      }
    }
  }

  lemma FreeSlotsOrdered(evs: seq<TimedEvent>, windowStart: int, windowEnd: int, hours: int)
    requires evs != [] && WellFormed(evs)
    ensures var slots := FreeSlots(evs, windowStart, windowEnd, hours);
      forall i, j :: 0 <= i < j < |slots| ==> slots[i].end <= slots[j].start
  {
    var sorted := SortByStart(evs);
    var minLen := hours * 60;
    var sw := Sweep(sorted, windowStart, minLen);
    var slots := FreeSlots(evs, windowStart, windowEnd, hours);
    SweepBounds(sorted, windowStart, minLen);
    assert WellFormed(sorted) by {
      forall k | 0 <= k < |sorted| && sorted[k].start.Some?
        ensures sorted[k].end.Some? && sorted[k].start.value <= sorted[k].end.value
      {
        assert sorted[k] in multiset(evs);
        var m :| 0 <= m < |evs| && evs[m] == sorted[k];
      }
    }
    SweepOrdered(sorted, windowStart, minLen);
    forall i, j | 0 <= i < j < |slots| ensures slots[i].end <= slots[j].start {
      if j >= |sw.0| {
        assert slots[j].start == sw.1;
        if i < |sw.0| {
          assert slots[i] in sw.0;
        }
      }
    }
  }

  /** Window 9:00-17:00 with events 10-11 and 14-15 and a two-hour minimum: 11-14 and 15-17, not 9-10. */
  lemma WorkingDayExample()
    ensures FreeSlots([TimedEvent(Some(600), Some(660)), TimedEvent(Some(840), Some(900))], 540, 1020, 2)
      == [Slot(660, 840), Slot(900, 1020)]
  {
    var evs := [TimedEvent(Some(600), Some(660)), TimedEvent(Some(840), Some(900))];
    assert SortByStart(evs[1..]) == [evs[1]];
    assert SortByStart(evs) == evs;
    assert evs[1..][1..] == [];
  }

  // ---------------------------------------------------------------------
  // generate_summary
  // ---------------------------------------------------------------------

  /** Of an event, what the summary shows: its `summary` (`None` when the key is missing) and its formatted start. */
  datatype ListedEvent = ListedEvent(title: Option<string>, when: string)

  /** Of a task: its `status`, its `title` (`None` when missing) and its formatted due date (`None` when `due` is falsy). */
  datatype ListedTask = ListedTask(status: Option<string>, title: Option<string>, due: Option<string>)

  /** One entry of `summary_parts`. */
  datatype Line =
    | Header(period: string)
    | EventsHeading(count: nat)
    | EventLine(when: string, title: string)
    | MoreEvents(more: nat)
    | NoEvents(period: string)
    | TasksHeading
    | OpenCount(open: nat)
    | CompletedCount(completed: nat)
    | TopOpenHeading
    | OpenTaskLine(title: string, dueSuffix: string)
    | NoTasks

  predicate IsCompleted(t: ListedTask)
  {
    t.status == Some("completed")
  }

  function OpenTasks(tasks: seq<ListedTask>): (r: seq<ListedTask>)
    ensures |r| <= |tasks|
  {
    if tasks == [] then []
    else (if IsCompleted(tasks[0]) then [] else [tasks[0]]) + OpenTasks(tasks[1..])
  }

  function CompletedTasks(tasks: seq<ListedTask>): (r: seq<ListedTask>)
    ensures |r| <= |tasks|
  {
    if tasks == [] then []
    else (if IsCompleted(tasks[0]) then [tasks[0]] else []) + CompletedTasks(tasks[1..])
  }

  /** Every task is counted exactly once, as open or as completed. */
  lemma {:induction false} OpenPlusCompleted(tasks: seq<ListedTask>)
    ensures |OpenTasks(tasks)| + |CompletedTasks(tasks)| == |tasks|
  {
    if tasks != [] {
      OpenPlusCompleted(tasks[1..]);
    }
  }

  function EventLineOf(e: ListedEvent): Line
  {
    EventLine(e.when, e.title.GetOr("Untitled"))
  }

  function OpenTaskLineOf(t: ListedTask): Line
  {
    OpenTaskLine(t.title.GetOr("Untitled"), if t.due.Some? then " (due " + t.due.value + ")" else "")
  }

  /** The event part of `summary_parts`. */
  function EventPart(events: seq<ListedEvent>, period: string): seq<Line>
  {
    if events == [] then [NoEvents(period)]
    else
      var shown := if |events| > 5 then events[..5] else events;
      [EventsHeading(|events|)] + EventLines(shown) + (if |events| > 5 then [MoreEvents(|events| - 5)] else [])
  }

  function EventLines(shown: seq<ListedEvent>): (r: seq<Line>)
    ensures |r| == |shown|
  {
    if shown == [] then [] else [EventLineOf(shown[0])] + EventLines(shown[1..])
  }

  function OpenTaskLines(top: seq<ListedTask>): (r: seq<Line>)
    ensures |r| == |top|
  {
    if top == [] then [] else [OpenTaskLineOf(top[0])] + OpenTaskLines(top[1..])
  }

  /** The task part of `summary_parts`. */
  function TaskPart(tasks: seq<ListedTask>): seq<Line>
  {
    if tasks == [] then [NoTasks]
    else
      var open := OpenTasks(tasks);
      var top := if |open| > 3 then open[..3] else open;
      [TasksHeading, OpenCount(|open|), CompletedCount(|CompletedTasks(tasks)|)]
        + (if open == [] then [] else [TopOpenHeading] + OpenTaskLines(top))
  }

  /** `summary_parts` of `generate_summary(events, tasks, period)`. */
  function SummaryLines(events: seq<ListedEvent>, tasks: seq<ListedTask>, period: string): seq<Line>
  {
    [Header(period)] + EventPart(events, period) + TaskPart(tasks)
  }

  function CountEventLines(lines: seq<Line>): nat
  {
    if lines == [] then 0 else (if lines[0].EventLine? then 1 else 0) + CountEventLines(lines[1..])
  }

  function CountOpenTaskLines(lines: seq<Line>): nat
  {
    if lines == [] then 0 else (if lines[0].OpenTaskLine? then 1 else 0) + CountOpenTaskLines(lines[1..])
  }

  /** The numbers on the "... and N more events" lines, in order. */
  function MoreCounts(lines: seq<Line>): seq<nat>
  {
    if lines == [] then [] else (if lines[0].MoreEvents? then [lines[0].more] else []) + MoreCounts(lines[1..])
  }

  lemma {:induction false} CountConcat(a: seq<Line>, b: seq<Line>)
    ensures CountEventLines(a + b) == CountEventLines(a) + CountEventLines(b)
    ensures CountOpenTaskLines(a + b) == CountOpenTaskLines(a) + CountOpenTaskLines(b)
    ensures MoreCounts(a + b) == MoreCounts(a) + MoreCounts(b)
    decreases |a|
  {
    if a != [] {
      assert (a + b)[1..] == a[1..] + b;
      CountConcat(a[1..], b);
    } else {
      assert a + b == b;
    }
  }

  lemma {:induction false} EventLinesAppend(a: seq<ListedEvent>, b: seq<ListedEvent>)
    ensures EventLines(a + b) == EventLines(a) + EventLines(b)
    decreases |a|
  {
    if a == [] {
      assert a + b == b;
    } else {
      assert (a + b)[1..] == a[1..] + b;
      EventLinesAppend(a[1..], b);
    }
  }

  lemma EventLinesSnoc(shown: seq<ListedEvent>, i: nat)
    requires i < |shown|
    ensures EventLines(shown[..i + 1]) == EventLines(shown[..i]) + [EventLineOf(shown[i])]
  {
    assert shown[..i + 1] == shown[..i] + [shown[i]];
    EventLinesAppend(shown[..i], [shown[i]]);
  }

  lemma {:induction false} OpenTaskLinesAppend(a: seq<ListedTask>, b: seq<ListedTask>)
    ensures OpenTaskLines(a + b) == OpenTaskLines(a) + OpenTaskLines(b)
    decreases |a|
  {
    if a == [] {
      assert a + b == b;
    } else {
      assert (a + b)[1..] == a[1..] + b;
      OpenTaskLinesAppend(a[1..], b);
    }
  }

  lemma OpenTaskLinesSnoc(top: seq<ListedTask>, j: nat)
    requires j < |top|
    ensures OpenTaskLines(top[..j + 1]) == OpenTaskLines(top[..j]) + [OpenTaskLineOf(top[j])]
  {
    assert top[..j + 1] == top[..j] + [top[j]];
    OpenTaskLinesAppend(top[..j], [top[j]]);
  }

  /** Lines that are neither event lines, open-task lines nor "more" lines count for nothing. */
  lemma {:induction false} PlainLinesCount(ls: seq<Line>)
    requires forall i :: 0 <= i < |ls| ==> !ls[i].EventLine? && !ls[i].OpenTaskLine? && !ls[i].MoreEvents?
    ensures CountEventLines(ls) == 0 && CountOpenTaskLines(ls) == 0 && MoreCounts(ls) == []
  {
    if ls != [] {
      PlainLinesCount(ls[1..]);
    }
  }

  lemma {:induction false} EventLinesCount(shown: seq<ListedEvent>)
    ensures CountEventLines(EventLines(shown)) == |shown|
    ensures CountOpenTaskLines(EventLines(shown)) == 0 && MoreCounts(EventLines(shown)) == []
  {
    if shown != [] {
      EventLinesCount(shown[1..]);
      CountConcat([EventLineOf(shown[0])], EventLines(shown[1..]));
    }
  }

  lemma {:induction false} OpenTaskLinesCount(top: seq<ListedTask>)
    ensures CountOpenTaskLines(OpenTaskLines(top)) == |top|
    ensures CountEventLines(OpenTaskLines(top)) == 0 && MoreCounts(OpenTaskLines(top)) == []
  {
    if top != [] {
      OpenTaskLinesCount(top[1..]);
      CountConcat([OpenTaskLineOf(top[0])], OpenTaskLines(top[1..]));
    }
  }

  /** At most five event lines; a single "... and N-5 more events" line exactly when there are more than five. */
  lemma EventPartShape(events: seq<ListedEvent>, period: string)
    ensures CountEventLines(EventPart(events, period)) == if |events| > 5 then 5 else |events|
    ensures MoreCounts(EventPart(events, period)) == if |events| > 5 then [|events| - 5] else []
    ensures CountOpenTaskLines(EventPart(events, period)) == 0
  {
    if events == [] {
      PlainLinesCount([NoEvents(period)]);
    } else {
      var shown := if |events| > 5 then events[..5] else events;
      var more: seq<Line> := if |events| > 5 then [MoreEvents(|events| - 5)] else [];
      EventLinesCount(shown);
      PlainLinesCount([EventsHeading(|events|)]);
      CountConcat([EventsHeading(|events|)], EventLines(shown));
      CountConcat([EventsHeading(|events|)] + EventLines(shown), more);
    }
  }

  /**
   * With tasks, the second and third lines count the open and the completed ones,
   * which add up to all of them, and at most three open tasks are listed.
   */
  lemma TaskPartShape(tasks: seq<ListedTask>)
    ensures CountOpenTaskLines(TaskPart(tasks)) == if |OpenTasks(tasks)| > 3 then 3 else |OpenTasks(tasks)|
    ensures CountEventLines(TaskPart(tasks)) == 0 && MoreCounts(TaskPart(tasks)) == []
    ensures tasks != [] ==>
      |TaskPart(tasks)| >= 3 && TaskPart(tasks)[1].OpenCount? && TaskPart(tasks)[2].CompletedCount?
      && TaskPart(tasks)[1].open + TaskPart(tasks)[2].completed == |tasks|
  {
    TaskPartCounts(tasks);
    if tasks != [] {
      OpenPlusCompleted(tasks);
    }
  }

  lemma TaskPartCounts(tasks: seq<ListedTask>)
    ensures CountOpenTaskLines(TaskPart(tasks)) == if |OpenTasks(tasks)| > 3 then 3 else |OpenTasks(tasks)|
    ensures CountEventLines(TaskPart(tasks)) == 0 && MoreCounts(TaskPart(tasks)) == []
  {
    if tasks == [] {
      PlainLinesCount([NoTasks]);
    } else {
      var open := OpenTasks(tasks);
      var top := if |open| > 3 then open[..3] else open;
      var head: seq<Line> := [TasksHeading, OpenCount(|open|), CompletedCount(|CompletedTasks(tasks)|)];
      var rest: seq<Line> := if open == [] then [] else [TopOpenHeading] + OpenTaskLines(top);
      OpenTaskLinesCount(top);
      PlainLinesCount(head);
      PlainLinesCount([TopOpenHeading]);
      PlainLinesCount([]);
      CountConcat([TopOpenHeading], OpenTaskLines(top));
      CountConcat(head, rest);
    }
  }

  /** The whole summary: a header, then the event part, then the task part, with the counts above. */
  lemma SummaryShape(events: seq<ListedEvent>, tasks: seq<ListedTask>, period: string)
    ensures var lines := SummaryLines(events, tasks, period);
      lines[0] == Header(period)
      && CountEventLines(lines) == (if |events| > 5 then 5 else |events|)
      && CountOpenTaskLines(lines) == (if |OpenTasks(tasks)| > 3 then 3 else |OpenTasks(tasks)|)
      && MoreCounts(lines) == (if |events| > 5 then [|events| - 5] else [])
  {
    EventPartShape(events, period);
    TaskPartShape(tasks);
    PlainLinesCount([Header(period)]);
    CountConcat([Header(period)], EventPart(events, period));
    CountConcat([Header(period)] + EventPart(events, period), TaskPart(tasks));
  }

  /** The text of one line of the summary. */
  function LineText(l: Line): string
  {
    match l
    case Header(p) => "\U{1F4CA} Summary for " + p + ":"
    case EventsHeading(n) => "\n\U{1F5D3}\U{FE0F} Events (" + NatToString(n) + "):"
    case EventLine(w, t) => "  \U{2022} " + w + " - " + t
    case MoreEvents(k) => "  ... and " + NatToString(k) + " more events"
    case NoEvents(p) => "\n\U{1F5D3}\U{FE0F} No events scheduled for " + p
    case TasksHeading => "\n\U{1F9E9} Tasks:"
    case OpenCount(n) => "  \U{2022} Open: " + NatToString(n)
    case CompletedCount(n) => "  \U{2022} Completed: " + NatToString(n)
    case TopOpenHeading => "  Top open tasks:"
    case OpenTaskLine(t, d) => "    - " + t + d
    case NoTasks => "\n\U{1F9E9} No tasks found"
  }

  function Texts(lines: seq<Line>): (r: seq<string>)
    ensures |r| == |lines| && forall i :: 0 <= i < |r| ==> r[i] == LineText(lines[i])
  {
    if lines == [] then [] else [LineText(lines[0])] + Texts(lines[1..])
  }

  /** The `if events:` block of `generate_summary`, appending to `parts`. */
  method AppendEventPart(parts0: seq<Line>, events: seq<ListedEvent>, period: string) returns (parts: seq<Line>)
    ensures parts == parts0 + EventPart(events, period)
  {
    if events == [] {
      return parts0 + [NoEvents(period)];
    }
    parts := parts0 + [EventsHeading(|events|)];
    var shown := if |events| > 5 then events[..5] else events;
    ghost var base := parts;
    var i := 0;
    while i < |shown|
      invariant 0 <= i <= |shown|
      invariant parts == base + EventLines(shown[..i])
    {
      EventLinesSnoc(shown, i);
      parts := parts + [EventLineOf(shown[i])];
      i := i + 1;
    }
    assert shown[..i] == shown;
    ghost var more: seq<Line> := [];
    if |events| > 5 {
      parts := parts + [MoreEvents(|events| - 5)];
      more := [MoreEvents(|events| - 5)];
    }
    EventPartUnfold(events, period, shown, more);
    assert parts == parts0 + ([EventsHeading(|events|)] + EventLines(shown) + more);
  }

  lemma EventPartUnfold(events: seq<ListedEvent>, period: string, shown: seq<ListedEvent>, more: seq<Line>)
    requires events != []
    requires shown == if |events| > 5 then events[..5] else events
    requires more == if |events| > 5 then [MoreEvents(|events| - 5)] else []
    ensures EventPart(events, period) == [EventsHeading(|events|)] + EventLines(shown) + more
  {
  }

  /** The `if tasks:` block of `generate_summary`, appending to `parts`. */
  method AppendTaskPart(parts0: seq<Line>, tasks: seq<ListedTask>) returns (parts: seq<Line>)
    ensures parts == parts0 + TaskPart(tasks)
  {
    if tasks == [] {
      return parts0 + [NoTasks];
    }
    var open := OpenTasks(tasks);
    var completed := CompletedTasks(tasks);
    var head := [TasksHeading, OpenCount(|open|), CompletedCount(|completed|)];
    parts := parts0 + head;
    ghost var listed: seq<Line> := [];
    var top := if |open| > 3 then open[..3] else open;
    if open != [] {
      parts := AppendOpenTaskLines(parts + [TopOpenHeading], top);
      listed := [TopOpenHeading] + OpenTaskLines(top);
    }
    TaskPartUnfold(tasks, open, top, head, listed);
    assert parts == parts0 + (head + listed);
  }

  /** The `for t in open_tasks[:3]` loop of `generate_summary`. */
  method AppendOpenTaskLines(parts0: seq<Line>, top: seq<ListedTask>) returns (parts: seq<Line>)
    ensures parts == parts0 + OpenTaskLines(top)
  {
    parts := parts0;
    var j := 0;
    while j < |top|
      invariant 0 <= j <= |top|
      invariant parts == parts0 + OpenTaskLines(top[..j])
    {
      OpenTaskLinesSnoc(top, j);
      parts := parts + [OpenTaskLineOf(top[j])];
      j := j + 1;
    }
    assert top[..j] == top;
  }

  lemma TaskPartUnfold(tasks: seq<ListedTask>, open: seq<ListedTask>, top: seq<ListedTask>, head: seq<Line>, listed: seq<Line>)
    requires tasks != [] && open == OpenTasks(tasks)
    requires top == if |open| > 3 then open[..3] else open
    requires head == [TasksHeading, OpenCount(|open|), CompletedCount(|CompletedTasks(tasks)|)]
    requires listed == if open == [] then [] else [TopOpenHeading] + OpenTaskLines(top)
    ensures TaskPart(tasks) == head + listed
  {
  }

  /** `generate_summary`: builds `summary_parts` by appends and joins them with newlines. */
  method GenerateSummary(events: seq<ListedEvent>, tasks: seq<ListedTask>, period: string) returns (text: string)
    ensures text == Join(Texts(SummaryLines(events, tasks, period)), "\n")
  {
    var parts: seq<Line> := [Header(period)];
    parts := AppendEventPart(parts, events, period);
    parts := AppendTaskPart(parts, tasks);
    text := Join(Texts(parts), "\n");
  }
}
