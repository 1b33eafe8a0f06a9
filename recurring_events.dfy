/**
 * Recurrence rules (app/connectors/recurring_events.py): the `RRULE:` line
 * built for an event, a RECUR value in the sense of section 3.3.10 of RFC 5545,
 * and the step that adds a ten-occurrence rule for a named pattern.
 *
 * The `until` instant is given as its calendar fields, which are formatted the
 * way `strftime('%Y%m%dT%H%M%SZ')` does for four-digit years.
 */
module RecurringEvents {
  import opened Common
  import opened Json

  /** A date and time of day, as `until` carries it. */
  datatype DateTime = DateTime(year: nat, month: nat, day: nat, hour: nat, minute: nat, second: nat)

  /** `n` in decimal, left-padded with zeros to `width` digits. */
  function Padded(n: nat, width: nat): (r: string)
    ensures |r| >= width
    ensures AllDigits(r)
  {
    var s := NatToString(n);
    seq(if width > |s| then width - |s| else 0, _ => '0') + s
  }

  /** `until.strftime('%Y%m%dT%H%M%SZ')` */
  function UntilStamp(u: DateTime): (r: string)
    ensures |r| >= 16 && r[|r| - 1] == 'Z'
  {
    Padded(u.year, 4) + Padded(u.month, 2) + Padded(u.day, 2) + "T" + Padded(u.hour, 2) + Padded(u.minute, 2) + Padded(u.second, 2) + "Z"
  }

  /** How the rule ends: COUNT and UNTIL are alternatives, as section 3.3.10 of RFC 5545 requires. */
  datatype End = Forever | CountEnd(count: int) | UntilEnd(until: DateTime)

  /** The parts of the rule: the frequency, an optional interval and the end. */
  datatype Recur = Recur(freq: string, interval: Option<int>, end: End)

  /** What `create_recurrence_rule` puts in the rule. */
  function RecurOf(frequency: string, interval: int, count: Option<int>, until: Option<DateTime>): (r: Recur)
    ensures r.freq == Upper(frequency)
    ensures r.interval.Some? <==> interval > 1
    ensures r.interval.Some? ==> r.interval.value == interval
    ensures r.end.CountEnd? <==> count.Some? && count.value != 0
    ensures r.end.CountEnd? ==> r.end.count == count.value
    ensures r.end.UntilEnd? <==> (count.None? || count.value == 0) && until.Some?
    ensures r.end.UntilEnd? ==> r.end.until == until.value
  {
    Recur(Upper(frequency),
          if interval > 1 then Some(interval) else None,
          if count.Some? && count.value != 0 then CountEnd(count.value)
          else if until.Some? then UntilEnd(until.value)
          else Forever)
  }

  function EndText(e: End): string
  {
    match e
    case Forever => ""
    case CountEnd(c) => ";COUNT=" + IntToString(c)
    case UntilEnd(u) => ";UNTIL=" + UntilStamp(u)
  }

  /** The `RRULE:` property line for a rule. */
  function RuleText(r: Recur): string
  {
    "RRULE:FREQ=" + r.freq + (if r.interval.Some? then ";INTERVAL=" + IntToString(r.interval.value) else "") + EndText(r.end)
  }

  /** `create_recurrence_rule`, which extends `rule` part by part with `+=`. */
  method CreateRecurrenceRule(frequency: string, interval: int, count: Option<int>, until: Option<DateTime>)
    returns (rules: seq<string>)
    ensures rules == [RuleText(RecurOf(frequency, interval, count, until))]
  {
    var r := RecurOf(frequency, interval, count, until);
    var rule := "RRULE:FREQ=" + Upper(frequency);
    if interval > 1 {
      rule := rule + (";INTERVAL=" + IntToString(interval));
    }
    assert rule == "RRULE:FREQ=" + r.freq + (if r.interval.Some? then ";INTERVAL=" + IntToString(r.interval.value) else "");
    if count.Some? && count.value != 0 {
      rule := rule + (";COUNT=" + IntToString(count.value));
    } else if until.Some? {
      rule := rule + (";UNTIL=" + UntilStamp(until.value));
    }
    assert rule == RuleText(r);
    rules := [rule];
  }

  /** A rule with an interval of at most one and no end is just its frequency. */
  lemma PlainRule(frequency: string, interval: int)
    requires interval <= 1
    ensures RuleText(RecurOf(frequency, interval, None, None)) == "RRULE:FREQ=" + Upper(frequency)
  {
  }

  /** A non-zero count always wins over `until`. */
  lemma CountBeatsUntil(frequency: string, interval: int, c: int, u: DateTime)
    requires c != 0
    ensures RecurOf(frequency, interval, Some(c), Some(u)) == RecurOf(frequency, interval, Some(c), None)
  {
  }

  /** The patterns `enhance_event_for_recurrence` knows, compared after lower-casing. */
  const Patterns := ["daily", "weekly", "monthly", "yearly"]

  /**
   * `enhance_event_for_recurrence`: a known pattern, in any letter case, sets
   * `recurrence` to the ten-occurrence rule; any other leaves the body as it is.
   */
  method EnhanceEventForRecurrence(body: map<string, Value>, pattern: string) returns (r: map<string, Value>)
    ensures Lower(pattern) in Patterns ==> r == body["recurrence" := Arr([Str("RRULE:FREQ=" + Upper(pattern) + ";COUNT=" + "10")])]
    ensures Lower(pattern) !in Patterns ==> r == body
  {
    r := body;
    if Lower(pattern) in Patterns {
      var rules := CreateRecurrenceRule(pattern, 1, Some(10), None);
      assert IntToString(10) == "10" by {
        assert NatToString(10) == NatToString(1) + [DigitChar(0)];
      }
      assert RuleText(RecurOf(pattern, 1, Some(10), None)) == "RRULE:FREQ=" + Upper(pattern) + ";COUNT=" + "10";
      r := r["recurrence" := Arr([Str(rules[0])])];
    }
  }

  lemma UpperDaily() ensures Upper("daily") == "DAILY" {}
  lemma UpperWeekly() ensures Upper("weekly") == "WEEKLY" {}
  lemma UpperMonthly() ensures Upper("monthly") == "MONTHLY" {}
  lemma UpperYearly() ensures Upper("yearly") == "YEARLY" {}

  /** The frequencies section 3.3.10 of RFC 5545 names that the patterns stand for. */
  const Frequencies := ["DAILY", "WEEKLY", "MONTHLY", "YEARLY"]

  lemma UpperPattern(i: int)
    requires 0 <= i < |Patterns|
    ensures Upper(Patterns[i]) == Frequencies[i]
  {
    if i == 0 {
      UpperDaily();
    } else if i == 1 {
      UpperWeekly();
    } else if i == 2 {
      UpperMonthly();
    } else {
      UpperYearly();
    }
  }

  /** Whatever the letter case of the pattern, the stored frequency is one RFC 5545 defines. */
  lemma EnhancedFrequencyIsStandard(pattern: string)
    requires Lower(pattern) in Patterns
    ensures Upper(pattern) in Frequencies
  {
    var i :| 0 <= i < |Patterns| && Patterns[i] == Lower(pattern);
    UpperPattern(i);
    SameUpper(pattern, Patterns[i], Frequencies[i]);
  }

  lemma SameUpper(pattern: string, l: string, u: string)
    requires Lower(pattern) == l && Upper(l) == u
    ensures Upper(pattern) == u
  {
    UpperOfLower(pattern);
  }
}
