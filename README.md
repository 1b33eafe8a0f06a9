# WhatsApp assistant core, modelled in Dafny

The assistant receives WhatsApp messages and asks a language model to classify each one as an intent:
- a calendar event to create, update or list;
- a task operation;
- a general question.

It then acts on Google Calendar and Google Tasks on the user's behalf. This project models the deterministic logic around those services. Every file below is one module of the system.

- `confirmation_store.dfy` covers `PendingStore`: the per-user table of pending interactions.
  - Entries carry a time-to-live.
  - Every entry that has expired is swept out before each operation.
  - A `PendingStore` class holds the table as a `map`, and `is_confirm`/`is_cancel` classify a reply.
- `rate_limiter.dfy` covers the sliding-window limiter: a class that keeps one queue of timestamps per key, pruned from the front.
- `enhanced_nlp.py` is covered by `enhanced_nlp.dfy`:
  - the keyword-driven date ranges;
  - the task-status filter;
  - the free-slot sweep over a day's events;
  - the text of the period summary.
- `google_tasks.dfy` covers two groups of behaviour:
  - the task connector's matching, its `due` value and the notes/location merge;
  - the paging, update, complete and delete loops, and the cached list id.
- `google_calendar.dfy` covers the body that creates an event, the filter that picks candidates for an update, and the patch built for an update.
- `validation.dfy` covers the WhatsApp address check, the text sanitiser and the event-title check.
- `models.dfy` covers the record types:
  - the legacy-key normalisation of `EventCreate`;
  - its required fields;
  - the domain of `TaskOp.op`;
  - the defaults of the `IntentResult` envelope.
- `task_priority.dfy` covers the prioritised task record and its Google Tasks body.
- `recurring_events.dfy` covers the `RRULE:` line: a RECUR value as section 3.3.10 of RFC 5545 defines it.
- `media_fetch.dfy` covers the extension guessed from a voice note's media type.
- `performance_monitor.dfy` covers the bounded duration buffers, the counters and the statistics drawn from them.
- `config_validator.dfy` covers the start-up configuration report.
- `openai_intent.dfy` covers the basic intent router, from the model's reply to an `IntentResult`.
- `openai_intent_enhanced.dfy` covers the enhanced router and the rate-limiter gate in front of it.
- `common.dfy` and `json.dfy` hold the shared vocabulary:
  - Python's `lower`, `upper`, `strip`, substring `in` and `str.join`, and decimal printing;
  - a decoded JSON value with Python truthiness.

Clocks, services, the language model, JSON decoding and date parsing are all parameters:
- a clock reading is an integer `now`;
- a service listing is the sequence of pages it would return;
- a decoder or parser is a function handed in.

Time is measured in several units:
- seconds for the pending store;
- ticks for the limiter;
- minutes for calendar instants;
- day numbers, counted from 1970-01-01, for date ranges.

Where the source mutates an object, the model is a class whose fields the methods update:
- `PendingStore`;
- `RateLimiter`;
- `PerformanceMonitor`;
- the task connector's list-id cache.

Where the source runs a loop, the model is a method with a loop. Each method is proved against a specification function, and the properties are lemmas about that function.

## Model

| member | source | states |
|---|---|---|
| ConfirmationStore.Swept | app/services/confirmation_store.py:11-15 | Exactly the entries whose expiry is missing or not before `now` survive a sweep, each unchanged. |
| ConfirmationStore.PendingStore.constructor | app/services/confirmation_store.py:7-9 | A new store is empty and keeps the TTL it was given. |
| ConfirmationStore.PendingStore.Cleanup | app/services/confirmation_store.py:11-15 | The deletion loop leaves the store equal to its sweep at `now`. |
| ConfirmationStore.PendingStore.Add | app/services/confirmation_store.py:17-24 | After the sweep, the user's entry (if any) is replaced by the new type, payload, expiry `now + ttl*60` and creation time; other users are untouched. |
| ConfirmationStore.PendingStore.Has | app/services/confirmation_store.py:26-28 | Sweeps, then answers true exactly when the user has a live entry. |
| ConfirmationStore.PendingStore.Get | app/services/confirmation_store.py:30-32 | Sweeps, then returns the live entry (or none) and removes nothing. |
| ConfirmationStore.PendingStore.Pop | app/services/confirmation_store.py:34-36 | Sweeps, returns the live entry (or none), and the user is absent afterwards. |
| ConfirmationStore.PendingStore.GetStats | app/services/confirmation_store.py:50-74 | Sweeps. `total` is the number of live entries. `by_type` has a key exactly for each type present, counting the users with that type, and the counts sum to `total`. Oldest and newest are both absent exactly when the store is empty. Otherwise they are stored creation times that bound every creation time, in order. |
| ConfirmationStore.Tally | app/services/confirmation_store.py:58-74 | For any table, `total` is its size. There is one type key per type present, and the counts sum to `total`. Oldest and newest are absent exactly when no entry has a creation time. Otherwise both are creation times of some entry, and they bound every creation time, in order. |
| ConfirmationStore.TallyLoop | app/services/confirmation_store.py:60-68 | The loop over users yields complete per-type counts. It collects exactly the creation times present, every collected value being one entry's time. |
| ConfirmationStore.Summarise | app/services/confirmation_store.py:70-74 | From the collected creation times: none when no entry has one. Otherwise oldest and newest are actual creation times, and they bound all of them, in order. |
| ConfirmationStore.TallyStep | app/services/confirmation_store.py:62-64 | Counting one more user keeps every type count equal to the number of seen users of that type. |
| ConfirmationStore.CountsComplete | app/services/confirmation_store.py:60-64 | Once every user is seen, the type keys are exactly the types present and the counts sum to the table size. |
| ConfirmationStore.SweptIsFresh | app/services/confirmation_store.py:11-15 | After a sweep no stored entry has expired. |
| ConfirmationStore.AddedIsLive | app/services/confirmation_store.py:17-32 | An entry added at `now` with a non-negative TTL is still present, unchanged, at any time up to its expiry. |
| ConfirmationStore.SweptTwice | app/services/confirmation_store.py:11-15 | Sweeping at `a` and then at a later `b` is the same as sweeping once at `b`. |
| ConfirmationStore.ConfirmCancelExclusive | app/services/confirmation_store.py:38-48 | No reply is both a confirmation and a cancellation. |
| ConfirmationStore.ClassificationIgnoresPadding | app/services/confirmation_store.py:38-48 | Surrounding whitespace changes neither classification. |
| ConfirmationStore.NoneIsEmptyReply | app/services/confirmation_store.py:38-48 | A missing reply is classified like the empty string. |
| RateLimiter.Pruned | app/utils/rate_limiter.py:22-23 | Prune drops a prefix, every dropped timestamp is at or before the cutoff, and the first kept one is after it. |
| RateLimiter.Step | app/utils/rate_limiter.py:16-29 | A call is allowed exactly when fewer than `max_calls` recent timestamps remain; only an allowed call appends `now`. |
| RateLimiter.RateLimiter.constructor | app/utils/rate_limiter.py:12-14 | A new limiter has no queues. |
| RateLimiter.RateLimiter.IsAllowed | app/utils/rate_limiter.py:16-29 | The answer and the key's new queue are `Step` of its old queue (an unseen key starts empty); every other key's queue is unchanged. |
| RateLimiter.RateLimiter.WaitTime | app/utils/rate_limiter.py:31-40 | The wait is `WaitFor` of the key's queue. The queue is unchanged, and a missing key is inserted empty. |
| RateLimiter.WaitFor | app/utils/rate_limiter.py:31-40 | Zero below the limit. Otherwise it is `max(0, oldest + window - now)`, which is at most the window when the oldest timestamp is not in the future. It is undefined for an empty queue when the limit is at most 0. |
| RateLimiter.PrunedIsRecent | app/utils/rate_limiter.py:22-23 | On a sorted queue every kept timestamp is after the cutoff. |
| RateLimiter.PrunedAllOld | app/utils/rate_limiter.py:22-23 | A queue of old timestamps is emptied. |
| RateLimiter.PrunedAllRecent | app/utils/rate_limiter.py:22-23 | A queue of recent timestamps is kept whole. |
| RateLimiter.AllowedKeepsBound | app/utils/rate_limiter.py:22-29 | After an allowed call the queue holds at most `max_calls` timestamps, all in `(now - window, now]`, still sorted. |
| RateLimiter.DeniedRecordsNothing | app/utils/rate_limiter.py:25-26 | A denied call only prunes, and at least `max_calls` timestamps remain. |
| RateLimiter.AllowedAfterWindow | app/utils/rate_limiter.py:22-29 | Once a full window has passed since the last call, a positive limit allows the next call. |
| RateLimiter.WaitIsEnough | app/utils/rate_limiter.py:31-40 | Waiting the reported time on a full queue makes the next call allowed. |
| RateLimiter.BurstRefusedAtLimit | app/utils/rate_limiter.py:16-29 | Calls at one instant are allowed until `max_calls` are recorded, and refused from then on. |
| EnhancedNlp.Weekday | app/connectors/enhanced_nlp.py:46 | A day number's weekday lies in 0..6, Monday being 0. |
| EnhancedNlp.ParseDateRange | app/connectors/enhanced_nlp.py:39-81 | Every range is non-empty. |
| EnhancedNlp.NextSundayRange | app/connectors/enhanced_nlp.py:45-52 | "next sunday" is the first Sunday strictly after today, 1 to 7 days ahead, one day long. |
| EnhancedNlp.NextWeekRange | app/connectors/enhanced_nlp.py:54-59 | "next week" starts on the first Monday strictly after today and spans seven days. |
| EnhancedNlp.ThisWeekRange | app/connectors/enhanced_nlp.py:61-66 | "this week" is the Monday-to-Sunday week containing today. |
| EnhancedNlp.TomorrowAndDefaultRange | app/connectors/enhanced_nlp.py:68-81 | "tomorrow" is the next day; "today" and any other text give today. |
| EnhancedNlp.ExtractTaskStatusFilter | app/connectors/enhanced_nlp.py:83-91 | Open if an open pattern occurs; else completed if a completed pattern occurs; else all if an all pattern occurs; else none. Each case is an if-and-only-if. |
| EnhancedNlp.DoneBeatsAll | app/connectors/enhanced_nlp.py:33-37 | "done" anywhere in the text, with no open pattern, means completed. |
| EnhancedNlp.OpenWins | app/connectors/enhanced_nlp.py:83-91 | An open pattern anywhere in the text means open, whatever else occurs. |
| EnhancedNlp.Insert | app/connectors/enhanced_nlp.py:104 | Insertion adds exactly the one event. |
| EnhancedNlp.InsertSorted | app/connectors/enhanced_nlp.py:104 | Inserting into a list sorted by start keeps it sorted. |
| EnhancedNlp.SortByStart | app/connectors/enhanced_nlp.py:104 | The sorted list is ordered by start and is a permutation of the events. |
| EnhancedNlp.SweepGaps | app/connectors/enhanced_nlp.py:106-123 | The cursor loop yields the slots and final cursor of the specification sweep. |
| EnhancedNlp.Visit | app/connectors/enhanced_nlp.py:110-123 | One event contributes the gap before it, if long enough, and moves the cursor to `max(cursor, end)`. |
| EnhancedNlp.FindFreeSlots | app/connectors/enhanced_nlp.py:93-135 | The method returns the free slots of the specification. |
| EnhancedNlp.EmptyCalendarIsOneSlot | app/connectors/enhanced_nlp.py:96-102 | With no events the whole window is one slot, however short. |
| EnhancedNlp.SweepBounds | app/connectors/enhanced_nlp.py:106-123 | The cursor never moves back and ends past every event's end. Each slot starts at or after the first cursor and is at least the threshold long. |
| EnhancedNlp.SweepStartsMonotone | app/connectors/enhanced_nlp.py:106-123 | For any events, the sweep's slots start in non-decreasing order, between the starting cursor and the final one. |
| EnhancedNlp.SweepOrdered | app/connectors/enhanced_nlp.py:106-123 | When every event ends no earlier than it starts, the sweep's slots are disjoint, in order, and end before the final cursor. |
| EnhancedNlp.SweepAvoids | app/connectors/enhanced_nlp.py:109-123 | On events sorted by start, no slot of the sweep overlaps an event. |
| EnhancedNlp.FreeSlotsSound | app/connectors/enhanced_nlp.py:104-135 | For a non-empty calendar each free slot lies after the window start and is at least `hours` long. No slot overlaps an event. Slot starts never decrease, and with well-formed events the slots are in order and disjoint. |
| EnhancedNlp.FreeSlotStartsMonotone | app/connectors/enhanced_nlp.py:104-135 | For any events, the free slots start in non-decreasing order, the final slot included. |
| EnhancedNlp.FreeSlotsInWindow | app/connectors/enhanced_nlp.py:104-135 | Each free slot starts at or after the window start and meets the length threshold. |
| EnhancedNlp.FreeSlotsAvoidEvents | app/connectors/enhanced_nlp.py:104-135 | No free slot overlaps any given event. |
| EnhancedNlp.FreeSlotsOrdered | app/connectors/enhanced_nlp.py:104-135 | With well-formed events the free slots are disjoint and in order. |
| EnhancedNlp.WorkingDayExample | app/connectors/enhanced_nlp.py:109-133 | Window 9:00 to 17:00 with events at 10-11 and 14-15 and a 2-hour threshold gives exactly 11-14 and 15-17. |
| EnhancedNlp.OpenPlusCompleted | app/connectors/enhanced_nlp.py:174-180 | Every task is counted once, as open or as completed. |
| EnhancedNlp.EventPartShape | app/connectors/enhanced_nlp.py:162-172 | At most five event lines are shown. A "more events" line giving the surplus appears exactly when there are more than five. |
| EnhancedNlp.TaskPartShape | app/connectors/enhanced_nlp.py:174-190 | At most three open tasks are listed, and the open and completed counts add up to the number of tasks. |
| EnhancedNlp.TaskPartCounts | app/connectors/enhanced_nlp.py:174-190 | The task part lists the first `min(3, open)` open tasks and no event lines. |
| EnhancedNlp.SummaryShape | app/connectors/enhanced_nlp.py:157-192 | The summary starts with its header, shows `min(5, events)` events, the surplus line only beyond five, and `min(3, open)` open tasks. |
| EnhancedNlp.AppendEventPart | app/connectors/enhanced_nlp.py:162-172 | The appends add exactly the event part. |
| EnhancedNlp.AppendTaskPart | app/connectors/enhanced_nlp.py:174-190 | The appends add exactly the task part. |
| EnhancedNlp.AppendOpenTaskLines | app/connectors/enhanced_nlp.py:184-188 | The loop adds one line per listed open task, in order. |
| EnhancedNlp.GenerateSummary | app/connectors/enhanced_nlp.py:157-192 | The text is the summary's lines joined by newlines. |
| GoogleTasks.ToDue | app/connectors/google_tasks.py:36-59 | No due value exactly when both date and time are empty. A missing date is today and a missing time is 23:59. |
| GoogleTasks.NotesWithLocation | app/connectors/google_tasks.py:62-67 | Notes and location give `notes + "\nLocation: " + location`, a location alone gives `"Location: " + location`, and no location returns the notes unchanged. |
| GoogleTasks.NotesKeepBoth | app/connectors/google_tasks.py:62-67 | With a location the result ends with the location line, and starts with the notes when there are any. |
| GoogleTasks.MatchesCriteria | app/connectors/google_tasks.py:70-106 | A task matches exactly when three conditions all hold:<br>1. it is not completed, unless completed tasks are included;<br>2. its title contains the title hint, ignoring case;<br>3. with a date hint, it has a due date and that local date equals the hint. |
| GoogleTasks.TitleHintAnyCase | app/connectors/google_tasks.py:85-87 | An open task whose title contains the hint matches a title-only criterion. |
| GoogleTasks.MatchingMembers | app/connectors/google_tasks.py:220-222 | A task is selected exactly when it is listed and matches. |
| GoogleTasks.CompletedHidden | app/connectors/google_tasks.py:81-83 | Without `include_completed`, no selected task is completed. |
| GoogleTasks.DateHintFilters | app/connectors/google_tasks.py:89-104 | With a date hint, every selected task has a due date on that local date. |
| GoogleTasks.LastFetched | app/connectors/google_tasks.py:223-225 | Paging stops at the first page without a next-page token. |
| GoogleTasks.List | app/connectors/google_tasks.py:201-226 | The paging loop fetches up to that page and returns the matching tasks of those pages, in page order. |
| GoogleTasks.ScanPage | app/connectors/google_tasks.py:220-222 | One page appends exactly its matching tasks. |
| GoogleTasks.ListedExactly | app/connectors/google_tasks.py:210-226 | A task is listed exactly when it matches and is on a fetched page. |
| GoogleTasks.CreateBody | app/connectors/google_tasks.py:183-199 | The insert carries the title, status `needsAction`, the merged notes, and a due value exactly when a date or time is given. |
| GoogleTasks.PatchFor | app/connectors/google_tasks.py:238-246 | A non-empty new title replaces the title. A present `new_notes` replaces the notes, even with `None`. Due is set only when a new date or time is given, and the status is kept. |
| GoogleTasks.Patches | app/connectors/google_tasks.py:236-250 | One patch per matched task, in order, addressed by its id. |
| GoogleTasks.Update | app/connectors/google_tasks.py:228-250 | The update loop returns the patches of the listed tasks. |
| GoogleTasks.Complete | app/connectors/google_tasks.py:252-266 | Only listed tasks that are not yet completed are patched. The count is their number, at most the number listed. |
| GoogleTasks.CompleteListed | app/connectors/google_tasks.py:259-266 | The loop patches the not-yet-completed tasks, in order, and counts them. |
| GoogleTasks.CompleteIdempotent | app/connectors/google_tasks.py:259-266 | A list of completed tasks yields nothing to complete. |
| GoogleTasks.Delete | app/connectors/google_tasks.py:268-280 | Every listed task is deleted, and the count is the number listed. |
| GoogleTasks.DeleteListed | app/connectors/google_tasks.py:275-280 | The loop deletes each task once, in order, and counts them. |
| GoogleTasks.FindList | app/connectors/google_tasks.py:162-173 | The lookup is the first-match search over the lists of the pages fetched up to the first page without a next-page token. |
| GoogleTasks.FindInPage | app/connectors/google_tasks.py:167-170 | A found id is that of the first list with the title. None means exactly that no list has it. |
| GoogleTasks.FindInConcat | app/connectors/google_tasks.py:165-173 | Searching page after page finds the first match of the pages' lists taken together. |
| GoogleTasks.TasksConnector.constructor | app/connectors/google_tasks.py:127-132 | A connector starts with its configured id and name and an empty cache. |
| GoogleTasks.TasksConnector.Resolve | app/connectors/google_tasks.py:154-180 | With no name and the configured id `@default`, the id is `@default`. With no name, or an empty one, otherwise, it is the configured id. |
| GoogleTasks.TasksConnector.ResolveByName | app/connectors/google_tasks.py:162-176 | With a name, the id is that of the first fetched list bearing it. The created list's id is used only when no fetched list bears the name. |
| GoogleTasks.TasksConnector.GetTasklistId | app/connectors/google_tasks.py:150-180 | A non-empty cache is returned as is. Otherwise the id is resolved in order: the magic `@default`; the first list with the configured name, creating the list once when none exists; or the configured id. The result is then cached. |
| GoogleCalendar.MissingTimeBecomesWordNone | app/utils/time_utils.py:11 | As written, a date with no time of day becomes a phrase that ends in the word `None`. |
| GoogleCalendar.EventPhrase | app/utils/time_utils.py:11 | The corrected phrase is never empty, and it is the date alone when there is no time. |
| GoogleCalendar.EventPhraseAgreesWithTime | app/utils/time_utils.py:11 | With a time of day, the corrected phrase equals the one the code builds. |
| GoogleCalendar.DurationOrDefault | app/utils/time_utils.py:24 | A zero or missing duration becomes 60 minutes. |
| GoogleCalendar.EventTimes | app/utils/time_utils.py:8-25 | The event starts at the parsed corrected phrase, which is the code's own phrase whenever a time of day is given. It lasts its duration or 60 minutes. |
| GoogleCalendar.CreateBody | app/connectors/google_calendar.py:16-25 | The summary is the title or "Untitled", and the location and description fall back to "". The start is that of `EventTimes`, both ends use the calendar's time zone, the duration is kept, and default reminders are on. |
| GoogleCalendar.Hint | app/connectors/google_calendar.py:58-60 | A hint keeps its length, and is empty exactly when it is missing or empty. |
| GoogleCalendar.Candidates | app/connectors/google_calendar.py:62-82 | The filter keeps at most every listed event. |
| GoogleCalendar.CandidatesInOrder | app/connectors/google_calendar.py:57-82 | The candidates are a subsequence of the window's events, in their original order. |
| GoogleCalendar.CandidatesMembers | app/connectors/google_calendar.py:62-80 | An event is a candidate exactly when it is listed and passes every filter. |
| GoogleCalendar.NoHintsKeepAll | app/connectors/google_calendar.py:58-67 | With no who, title or time hint, every listed event is a candidate. |
| GoogleCalendar.TimeHintWindows | app/connectors/google_calendar.py:69-79 | The hour windows are inclusive: morning is 6-11, afternoon 12-17 and evening 18-22. Any other hint, or a start that does not parse, keeps the event. |
| GoogleCalendar.WhoMatchesAnyCase | app/connectors/google_calendar.py:58-67 | A summary containing the person's name in any letter case is kept. |
| GoogleCalendar.SearchWindow | app/connectors/google_calendar.py:48-54 | The window starts at midnight of the hint date, or of today when the hint does not parse, and spans `window_days` days. |
| GoogleCalendar.FindCandidates | app/connectors/google_calendar.py:47-82 | The method asks for that window and returns the filtered events. |
| GoogleCalendar.StartBasis | app/connectors/google_calendar.py:103-110 | A timed event's own start is the basis of the change. |
| GoogleCalendar.NewPhrases | app/connectors/google_calendar.py:113-114 | A new date or time, when non-empty, replaces the basis's date or time. |
| GoogleCalendar.NewTimes | app/connectors/google_calendar.py:113-123 | The new end is the new start plus the new duration or 60 minutes. |
| GoogleCalendar.PatchTexts | app/connectors/google_calendar.py:89-99 | The summary is set only for a non-empty title, but the description and location are set whenever they are given, even as "". |
| GoogleCalendar.ApplyUpdate | app/connectors/google_calendar.py:85-131 | The patch has the same text rules, always has a start and an end in the calendar's time zone, and its duration is the new one or 60 minutes. |
| GoogleCalendar.TimedEventKeepsStart | app/connectors/google_calendar.py:103-126 | With no new date or time, the new start of a timed event is the phrase of its own start date and `HH:MM` time, resolved again. |
| GoogleCalendar.AllDayEventUsesNewDate | app/connectors/google_calendar.py:106-110 | For an all-day event, a new date is parsed as free text, and its time of day comes from that parse. |
| Validation.ValidatePhoneNumber | app/utils/validation.py:8-13 | The empty string is rejected, and an accepted number is the prefix followed by 10 to 15 digits. |
| Validation.PhoneDigits | app/utils/validation.py:12-13 | The digits checked are the text after the prefix, without one final newline. |
| Validation.PhoneShape | app/utils/validation.py:8-13 | `whatsapp:+` plus `d`, optionally followed by one newline, is accepted exactly when `d` is 10 to 15 digits. |
| Validation.Filtered | app/utils/validation.py:43 | The filter leaves no control character other than newline, carriage return and tab. |
| Validation.FilteredKeepsAllowed | app/utils/validation.py:43 | Text without control characters passes the filter unchanged. |
| Validation.PyPrefix | app/utils/validation.py:46 | `s[:n]` is a prefix of length `min(n, len s)` for non-negative `n`. |
| Validation.StripKeepsDots | app/utils/validation.py:46-48 | Strip keeps a trailing "...". |
| Validation.SanitizeTextInput | app/utils/validation.py:38-48 | Empty input stays empty. The output has no disallowed control character and no surrounding whitespace, and is at most `max_length + 3` long. Within the limit it is the stripped filtered text; beyond it, it ends in "...". |
| Validation.PlainTextIsOnlyStripped | app/utils/validation.py:38-48 | Clean text within the limit is only stripped. |
| Validation.ValidateEventTitle | app/utils/validation.py:51-57 | A blank title is rejected. Otherwise the title is accepted exactly when sanitising at 200 characters leaves something, and that text is returned. |
| Validation.ControlOnlyTitleRejected | app/utils/validation.py:51-57 | A title of spaces and a control character is not blank to `strip()`, yet it is rejected. |
| Models.NormalizeAliases | app/models.py:32-42 | The method performs the alias moves on a dictionary and returns anything else as it is. |
| Models.AliasPair | app/models.py:36-41 | An alias moves to its canonical key only when that key is absent, and the alias is then removed. When both are present both stay, and the canonical value wins. |
| Models.OtherKeysKept | app/models.py:34-42 | Keys other than the three aliases are untouched. |
| Models.AliasesIdempotent | app/models.py:34-42 | Normalising twice is the same as normalising once. |
| Models.OptString | app/models.py:27-30 | An optional string field: missing or null gives none, a string is taken, and anything else is invalid. |
| Models.OptInt | app/models.py:28 | An optional integer accepts a whole number or a string of digits. |
| Models.ParseEventCreate | app/models.py:10-42 | A valid event has, after the alias moves, a string title and a string start date. Without `title`, or without both `start_date` and `date`, the input is invalid. |
| Models.LegacyKeysAccepted | app/models.py:20-41 | An event written with `date`, `time` and `description` parses as `start_date`, `start_time` and `notes`. The duration and location stay unset. |
| Models.ParseOp | app/models.py:93-94 | An accepted op is one of the five names, spelt exactly. |
| Models.OpRoundTrip | app/models.py:94 | A string parses to an op exactly when it is that op's name. |
| Models.Envelope | app/models.py:102-120 | An envelope carries the given intent and answer, with every optional field absent. |
| Models.MinimalStub | app/models.py:104-105 | The answer defaults to "" and the event to none. |
| Models.OptStrField | app/models.py:104-108 | An optional string field is none for null, the string when one is given, and invalid otherwise. |
| Models.StrField | app/models.py:105 | A required string field accepts exactly a string. |
| Models.OptFloatField | app/models.py:106 | A float field is none for null and takes any number. |
| Models.OptBoolField | app/models.py:107 | A boolean field is none for null and takes any boolean. |
| TaskPriority.NewItem | app/models/task_priority.py:26-34 | A new task has priority MEDIUM, category OTHER, and nothing else set. |
| TaskPriority.NoteLines | app/models/task_priority.py:38-46 | There is one line per present part, the notes first and the location last. |
| TaskPriority.ToGoogleTasksFormat | app/models/task_priority.py:36-53 | Title, date and time pass through unchanged, and the notes are the lines joined by newlines, or none. |
| TaskPriority.NotesPresentIff | app/models/task_priority.py:48-50 | Notes are absent exactly when there are no notes, no location, and a priority and category that are missing or the defaults. |
| TaskPriority.PriorityLine | app/models/task_priority.py:41-42 | A non-default priority gets a line; MEDIUM adds nothing, exactly as no priority. |
| TaskPriority.CategoryLine | app/models/task_priority.py:43-44 | A non-default category gets a line; OTHER adds nothing, exactly as no category. |
| TaskPriority.DefaultsMatchTaskConnector | app/models/task_priority.py:38-50 | With default priority and category, the notes match what the task connector builds from the same notes and location. |
| TaskPriority.AllFourLines | app/models/task_priority.py:38-50 | An urgent shopping task with notes and a place gets all four lines, in order. |
| RecurringEvents.Padded | app/connectors/recurring_events.py:31 | The padded number is all digits and at least the given width. |
| RecurringEvents.UntilStamp | app/connectors/recurring_events.py:31 | The UNTIL stamp is at least 16 characters long and ends in `Z`. |
| RecurringEvents.RecurOf | app/connectors/recurring_events.py:23-31 | The rule has three parts:<br>1. the frequency is upper-cased;<br>2. INTERVAL appears exactly when the interval exceeds 1;<br>3. COUNT appears exactly for a non-zero count, and otherwise UNTIL appears exactly when one is given, so the two never both appear. |
| RecurringEvents.CreateRecurrenceRule | app/connectors/recurring_events.py:12-33 | The `+=` steps produce the one-line list holding that rule's text. |
| RecurringEvents.PlainRule | app/connectors/recurring_events.py:23-26 | No interval and no end give `RRULE:FREQ=` and the frequency. |
| RecurringEvents.CountBeatsUntil | app/connectors/recurring_events.py:28-31 | A non-zero count makes `until` irrelevant. |
| RecurringEvents.EnhanceEventForRecurrence | app/connectors/recurring_events.py:36-43 | A known pattern in any letter case sets `recurrence` to its ten-occurrence rule, and changes no other key. Any other pattern leaves the body as it is. |
| RecurringEvents.UpperPattern | app/connectors/recurring_events.py:39-42 | Each known pattern upper-cases to its RFC 5545 frequency. |
| RecurringEvents.EnhancedFrequencyIsStandard | app/connectors/recurring_events.py:39-42 | The frequency stored for a known pattern is one that RFC 5545 defines. |
| MediaFetch.GuessExt | app/connectors/media_fetch.py:14-21 | The result is a known extension or the fallback, and a missing or empty type gives the fallback. |
| MediaFetch.Chain | app/connectors/media_fetch.py:16-21 | Each test yields a known extension, and when none hits the fallback is returned. |
| MediaFetch.FirstMatch | app/connectors/media_fetch.py:16-21 | A rule list yields the fallback or the extension of a rule that one of its keywords hits. |
| MediaFetch.GuessIsFirstMatch | app/connectors/media_fetch.py:15-21 | The guess is the first rule, in source order, whose keyword occurs in the lower-cased type. |
| MediaFetch.RedundantKeywords | app/connectors/media_fetch.py:18-20 | `3gpp` and `application/ogg` are subsumed by `3gp` and `ogg`. |
| MediaFetch.GuessIgnoresCase | app/connectors/media_fetch.py:15 | Upper- or lower-casing the type does not change the guess. |
| MediaFetch.FetchFilename | app/connectors/media_fetch.py:23-29 | The file name is `note` followed by a known extension, and `.ogg` when the type is empty. |
| PerformanceMonitor.Bounded | app/utils/performance_monitor.py:14-21 | The buffer keeps the newest `max_samples` durations, in order, ending with the new one. |
| PerformanceMonitor.BoundedKeepsNewest | app/utils/performance_monitor.py:14-21 | The buffer grows while there is room; once it is full the oldest sample falls out. |
| PerformanceMonitor.Replay | app/utils/performance_monitor.py:19-24 | After any calls the buffer respects its bound. |
| PerformanceMonitor.ReplayKeepsAllWhenRoom | app/utils/performance_monitor.py:14-24 | Calls that fit are all kept, in order. |
| PerformanceMonitor.MinOf | app/utils/performance_monitor.py:38 | The minimum is a sample and no sample is below it. |
| PerformanceMonitor.MaxOf | app/utils/performance_monitor.py:39 | The maximum is a sample and no sample is above it. |
| PerformanceMonitor.Mean | app/utils/performance_monitor.py:37 | The average lies between the minimum and the maximum. |
| PerformanceMonitor.PerformanceMonitor.constructor | app/utils/performance_monitor.py:13-17 | A new monitor has no samples and no counts. |
| PerformanceMonitor.PerformanceMonitor.RecordCall | app/utils/performance_monitor.py:19-24 | One call adds its duration to the bounded buffer and adds 1 to the count. It adds 1 to the errors only on failure, which keeps errors at most calls. |
| PerformanceMonitor.PerformanceMonitor.StatsOf | app/utils/performance_monitor.py:28-41 | No data exactly when no sample is kept. Otherwise the count and errors are the counters, and min/max are samples that bound every sample and the average. |
| PerformanceMonitor.PerformanceMonitor.StatsAreConsistent | app/utils/performance_monitor.py:33-41 | With data there is at least one call, errors are at most calls, and the error rate lies in [0, 1]. |
| PerformanceMonitor.PerformanceMonitor.StatsOfOne | app/utils/performance_monitor.py:28-41 | One operation's statistics. The reads insert an empty buffer, and a zero error count when there are samples; no value changes. |
| PerformanceMonitor.PerformanceMonitor.GetStats | app/utils/performance_monitor.py:26-46 | A non-empty name gives that operation's statistics, with the insertions of `StatsOfOne`. `None` or `""` gives every counted operation's statistics and inserts their default entries. When `""` itself was counted, it ends in `RecursionError`. Call counts are unchanged, and no sample or error count changes value. |
| PerformanceMonitor.PerformanceMonitor.StatsOfAll | app/utils/performance_monitor.py:43-46 | One entry per counted operation, equal to its statistics, with the default entries inserted. `RecursionError` exactly when `""` was counted. |
| PerformanceMonitor.PerformanceMonitor.Visit | app/utils/performance_monitor.py:43-46 | The visits stop exactly when `""` is counted. Every visited operation is counted, all of them are visited otherwise, and each entry is that operation's statistics. |
| PerformanceMonitor.PerformanceMonitor.Monitor | app/utils/performance_monitor.py:48-67 | The wrapper returns or re-raises the call's outcome and records exactly one call. The call counts as failed exactly when it raised an `Exception`. A `BaseException` outside `Exception` counts as a success. It flags the call slow beyond 5 seconds. |
| ConfigValidator.Attr | app/utils/config_validator.py:20 | `GOOGLE_CREDENTIALS_PATH` is not a setting, and `GOOGLE_CREDENTIALS_FILE` is. |
| ConfigValidator.MissingVarsMembers | app/utils/config_validator.py:18-23 | A name is reported exactly when it is required and its setting is missing or empty. |
| ConfigValidator.MissingVarsAppend | app/utils/config_validator.py:18-23 | The report keeps the order of the required names. |
| ConfigValidator.ValidateRequiredEnvVars | app/utils/config_validator.py:9-23 | The loop returns the missing names. |
| ConfigValidator.FilePathIssues | app/utils/config_validator.py:26-34 | An undeclared key raises. Otherwise there is at most one issue, present exactly when the path is set and the file does not exist. |
| ConfigValidator.NumericIssuesIff | app/utils/config_validator.py:41-48 | Each of the TTL, RPM and TPM messages appears exactly when its setting is at most 0, and no other message appears. |
| ConfigValidator.DefaultsPass | app/config.py:44-47 | The default settings raise no numeric issue. |
| ConfigValidator.ValidateNumericSettings | app/utils/config_validator.py:37-50 | The appends return the numeric issues. |
| ConfigValidator.Configuration | app/utils/config_validator.py:53-69 | The report is its three lists, and it is valid exactly when all three are empty. |
| ConfigValidator.AsWrittenAlwaysRaises | app/utils/config_validator.py:30-31 | As written, the file check reads an undeclared setting, so the whole check always raises. |
| ConfigValidator.AsWrittenPathAlwaysMissing | app/utils/config_validator.py:11-21 | As written, the credentials path is always reported missing. |
| ConfigValidator.CorrectedValidIff | app/utils/config_validator.py:53-69 | With the declared key, the report is valid exactly when every required setting is set, the credentials file exists, and the three numbers are positive. |
| ConfigValidator.ValidateConfiguration | app/utils/config_validator.py:53-83 | The method returns that report. |
| IntentBasic.Decoded | app/connectors/openai_intent.py:53-56 | A missing reply raises. The empty reply always fails to decode. |
| IntentBasic.IntentName | app/connectors/openai_intent.py:59-61 | A missing intent and `GENERAL_QA` become `QUESTION`. Any other intent passes through unchanged. |
| IntentBasic.Base | app/connectors/openai_intent.py:63-69 | The envelope starts without payloads and never with `GENERAL_QA`. A non-string answer is invalid, and `{}` gives a `QUESTION` with answer "". |
| IntentBasic.Payload | app/connectors/openai_intent.py:71-85 | A payload is attached exactly when its key is truthy and valid, and it is attached unchanged. |
| IntentBasic.Route | app/connectors/openai_intent.py:43-87 | A failed call or a missing reply raises. A result is never `GENERAL_QA` and never carries a task, task update or list query. |
| IntentBasic.UndecodableEchoed | app/connectors/openai_intent.py:53-56 | An undecodable reply is a `QUESTION` whose answer is the reply itself, or `OK` for the empty one. |
| IntentBasic.PayloadsIgnoreIntent | app/connectors/openai_intent.py:71-85 | The event, update and task-op each appear exactly when present, truthy and valid, whatever the intent. |
| IntentBasic.ValidatorsNeverRaise | app/connectors/openai_intent.py:71-85 | Invalid payloads are swallowed. Whether parsing raises depends only on the envelope fields. |
| IntentBasic.StringTaskOpDropped | app/connectors/openai_intent.py:81-85 | A string `task_op` is dropped. |
| IntentEnhanced.Fallback | app/connectors/openai_intent_enhanced.py:63 | A fallback is a `GENERAL_QA` carrying the given answer. |
| IntentEnhanced.Decoded | app/connectors/openai_intent_enhanced.py:101-105 | An empty or missing reply decodes as `{}`; anything else goes to the decoder. |
| IntentEnhanced.Base | app/connectors/openai_intent_enhanced.py:107-113 | The envelope takes the intent, confidence and answer and no payload. Its defaults are `GENERAL_QA`, 0.8 and "", and a non-string answer is invalid. |
| IntentEnhanced.AttachTaskOp | app/connectors/openai_intent_enhanced.py:141-147 | The task-op step keeps the intent and answer. A non-string, invalid `task_op` raises. |
| IntentEnhanced.Route | app/connectors/openai_intent_enhanced.py:83-161 | A failed call gives the "trouble" fallback. An undecodable reply gives the "rephrase" fallback, and a non-object raises. |
| IntentEnhanced.EmptyReplyIsGeneralQa | app/connectors/openai_intent_enhanced.py:101-113 | An empty reply is `GENERAL_QA` with confidence 0.8 and answer "". |
| IntentEnhanced.PayloadMatchesIntent | app/connectors/openai_intent_enhanced.py:115-159 | Each payload appears only under its own intent and only when valid. An invalid list query becomes scope `day`. |
| IntentEnhanced.InvalidPayloadFallsBack | app/connectors/openai_intent_enhanced.py:115-132 | An invalid event or update turns the result into `GENERAL_QA` with the clarification answer. For an update, that means a non-dictionary value, or `criteria` or `changes` that is no dictionary or is rejected. An event or update intent without its key keeps the envelope unchanged. |
| IntentEnhanced.TaskOpHandling | app/connectors/openai_intent_enhanced.py:141-159 | A string `task_op` is kept verbatim. A non-string, invalid one raises, and invalid `task`/`task_update` payloads are only dropped. |
| IntentEnhanced.Parse | app/connectors/openai_intent_enhanced.py:59-63 | The gate runs first. A denied request gives the "too many requests" fallback without using the reply, raising only where the wait cannot be computed. An allowed one is routed. |

## Left out

- The conversation dispatcher and its state machine are not part of this model. app/main.py only wires up the connectors.
- OAuth, HTTP and the SDK calls are parameters or results: the language model, Google's services, Twilio's media download and Whisper.
- The download in `fetch` is left out; only the file name is modelled.
- Date libraries are replaced by parameters:
  - dateparser;
  - `datetime.fromisoformat`;
  - `strftime`;
  - `ZoneInfo` and the UTC conversion in `_to_rfc3339_due` and `_matches_criteria`;
  - `_parse_event_time`, `_format_event_time` and `_format_task_due` in enhanced_nlp.py.
- The year-bump loop of app/utils/time_utils.py:19-23 is left out, because it depends on dateparser's result and the clock.
- Locks and concurrency are left out: the lock in the rate limiter, the shared stores, and the background scheduler.
- `Lower`, `Upper` and `\d` cover ASCII only; Unicode case mapping and Unicode digits are not modelled.
- Pydantic is modelled loosely. The validity of a sub-model (`EventCreate`, `EventUpdate`, `TaskItem`, `TaskUpdate`, `TaskOp`, `EventListQuery`) is a validator handed in. Lax float and boolean coercion of the envelope fields is a predicate, and only the integer and string coercions of `EventCreate` are written out.
- Durations, the average time and the error rate are real numbers, not IEEE floats. `duration_hours` of `find_free_slots` is a whole number of hours.
- PerformanceMonitor.PerformanceMonitor.constructor: a negative `max_samples`, which makes `deque` raise, is excluded by the `nat` type.
- PerformanceMonitor.PerformanceMonitor.Monitor: the text of the slow-call warning is not modelled; only the slow flag is. The decorator on the enhanced router's `parse` is not composed with IntentEnhanced.Parse.
- The log messages of `validate_configuration` and of the routers are left out.
- EnhancedNlp.SortByStart: the sort is stated as ordered and a permutation. Python's stability beyond that is not stated.
- EnhancedNlp.FreeSlotsSound: only soundness is stated, not that every long enough gap is reported.
- GoogleTasks.ToDue: the `int()` errors for a malformed date or time are not modelled, and a due value is shown as its local date and time rather than as an RFC 3339 UTC string.
- GoogleTasks.Update: the service's responses are not modelled. Each patch is the pair of a task id and its body.
- GoogleCalendar.EventTimes: the start is resolved from the corrected phrase of the first finding below. As written, a date with no time of day reaches dateparser followed by the word `None`, and what dateparser makes of that is not modelled.
- GoogleCalendar.CreateBody: built on EventTimes, so it follows the corrected phrase in the same way.
- GoogleTasks.FindList: the pages are the service's answers in order. When they run out before a page without a next-page token, the lookup ends there; a service that never stops sending tokens, which makes the code loop forever, is not modelled.
- GoogleTasks.Complete: the patch body `{"status": "completed", "completed": <UTC time>}` is not modelled, because its time stamp comes from the clock. Each patch is the id of the task patched.
- Models.OptInt: digit strings with a sign or surrounding whitespace, and booleans, which pydantic's lax integer mode may also accept, are rejected here.
- EnhancedNlp.FindFreeSlots: the per-slot `suggestion` text is not modelled, because it is made with `strftime`.
- EnhancedNlp.GenerateSummary: the caller always passes the period name; the default "this period" is not modelled.
- GoogleCalendar.TimedEventKeepsStart: the new start is the old one resolved again, not the old one kept. A start in the past is moved ahead by the year-bump loop, which is not modelled. A `dateTime` whose offset is not the calendar's time zone is read back as wall-clock time in that zone, which shifts it. Seconds are dropped. ApplyUpdate follows the same path.
- GoogleCalendar.ApplyUpdate: a `KeyError` for an event without `start` or `id` is not modelled.
- Models.NormalizeAliases: the dictionary is updated as a value and returned, so aliasing of the caller's dictionary is not captured. RecurringEvents.EnhanceEventForRecurrence is modelled the same way.
- RecurringEvents.UntilStamp: years below 1000 are padded to four digits, as `strftime` does on common platforms; other platform behaviour is not modelled.
- IntentEnhanced.Route: the branch-by-branch assignments to `result` are record updates, so the identity of the result object is not captured.
- The test files that expect behaviour the code does not have are not followed:
  - "next week" as today + 7;
  - the `{"operation", "description"}` task-op format.

  The model follows the code.

## Findings

| source | as written | input that shows it | evidently intended | confidence | as-written member | corrected member |
|---|---|---|---|---|---|---|
| app/utils/config_validator.py:15-31 | The checks name `GOOGLE_CREDENTIALS_PATH`, which app/config.py:21 does not declare; `getattr` finds nothing and the direct attribute read raises `AttributeError`. | Any settings object: the name is always reported missing, and `validate_configuration` always raises. | The declared `GOOGLE_CREDENTIALS_FILE`, giving a report that is valid exactly when the settings are complete and the file exists. | not executed | ConfigValidator.AsWrittenAlwaysRaises | ConfigValidator.CorrectedValidIff |
| app/utils/time_utils.py:11 | The phrase is `f"{start_date} {start_time}"` even when `start_time` is `None`. | `start_date = "2025-03-01"` with no time gives the phrase `"2025-03-01 None"`. | The date alone when no time of day is given. | not executed | GoogleCalendar.MissingTimeBecomesWordNone | GoogleCalendar.EventPhrase |
