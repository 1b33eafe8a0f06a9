/**
 * The task record with priority and category (app/models/task_priority.py)
 * and the body it converts to for Google Tasks, whose notes collect the
 * original notes, any non-default priority and category, and the location.
 */
module TaskPriority {
  import opened Common
  import GoogleTasks

  datatype Priority = Low | Medium | High | Urgent
  datatype Category = Work | Personal | Shopping | Health | Finance | Other

  /** `priority.value.title()` */
  function PriorityLabel(p: Priority): string
  {
    match p
    case Low => "Low"
    case Medium => "Medium"
    case High => "High"
    case Urgent => "Urgent"
  }

  /** `category.value.title()` */
  function CategoryLabel(c: Category): string
  {
    match c
    case Work => "Work"
    case Personal => "Personal"
    case Shopping => "Shopping"
    case Health => "Health"
    case Finance => "Finance"
    case Other => "Other"
  }

  /** `EnhancedTaskItem`; priority and category default to `MEDIUM` and `OTHER` but may be `None`. */
  datatype EnhancedTaskItem = EnhancedTaskItem(
    title: string,
    date: Option<string>,
    time: Option<string>,
    notes: Option<string>,
    location: Option<string>,
    priority: Option<Priority>,
    category: Option<Category>)

  function NewItem(title: string): (t: EnhancedTaskItem)
    ensures t.priority == Some(Medium) && t.category == Some(Other)
    ensures t.notes.None? && t.location.None? && t.date.None? && t.time.None?
  {
    EnhancedTaskItem(title, None, None, None, None, Some(Medium), Some(Other))
  }

  /** The Google Tasks body: `notes` is `None` when there is nothing to put in it. */
  datatype TasksBody = TasksBody(title: string, notes: Option<string>, date: Option<string>, time: Option<string>)

  predicate ShowsPriority(t: EnhancedTaskItem)
  {
    t.priority.Some? && t.priority.value != Medium
  }

  predicate ShowsCategory(t: EnhancedTaskItem)
  {
    t.category.Some? && t.category.value != Other
  }

  /** The lines of the notes, in the order the source appends them. */
  function NoteLines(t: EnhancedTaskItem): (r: seq<string>)
    ensures |r| == (if NonEmpty(t.notes) then 1 else 0) + (if ShowsPriority(t) then 1 else 0)
                 + (if ShowsCategory(t) then 1 else 0) + (if NonEmpty(t.location) then 1 else 0)
    ensures NonEmpty(t.notes) ==> r[0] == t.notes.value
    ensures NonEmpty(t.location) ==> r[|r| - 1] == "Location: " + t.location.value
  {
    (if NonEmpty(t.notes) then [t.notes.value] else [])
    + (if ShowsPriority(t) then ["Priority: " + PriorityLabel(t.priority.value)] else [])
    + (if ShowsCategory(t) then ["Category: " + CategoryLabel(t.category.value)] else [])
    + (if NonEmpty(t.location) then ["Location: " + t.location.value] else [])
  }

  /** `"\n".join(notes_parts) if notes_parts else None` */
  function NotesOf(t: EnhancedTaskItem): Option<string>
  {
    var lines := NoteLines(t);
    if lines == [] then None else Some(Join(lines, "\n"))
  }

  /** `to_google_tasks_format`, with `notes_parts` built by conditional appends. */
  method ToGoogleTasksFormat(t: EnhancedTaskItem) returns (body: TasksBody)
    ensures body.title == t.title && body.date == t.date && body.time == t.time
    ensures body.notes == NotesOf(t)
  {
    var parts: seq<string> := [];
    if NonEmpty(t.notes) {
      parts := parts + [t.notes.value];
    }
    if t.priority.Some? && t.priority.value != Medium {
      parts := parts + ["Priority: " + PriorityLabel(t.priority.value)];
    }
    if t.category.Some? && t.category.value != Other {
      parts := parts + ["Category: " + CategoryLabel(t.category.value)];
    }
    if NonEmpty(t.location) {
      parts := parts + ["Location: " + t.location.value];
    }
    assert parts == NoteLines(t);
    var notes := if parts == [] then None else Some(Join(parts, "\n"));
    body := TasksBody(t.title, notes, t.date, t.time);
  }

  /** There are notes exactly when there is something to say. */
  lemma NotesPresentIff(t: EnhancedTaskItem)
    ensures NotesOf(t).None? <==> !NonEmpty(t.notes) && !ShowsPriority(t) && !ShowsCategory(t) && !NonEmpty(t.location)
  {
  }

  /** A non-default priority gets its own line; the default priority adds nothing, exactly as no priority. */
  lemma PriorityLine(t: EnhancedTaskItem, p: Priority)
    requires t.priority == Some(p)
    ensures p != Medium ==> "Priority: " + PriorityLabel(p) in NoteLines(t)
    ensures p == Medium ==> NoteLines(t) == NoteLines(t.(priority := None))
  {
    if p != Medium {
      var before := if NonEmpty(t.notes) then [t.notes.value] else [];
      assert NoteLines(t)[|before|] == "Priority: " + PriorityLabel(p);
    }
  }

  /** The same holds of categories: the default `OTHER` adds nothing. */
  lemma CategoryLine(t: EnhancedTaskItem, c: Category)
    requires t.category == Some(c)
    ensures c != Other ==> "Category: " + CategoryLabel(c) in NoteLines(t)
    ensures c == Other ==> NoteLines(t) == NoteLines(t.(category := None))
  {
    if c != Other {
      var before := (if NonEmpty(t.notes) then [t.notes.value] else [])
        + (if ShowsPriority(t) then ["Priority: " + PriorityLabel(t.priority.value)] else []);
      assert NoteLines(t)[|before|] == "Category: " + CategoryLabel(c);
    }
  }

  lemma JoinPair(a: string, b: string, sep: string)
    ensures Join([a, b], sep) == a + sep + b
  {
    assert [a, b][1..] == [b];
  }

  /**
   * With the default priority and category, the notes are the ones the task
   * connector's `_notes_with_location` builds from the same notes and location.
   */
  lemma DefaultsMatchTaskConnector(t: EnhancedTaskItem)
    requires !ShowsPriority(t) && !ShowsCategory(t)
    requires NonEmpty(t.notes) || NonEmpty(t.location)
    ensures NotesOf(t) == GoogleTasks.NotesWithLocation(t.notes, t.location)
  {
    if NonEmpty(t.notes) && NonEmpty(t.location) {
      JoinPair(t.notes.value, "Location: " + t.location.value, "\n");
      assert t.notes.value + "\n" + ("Location: " + t.location.value) == t.notes.value + "\nLocation: " + t.location.value;
    }
  }

  /** An urgent shopping task with notes and a place gets all four lines, in order. */
  lemma AllFourLines(title: string, notes: string, place: string)
    requires notes != "" && place != ""
    ensures NotesOf(EnhancedTaskItem(title, None, None, Some(notes), Some(place), Some(Urgent), Some(Shopping)))
      == Some(notes + "\n" + "Priority: Urgent" + "\n" + "Category: Shopping" + "\n" + "Location: " + place)
  {
    var t := EnhancedTaskItem(title, None, None, Some(notes), Some(place), Some(Urgent), Some(Shopping));
    var lines := [notes, "Priority: Urgent", "Category: Shopping", "Location: " + place];
    assert "Priority: " + PriorityLabel(Urgent) == "Priority: Urgent";
    assert "Category: " + CategoryLabel(Shopping) == "Category: Shopping";
    assert NoteLines(t) == [notes] + ["Priority: Urgent"] + ["Category: Shopping"] + ["Location: " + place];
    assert NoteLines(t) == lines;
    var j3 := "Location: " + place;
    assert lines[1..][1..][1..] == [j3];
    var j2 := "Category: Shopping" + "\n" + j3;
    assert Join(lines[1..][1..], "\n") == j2;
    var j1 := "Priority: Urgent" + "\n" + j2;
    assert Join(lines[1..], "\n") == j1;
    assert Join(lines, "\n") == notes + "\n" + j1;
    assert notes + "\n" + j1 == notes + "\n" + "Priority: Urgent" + "\n" + "Category: Shopping" + "\n" + "Location: " + place;
    assert NotesOf(t) == Some(Join(lines, "\n"));
  }
}
