/**
 * The Google Tasks connector (app/connectors/google_tasks.py): local matching of
 * tasks against criteria, the notes/location merge, the shape of the `due`
 * value, and the paging, update, complete and delete loops.
 *
 * The Tasks service is replaced by the pages it would return for the resolved
 * task list, in request order; the patch, delete and insert calls the connector
 * makes are returned as values. Converting a local date and time to an RFC 3339
 * UTC string is not modelled: `due` values are shown as the local date and time
 * they are built from, and a task carries the local date of its `due` as the
 * caller computed it (`None` when it does not parse).
 */
module GoogleTasks {
  import opened Common

  /** A task as the service returns it. */
  datatype GTask = GTask(
    id: string,
    title: Option<string>,
    notes: Option<string>,
    status: Option<string>,
    due: Option<string>,
    dueLocalDate: Option<string>)

  /** `criteria` (a missing dictionary is the empty one). */
  datatype Criteria = Criteria(titleHint: Option<string>, dateHint: Option<string>, includeCompleted: bool)

  const NoCriteria := Criteria(None, None, false)

  // ---------------------------------------------------------------------
  // Helpers
  // ---------------------------------------------------------------------

  /** The local date and time a `due` value is built from. */
  datatype LocalDue = LocalDue(date: string, time: string)

  /** `_to_rfc3339_due(date, time)` before the conversion to UTC; `today` is the local date now. */
  function ToDue(date: Option<string>, time: Option<string>, today: string): (r: Option<LocalDue>)
    ensures r.None? <==> !NonEmpty(date) && !NonEmpty(time)
    ensures r.Some? ==> r.value.date == (if NonEmpty(date) then date.value else today)
    ensures r.Some? ==> r.value.time == (if NonEmpty(time) then time.value else "23:59")
  {
    if !NonEmpty(date) && !NonEmpty(time) then None
    else
      var d := if NonEmpty(date) then date.value else today;
      if NonEmpty(time) then Some(LocalDue(d, time.value)) else Some(LocalDue(d, "23:59"))
  }

  /** `_notes_with_location(notes, location)` */
  function NotesWithLocation(notes: Option<string>, location: Option<string>): (r: Option<string>)
    ensures NonEmpty(location) && NonEmpty(notes) ==> r == Some(notes.value + "\nLocation: " + location.value)
    ensures NonEmpty(location) && !NonEmpty(notes) ==> r == Some("Location: " + location.value)
    ensures !NonEmpty(location) ==> r == notes
  {
    if NonEmpty(location) && NonEmpty(notes) then Some(notes.value + "\nLocation: " + location.value)
    else if NonEmpty(location) then Some("Location: " + location.value)
    else notes
  }

  /** The merged notes keep the original notes in front and end with the location line. */
  lemma NotesKeepBoth(notes: Option<string>, location: Option<string>)
    requires NonEmpty(location)
    ensures var r := NotesWithLocation(notes, location);
      r.Some? && EndsWith(r.value, "Location: " + location.value)
      && (NonEmpty(notes) ==> StartsWith(r.value, notes.value + "\n"))
  {
    var r := NotesWithLocation(notes, location).value;
    var tail := "Location: " + location.value;
    if NonEmpty(notes) {
      assert r == (notes.value + "\n") + tail;
    }
    assert r[|r| - |tail|..] == tail;
  }

  /** `(task.get("status") or "").lower() == "completed"` */
  predicate IsCompleted(t: GTask)
  {
    Lower(OrEmpty(t.status)) == "completed"
  }

  /** `_matches_criteria(task, criteria)` */
  function MatchesCriteria(t: GTask, c: Criteria): (r: bool)
    ensures r <==>
      (IsCompleted(t) ==> c.includeCompleted)
      && (NonEmpty(c.titleHint) ==> Contains(Lower(OrEmpty(t.title)), Lower(c.titleHint.value)))
      && (NonEmpty(c.dateHint) ==> NonEmpty(t.due) && t.dueLocalDate == Some(c.dateHint.value))
  {
    if IsCompleted(t) && !c.includeCompleted then false
    else if NonEmpty(c.titleHint) && !Contains(Lower(OrEmpty(t.title)), Lower(c.titleHint.value)) then false
    else if NonEmpty(c.dateHint) then
      if NonEmpty(t.due) then
        if t.dueLocalDate.None? then false
        else t.dueLocalDate.value == c.dateHint.value
      else false
    else true
  }

  /** A title hint matches a title that contains it in any case. */
  lemma TitleHintAnyCase(t: GTask, hint: string, before: string, after: string)
    requires hint != [] && t.title == Some(before + hint + after)
    requires !IsCompleted(t)
    ensures MatchesCriteria(t, Criteria(Some(hint), None, false))
  {
    var title := before + hint + after;
    LowerAppend(before + hint, after);
    LowerAppend(before, hint);
    var lt := Lower(title);
    assert lt == Lower(before) + Lower(hint) + Lower(after);
    assert lt[|before|..|before| + |hint|] == Lower(hint);
    ContainsAt(lt, Lower(hint), |before|);
  }

  /** `[t for t in ts if _matches_criteria(t, c)]` */
  function Matching(ts: seq<GTask>, c: Criteria): (r: seq<GTask>)
    ensures |r| <= |ts|
  {
    if ts == [] then []
    else (if MatchesCriteria(ts[0], c) then [ts[0]] else []) + Matching(ts[1..], c)
  }

  /** A task is kept exactly when it is in the input and matches. */
  lemma {:induction false} MatchingMembers(ts: seq<GTask>, c: Criteria, t: GTask)
    ensures t in Matching(ts, c) <==> t in ts && MatchesCriteria(t, c)
    decreases |ts|
  {
    if ts != [] {
      MatchingMembers(ts[1..], c, t);
      assert ts == [ts[0]] + ts[1..];
    }
  }

  lemma {:induction false} MatchingAppend(a: seq<GTask>, b: seq<GTask>, c: Criteria)
    ensures Matching(a + b, c) == Matching(a, c) + Matching(b, c)
    decreases |a|
  {
    if a == [] {
      assert a + b == b;
    } else {
      var ab := a + b;
      assert ab[0] == a[0] && ab[1..] == a[1..] + b;
      MatchingAppend(a[1..], b, c);
      var head := if MatchesCriteria(a[0], c) then [a[0]] else [];
      assert Matching(ab, c) == head + Matching(a[1..] + b, c);
      assert Matching(a, c) == head + Matching(a[1..], c);
    }
  }

  lemma MatchingSnoc(ts: seq<GTask>, t: GTask, c: Criteria)
    ensures Matching(ts + [t], c) == Matching(ts, c) + (if MatchesCriteria(t, c) then [t] else [])
  {
    MatchingAppend(ts, [t], c);
    assert Matching([t], c) == (if MatchesCriteria(t, c) then [t] else []) + Matching([t][1..], c);
    assert [t][1..] == [];
  }

  /** Without `include_completed`, no completed task is ever listed. */
  lemma CompletedHidden(ts: seq<GTask>, c: Criteria, t: GTask)
    requires !c.includeCompleted && t in Matching(ts, c)
    ensures !IsCompleted(t)
  {
    MatchingMembers(ts, c, t);
  }

  /** With a date hint, only tasks whose due falls on that local date are listed. */
  lemma DateHintFilters(ts: seq<GTask>, c: Criteria, t: GTask)
    requires NonEmpty(c.dateHint) && t in Matching(ts, c)
    ensures NonEmpty(t.due) && t.dueLocalDate == c.dateHint
  {
    MatchingMembers(ts, c, t);
  }

  // ---------------------------------------------------------------------
  // list
  // ---------------------------------------------------------------------

  /** One response of `tasks().list(...)`. */
  datatype Page = Page(items: seq<GTask>, nextPageToken: Option<string>)

  predicate HasLastPage(pages: seq<Page>)
  {
    exists k :: 0 <= k < |pages| && !NonEmpty(pages[k].nextPageToken)
  }

  /** The index of the first page without a next-page token: the last one `list` fetches. */
  function LastFetched(pages: seq<Page>): (k: nat)
    requires HasLastPage(pages)
    ensures k < |pages| && !NonEmpty(pages[k].nextPageToken)
    ensures forall j :: 0 <= j < k ==> NonEmpty(pages[j].nextPageToken)
  {
    if !NonEmpty(pages[0].nextPageToken) then 0
    else
      assert HasLastPage(pages[1..]) by {
        var k :| 0 <= k < |pages| && !NonEmpty(pages[k].nextPageToken);
        assert pages[1..][k - 1] == pages[k];
      }
      1 + LastFetched(pages[1..])
  }

  function Flatten(pages: seq<Page>): seq<GTask>
  {
    if pages == [] then [] else Flatten(pages[..|pages| - 1]) + pages[|pages| - 1].items
  }

  /** What `list(criteria)` returns when the service answers with `pages`. */
  function Listed(pages: seq<Page>, c: Criteria): seq<GTask>
    requires HasLastPage(pages)
  {
    Matching(Flatten(pages[..LastFetched(pages) + 1]), c)
  }

  /**
   * `list(criteria)`: fetch pages until one has no next-page token, keeping the
   * matching tasks in page order. The service must eventually answer a page
   * without a token; otherwise the loop never ends.
   */
  method List(pages: seq<Page>, c: Criteria) returns (items: seq<GTask>, fetched: nat)
    requires HasLastPage(pages)
    ensures fetched == LastFetched(pages) + 1
    ensures items == Listed(pages, c)
  {
    items := [];
    var k := 0;
    while true
      invariant 0 <= k <= LastFetched(pages)
      invariant items == Matching(Flatten(pages[..k]), c)
      decreases LastFetched(pages) - k
    {
      var resp := pages[k];
      assert pages[..k + 1][..k] == pages[..k];
      MatchingAppend(Flatten(pages[..k]), resp.items, c);
      items := ScanPage(items, resp.items, c);
      if !NonEmpty(resp.nextPageToken) {
        fetched := k + 1;
        return;
      }
      k := k + 1;
    }
  }

  /** The `for t in resp.get("items", [])` loop of `list`. */
  method ScanPage(items0: seq<GTask>, page: seq<GTask>, c: Criteria) returns (items: seq<GTask>)
    ensures items == items0 + Matching(page, c)
  {
    items := items0;
    var j := 0;
    while j < |page|
      invariant 0 <= j <= |page|
      invariant items == items0 + Matching(page[..j], c)
    {
      var t := page[j];
      assert page[..j + 1] == page[..j] + [t];
      MatchingSnoc(page[..j], t, c);
      if MatchesCriteria(t, c) {
        items := items + [t];
      }
      j := j + 1;
    }
    assert page[..j] == page;
  }

  /** Every listed task matches, and every matching task of a fetched page is listed. */
  lemma ListedExactly(pages: seq<Page>, c: Criteria, t: GTask)
    requires HasLastPage(pages)
    ensures t in Listed(pages, c) <==>
      MatchesCriteria(t, c) && exists k :: 0 <= k <= LastFetched(pages) && t in pages[k].items
  {
    FlattenMembers(pages[..LastFetched(pages) + 1], t);
    MatchingMembers(Flatten(pages[..LastFetched(pages) + 1]), c, t);
    var n := LastFetched(pages) + 1;
    assert forall k :: 0 <= k < n ==> pages[..n][k] == pages[k];
  }

  lemma {:induction false} FlattenMembers(pages: seq<Page>, t: GTask)
    ensures t in Flatten(pages) <==> exists k :: 0 <= k < |pages| && t in pages[k].items
    decreases |pages|
  {
    if pages != [] {
      var init := pages[..|pages| - 1];
      FlattenMembers(init, t);
      assert forall k :: 0 <= k < |init| ==> init[k] == pages[k];
    }
  }

  // ---------------------------------------------------------------------
  // create, update, complete, delete
  // ---------------------------------------------------------------------

  /** A task body; `due` is `None` when the key is absent. */
  datatype Body = Body(title: Option<string>, notes: Option<string>, status: Option<string>, due: Option<LocalDue>)

  /** The item handed to `create`. */
  datatype Item = Item(title: string, date: Option<string>, time: Option<string>, notes: Option<string>, location: Option<string>)

  /** The body `create(item)` inserts. */
  function CreateBody(item: Item, today: string): (b: Body)
    ensures b.title == Some(item.title) && b.status == Some("needsAction")
    ensures b.notes == NotesWithLocation(item.notes, item.location)
    ensures b.due.Some? <==> NonEmpty(item.date) || NonEmpty(item.time)
    ensures b.due == ToDue(item.date, item.time, today)
  {
    Body(Some(item.title), NotesWithLocation(item.notes, item.location), Some("needsAction"), ToDue(item.date, item.time, today))
  }

  /** `changes` of `update`; `newNotes` is `None` when the key is absent and `Some(v)` when present, even with a null `v`. */
  datatype Changes = Changes(newTitle: Option<string>, newNotes: Option<Option<string>>, newDate: Option<string>, newTime: Option<string>)

  /** The patch body `update` sends for task `t`. */
  function PatchFor(t: GTask, ch: Changes, today: string): (b: Body)
    ensures b.title == if NonEmpty(ch.newTitle) then ch.newTitle else t.title
    ensures b.notes == if ch.newNotes.Some? then ch.newNotes.value else t.notes
    ensures b.status == t.status
    ensures b.due.Some? <==> NonEmpty(ch.newDate) || NonEmpty(ch.newTime)
    ensures b.due.Some? ==> b.due == ToDue(ch.newDate, ch.newTime, today)
  {
    var title := if NonEmpty(ch.newTitle) then ch.newTitle else t.title;
    var notes := if ch.newNotes.Some? then ch.newNotes.value else t.notes;
    var due := if NonEmpty(ch.newDate) || NonEmpty(ch.newTime) then ToDue(ch.newDate, ch.newTime, today) else None;
    Body(title, notes, t.status, due)
  }

  function Patches(ts: seq<GTask>, ch: Changes, today: string): (r: seq<(string, Body)>)
    ensures |r| == |ts|
    ensures forall i :: 0 <= i < |ts| ==> r[i] == (ts[i].id, PatchFor(ts[i], ch, today))
  {
    if ts == [] then [] else [(ts[0].id, PatchFor(ts[0], ch, today))] + Patches(ts[1..], ch, today)
  }

  /** `update(criteria, changes)`: one patch per listed task, in order. */
  method Update(pages: seq<Page>, c: Criteria, ch: Changes, today: string) returns (patched: seq<(string, Body)>)
    requires HasLastPage(pages)
    ensures patched == Patches(Listed(pages, c), ch, today)
  {
    var tasks, _ := List(pages, c);
    patched := [];
    var i := 0;
    while i < |tasks|
      invariant 0 <= i <= |tasks|
      invariant patched == Patches(tasks[..i], ch, today)
    {
      var body := PatchFor(tasks[i], ch, today);
      patched := patched + [(tasks[i].id, body)];
      i := i + 1;
      assert Patches(tasks[..i], ch, today) == Patches(tasks[..i - 1], ch, today) + [(tasks[i - 1].id, body)];
    }
    assert tasks[..i] == tasks;
  }

  function Ids(ts: seq<GTask>): (r: seq<string>)
    ensures |r| == |ts| && forall i :: 0 <= i < |ts| ==> r[i] == ts[i].id
  {
    if ts == [] then [] else [ts[0].id] + Ids(ts[1..])
  }

  lemma {:induction false} IdsAppend(a: seq<GTask>, b: seq<GTask>)
    ensures Ids(a + b) == Ids(a) + Ids(b)
    decreases |a|
  {
    if a == [] {
      assert a + b == b;
    } else {
      assert (a + b)[1..] == a[1..] + b;
      IdsAppend(a[1..], b);
    }
  }

  /** The listed tasks that `complete` patches: those not already completed. */
  function NotCompleted(ts: seq<GTask>): (r: seq<GTask>)
    ensures |r| <= |ts|
  {
    if ts == [] then []
    else (if IsCompleted(ts[0]) then [] else [ts[0]]) + NotCompleted(ts[1..])
  }

  lemma {:induction false} NotCompletedSnoc(ts: seq<GTask>, t: GTask)
    ensures NotCompleted(ts + [t]) == NotCompleted(ts) + (if IsCompleted(t) then [] else [t])
    decreases |ts|
  {
    if ts == [] {
      assert [] + [t] == [t];
    } else {
      assert (ts + [t])[1..] == ts[1..] + [t];
      NotCompletedSnoc(ts[1..], t);
    }
  }

  /**
   * `complete(criteria)`: patches every listed task that is not completed yet
   * to completed and counts them. Returns the count and the patched ids.
   */
  method Complete(pages: seq<Page>, c: Criteria) returns (count: nat, ids: seq<string>)
    requires HasLastPage(pages)
    ensures ids == Ids(NotCompleted(Listed(pages, c)))
    ensures count == |ids| <= |Listed(pages, c)|
  {
    var tasks, _ := List(pages, c);
    count, ids := CompleteListed(tasks);
  }

  /** The `for t in tasks` loop of `complete`. */
  method CompleteListed(tasks: seq<GTask>) returns (count: nat, ids: seq<string>)
    ensures ids == Ids(NotCompleted(tasks)) && count == |ids|
  {
    count := 0;
    ids := [];
    var i := 0;
    while i < |tasks|
      invariant 0 <= i <= |tasks|
      invariant ids == Ids(NotCompleted(tasks[..i])) && count == |ids|
    {
      var t := tasks[i];
      assert tasks[..i + 1] == tasks[..i] + [t];
      NotCompletedSnoc(tasks[..i], t);
      IdsAppend(NotCompleted(tasks[..i]), if IsCompleted(t) then [] else [t]);
      if Lower(OrEmpty(t.status)) != "completed" {
        ids := ids + [t.id];
        count := count + 1;
      }
      i := i + 1;
    }
    assert tasks[..i] == tasks;
  }

  /** `delete(criteria)`: deletes every listed task and returns how many. */
  method Delete(pages: seq<Page>, c: Criteria) returns (count: nat, ids: seq<string>)
    requires HasLastPage(pages)
    ensures ids == Ids(Listed(pages, c))
    ensures count == |Listed(pages, c)|
  {
    var tasks, _ := List(pages, c);
    count, ids := DeleteListed(tasks);
  }

  /** The `for t in tasks` loop of `delete`. */
  method DeleteListed(tasks: seq<GTask>) returns (count: nat, ids: seq<string>)
    ensures ids == Ids(tasks) && count == |tasks|
  {
    count := 0;
    ids := [];
    var i := 0;
    while i < |tasks|
      invariant 0 <= i <= |tasks|
      invariant ids == Ids(tasks[..i]) && count == i
    {
      assert tasks[..i + 1] == tasks[..i] + [tasks[i]];
      IdsAppend(tasks[..i], [tasks[i]]);
      ids := ids + [tasks[i].id];
      count := count + 1;
      i := i + 1;
    }
    assert tasks[..i] == tasks;
  }

  /** Completing tasks that are all already completed patches nothing. */
  lemma {:induction false} CompleteIdempotent(ts: seq<GTask>)
    requires forall t :: t in ts ==> IsCompleted(t)
    ensures NotCompleted(ts) == []
  {
    if ts != [] {
      assert ts[0] in ts;
      assert forall t :: t in ts[1..] ==> t in ts;
      CompleteIdempotent(ts[1..]);
    }
  }

  // ---------------------------------------------------------------------
  // _get_tasklist_id
  // ---------------------------------------------------------------------

  datatype TaskList = TaskList(id: string, title: Option<string>)

  datatype ListsPage = ListsPage(items: seq<TaskList>, nextPageToken: Option<string>)

  /**
   * The lists on the pages the lookup reads, in order: pages are fetched until
   * one has no next-page token. A sequence that runs out before such a page
   * ends the lookup there.
   */
  function FetchedLists(pages: seq<ListsPage>): seq<TaskList>
    decreases |pages|
  {
    if pages == [] then []
    else pages[0].items + (if NonEmpty(pages[0].nextPageToken) then FetchedLists(pages[1..]) else [])
  }

  /** The first list titled `name` on the pages the lookup fetches, if any. */
  function FindList(pages: seq<ListsPage>, name: string): (r: Option<string>)
    ensures r == FindInPage(FetchedLists(pages), name)
    decreases |pages|
  {
    if pages == [] then None
    else
      var here := FindInPage(pages[0].items, name);
      if here.Some? then
        FindInConcat(pages[0].items, FetchedLists(pages[1..]), name);
        FindInConcat(pages[0].items, [], name);
        here
      else if !NonEmpty(pages[0].nextPageToken) then
        FindInConcat(pages[0].items, [], name);
        None
      else
        FindInConcat(pages[0].items, FetchedLists(pages[1..]), name);
        FindList(pages[1..], name)
  }

  /**
   * The id of the first list titled `name`: when there is one, it is the id of
   * a list with that title before which no list has it; otherwise no list has it.
   */
  function FindInPage(items: seq<TaskList>, name: string): (r: Option<string>)
    ensures r.Some? ==> exists j :: 0 <= j < |items| && items[j].title == Some(name) && items[j].id == r.value
                                   && forall i :: 0 <= i < j ==> items[i].title != Some(name)
    ensures r.None? <==> forall j :: 0 <= j < |items| ==> items[j].title != Some(name)
  {
    if items == [] then None
    else if items[0].title == Some(name) then Some(items[0].id)
    else
      var r := FindInPage(items[1..], name);
      assert forall j :: 1 <= j < |items| ==> items[j] == items[1..][j - 1];
      if r.Some? then
        var j :| 0 <= j < |items[1..]| && items[1..][j].title == Some(name) && items[1..][j].id == r.value
                 && forall i :: 0 <= i < j ==> items[1..][i].title != Some(name);
        assert forall i :: 0 <= i < j + 1 ==> items[i].title != Some(name) by {
          forall i | 0 <= i < j + 1 ensures items[i].title != Some(name) {
            if i > 0 { assert items[i] == items[1..][i - 1]; }
          }
        }
        r
      else r
  }

  /** `lists[j]` is the first list titled `name`. */
  predicate FirstTitled(lists: seq<TaskList>, name: string, j: int)
  {
    0 <= j < |lists| && lists[j].title == Some(name) && forall i :: 0 <= i < j ==> lists[i].title != Some(name)
  }

  /** Searching two runs of lists in turn finds the first match of their concatenation. */
  lemma {:induction false} FindInConcat(a: seq<TaskList>, b: seq<TaskList>, name: string)
    ensures FindInPage(a + b, name) == if FindInPage(a, name).Some? then FindInPage(a, name) else FindInPage(b, name)
  {
    if a == [] {
      assert a + b == b;
    } else {
      assert (a + b)[0] == a[0];
      assert (a + b)[1..] == a[1..] + b;
      FindInConcat(a[1..], b, name);
    }
  }

  /** The part of the connector that remembers which task list it works on. */
  class TasksConnector {
    const defaultTasklistId: string
    const tasklistName: Option<string>
    var tasklistIdCache: Option<string>
    /** The titles of the lists the connector created. */
    var created: seq<string>

    constructor (tasklistId: string, tasklistName: Option<string>)
      ensures defaultTasklistId == tasklistId && this.tasklistName == tasklistName
      ensures tasklistIdCache.None? && created == []
    {
      defaultTasklistId := tasklistId;
      this.tasklistName := tasklistName;
      tasklistIdCache := None;
      created := [];
    }

    /** The id `_get_tasklist_id` settles on when nothing is cached yet. */
    function Resolve(pages: seq<ListsPage>, newId: string): (r: string)
      reads this
      ensures tasklistName.None? && defaultTasklistId == "@default" ==> r == "@default"
      ensures !NonEmpty(tasklistName) && !(tasklistName.None? && defaultTasklistId == "@default") ==> r == defaultTasklistId
    {
      if tasklistName.None? && defaultTasklistId == "@default" then "@default"
      else if NonEmpty(tasklistName) then
        var found := FindList(pages, tasklistName.value);
        if found.Some? then found.value else newId
      else defaultTasklistId
    }

    /**
     * `_get_tasklist_id()`: the cached id when there is a non-empty one;
     * otherwise the magic "@default", the id of the first list titled
     * `tasklist_name` (creating it, with id `newId`, when none is found) or the
     * configured id, which is then cached.
     */
    method GetTasklistId(pages: seq<ListsPage>, newId: string) returns (id: string)
      modifies this
      ensures NonEmpty(old(tasklistIdCache)) ==> id == old(tasklistIdCache).value && tasklistIdCache == old(tasklistIdCache)
      ensures NonEmpty(old(tasklistIdCache)) ==> created == old(created)
      ensures !NonEmpty(old(tasklistIdCache)) ==> id == old(Resolve(pages, newId)) && tasklistIdCache == Some(id)
      ensures !NonEmpty(old(tasklistIdCache)) ==>
        created == old(created) + (if NonEmpty(tasklistName) && FindList(pages, tasklistName.value).None?
                                   then [tasklistName.value] else [])
    {
      if NonEmpty(tasklistIdCache) {
        return tasklistIdCache.value;
      }
      if tasklistName.None? && defaultTasklistId == "@default" {
        tasklistIdCache := Some("@default");
        return "@default";
      }
      if NonEmpty(tasklistName) {
        var found := FindList(pages, tasklistName.value);
        if found.Some? {
          tasklistIdCache := found;
          return found.value;
        }
        created := created + [tasklistName.value];
        tasklistIdCache := Some(newId);
        return newId;
      }
      tasklistIdCache := Some(defaultTasklistId);
      id := defaultTasklistId;
    }

    /**
     * With a name configured, the lookup settles on the first fetched list
     * bearing that name, and on the newly created list only when no fetched
     * list bears it.
     */
    lemma {:induction false} ResolveByName(pages: seq<ListsPage>, newId: string)
      requires NonEmpty(tasklistName)
      ensures (forall j :: 0 <= j < |FetchedLists(pages)| ==> FetchedLists(pages)[j].title != tasklistName)
              ==> Resolve(pages, newId) == newId
      ensures forall j :: FirstTitled(FetchedLists(pages), tasklistName.value, j) ==> Resolve(pages, newId) == FetchedLists(pages)[j].id
    {
      var lists, name := FetchedLists(pages), tasklistName.value;
      var found := FindList(pages, name);
      if found.Some? {
        var k :| 0 <= k < |lists| && lists[k].title == Some(name) && lists[k].id == found.value
                 && forall i :: 0 <= i < k ==> lists[i].title != Some(name);
        assert lists[k].title == tasklistName;
        forall j | FirstTitled(lists, name, j)
          ensures Resolve(pages, newId) == lists[j].id
        {
          assert !(j < k) && !(k < j);
        }
      }
    }
  }
}
