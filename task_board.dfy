/** The dashboard's task board: a list of tasks shown in a "Today" zone and a "Wishlist" zone,
    with optimistic toggling and adding. */
module TaskBoard {
  import opened Wrappers
  import opened Text
  import opened Seqs

  datatype Status = Todo | InProgress | Done | Wishlist
  datatype Priority = Low | Medium | High
  /** The zone an add form belongs to; a task added there gets the matching status. */
  datatype Zone = TodoZone | WishlistZone

  datatype Task = Task(
    id: string,
    userId: string,
    title: string,
    description: Option<string>,
    status: Status,
    priority: Priority,
    dueDate: Option<string>,
    createdAt: string)

  function ZoneStatus(z: Zone): Status
  {
    match z
    case TodoZone => Todo
    case WishlistZone => Wishlist
  }

  /** The status a toggle writes, given the status the task item shows. */
  function ToggledStatus(current: Status): (r: Status)
    ensures r == Todo <==> current == Done
    ensures r == Done <==> current != Done
  {
    if current == Done then Todo else Done
  }

  /** `prev.map(t => t.id === id ? { ...t, status } : t)`. */
  function SetStatusById(tasks: seq<Task>, id: string, status: Status): (r: seq<Task>)
    ensures |r| == |tasks|
    ensures forall i :: 0 <= i < |r| ==>
              r[i] == if tasks[i].id == id then tasks[i].(status := status) else tasks[i]
  {
    if tasks == [] then []
    else
      var rest := SetStatusById(tasks[1..], id, status);
      var t := tasks[0];
      [if t.id == id then t.(status := status) else t] + rest
  }

  /** `prev.map(t => t.id === id ? row : t)`. */
  function ReplaceById(tasks: seq<Task>, id: string, row: Task): (r: seq<Task>)
    ensures |r| == |tasks|
    ensures forall i :: 0 <= i < |r| ==> r[i] == if tasks[i].id == id then row else tasks[i]
  {
    if tasks == [] then [] else [if tasks[0].id == id then row else tasks[0]] + ReplaceById(tasks[1..], id, row)
  }

  predicate HasId(tasks: seq<Task>, id: string)
  {
    exists i :: 0 <= i < |tasks| && tasks[i].id == id
  }

  predicate IsToday(t: Task) { t.status == Todo || t.status == Done }
  predicate IsWishlist(t: Task) { t.status == Wishlist }
  predicate IsInProgress(t: Task) { t.status == InProgress }
  predicate IsOpen(t: Task) { t.status != Done }
  predicate IsTodo(t: Task) { t.status == Todo }

  /** `tasks.filter(t => t.status === "todo" || t.status === "done")`. */
  function TodayTasks(tasks: seq<Task>): (r: seq<Task>)
    ensures |r| <= |tasks|
    ensures forall i :: 0 <= i < |r| ==> r[i].status == Todo || r[i].status == Done
  {
    Filter(IsToday, tasks)
  }

  /** `tasks.filter(t => t.status === "wishlist")`. */
  function WishlistTasks(tasks: seq<Task>): (r: seq<Task>)
    ensures |r| <= |tasks|
    ensures forall i :: 0 <= i < |r| ==> r[i].status == Wishlist
  {
    Filter(IsWishlist, tasks)
  }

  /** The Today badge: the today tasks that are not done. */
  function OpenCount(tasks: seq<Task>): (r: nat)
    ensures r <= |TodayTasks(tasks)| <= |tasks|
  {
    |Filter(IsOpen, TodayTasks(tasks))|
  }

  /** Toggling flips the status of the matching tasks and touches nothing else: ids, titles,
      order and every other task stay as they were. */
  lemma ToggleOnlyTarget(tasks: seq<Task>, id: string, current: Status)
    ensures var r := SetStatusById(tasks, id, ToggledStatus(current));
            |r| == |tasks|
            && (forall i :: 0 <= i < |r| ==> r[i].id == tasks[i].id && r[i].title == tasks[i].title)
            && (forall i :: 0 <= i < |r| && tasks[i].id != id ==> r[i] == tasks[i])
            && (forall i :: 0 <= i < |r| && tasks[i].id == id ==>
                  r[i].status == (if current == Done then Todo else Done))
  {
  }

  /** Toggling a done task back undoes the toggle, when every task with that id was done. */
  lemma {:induction false} ToggleTwiceRestores(tasks: seq<Task>, id: string)
    requires forall i :: 0 <= i < |tasks| && tasks[i].id == id ==> tasks[i].status == Done
    ensures SetStatusById(SetStatusById(tasks, id, ToggledStatus(Done)), id, ToggledStatus(Todo)) == tasks
  {
    if tasks != [] {
      ToggleTwiceRestores(tasks[1..], id);
    }
  }

  /** Replacing the temporary id of a freshly prepended task puts the server row in its
      place and leaves the older tasks alone. */
  lemma ReplaceAfterPrepend(tasks: seq<Task>, temp: Task, row: Task)
    requires !HasId(tasks, temp.id)
    ensures ReplaceById([temp] + tasks, temp.id, row) == [row] + tasks
  {
    var r := ReplaceById([temp] + tasks, temp.id, row);
    forall i | 0 <= i < |r| ensures r[i] == ([row] + tasks)[i] {
      if i > 0 {
        assert ([temp] + tasks)[i] == tasks[i - 1];
      }
    }
  }

  /** A task shows in Today exactly when it is `todo` or `done`, in Wishlist exactly when it is
      `wishlist`, and an `in_progress` task in neither. */
  lemma ZoneMembership(tasks: seq<Task>, t: Task)
    ensures t in TodayTasks(tasks) <==> t in tasks && (t.status == Todo || t.status == Done)
    ensures t in WishlistTasks(tasks) <==> t in tasks && t.status == Wishlist
    ensures t.status == InProgress ==> t !in TodayTasks(tasks) && t !in WishlistTasks(tasks)
  {
    FilterCount(IsToday, tasks, t);
    FilterCount(IsWishlist, tasks, t);
  }

  /** Both zones keep the list's order: the zones of a concatenation are the concatenation of
      the zones. */
  lemma ZonesKeepOrder(a: seq<Task>, b: seq<Task>)
    ensures TodayTasks(a + b) == TodayTasks(a) + TodayTasks(b)
    ensures WishlistTasks(a + b) == WishlistTasks(a) + WishlistTasks(b)
  {
    FilterConcat(IsToday, a, b);
    FilterConcat(IsWishlist, a, b);
  }

  /** Every task is in exactly one of Today, Wishlist and the hidden in-progress tasks. */
  lemma {:induction false} ZonesPartition(tasks: seq<Task>)
    ensures |TodayTasks(tasks)| + |WishlistTasks(tasks)| + |Filter(IsInProgress, tasks)| == |tasks|
  {
    if tasks != [] {
      ZonesPartition(tasks[1..]);
    }
  }

  /** The badge counts the `todo` tasks. */
  lemma {:induction false} OpenCountIsTodo(tasks: seq<Task>)
    ensures OpenCount(tasks) == |Filter(IsTodo, tasks)|
  {
    if tasks != [] {
      OpenCountIsTodo(tasks[1..]);
      var t := tasks[0];
      var today := TodayTasks(tasks);
      if IsToday(t) {
        assert today == [t] + TodayTasks(tasks[1..]);
        assert today[0] == t && today[1..] == TodayTasks(tasks[1..]);
        assert IsOpen(t) <==> IsTodo(t);
      } else {
        assert today == TodayTasks(tasks[1..]);
        assert !IsTodo(t);
      }
    }
  }

  /** The server call a toggle makes. */
  datatype StatusUpdate = StatusUpdate(id: string, status: Status)

  /** What the board holds: the task list and which zone's add form is open. */
  class Board {
    var tasks: seq<Task>
    var addingZone: Option<Zone>

    constructor (initialTasks: seq<Task>)
      ensures tasks == initialTasks && addingZone == None
    {
      tasks := initialTasks;
      addingZone := None;
    }

    /** The plus button of a zone opens its add form. */
    method OpenAddForm(zone: Zone)
      modifies this
      ensures addingZone == Some(zone) && tasks == old(tasks)
    {
      addingZone := Some(zone);
    }

    /** Escape closes the add form. */
    method CancelAdd()
      modifies this
      ensures addingZone == None && tasks == old(tasks)
    {
      addingZone := None;
    }

    /** `handleToggle(id, currentStatus)`: the optimistic update, and the update it sends. */
    method Toggle(id: string, currentStatus: Status) returns (update: StatusUpdate)
      modifies this
      ensures update == StatusUpdate(id, ToggledStatus(currentStatus))
      ensures tasks == SetStatusById(old(tasks), id, update.status)
      ensures addingZone == old(addingZone)
    {
      var newStatus := ToggledStatus(currentStatus);
      tasks := SetStatusById(tasks, id, newStatus);
      update := StatusUpdate(id, newStatus);
    }

    /** The first half of `handleAdd`: a blank title does nothing; otherwise a `medium` task
        with the zone's status and the temporary id `tempId` is put first and the form closes.
        `created` is the clock reading. */
    method Add(title: string, zone: Zone, tempId: string, created: string) returns (added: Option<Task>)
      modifies this
      ensures IsBlank(title) ==> added == None && tasks == old(tasks) && addingZone == old(addingZone)
      ensures !IsBlank(title) ==>
                added == Some(Task(tempId, "temp", title, None, ZoneStatus(zone), Medium, None, created))
                && tasks == [added.value] + old(tasks) && addingZone == None
    {
      if TrimsToEmpty(title) {
        return None;
      }
      var newTask := Task(tempId, "temp", title, None, ZoneStatus(zone), Medium, None, created);
      tasks := [newTask] + tasks;
      addingZone := None;
      added := Some(newTask);
    }

    /** The second half of `handleAdd`: the inserted row, when the server returns one, takes
        the place of the task with the temporary id; on failure the optimistic task stays. */
    method ResolveAdd(tempId: string, reply: Option<Task>)
      modifies this
      ensures reply.Some? ==> tasks == ReplaceById(old(tasks), tempId, reply.value)
      ensures reply.None? ==> tasks == old(tasks)
      ensures addingZone == old(addingZone)
    {
      if reply.Some? {
        tasks := ReplaceById(tasks, tempId, reply.value);
      }
    }
  }
}
