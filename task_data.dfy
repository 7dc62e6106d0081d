/** The module-level `taskData` array of App.js and the event handlers of
    its three screens that change it or read it. Each handler updates the
    array in place and is specified by the StoreSpec function of the same
    operation; a handler that would throw a TypeError returns Err and
    leaves the array untouched. */
module Store {
  import opened JsArray
  import opened JsString
  import opened StoreSpec

  /** `outcome` and `after` are what running `step` on `before` gives. */
  predicate Performs(step: Result<seq<TodoList>>, before: seq<TodoList>,
                     after: seq<TodoList>, outcome: Result<()>) {
    match step
    case Ok(r) => after == r && outcome == Ok(())
    case Err(f) => after == before && outcome == Err(f)
  }

  class TaskData {
    /** The lists, in display order. */
    var lists: seq<TodoList>

    /** The store as loaded from the bundled seed data. */
    constructor (seed: seq<TodoList>)
      ensures lists == seed
    {
      lists := seed;
    }

    /** `addList`: the "Add List" button of the List screen. */
    method AddList(title: string)
      modifies this
      ensures lists == AddListTo(old(lists), title)
    {
      if !IsBlank(title) {
        lists := lists + [TodoList(|lists| + 1, title, UnsetDate, None)];
      }
    }

    /** `deleteList`: the "delete" button of a row of the List screen. */
    method DeleteList(k: int)
      modifies this
      ensures lists == DeleteListFrom(old(lists), k)
    {
      lists := Filter(lists, ListKeyIsNot(k));
    }

    /** `handleConfirm`: the date picker's confirmation for the row whose
        key was recorded when the picker was opened. */
    method HandleConfirm(k: int, iso: string) returns (outcome: Result<()>)
      modifies this
      ensures Performs(ConfirmDate(old(lists), k, iso), old(lists), lists, outcome)
    {
      var found := FindIndex(lists, ListKeyIs(k));
      if found.None? {
        return Err(ListNotFound);
      }
      var i := found.value;
      lists := lists[i := lists[i].(date := SliceTo(iso, DateLength))];
      outcome := Ok(());
    }

    /** `addTask`: the "Add Task" button of the Task screen opened for the
        list keyed `k`. */
    method AddTask(k: int, text: string) returns (outcome: Result<()>)
      modifies this
      ensures Performs(AddTaskTo(old(lists), k, text), old(lists), lists, outcome)
    {
      if IsBlank(text) {
        return Ok(());
      }
      var found := FindIndex(lists, ListKeyIs(k));
      if found.None? {
        return Err(ListNotFound);
      }
      var i := found.value;
      lists := lists[i := lists[i].(tasks := Some(AppendTask(lists[i], text)))];
      outcome := Ok(());
    }

    /** `deleteTask`: the "delete" button of a task row of the Task screen
        opened for the list keyed `k`. */
    method DeleteTask(k: int, taskKey: int) returns (outcome: Result<()>)
      modifies this
      ensures Performs(DeleteTaskFrom(old(lists), k, taskKey), old(lists), lists, outcome)
    {
      var found := FindIndex(lists, ListKeyIs(k));
      if found.None? {
        return Err(ListNotFound);
      }
      var i := found.value;
      var l := lists[i];
      if l.tasks.None? {
        return Err(TasksAbsent);
      }
      lists := lists[i := l.(tasks := Some(Filter(l.tasks.value, TaskKeyIsNot(taskKey))))];
      outcome := Ok(());
    }

    /** The checkbox of a task row, as it is evidently meant to work: flip
        `completed` of the task keyed `taskKey` in the list keyed `k`, and
        report its new value. */
    method ToggleTask(k: int, taskKey: int) returns (outcome: Result<bool>)
      modifies this
      ensures match ToggleTaskIn(old(lists), k, taskKey)
        case Ok((r, b)) => lists == r && outcome == Ok(b)
        case Err(f) => lists == old(lists) && outcome == Err(f)
    {
      var found := FindIndex(lists, ListKeyIs(k));
      if found.None? {
        return Err(ListNotFound);
      }
      var i := found.value;
      var l := lists[i];
      if l.tasks.None? {
        return Err(TasksAbsent);
      }
      var ts := l.tasks.value;
      var at := FindIndex(ts, TaskKeyIs(taskKey));
      if at.None? {
        return Err(TaskNotFound);
      }
      var j := at.value;
      var flipped := !ts[j].completed;
      lists := lists[i := l.(tasks := Some(ts[j := ts[j].(completed := flipped)]))];
      outcome := Ok(flipped);
    }

    /** `filterData` of the Calendar screen for the pressed day `selected`:
        the lists dated exactly `selected`, in store order. */
    function CalendarFilter(selected: string): (r: seq<TodoList>)
      reads this
      ensures forall l :: l in r <==> l in lists && l.date == selected
      ensures var ps := KeptPositions(lists, DateIs(selected));
        |r| == |ps| && forall i :: 0 <= i < |r| ==> r[i] == lists[ps[i]]
    {
      FilterMembers(lists, DateIs(selected));
      FilterSelectsInOrder(lists, DateIs(selected));
      ListsOnDate(lists, selected)
    }
  }

  /** A scenario on the Task screen, for any non-blank task text: a
      task added to an undated list with no tasks gets key 1, toggling it
      completes it, and deleting it leaves the list with an empty task array. */
  method HomeListScenario(text: string)
    requires !IsBlank(text)
  {
    var home := TodoList(1, "Home", UnsetDate, None);
    var store := new TaskData([home]);

    var milk := Task(1, text, false);
    var withMilk := home.(tasks := Some([milk]));
    assert FindIndex([home], ListKeyIs(1)) == Some(0);
    assert [home][0 := withMilk] == [withMilk];
    var added := store.AddTask(1, text);
    assert added == Ok(()) && store.lists == [withMilk];

    var done := milk.(completed := true);
    var withDone := home.(tasks := Some([done]));
    assert FindIndex([withMilk], ListKeyIs(1)) == Some(0);
    assert FindIndex([milk], TaskKeyIs(1)) == Some(0);
    assert [milk][0 := done] == [done];
    assert [withMilk][0 := withDone] == [withDone];
    var toggled := store.ToggleTask(1, 1);
    assert toggled == Ok(true) && store.lists == [withDone];

    var emptied := home.(tasks := Some([]));
    assert FindIndex([withDone], ListKeyIs(1)) == Some(0);
    assert Filter([done], TaskKeyIsNot(1)) == [];
    assert [withDone][0 := emptied] == [emptied];
    var deleted := store.DeleteTask(1, 1);
    assert deleted == Ok(()) && store.lists == [emptied];
  }

  /** Two lists added to an empty store get keys 1 and 2; after deleting
      list 1, the next list added gets key 2 again. */
  method DuplicateKeyScenario(first: string, second: string, third: string)
    requires !IsBlank(first) && !IsBlank(second) && !IsBlank(third)
  {
    var store := new TaskData([]);
    store.AddList(first);
    store.AddList(second);
    var one, two := TodoList(1, first, UnsetDate, None), TodoList(2, second, UnsetDate, None);
    assert store.lists == [one, two];
    assert Filter([two], ListKeyIsNot(1)) == [two] by {
      assert [two][1..] == [];
    }
    assert Filter([one, two], ListKeyIsNot(1)) == [two] by {
      assert [one, two][1..] == [two];
    }
    store.DeleteList(1);
    assert store.lists == [two];
    store.AddList(third);
    assert store.lists[0].key == store.lists[1].key == 2;
  }
}
