/**
 * The remote-backed task store of the main page. Every handler first calls
 * the persistence service (its reply is a parameter) and changes the local
 * list only when the call succeeds; a failed call leaves the list alone and
 * records an error message. With nobody signed in every handler does nothing.
 */
module RemoteTodos {
  import opened Optional
  import opened Text
  import opened Lists
  import opened Tasks
  import opened Auth

  const LoadFailed := "Failed to load todos"
  const AddFailed := "Failed to add todo"
  const UpdateFailed := "Failed to update todo"
  const DeleteFailed := "Failed to delete todo"
  const EditFailed := "Failed to edit todo"
  const ClearFailed := "Failed to clear completed todos"

  /** The record the page submits for creation; the service assigns id and creation time. */
  datatype NewTodo = NewTodo(text: string, completed: bool, priority: Priority, orderIndex: int)

  /** One entry of the batch a reorder sends: a record id and its new position. */
  datatype OrderUpdate = OrderUpdate(id: int, orderIndex: int)

  /** The sort key of the list view: the order index, a missing one counting as 0. */
  function OrderKey(t: Todo): int {
    t.orderIndex.GetOr(0)
  }

  /**
   * The list view: the records passing the status filter and the search,
   * stably sorted by ascending order index.
   */
  function View(s: seq<Todo>, filter: Filter, term: string): (r: seq<Todo>)
    ensures forall t :: t in r <==> t in s && StatusMatch(t, filter) && SearchMatch(t, term)
    ensures multiset(r) == multiset(Visible(s, filter, term))
    ensures SortedBy(r, OrderKey)
  {
    var v := Visible(s, filter, term);
    var r := SortBy(v, OrderKey);
    assert forall t :: t in r <==> t in multiset(v);
    r
  }

  /** Records with the same order index stay in list order in the view. */
  lemma ViewStable(s: seq<Todo>, filter: Filter, term: string)
    ensures Stable(View(s, filter, term), Visible(s, filter, term), OrderKey)
  {
    SortByStable(Visible(s, filter, term), OrderKey);
  }

  /** The positions a reorder sends: the records' ids in their new order, numbered 0 to n-1. */
  function Renumber(s: seq<Todo>): (r: seq<OrderUpdate>)
    ensures |r| == |s|
    ensures forall k :: 0 <= k < |s| ==> r[k] == OrderUpdate(s[k].id, k)
  {
    seq(|s|, k requires 0 <= k < |s| => OrderUpdate(s[k].id, k))
  }

  /** The record ids a batch of position updates carries, in batch order. */
  function SentIds(b: seq<OrderUpdate>): (r: seq<int>)
    ensures |r| == |b| && forall k :: 0 <= k < |b| ==> r[k] == b[k].id
  {
    seq(|b|, k requires 0 <= k < |b| => b[k].id)
  }

  /**
   * After a reorder, the batch numbers the records 0 to n-1 with strictly
   * increasing order indices, and carries every id of the list exactly as
   * often as the list holds it.
   */
  lemma RenumberDense(s: seq<Todo>, from: nat, to: nat)
    requires from < |s| && to < |s|
    ensures var b := Renumber(ArrayMove(s, from, to));
      && (forall i, j :: 0 <= i < j < |b| ==> b[i].orderIndex < b[j].orderIndex)
      && SentIds(b) == ArrayMove(IdsOf(s), from, to)
      && multiset(SentIds(b)) == multiset(IdsOf(s))
  {
    var m := ArrayMove(s, from, to);
    assert SentIds(Renumber(m)) == IdsOf(m);
    IdsOfMove(s, from, to);
  }

  /** The ids of the records, in list order. */
  function IdsOf(s: seq<Todo>): (r: seq<int>)
    ensures |r| == |s| && forall k :: 0 <= k < |s| ==> r[k] == s[k].id
  {
    seq(|s|, k requires 0 <= k < |s| => s[k].id)
  }

  /** Taking the ids commutes with moving a record. */
  lemma IdsOfMove(s: seq<Todo>, from: nat, to: nat)
    requires from < |s| && to < |s|
    ensures IdsOf(ArrayMove(s, from, to)) == ArrayMove(IdsOf(s), from, to)
  {
    IdsOfRemoveAt(s, from);
    IdsOfInsertAt(RemoveAt(s, from), to, s[from]);
  }

  lemma IdsOfRemoveAt(s: seq<Todo>, i: nat)
    requires i < |s|
    ensures IdsOf(RemoveAt(s, i)) == RemoveAt(IdsOf(s), i)
  {
  }

  lemma IdsOfInsertAt(s: seq<Todo>, i: nat, x: Todo)
    requires i <= |s|
    ensures IdsOf(InsertAt(s, i, x)) == InsertAt(IdsOf(s), i, x.id)
  {
  }

  class TodoApp {
    /** The signed-in user from the session gate; the page does not change it. */
    const user: Option<User>
    var todos: seq<Todo>
    var error: Option<string>
    var loading: bool
    var inputValue: string
    var selectedPriority: Priority

    constructor(user: Option<User>)
      ensures this.user == user && todos == [] && error == None && loading
      ensures inputValue == [] && selectedPriority == Medium
    {
      this.user := user;
      todos := [];
      error := None;
      loading := true;
      inputValue := [];
      selectedPriority := Medium;
    }

    /** Typing in the new-task box. */
    method SetInputValue(text: string)
      modifies this`inputValue
      ensures inputValue == text
    {
      inputValue := text;
    }

    /** Choosing the priority of the next task. */
    method SetSelectedPriority(p: Priority)
      modifies this`selectedPriority
      ensures selectedPriority == p
    {
      selectedPriority := p;
    }

    /** Dismissing the error banner. */
    method DismissError()
      modifies this`error
      ensures error == None
    {
      error := None;
    }

    /**
     * Loads the user's records (the service returns them newest first). On
     * failure the list is kept and an error recorded. With nobody signed in
     * nothing happens, not even the end of loading.
     */
    method LoadTodos(fetched: Outcome<seq<Todo>>)
      modifies this`todos, this`error, this`loading
      ensures user == None ==> todos == old(todos) && error == old(error) && loading == old(loading)
      ensures user != None ==> !loading
      ensures user != None && fetched.Done? ==> todos == fetched.data && error == old(error)
      ensures user != None && fetched.Failed? ==> todos == old(todos) && error == Some(LoadFailed)
    {
      if user == None {
        return;
      }
      loading := true;
      match fetched {
        case Done(data) => todos := data;
        case Failed => error := Some(LoadFailed);
      }
      loading := false;
    }

    /**
     * Adds the typed task. Blank input, or nobody signed in, does nothing and
     * sends nothing. Otherwise the trimmed text is sent, not completed, with
     * the chosen priority and the current list length as order index; the
     * record the service returns is put in FRONT of the list and the input
     * box and priority are reset.
     */
    method AddTodo(created: Outcome<seq<Todo>>) returns (sent: Option<NewTodo>)
      modifies this`todos, this`error, this`inputValue, this`selectedPriority
      ensures sent == if IsBlank(old(inputValue)) || user == None then None
                      else Some(NewTodo(Trim(old(inputValue)), false, old(selectedPriority), |old(todos)|))
      ensures sent.Some? && created.Done? && created.data != [] ==>
        && todos == [created.data[0]] + old(todos)
        && inputValue == [] && selectedPriority == Medium && error == old(error)
      ensures sent.Some? && created.Failed? ==>
        && todos == old(todos) && error == Some(AddFailed)
        && inputValue == old(inputValue) && selectedPriority == old(selectedPriority)
      ensures sent.None? || created == Done([]) ==>
        && todos == old(todos) && error == old(error)
        && inputValue == old(inputValue) && selectedPriority == old(selectedPriority)
    {
      if IsBlank(inputValue) || user == None {
        return None;
      }
      sent := Some(NewTodo(Trim(inputValue), false, selectedPriority, |todos|));
      match created {
        case Failed =>
          error := Some(AddFailed);
        case Done(data) =>
          if data != [] {
            todos := [data[0]] + todos;
            inputValue := [];
            selectedPriority := Medium;
          }
      }
    }

    /**
     * Flips one record's completion. An id not in the list, or nobody signed
     * in, does nothing. Otherwise the flipped value of the first record with
     * that id is sent, and on success every record with that id is flipped.
     */
    method ToggleTodo(id: int, updated: Outcome<()>) returns (sent: Option<bool>)
      modifies this`todos, this`error
      ensures sent == if user == None || Find(old(todos), id).None? then None
                      else Some(!Find(old(todos), id).value.completed)
      ensures sent.Some? && updated.Done? ==> todos == MapToggle(old(todos), id) && error == old(error)
      ensures sent.Some? && updated.Failed? ==> todos == old(todos) && error == Some(UpdateFailed)
      ensures sent.None? ==> todos == old(todos) && error == old(error)
    {
      if user == None {
        return None;
      }
      var todo := Find(todos, id);
      if todo.None? {
        return None;
      }
      sent := Some(!todo.value.completed);
      match updated {
        case Done(_) => todos := MapToggle(todos, id);
        case Failed => error := Some(UpdateFailed);
      }
    }

    /** Deletes by id (present or not); on success every record with that id goes. */
    method DeleteTodo(id: int, deleted: Outcome<()>) returns (sent: bool)
      modifies this`todos, this`error
      ensures sent <==> user != None
      ensures sent && deleted.Done? ==> todos == RemoveId(old(todos), id) && error == old(error)
      ensures sent && deleted.Failed? ==> todos == old(todos) && error == Some(DeleteFailed)
      ensures !sent ==> todos == old(todos) && error == old(error)
    {
      if user == None {
        return false;
      }
      sent := true;
      match deleted {
        case Done(_) => todos := RemoveId(todos, id);
        case Failed => error := Some(DeleteFailed);
      }
    }

    /**
     * Edits a record's text. Text that trims to nothing, or nobody signed in,
     * does nothing. Otherwise the trimmed text is sent and, on success,
     * stored on every record with that id.
     */
    method EditTodo(id: int, newText: string, updated: Outcome<()>) returns (sent: Option<string>)
      modifies this`todos, this`error
      ensures sent == if user == None || IsBlank(newText) then None else Some(Trim(newText))
      ensures sent.Some? && updated.Done? ==> todos == MapEdit(old(todos), id, Trim(newText)) && error == old(error)
      ensures sent.Some? && updated.Failed? ==> todos == old(todos) && error == Some(EditFailed)
      ensures sent.None? ==> todos == old(todos) && error == old(error)
    {
      if user == None || IsBlank(newText) {
        return None;
      }
      sent := Some(Trim(newText));
      match updated {
        case Done(_) => todos := MapEdit(todos, id, Trim(newText));
        case Failed => error := Some(EditFailed);
      }
    }

    /**
     * Deletes every completed record remotely, one request each, and waits
     * for all of them. The per-request results are not looked at: unless a
     * request throws, every completed record leaves the list.
     */
    method ClearCompleted(threw: bool) returns (sent: Option<seq<int>>)
      modifies this`todos, this`error
      ensures sent == if user == None then None else Some(CompletedIds(old(todos)))
      ensures sent.Some? && !threw ==> todos == Pending(old(todos)) && error == old(error)
      ensures sent.Some? && threw ==> todos == old(todos) && error == Some(ClearFailed)
      ensures sent.None? ==> todos == old(todos) && error == old(error)
    {
      if user == None {
        return None;
      }
      sent := Some(CompletedIds(todos));
      if threw {
        error := Some(ClearFailed);
      } else {
        todos := Pending(todos);
      }
    }

    /**
     * The end of a drag: `activeId` was dropped on `over`. Nothing happens
     * when there is no drop target, the two ids are equal, nobody is signed
     * in, or either id is not in the list. Otherwise the list becomes the
     * move of the dragged record to the target's index (the records keep
     * their own order-index fields), and the new positions are sent as one
     * batch. If sending throws, the list is reloaded from the service.
     */
    method HandleDragEnd(activeId: int, over: Option<int>, batchThrew: bool, reloaded: Outcome<seq<Todo>>)
      returns (batch: Option<seq<OrderUpdate>>)
      modifies this`todos, this`error, this`loading
      ensures var from := FindIndex(old(todos), activeId);
              var to := if over.Some? then FindIndex(old(todos), over.value) else -1;
              if over.None? || over.value == activeId || user == None || from == -1 || to == -1 then
                && batch == None
                && todos == old(todos) && error == old(error) && loading == old(loading)
              else
                && batch == Some(Renumber(ArrayMove(old(todos), from, to)))
                && (!batchThrew ==> todos == ArrayMove(old(todos), from, to) && error == old(error) && loading == old(loading))
                && (batchThrew && reloaded.Done? ==> todos == reloaded.data && error == old(error) && !loading)
                && (batchThrew && reloaded.Failed? ==> todos == ArrayMove(old(todos), from, to) && error == Some(LoadFailed) && !loading)
    {
      if over.None? || activeId == over.value || user == None {
        return None;
      }
      var oldIndex := FindIndex(todos, activeId);
      var newIndex := FindIndex(todos, over.value);
      if oldIndex == -1 || newIndex == -1 {
        return None;
      }
      var newTodos := ArrayMove(todos, oldIndex, newIndex);
      todos := newTodos;
      batch := Some(Renumber(newTodos));
      if batchThrew {
        LoadTodos(reloaded);
      }
    }

    /**
     * The visible list for a filter and a search term. The sort runs in
     * place: when neither a filter nor a search applies, the list being
     * sorted is the page's own record list, which is left in sorted order.
     */
    method GetFilteredTodos(filter: Filter, searchTerm: string) returns (visible: seq<Todo>)
      modifies this`todos
      ensures visible == View(old(todos), filter, searchTerm)
      ensures todos == if filter == All && searchTerm == [] then visible else old(todos)
    {
      var filtered := todos;
      if filter == Active {
        filtered := Pending(filtered);
      } else if filter == Completed {
        filtered := OnlyCompleted(filtered);
      }
      if searchTerm != [] {
        filtered := Searched(filtered, searchTerm);
      }
      VisibleInTwoSteps(todos, filter, searchTerm);
      AllVisible(todos);
      ActiveVisible(todos);
      visible := SortBy(filtered, OrderKey);
      if filter == All && searchTerm == [] {
        todos := visible;
      }
    }
  }

  /** The completed records, in list order. */
  function OnlyCompleted(s: seq<Todo>): (r: seq<Todo>)
    ensures r == Visible(s, Completed, [])
  {
    if s == [] then []
    else if s[0].completed then [s[0]] + OnlyCompleted(s[1..])
    else OnlyCompleted(s[1..])
  }

  /** The records whose text matches a non-empty search term, in list order. */
  function Searched(s: seq<Todo>, term: string): (r: seq<Todo>)
    ensures r == Visible(s, All, term)
  {
    if s == [] then []
    else if SearchMatch(s[0], term) then [s[0]] + Searched(s[1..], term)
    else Searched(s[1..], term)
  }

  /** Filtering by status and then by search is filtering by both at once. */
  lemma {:induction false} VisibleInTwoSteps(s: seq<Todo>, filter: Filter, term: string)
    ensures Visible(Visible(s, filter, []), All, term) == Visible(s, filter, term)
  {
    if s != [] {
      VisibleInTwoSteps(s[1..], filter, term);
      var v := Visible(s[1..], filter, []);
      if StatusMatch(s[0], filter) {
        assert Visible(s, filter, []) == [s[0]] + v;
        assert ([s[0]] + v)[1..] == v;
      }
    }
  }

  /** With no status filter and no search, the whole list is visible. */
  lemma {:induction false} AllVisible(s: seq<Todo>)
    ensures Visible(s, All, []) == s
  {
    if s != [] {
      AllVisible(s[1..]);
      assert StatusMatch(s[0], All) && SearchMatch(s[0], []);
      assert Visible(s, All, []) == [s[0]] + Visible(s[1..], All, []);
    }
  }

  /** With no search, the active filter shows the pending records. */
  lemma {:induction false} ActiveVisible(s: seq<Todo>)
    ensures Visible(s, Active, []) == Pending(s)
  {
    if s != [] {
      ActiveVisible(s[1..]);
      assert SearchMatch(s[0], []);
    }
  }

  /**
   * A worked case: an active "buy milk" (low) and a completed "ship release"
   * (high). The active view shows only "buy milk"; the counts are 2, 1 and 1.
   */
  lemma ActiveViewExample()
    ensures var milk := Todo(1, "buy milk", false, Low, None, 0);
            var ship := Todo(2, "ship release", true, High, None, 0);
            View([milk, ship], Active, []) == [milk] && Stats([milk, ship]) == TaskStats(2, 1, 1)
  {
    var milk := Todo(1, "buy milk", false, Low, None, 0);
    var ship := Todo(2, "ship release", true, High, None, 0);
    assert Visible([milk, ship], Active, []) == [milk] by {
      assert [milk, ship][1..] == [ship];
    }
    assert Pending([milk, ship]) == [milk] by {
      assert [milk, ship][1..] == [ship];
    }
    assert SortBy([milk], OrderKey) == [milk] by {
      assert [milk][1..] == [];
    }
  }
}
