/**
 * The local-only task store: the same list operations as the remote store,
 * applied at once with no service in between, and a browser storage slot
 * that receives the whole list after every change once the initial load is
 * done. Its rules differ from the remote store's: new records go at the end,
 * an edit stores the text as given, and the view is sorted by completion and
 * priority instead of by order index.
 */
module LocalTodos {
  import opened Optional
  import opened Text
  import opened Lists
  import opened Tasks

  /**
   * The storage slot: nothing stored (or the empty string), a list stored by
   * this store, or text that does not parse as a list.
   */
  datatype Slot = Missing | Stored(todos: seq<Todo>) | Garbled

  /** The weight the view sorts by: high 3, medium 2, low 1. */
  function Weight(p: Priority): (w: int)
    ensures 1 <= w <= 3
  {
    match p
    case High => 3
    case Medium => 2
    case Low => 1
  }

  /**
   * The view's comparator: when the completion flags differ, the flag
   * difference (false before true); otherwise the weight of the second minus
   * that of the first (heavier first).
   */
  function Compare(a: Todo, b: Todo): int {
    if a.completed != b.completed then (if a.completed then 1 else 0) - (if b.completed then 1 else 0)
    else Weight(b.priority) - Weight(a.priority)
  }

  /** A key that orders records exactly as the comparator does. */
  function LocalRank(t: Todo): (k: int)
    ensures t.completed ==> 3 <= k <= 5
    ensures !t.completed ==> 0 <= k <= 2
  {
    (if t.completed then 3 else 0) + (3 - Weight(t.priority))
  }

  /**
   * The comparator and the key difference always have the same sign, so the
   * stable sort with the comparator is the stable sort by the key.
   */
  lemma CompareIsRankOrder(a: Todo, b: Todo)
    ensures Compare(a, b) < 0 <==> LocalRank(a) < LocalRank(b)
    ensures Compare(a, b) == 0 <==> LocalRank(a) == LocalRank(b)
    ensures Compare(a, b) > 0 <==> LocalRank(a) > LocalRank(b)
  {
  }

  /**
   * The view: the records passing the status filter and the search, pending
   * records first, and within each group high before medium before low; the
   * sort is stable, so equal records keep their list order.
   */
  function LocalView(s: seq<Todo>, filter: Filter, term: string): (r: seq<Todo>)
    ensures forall t :: t in r <==> t in s && StatusMatch(t, filter) && SearchMatch(t, term)
    ensures multiset(r) == multiset(Visible(s, filter, term))
    ensures SortedBy(r, LocalRank)
  {
    var v := Visible(s, filter, term);
    var r := SortBy(v, LocalRank);
    assert forall t :: t in r <==> t in multiset(v);
    r
  }

  /** The view lists pending records first, then by falling priority. */
  lemma LocalViewOrder(s: seq<Todo>, filter: Filter, term: string, i: nat, j: nat)
    requires i < j < |LocalView(s, filter, term)|
    ensures var r := LocalView(s, filter, term);
      && (r[i].completed ==> r[j].completed)
      && (r[i].completed == r[j].completed ==> Weight(r[i].priority) >= Weight(r[j].priority))
  {
    var r := LocalView(s, filter, term);
    assert LocalRank(r[i]) <= LocalRank(r[j]);
  }

  /** Records that compare equal keep their list order in the view. */
  lemma LocalViewStable(s: seq<Todo>, filter: Filter, term: string)
    ensures Stable(LocalView(s, filter, term), Visible(s, filter, term), LocalRank)
  {
    SortByStable(Visible(s, filter, term), LocalRank);
  }

  /** The record a non-blank add appends: created at `now`, which is also its id. */
  function NewRecord(text: string, priority: Priority, now: int): (t: Todo)
    ensures t.text == Trim(text) && !t.completed && t.priority == priority && t.orderIndex == None
  {
    Todo(now, Trim(text), false, priority, None, now)
  }

  class TodoList {
    var todos: seq<Todo>
    var isLoaded: bool
    var slot: Slot

    /** Once loaded, the slot always holds the current list. */
    predicate Persisted()
      reads this
    {
      isLoaded ==> slot == Stored(todos)
    }

    /** Before the initial load: an empty list, and whatever the slot holds. */
    constructor(slot: Slot)
      ensures todos == [] && !isLoaded && this.slot == slot && Persisted()
    {
      todos := [];
      isLoaded := false;
      this.slot := slot;
    }

    /**
     * The initial load: a stored list is adopted, a missing or unparsable one
     * leaves the list empty; from then on the slot mirrors the list, so an
     * unparsable slot is overwritten.
     */
    method Load()
      requires !isLoaded
      modifies this
      ensures todos == (if old(slot).Stored? then old(slot).todos else old(todos))
      ensures isLoaded && Persisted()
    {
      if slot.Stored? {
        todos := slot.todos;
      }
      isLoaded := true;
      slot := Stored(todos);
    }

    /** Replaces the list; once loaded, the slot receives the new list too. */
    method Commit(next: seq<Todo>)
      requires Persisted()
      modifies this`todos, this`slot
      ensures todos == next && Persisted()
      ensures !isLoaded ==> slot == old(slot)
    {
      todos := next;
      if isLoaded {
        slot := Stored(next);
      }
    }

    /**
     * Adds a task. Text that trims to nothing is refused and changes nothing;
     * otherwise exactly one new record, with the trimmed text, not completed
     * and the given priority, goes at the END of the list.
     */
    method AddTodo(text: string, now: int, priority: Priority := Medium) returns (added: bool)
      requires Persisted()
      modifies this`todos, this`slot
      ensures Persisted()
      ensures added <==> !IsBlank(text)
      ensures added ==> todos == old(todos) + [NewRecord(text, priority, now)]
      ensures !added ==> todos == old(todos) && slot == old(slot)
      ensures !isLoaded ==> slot == old(slot)
    {
      if !IsBlank(text) {
        Commit(todos + [NewRecord(text, priority, now)]);
        return true;
      }
      return false;
    }

    /** Flips completion on every record with that id. */
    method ToggleTodo(id: int)
      requires Persisted()
      modifies this`todos, this`slot
      ensures todos == MapToggle(old(todos), id) && Persisted()
      ensures !isLoaded ==> slot == old(slot)
    {
      Commit(MapToggle(todos, id));
    }

    /** Drops every record with that id. */
    method DeleteTodo(id: int)
      requires Persisted()
      modifies this`todos, this`slot
      ensures todos == RemoveId(old(todos), id) && Persisted()
      ensures !isLoaded ==> slot == old(slot)
    {
      Commit(RemoveId(todos, id));
    }

    /** Stores the text AS GIVEN (not trimmed, possibly blank) on every record with that id. */
    method EditTodo(id: int, newText: string)
      requires Persisted()
      modifies this`todos, this`slot
      ensures todos == MapEdit(old(todos), id, newText) && Persisted()
      ensures !isLoaded ==> slot == old(slot)
    {
      Commit(MapEdit(todos, id, newText));
    }

    /** Keeps only the pending records. */
    method ClearCompleted()
      requires Persisted()
      modifies this`todos, this`slot
      ensures todos == Pending(old(todos)) && Persisted()
      ensures !isLoaded ==> slot == old(slot)
    {
      Commit(Pending(todos));
    }

    /**
     * The end of a drag. There must be a drop target, and when the two ids
     * differ both must be in the list. Equal ids change nothing; otherwise
     * the dragged record moves to the target's index.
     */
    method HandleDragEnd(activeId: int, over: Option<int>)
      requires Persisted()
      requires over.Some?
      requires activeId != over.value ==> FindIndex(todos, activeId) >= 0 && FindIndex(todos, over.value) >= 0
      modifies this`todos, this`slot
      ensures Persisted()
      ensures activeId == over.value ==> todos == old(todos) && slot == old(slot)
      ensures activeId != over.value ==>
        todos == ArrayMove(old(todos), FindIndex(old(todos), activeId), FindIndex(old(todos), over.value))
      ensures !isLoaded ==> slot == old(slot)
    {
      if activeId != over.value {
        var oldIndex := FindIndex(todos, activeId);
        var newIndex := FindIndex(todos, over.value);
        Commit(ArrayMove(todos, oldIndex, newIndex));
      }
    }
  }

  /**
   * A local drag between two distinct present records puts the dragged
   * record at the target's former index, keeps every other record in its
   * relative order and loses nothing.
   */
  lemma LocalDragIsMove(s: seq<Todo>, activeId: int, overId: int)
    requires activeId != overId
    requires FindIndex(s, activeId) >= 0 && FindIndex(s, overId) >= 0
    ensures var from := FindIndex(s, activeId);
            var to := FindIndex(s, overId);
            var r := ArrayMove(s, from, to);
      && r[to].id == activeId
      && RemoveAt(r, to) == RemoveAt(s, from)
      && multiset(r) == multiset(s)
      && (from < to ==> r[to - 1].id == overId)
      && (to < from ==> r[to + 1].id == overId)
  {
    ArrayMoveAdjacent(s, FindIndex(s, activeId), FindIndex(s, overId));
  }

  /**
   * The two stores part ways on adding: from the same list, the local store
   * puts its new record last and the remote store puts the returned record
   * first, so they agree only when every record already listed equals the
   * new one (in particular on an empty list).
   */
  lemma AddPositionsDiffer(s: seq<Todo>, local: Todo, remote: Todo)
    ensures (s + [local])[|s|] == local && ([remote] + s)[0] == remote
    ensures s + [local] == [local] + s <==> s == [] || forall i :: 0 <= i < |s| ==> s[i] == local
  {
    if s + [local] == [local] + s {
      forall i | 0 <= i < |s| ensures s[i] == local {
        AllEqual(s, local, i);
      }
    }
    if forall i :: 0 <= i < |s| ==> s[i] == local {
      assert s + [local] == [local] + s;
    }
  }

  lemma {:induction false} AllEqual(s: seq<Todo>, x: Todo, i: nat)
    requires s + [x] == [x] + s && i < |s|
    ensures s[i] == x
    decreases i
  {
    if i > 0 {
      assert s[i] == ([x] + s)[i] == (s + [x])[i] == s[i - 1];
      AllEqual(s, x, i - 1);
    } else {
      assert s[0] == (s + [x])[0] == ([x] + s)[0];
    }
  }

  /** The local edit differs from the remote one exactly on text that trimming would change. */
  lemma EditsAgreeIffTrimmed(s: seq<Todo>, id: int, newText: string)
    requires exists i :: 0 <= i < |s| && s[i].id == id
    ensures MapEdit(s, id, newText) == MapEdit(s, id, Trim(newText)) <==> Trim(newText) == newText
  {
    var i :| 0 <= i < |s| && s[i].id == id;
    if MapEdit(s, id, newText) == MapEdit(s, id, Trim(newText)) {
      assert MapEdit(s, id, newText)[i].text == newText;
    }
  }
}
