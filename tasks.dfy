/**
 * The task record and the per-record list transforms that both task stores
 * apply (`map` that rewrites the records with one id, `filter` that drops
 * records), the visibility test of the list view, and the counts.
 */
module Tasks {
  import opened Optional
  import opened Text
  import opened Lists

  datatype Priority = Low | Medium | High

  /**
   * A task record. `orderIndex` is absent on records that never had one (the
   * local store's records, or a row whose column is null); `createdAt` is the
   * creation time as a number.
   */
  datatype Todo = Todo(
    id: int,
    text: string,
    completed: bool,
    priority: Priority,
    orderIndex: Option<int>,
    createdAt: int)

  /** The status filter of the list view: the `'all'`, `'active'` and `'completed'` buttons. */
  datatype Filter = All | Active | Completed

  /** The result of one remote call: its data, or an error (thrown or returned). */
  datatype Outcome<T> = Done(data: T) | Failed

  /** `t` with `completed` flipped when it carries `id`. */
  function FlipIf(t: Todo, id: int): Todo {
    if t.id == id then t.(completed := !t.completed) else t
  }

  /** Flips `completed` on every record carrying `id`; the list keeps its length and order. */
  function MapToggle(s: seq<Todo>, id: int): (r: seq<Todo>)
    ensures |r| == |s|
    ensures forall i :: 0 <= i < |s| && s[i].id == id ==>
      r[i] == s[i].(completed := !s[i].completed)
    ensures forall i :: 0 <= i < |s| && s[i].id != id ==> r[i] == s[i]
  {
    if s == [] then [] else [FlipIf(s[0], id)] + MapToggle(s[1..], id)
  }

  /** Toggling the same id twice gives back the list. */
  lemma {:induction false} MapToggleTwice(s: seq<Todo>, id: int)
    ensures MapToggle(MapToggle(s, id), id) == s
  {
    if s != [] {
      MapToggleTwice(s[1..], id);
      assert MapToggle(s, id)[1..] == MapToggle(s[1..], id);
    }
  }

  /** `t` with its text replaced when it carries `id`. */
  function RetextIf(t: Todo, id: int, text: string): Todo {
    if t.id == id then t.(text := text) else t
  }

  /** Replaces the text of every record carrying `id`. */
  function MapEdit(s: seq<Todo>, id: int, text: string): (r: seq<Todo>)
    ensures |r| == |s|
    ensures forall i :: 0 <= i < |s| && s[i].id == id ==> r[i] == s[i].(text := text)
    ensures forall i :: 0 <= i < |s| && s[i].id != id ==> r[i] == s[i]
  {
    if s == [] then [] else [RetextIf(s[0], id, text)] + MapEdit(s[1..], id, text)
  }

  /** Drops every record carrying `id`; the survivors keep their order. */
  function RemoveId(s: seq<Todo>, id: int): (r: seq<Todo>)
    ensures forall t :: t in r <==> t in s && t.id != id
    ensures forall t :: multiset(r)[t] == if t.id == id then 0 else multiset(s)[t]
    ensures IsSubsequence(r, s)
  {
    if s == [] then []
    else
      assert s == [s[0]] + s[1..];
      if s[0].id == id then RemoveId(s[1..], id)
      else [s[0]] + RemoveId(s[1..], id)
  }

  /** The records still to do, in list order. */
  function Pending(s: seq<Todo>): (r: seq<Todo>)
    ensures forall t :: t in r <==> t in s && !t.completed
    ensures forall t :: multiset(r)[t] == if t.completed then 0 else multiset(s)[t]
    ensures IsSubsequence(r, s)
    ensures |r| <= |s|
  {
    if s == [] then []
    else
      assert s == [s[0]] + s[1..];
      if s[0].completed then Pending(s[1..])
      else [s[0]] + Pending(s[1..])
  }

  /** Clearing the completed records a second time changes nothing. */
  lemma {:induction false} PendingIdempotent(s: seq<Todo>)
    ensures Pending(Pending(s)) == Pending(s)
  {
    if s != [] {
      PendingIdempotent(s[1..]);
    }
  }

  /** The ids of the completed records, in list order: what clear-completed deletes remotely. */
  function CompletedIds(s: seq<Todo>): (r: seq<int>)
    ensures forall id :: id in r <==> exists t :: t in s && t.completed && t.id == id
    ensures |r| + |Pending(s)| == |s|
  {
    if s == [] then []
    else
      assert s == [s[0]] + s[1..];
      assert forall t :: t in s <==> t == s[0] || t in s[1..];
      if s[0].completed then [s[0].id] + CompletedIds(s[1..])
      else CompletedIds(s[1..])
  }

  /** `findIndex` by id: the first index holding `id`, or -1. */
  function FindIndex(s: seq<Todo>, id: int): (r: int)
    ensures -1 <= r < |s|
    ensures r == -1 <==> forall i :: 0 <= i < |s| ==> s[i].id != id
    ensures r >= 0 ==> s[r].id == id && forall i :: 0 <= i < r ==> s[i].id != id
  {
    if s == [] then -1
    else if s[0].id == id then 0
    else
      var r := FindIndex(s[1..], id);
      assert forall i :: 1 <= i < |s| ==> s[i] == s[1..][i - 1];
      if r == -1 then -1 else r + 1
  }

  /** `find` by id: the first record holding `id`. */
  function Find(s: seq<Todo>, id: int): (r: Option<Todo>)
    ensures r.None? <==> forall i :: 0 <= i < |s| ==> s[i].id != id
    ensures r.Some? ==> r.value.id == id && r.value in s
    ensures r.Some? ==> exists i :: 0 <= i < |s| && s[i] == r.value && forall j :: 0 <= j < i ==> s[j].id != id
  {
    var i := FindIndex(s, id);
    if i < 0 then None else Some(s[i])
  }

  /** The status test of the list view. */
  predicate StatusMatch(t: Todo, filter: Filter) {
    match filter
    case All => true
    case Active => !t.completed
    case Completed => t.completed
  }

  /**
   * The search test of the list view: the empty term matches everything;
   * otherwise the lower-cased text must contain the lower-cased term.
   */
  predicate SearchMatch(t: Todo, term: string) {
    term == [] || Contains(Lower(t.text), Lower(term))
  }

  /** The empty search term could be dropped: every string contains the empty string. */
  lemma EmptyTermMatchesAll(t: Todo)
    ensures SearchMatch(t, []) && Contains(Lower(t.text), Lower([]))
  {
    assert OccursAt(Lower(t.text), Lower([]), 0);
  }

  /** The records that pass both tests, in list order. */
  function Visible(s: seq<Todo>, filter: Filter, term: string): (r: seq<Todo>)
    ensures forall t :: t in r <==> t in s && StatusMatch(t, filter) && SearchMatch(t, term)
    ensures forall t :: multiset(r)[t] ==
                        if StatusMatch(t, filter) && SearchMatch(t, term) then multiset(s)[t] else 0
    ensures IsSubsequence(r, s)
  {
    if s == [] then []
    else
      assert s == [s[0]] + s[1..];
      if StatusMatch(s[0], filter) && SearchMatch(s[0], term) then [s[0]] + Visible(s[1..], filter, term)
      else Visible(s[1..], filter, term)
  }

  datatype TaskStats = TaskStats(total: int, completed: int, active: int)

  /** The number of completed records. */
  function CountCompleted(s: seq<Todo>): (n: nat)
    ensures n + |Pending(s)| == |s|
  {
    if s == [] then 0
    else (if s[0].completed then 1 else 0) + CountCompleted(s[1..])
  }

  /** `getStats`: the total, the completed records, and the rest. */
  function Stats(s: seq<Todo>): (r: TaskStats)
    ensures r.total == |s| && r.total == r.completed + r.active
    ensures r.completed == |s| - |Pending(s)| && r.active == |Pending(s)|
    ensures r.completed == |CompletedIds(s)|
  {
    var completed := CountCompleted(s);
    TaskStats(|s|, completed, |s| - completed)
  }
}
