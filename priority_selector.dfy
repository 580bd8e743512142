/**
 * The priority picker: the priority shown for a stored value, the open /
 * closed menu, and the suggestion flag raised when the chosen priority has
 * pending records.
 */
module PriorityPicker {
  import opened Optional
  import opened Lists
  import opened Tasks

  /** How many recent records a suggestion lists. */
  const RecentCount := 3

  /** The stored spelling of a priority. */
  function PriorityName(p: Priority): string {
    match p
    case Low => "low"
    case Medium => "medium"
    case High => "high"
  }

  /** The priority shown for a stored value: one of the three names, or medium for anything else. */
  function CurrentPriority(value: string): (p: Priority)
    ensures value == "low" ==> p == Low
    ensures value == "high" ==> p == High
    ensures value != "low" && value != "high" ==> p == Medium
  {
    if value == "low" then Low
    else if value == "medium" then Medium
    else if value == "high" then High
    else Medium
  }

  /** Every priority is shown as itself after being stored by name. */
  lemma NameRoundTrip(p: Priority)
    ensures CurrentPriority(PriorityName(p)) == p
  {
  }

  /** The pending records of one priority, in list order. */
  function Matching(s: seq<Todo>, p: Priority): (r: seq<Todo>)
    ensures forall t :: t in r <==> t in s && t.priority == p && !t.completed
    ensures forall t :: multiset(r)[t] == if t.priority == p && !t.completed then multiset(s)[t] else 0
  {
    if s == [] then []
    else
      assert s == [s[0]] + s[1..];
      if s[0].priority == p && !s[0].completed then [s[0]] + Matching(s[1..], p)
      else Matching(s[1..], p)
  }

  /** The sort key that puts the newest record first. */
  function Newest(t: Todo): int {
    -t.createdAt
  }

  /**
   * The suggestion list for a priority: its pending records, newest first
   * (ties in list order), at most three of them. No record is listed more
   * often than the list holds it, and the records sharing one creation time
   * are the first of those in list order.
   */
  function RecentByPriority(s: seq<Todo>, p: Priority): (r: seq<Todo>)
    ensures |r| <= RecentCount
    ensures forall t :: t in r ==> t in s && t.priority == p && !t.completed
    ensures forall i, j :: 0 <= i < j < |r| ==> r[i].createdAt >= r[j].createdAt
    ensures |r| == if |Matching(s, p)| < RecentCount then |Matching(s, p)| else RecentCount
    ensures multiset(r) <= multiset(Matching(s, p))
    ensures forall k :: IsPrefixOf(WithKey(r, Newest, k), WithKey(Matching(s, p), Newest, k))
  {
    var sorted := SortBy(Matching(s, p), Newest);
    var r := Take(sorted, RecentCount);
    forall t | t in r ensures t in s && t.priority == p && !t.completed {
      assert t in multiset(sorted);
    }
    TakeSorted(Matching(s, p), Newest, RecentCount);
    r
  }

  /**
   * The suggestions are the newest pending records of that priority: any
   * such record left out is no newer than every one listed.
   */
  lemma RecentAreNewest(s: seq<Todo>, p: Priority, t: Todo)
    requires t in s && t.priority == p && !t.completed
    requires t !in RecentByPriority(s, p)
    ensures forall u :: u in RecentByPriority(s, p) ==> u.createdAt >= t.createdAt
  {
    var sorted := SortBy(Matching(s, p), Newest);
    assert t in multiset(sorted) by {
      assert t in Matching(s, p);
    }
    TakeSortedBelow(sorted, Newest, RecentCount, t);
  }

  class Picker {
    var isOpen: bool
    /** The priority whose suggestions are shown, if any. */
    var showSuggestions: Option<Priority>

    constructor()
      ensures !isOpen && showSuggestions == None
    {
      isOpen := false;
      showSuggestions := None;
    }

    /** The trigger button opens a closed menu and closes an open one. */
    method ToggleOpen()
      modifies this`isOpen
      ensures isOpen == !old(isOpen)
    {
      isOpen := !isOpen;
    }

    /** A click outside the open menu closes it. */
    method Backdrop()
      modifies this`isOpen
      ensures !isOpen
    {
      isOpen := false;
    }

    /** The close button of the suggestion panel hides the suggestions. */
    method Dismiss()
      modifies this`showSuggestions
      ensures showSuggestions == None
    {
      showSuggestions := None;
    }

    /**
     * Choosing an option: the choice is reported and the menu closes;
     * suggestions for it are raised only when it has pending records.
     */
    method Choose(p: Priority, todos: seq<Todo>) returns (chosen: Priority)
      modifies this
      ensures chosen == p && !isOpen
      ensures showSuggestions == if RecentByPriority(todos, p) != [] then Some(p) else old(showSuggestions)
    {
      var recent := RecentByPriority(todos, p);
      if |recent| > 0 {
        showSuggestions := Some(p);
      }
      chosen := p;
      isOpen := false;
    }
  }

  /** Suggestions are raised exactly when the priority has a pending record. */
  lemma SuggestIffPending(s: seq<Todo>, p: Priority)
    ensures RecentByPriority(s, p) != [] <==> exists t :: t in s && t.priority == p && !t.completed
  {
    if exists t :: t in s && t.priority == p && !t.completed {
      var t :| t in s && t.priority == p && !t.completed;
      assert t in Matching(s, p);
    }
  }
}
