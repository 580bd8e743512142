/**
 * The colour theme: a current theme and the browser storage slot that
 * receives it after every change.
 */
module Theme {
  import opened Optional

  const Light := "light"
  const Dark := "dark"

  /** The theme after a toggle: light becomes dark, anything else becomes light. */
  function Toggled(theme: string): (r: string)
    ensures theme == Light ==> r == Dark
    ensures theme != Light ==> r == Light
  {
    if theme == Light then Dark else Light
  }

  /** A toggle always lands on one of the two known themes. */
  lemma ToggledIsKnown(theme: string)
    ensures Toggled(theme) == Light || Toggled(theme) == Dark
  {
  }

  /** Toggling twice restores light or dark; any other theme ends up dark. */
  lemma ToggleTwice(theme: string)
    ensures theme == Light || theme == Dark ==> Toggled(Toggled(theme)) == theme
    ensures theme != Light && theme != Dark ==> Toggled(Toggled(theme)) == Dark
  {
  }

  /** The initial theme: the saved value when it is non-empty (unchecked), else light. */
  function Initial(saved: Option<string>): (r: string)
    ensures saved.Some? && saved.value != [] ==> r == saved.value
    ensures saved.None? || saved.value == [] ==> r == Light
    ensures r != []
  {
    if saved.Some? && saved.value != [] then saved.value else Light
  }

  class ThemeState {
    var theme: string
    /** The storage slot for the theme. */
    var slot: Option<string>

    /** The slot holds the current theme. */
    predicate Saved()
      reads this
    {
      slot == Some(theme)
    }

    /** Starts from the saved theme and writes the theme back to the slot. */
    constructor(saved: Option<string>)
      ensures theme == Initial(saved) && Saved()
    {
      theme := Initial(saved);
      slot := Some(Initial(saved));
    }

    /** Sets any theme, which is saved at once. */
    method SetTheme(next: string)
      modifies this
      ensures theme == next && Saved()
    {
      theme := next;
      slot := Some(next);
    }

    /** Toggles the theme, which is saved at once. */
    method ToggleTheme()
      modifies this
      ensures theme == Toggled(old(theme)) && Saved()
    {
      SetTheme(Toggled(theme));
    }
  }

  /** A saved theme is read back by the next start; a saved empty theme is not, and gives light. */
  lemma RestartReadsBack(theme: string)
    ensures Initial(Some(theme)) == if theme == [] then Light else theme
  {
  }
}
