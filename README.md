# Todo app: client-side state, modelled in Dafny

This project models the client-side logic of a small task-list web
application. The application signs users in through an identity provider and
keeps each user's tasks in a remote table. It also has an offline variant
that keeps tasks in browser storage. The model covers:

- **Remote task store** (`RemoteTodos.TodoApp`, file `todo_app.dfy`): the main
  page's state. It has load, add, toggle, delete, edit, clear-completed and
  drag-to-reorder, plus the filtered and sorted view and the counts. Every
  handler calls the persistence service first, and that reply is a parameter
  of the method. The list changes only when the call succeeds, with one
  exception: drag-to-reorder moves the list before the batch is sent, and
  keeps the moved list when the batch throws and the reload that follows
  fails.
- **Local task store** (`LocalTodos.TodoList`, `use_todos.dfy`): the same
  operations applied at once. After the initial load, the whole list is
  mirrored into a storage slot after every change.
- **Shared record code** (`Tasks`, `Lists`, `Text`): the per-record maps and
  filters both stores apply, and `arrayMove`. Also the stable sort the views
  use, and the JavaScript string operations the handlers rely on: `trim`,
  ASCII `toLowerCase`, `includes`, `split`, `join` and the UTF-16 `length`.
- **Session gate** (`Auth.AuthProvider`, `auth.dfy`): the shared `user`,
  `loading`, `error` and `success` state. It covers the initial session
  lookup, session-change events, sign-up, sign-in (with its error
  classification) and sign-out.
- **Translations** (`Language`, `language.dfy`): the Chinese and English
  tables, the dotted-key lookup `t`, and the stored language choice.
- **Registration form** (`Registration`, `register_form.dfy`): the checks
  made before sign-up, the error banner and the enabled state of the submit
  button.
- **Task row editor** (`TodoRow.RowEditor`, `todo_item.dfy`): the inline
  editor of one task.
- **Priority picker** (`PriorityPicker`, `priority_selector.dfy`): the menu
  and its recent-task suggestions.
- **Theme** (`Theme.ThemeState`, `theme.dfy`): the colour theme and its
  storage slot.
- **Routes** (`Routes`, `routes.dfy`): the two route guards and the route
  table.

Behaviour of the code worth knowing:

- Clear-completed removes every completed record unless a delete request
  throws. It does not look at each request's returned error.
- A reorder sends dense positions `0..n-1` but does not write them into the
  local records' own order-index fields.
- A failed load keeps the previous list instead of emptying it.
- Sign-out does not clear the user itself. The session-change event that
  follows does.

## Model

| member | source | states |
|---|---|---|
| Text.TrimStart | src/pages/TodoApp.jsx:74 | The result is a suffix of the input, every dropped character is white space, and the result does not start with white space. |
| Text.TrimEnd | src/pages/TodoApp.jsx:78 | The result is a prefix of the input, every dropped character is white space, and the result does not end with white space. |
| Text.Trim | src/hooks/useTodos.js:30-33 | The trimmed text is the input minus a leading and a trailing run of white space, and it neither starts nor ends with white space. |
| Text.BlankIffAllSpace | src/pages/TodoApp.jsx:74 | A text trims to nothing exactly when every character of it is white space, in both directions. |
| Text.TrimIdempotent | src/components/SortableTodoItem.jsx:40-41 | Trimming an already trimmed text changes nothing. |
| Text.Contains | src/pages/TodoApp.jsx:217 | `includes` holds exactly when the term occurs at some index of the text. |
| Text.Split | src/contexts/LanguageContext.jsx:242 | Splitting yields at least one piece and no piece contains the separator. |
| Text.JoinSplit | src/contexts/LanguageContext.jsx:242 | Joining the pieces of a split with the separator gives back the original key. |
| Text.SplitJoin | src/contexts/LanguageContext.jsx:242 | Splitting a join of separator-free pieces gives back those pieces. |
| Text.CodeUnits | src/components/Auth/RegisterForm.jsx:31 | `length` counts UTF-16 code units: at least one and at most two per character. |
| Lists.InsertRemoved | src/pages/TodoApp.jsx:177 | Re-inserting a removed element at its index restores the list. |
| Lists.RemoveInserted | src/pages/TodoApp.jsx:177 | Removing an element just inserted gives back the list it went into. |
| Lists.ArrayMove | src/pages/TodoApp.jsx:177 | `arrayMove` keeps the length, puts the moved element at the target index, keeps every other element in relative order, and is a permutation. |
| Lists.ArrayMoveAt | src/hooks/useTodos.js:76 | The position every element lands on after a move, case by case. |
| Lists.ArrayMoveAdjacent | src/pages/TodoApp.jsx:172-177 | After a move, the element formerly at the target index sits next to the moved element, on the side it was dragged from. |
| Lists.ArrayMoveUndo | src/pages/TodoApp.jsx:177 | Dragging back from the target to the source undoes a move. |
| Lists.ArrayMoveSame | src/pages/TodoApp.jsx:177 | Moving an element onto its own index changes nothing. |
| Lists.Take | src/components/PrioritySelector.jsx:16 | `slice(0, n)` yields a prefix of at most n elements, and exactly n when the list has that many. |
| Lists.InsertByKey | src/pages/TodoApp.jsx:221 | Inserting into a list sorted by key keeps it sorted and adds exactly that element. |
| Lists.SortBy | src/pages/TodoApp.jsx:221 | The stable sort yields a sorted permutation of its input. |
| Lists.SortByStable | src/pages/TodoApp.jsx:221 | Elements with equal keys keep their input order. |
| Lists.SortByUnique | src/hooks/useTodos.js:98-105 | Every sorted, stable permutation of the input equals the model's sort, so any stable sort engine gives the same view. |
| Lists.SortedStableUnique | src/hooks/useTodos.js:98-105 | Two sorted sequences with the same elements and the same per-key order are equal. |
| Lists.TakeSortedBelow | src/components/PrioritySelector.jsx:15-16 | An element of a sorted list left out of its first n elements has a key no smaller than any element kept. |
| Lists.TakeSorted | src/components/PrioritySelector.jsx:13-16 | The first n elements of a stable sort hold no element more often than the input, and the elements of each key among them are the first of that key in the input. |
| Lists.WithKeyPrefix | src/components/PrioritySelector.jsx:16 | The elements of one key in a prefix are a prefix of that key's elements. |
| Lists.PrefixMultiset | src/components/PrioritySelector.jsx:16 | A prefix holds no element more often than the whole sequence. |
| Tasks.MapToggle | src/pages/TodoApp.jsx:109-111 | Completion flips on exactly the records with that id; the rest, the length and the order are unchanged. |
| Tasks.MapToggleTwice | src/hooks/useTodos.js:45-49 | Toggling the same id twice restores the list. |
| Tasks.MapEdit | src/hooks/useTodos.js:57-61 | The text is replaced on exactly the records with that id; the rest, the length and the order are unchanged. |
| Tasks.RemoveId | src/hooks/useTodos.js:52-54 | Delete keeps exactly the records with other ids, with their multiplicities and in their order. |
| Tasks.Pending | src/hooks/useTodos.js:64-66 | Clear-completed keeps exactly the pending records, with their multiplicities and in their order. |
| Tasks.PendingIdempotent | src/hooks/useTodos.js:64-66 | Clearing the completed records twice is clearing them once. |
| Tasks.CompletedIds | src/pages/TodoApp.jsx:155-156 | The delete requests go exactly to the ids of the completed records, one per completed record. |
| Tasks.FindIndex | src/pages/TodoApp.jsx:172-173 | `findIndex` is -1 exactly when no record has the id; otherwise it is the first index holding it. |
| Tasks.Find | src/pages/TodoApp.jsx:103 | `find` is absent exactly when no record has the id; otherwise it yields the first record in the list with that id. |
| Tasks.EmptyTermMatchesAll | src/hooks/useTodos.js:93-94 | The empty search term matches every record, as would the `includes` test it short-cuts. |
| Tasks.Visible | src/pages/TodoApp.jsx:208-219 | The filtered list keeps exactly the records passing the status test (`StatusMatch`) and the search (`SearchMatch`: the ASCII-lower-cased text, `Lower`, contains the lower-cased term), in list order. |
| Tasks.CountCompleted | src/pages/TodoApp.jsx:227 | The completed count and the pending count add up to the total. |
| Tasks.Stats | src/pages/TodoApp.jsx:225-230 | total = completed + active; active is the number of pending records; completed is the number of delete requests clear-completed would send. |
| Auth.Classify | src/contexts/AuthContext.jsx:87-97 | The unconfirmed-email message, the bad-credentials message and the unconfirmed code are tested in that order: each test decides the category when the earlier ones fail, and a failure is "other" exactly when none matches. |
| Auth.SignInMessageByCategory | src/contexts/AuthContext.jsx:87-97 | For the two recognised failures (`SignInErrorMessage` after `Classify`) the message depends on the category alone. |
| Auth.SignInMessagesDistinguish | src/contexts/AuthContext.jsx:89-92 | An unconfirmed email and wrong credentials always show different messages. |
| Auth.SignInMessagePassesThrough | src/contexts/AuthContext.jsx:95-97 | Any other failure shows the provider's own message unchanged. |
| Auth.UnconfirmedByMessageOrCode | src/contexts/AuthContext.jsx:89-94 | An unconfirmed email shows the same text whether reported by message or by code, and that text differs from the bad-credentials text. |
| Auth.AuthProvider.constructor | src/contexts/AuthContext.jsx:15-18 | Nobody is signed in (so `isAuthenticated`, `IsAuthenticated`, is false) and the initial lookup is pending. |
| Auth.AuthProvider.InitialSession | src/contexts/AuthContext.jsx:20-37 | A missing session is the normal signed-out case and is not reported; any other error is reported and keeps the user; without an error, the gate is authenticated exactly when the provider returned a user; loading ends either way. |
| Auth.AuthProvider.SessionChanged | src/contexts/AuthContext.jsx:42-48 | The pushed session's user replaces ours, so the gate is authenticated exactly when a session was pushed; loading ends and both messages are cleared. |
| Auth.AuthProvider.SignUp | src/contexts/AuthContext.jsx:54-74 | Sign-up never changes the user or whether anybody is authenticated; a rejection is returned and shown; a user created without a session gets the verify-your-email message. |
| Auth.AuthProvider.SignIn | src/contexts/AuthContext.jsx:76-109 | Success adopts the returned user (authenticated exactly when one is returned) with the success message and no error; failure keeps the user and shows the classified message. |
| Auth.AuthProvider.SignOut | src/contexts/AuthContext.jsx:111-123 | Sign-out keeps the user, so `isAuthenticated` is unchanged until the provider's session change, and reports only the provider's error. |
| RemoteTodos.View | src/pages/TodoApp.jsx:204-222 | The view holds exactly the visible records, each as often as the list does, sorted by ascending order index (a missing index counts as 0). |
| RemoteTodos.ViewStable | src/pages/TodoApp.jsx:221 | Records with equal order indices keep their list order in the view. |
| RemoteTodos.Renumber | src/pages/TodoApp.jsx:182-185 | The batch pairs each record of the new order with its position. |
| RemoteTodos.RenumberDense | src/pages/TodoApp.jsx:177-185 | After a reorder, the batch's positions strictly increase and its ids are the list's ids moved the same way: every id as often as the list holds it. |
| RemoteTodos.IdsOfMove | src/pages/TodoApp.jsx:177-185 | Taking the ids commutes with moving a record. |
| RemoteTodos.TodoApp.constructor | src/pages/TodoApp.jsx:33-39 | Empty list, no error, loading, empty input box, medium priority. |
| RemoteTodos.TodoApp.SetInputValue | src/pages/TodoApp.jsx:33 | The input box holds the typed text. |
| RemoteTodos.TodoApp.SetSelectedPriority | src/pages/TodoApp.jsx:35 | The next task's priority is the chosen one. |
| RemoteTodos.TodoApp.DismissError | src/pages/TodoApp.jsx:351 | The error banner is cleared. |
| RemoteTodos.TodoApp.LoadTodos | src/pages/TodoApp.jsx:51-65 | Signed out: nothing changes. Otherwise the fetched list replaces ours, or the list is kept with the load error; loading ends. |
| RemoteTodos.TodoApp.AddTodo | src/pages/TodoApp.jsx:73-96 | Blank input or no user sends nothing. Otherwise the trimmed text is sent with the chosen priority and the list length as order index; on success the returned record goes first and the input resets; on failure nothing but the error changes. |
| RemoteTodos.TodoApp.ToggleTodo | src/pages/TodoApp.jsx:99-116 | An unknown id or no user sends nothing; otherwise the first match's flipped flag is sent and, on success, every record with the id flips; on failure only the error changes. |
| RemoteTodos.TodoApp.DeleteTodo | src/pages/TodoApp.jsx:119-131 | A signed-in delete is always sent; success drops every record with the id; failure only sets the error. |
| RemoteTodos.TodoApp.EditTodo | src/pages/TodoApp.jsx:134-148 | Blank text or no user sends nothing; otherwise the trimmed text is sent and, on success, stored on every record with the id. |
| RemoteTodos.TodoApp.ClearCompleted | src/pages/TodoApp.jsx:151-164 | One delete per completed record is sent; unless a request throws, the list becomes its pending records; if one throws, only the error changes. |
| RemoteTodos.TodoApp.HandleDragEnd | src/pages/TodoApp.jsx:167-193 | No target, equal ids, no user or an unknown id changes nothing. Otherwise the list becomes the move of the dragged record to the target's index and the renumbered batch is sent; if the batch throws, the list is reloaded. |
| RemoteTodos.TodoApp.GetFilteredTodos | src/pages/TodoApp.jsx:204-222 | The result is the view; with neither a filter nor a search, the in-place sort also leaves the page's own list in view order. |
| RemoteTodos.OnlyCompleted | src/pages/TodoApp.jsx:210-211 | The completed filter is the visibility test with the completed status and no search. |
| RemoteTodos.Searched | src/pages/TodoApp.jsx:215-219 | The search filter is the visibility test with no status filter. |
| RemoteTodos.VisibleInTwoSteps | src/pages/TodoApp.jsx:208-219 | Filtering by status and then by search equals filtering by both at once. |
| RemoteTodos.AllVisible | src/pages/TodoApp.jsx:205-212 | With no status filter and no search, every record is visible. |
| RemoteTodos.ActiveVisible | src/pages/TodoApp.jsx:208-209 | With no search, the active filter shows exactly the pending records. |
| RemoteTodos.ActiveViewExample | src/pages/TodoApp.jsx:204-230 | A worked case: one pending and one completed record give an active view of the pending one and counts 2, 1, 1. |
| LocalTodos.Weight | src/hooks/useTodos.js:100 | Priority weights lie between 1 and 3. |
| LocalTodos.LocalRank | src/hooks/useTodos.js:98-105 | Pending records rank 0 to 2 and completed ones 3 to 5. |
| LocalTodos.CompareIsRankOrder | src/hooks/useTodos.js:98-105 | The comparator (`Compare`) has the sign of the rank difference, so sorting with it is the stable sort by rank. |
| LocalTodos.LocalView | src/hooks/useTodos.js:82-106 | The local view holds exactly the visible records, each as often as the list does, sorted by rank. |
| LocalTodos.LocalViewOrder | src/hooks/useTodos.js:98-105 | Pending records come before completed ones, and within each group priorities never rise. |
| LocalTodos.LocalViewStable | src/hooks/useTodos.js:98-105 | Records the comparator calls equal keep their list order. |
| LocalTodos.NewRecord | src/hooks/useTodos.js:31-37 | A new local record has the trimmed text, is pending, has the given priority and no order index. |
| LocalTodos.TodoList.constructor | src/hooks/useTodos.js:5-6 | Empty list, not yet loaded, slot as found. |
| LocalTodos.TodoList.Load | src/hooks/useTodos.js:9-19 | A stored list is adopted, anything else leaves the list as it was (empty after the constructor); from then on the slot mirrors the list. |
| LocalTodos.TodoList.Commit | src/hooks/useTodos.js:22-26 | The new list is written to the slot only once loaded, which keeps the slot mirroring the list. |
| LocalTodos.TodoList.AddTodo | src/hooks/useTodos.js:29-42 | Reports success exactly for non-blank text; then exactly one new record goes at the end; otherwise nothing changes. |
| LocalTodos.TodoList.ToggleTodo | src/hooks/useTodos.js:45-49 | The list becomes its toggle by id, and the slot keeps mirroring it. |
| LocalTodos.TodoList.DeleteTodo | src/hooks/useTodos.js:52-54 | The list drops every record with the id, and the slot keeps mirroring it. |
| LocalTodos.TodoList.EditTodo | src/hooks/useTodos.js:57-61 | The given text, untrimmed, is stored on every record with the id. |
| LocalTodos.TodoList.ClearCompleted | src/hooks/useTodos.js:64-66 | The list becomes its pending records. |
| LocalTodos.TodoList.HandleDragEnd | src/hooks/useTodos.js:69-79 | Equal ids change nothing; otherwise the list is the move of the dragged record to the target's index. |
| LocalTodos.LocalDragIsMove | src/hooks/useTodos.js:72-77 | A local drag puts the dragged record at the target's index, next to the target, keeps the rest in order and loses nothing. |
| LocalTodos.AddPositionsDiffer | src/hooks/useTodos.js:38 | The local store appends and the remote one prepends; the two agree only when every record equals the new one. |
| LocalTodos.EditsAgreeIffTrimmed | src/hooks/useTodos.js:57-61 | The local edit equals the remote (trimmed) edit exactly when the text is already trimmed. |
| Language.Get | src/contexts/LanguageContext.jsx:246-247 | An own property is found exactly when some entry has that key, and the value found is one given for that key. |
| Language.Step | src/contexts/LanguageContext.jsx:246-250 | One step succeeds only inside a table, and only on a key the table has. |
| Language.Lookup | src/contexts/LanguageContext.jsx:241-254 | `t` walks the language's table (`Root`, then `Walk` over the dot-separated segments); a key that resolves to a truthy value yields that value, every other key yields itself. |
| Language.UnknownLanguageEchoes | src/contexts/LanguageContext.jsx:241-254 | A language without a table translates every key to itself. |
| Language.ResolvesInBothOrNeither | src/contexts/LanguageContext.jsx:14-221 | A key resolves in Chinese exactly when it resolves in English, and to a nested table in one exactly when in the other. |
| Language.TablesSameShape | src/contexts/LanguageContext.jsx:14-221 | The two tables have the same keys in the same order at every level, with strings (empty or not) in the same places. |
| Language.WalkSameShape | src/contexts/LanguageContext.jsx:245-251 | Walks over same-shaped tables succeed or fail together and end on same-shaped values. |
| Language.SplitTwo | src/contexts/LanguageContext.jsx:242 | A key of two dot-free segments splits into exactly those segments. |
| Language.SplitThree | src/contexts/LanguageContext.jsx:242 | A key of three dot-free segments splits into exactly those segments. |
| Language.StatsKeyYieldsTable | src/contexts/LanguageContext.jsx:253 | In either language, "todo.stats" yields the nested table, not the key. |
| Language.RegistrationMessages | src/contexts/LanguageContext.jsx:14-221 | In either language the two registration refusals translate to two different strings, neither of which is its key. |
| Language.LookupFound | src/contexts/LanguageContext.jsx:253 | A walk that ends on a non-empty string yields that string. |
| Language.LookupYieldsTable | src/contexts/LanguageContext.jsx:253 | A walk that ends on a nested table yields that table. |
| Language.LookupFalsyEchoes | src/contexts/LanguageContext.jsx:253 | A walk that ends on a falsy value yields the key. |
| Language.WalkStopsAtString | src/contexts/LanguageContext.jsx:246-249 | Stepping past a string fails, so such a key yields itself. |
| Language.StepAsWritten | src/contexts/LanguageContext.jsx:246 | The `in` test agrees with the own-key step where that succeeds, and also admits the inherited names of a table. |
| Language.LookupAsWritten | src/contexts/LanguageContext.jsx:241-254 | `t` as written yields the key or a truthy value reached by the `in`-based walk. |
| Language.WalkAgrees | src/contexts/LanguageContext.jsx:245-251 | The two walks agree on any path naming no inherited property. |
| Language.LookupAgrees | src/contexts/LanguageContext.jsx:241-254 | The two lookups agree on every key none of whose segments is an inherited name. |
| Language.InheritedSegment | src/contexts/LanguageContext.jsx:246 | An inherited name a table lacks is found by the walk as written and not by the own-key walk. |
| Language.ToStringKey | src/contexts/LanguageContext.jsx:246 | "toString" yields an inherited function as written, and the key itself once corrected. |
| Language.Adopted | src/contexts/LanguageContext.jsx:227-232 | A stored "zh" or "en" replaces the current language; anything else leaves it. |
| Language.ChoiceSurvivesRestart | src/contexts/LanguageContext.jsx:224-238 | A stored choice of English survives a restart; any other choice comes back as Chinese. |
| Language.LanguageProvider.constructor | src/contexts/LanguageContext.jsx:224 | The language starts as Chinese: `isZh` holds and `isEn` does not. |
| Language.LanguageProvider.LoadSaved | src/contexts/LanguageContext.jsx:227-232 | The stored choice is adopted as `Adopted` says, so a provider whose language has a table (`isZh` or `isEn`) keeps one. |
| Language.LanguageProvider.ChangeLanguage | src/contexts/LanguageContext.jsx:235-238 | The new language is current and stored, unchecked. |
| Language.LanguageProvider.Translate | src/contexts/LanguageContext.jsx:241-254 | The segment-by-segment loop with early return computes exactly `Lookup`. |
| Language.NeverBoth | src/contexts/LanguageContext.jsx:260-261 | `isZh` and `isEn` (`IsZh`, `IsEn`) never both hold. |
| Registration.Check | src/components/Auth/RegisterForm.jsx:21-34 | Each verdict holds exactly when its check is the first to fail, and acceptance exactly when all fields are filled, the passwords match and the password has at least six code units. |
| Registration.RefusalsTranslated | src/components/Auth/RegisterForm.jsx:22-32 | In either language a refusal (its key chosen by `MessageKey`) is shown translated, never as its raw key, and a mismatch reads differently from the other refusals. |
| Registration.Shown | src/components/Auth/RegisterForm.jsx:154-161 | A string is shown as is; anything else shows as some non-empty text. |
| Registration.MessageNeverEmpty | src/components/Auth/RegisterForm.jsx:22-32 | A refusal's message is never empty, because a failed lookup falls back to its non-empty key. |
| Registration.Banner | src/components/Auth/RegisterForm.jsx:39 | The form's own error takes precedence over the session error; a banner shown is never blank, and none is shown exactly when both errors are empty. |
| Registration.BannerShowsRefusal | src/components/Auth/RegisterForm.jsx:19-39 | A refused submit always shows its own message, whatever error the session holds. |
| Registration.EnabledSubmitHasFields | src/components/Auth/RegisterForm.jsx:167 | A submit the button allows (`SubmitEnabled`: nothing loading, every field filled) is never refused for a missing field. |
| Registration.AstralPasswordPasses | src/components/Auth/RegisterForm.jsx:31 | Three emoji make a password of six code units, which passes the length check. |
| Registration.RegisterForm.constructor | src/components/Auth/RegisterForm.jsx:15 | The form starts with no error. |
| Registration.RegisterForm.HandleSubmit | src/components/Auth/RegisterForm.jsx:17-37 | Sign-up is called exactly when every check passes; otherwise the translated, non-empty refusal message is shown. |
| TodoRow.TrimmedDraftIsClean | src/components/SortableTodoItem.jsx:40-41 | Trimming a non-blank draft gives a clean edit (`CleanEdit`): non-blank and already trimmed. |
| TodoRow.RowEditor.constructor | src/components/SortableTodoItem.jsx:15-16 | Not editing; the draft is the record's text. |
| TodoRow.RowEditor.HandleEdit | src/components/SortableTodoItem.jsx:39-48 | A non-blank draft is forwarded trimmed with the record's id; a blank one is discarded and the draft reset; editing ends either way. |
| TodoRow.RowEditor.HandleKeyDown | src/components/SortableTodoItem.jsx:50-60 | Enter confirms, Escape discards the draft and ends editing, other keys change nothing. |
| TodoRow.RowEditor.Cancel | src/components/SortableTodoItem.jsx:192-195 | The draft goes back to the record's text and editing ends. |
| TodoRow.RowEditor.EditClick | src/components/SortableTodoItem.jsx:70-72 | The edit button switches editing on and off. |
| TodoRow.RowEditor.DoubleClick | src/components/SortableTodoItem.jsx:74-76 | A double click always leaves the row editing. |
| TodoRow.RowEditor.SetEditText | src/components/SortableTodoItem.jsx:16 | The draft holds the typed text. |
| TodoRow.RowEditor.Rerender | src/components/SortableTodoItem.jsx:20-22 | Only a changed record text resets the draft; the same text leaves a draft in progress alone. |
| TodoRow.RowEditor.HandleToggle | src/components/SortableTodoItem.jsx:62-64 | The checkbox forwards the record's id. |
| TodoRow.RowEditor.HandleDelete | src/components/SortableTodoItem.jsx:66-68 | The delete button forwards the record's id. |
| PriorityPicker.CurrentPriority | src/components/PrioritySelector.jsx:46 | "low" and "high" are shown as themselves; every other value, known or not, is shown as medium. |
| PriorityPicker.NameRoundTrip | src/components/PrioritySelector.jsx:19-46 | Every priority stored by its name (`PriorityName`) is shown as itself. |
| PriorityPicker.Matching | src/components/PrioritySelector.jsx:14 | The pending records of one priority, each as often as the list holds it. |
| PriorityPicker.RecentByPriority | src/components/PrioritySelector.jsx:12-17 | At most three pending records of that priority, newest first, exactly min(3, their number), none listed more often than the list holds it, and records of equal creation time taken first-come in list order. |
| PriorityPicker.RecentAreNewest | src/components/PrioritySelector.jsx:15-16 | A matching record left out of the suggestions is no newer than any listed one. |
| PriorityPicker.SuggestIffPending | src/components/PrioritySelector.jsx:101-103 | Suggestions are raised exactly when the priority has a pending record. |
| PriorityPicker.Picker.constructor | src/components/PrioritySelector.jsx:7-8 | The menu is closed and no suggestions are shown. |
| PriorityPicker.Picker.ToggleOpen | src/components/PrioritySelector.jsx:61 | The trigger flips the menu open or closed. |
| PriorityPicker.Picker.Backdrop | src/components/PrioritySelector.jsx:140-144 | A click outside closes the menu. |
| PriorityPicker.Picker.Dismiss | src/components/PrioritySelector.jsx:175-180 | The close button of the suggestion panel hides the suggestions and leaves the menu as it was. |
| PriorityPicker.Picker.Choose | src/components/PrioritySelector.jsx:100-107 | The choice is reported and the menu closes; suggestions switch to it only when it has pending records. |
| Theme.ToggledIsKnown | src/hooks/useTheme.js:18 | A toggle (`Toggled`) always lands on light or dark. |
| Theme.ToggleTwice | src/hooks/useTheme.js:17-19 | Two toggles restore light or dark; any other theme ends up dark. |
| Theme.Initial | src/hooks/useTheme.js:4-8 | The initial theme is never empty: a saved non-empty theme is adopted unchecked, anything else gives light. |
| Theme.ThemeState.constructor | src/hooks/useTheme.js:4-15 | The initial theme is chosen and written back to the slot. |
| Theme.ThemeState.SetTheme | src/hooks/useTheme.js:10-15 | Any theme may be set, and it is saved at once. |
| Theme.ThemeState.ToggleTheme | src/hooks/useTheme.js:17-19 | The theme becomes its toggle and is saved. |
| Theme.RestartReadsBack | src/hooks/useTheme.js:4-15 | A saved theme comes back after a restart, except the empty one, which comes back as light. |
| Routes.GuardsExclusive | src/App.jsx:12-31 | Once loading ends, exactly one of the two guards (`ProtectedRoute`, `PublicRoute`) shows its page. |
| Routes.Route | src/App.jsx:39-69 | Matched on the path without trailing slashes and ignoring ASCII case (`RouteKey`): "/" and "/auth" are public, "/app" protected, and every other path redirects home. |
| Routes.StripTrailingSlashes | src/App.jsx:39-69 | Removes exactly the run of trailing slashes: the result is a prefix not ending in a slash, and only slashes were dropped. |
| Routes.TrailingSlashIgnored | src/App.jsx:39-69 | One more trailing slash never changes where a path leads. |
| Routes.RouteIgnoresCase | src/App.jsx:39-69 | The case of ASCII letters in a path never changes where it leads. |
| Routes.SignInSpellings | src/App.jsx:49-56 | Signed out, "/auth/" and "/AUTH" both show the sign-in page. |
| Routes.EveryPathLands | src/App.jsx:41-69 | Every path reaches a page within two redirects; it is the task list exactly when signed in, and signed out it is the sign-in page for every spelling of "/auth" and the landing page otherwise. |
| Routes.LoadingShowsSpinner | src/App.jsx:12-31 | While the sign-in state loads, every guarded route, in any accepted spelling, shows the spinner. |
| Routes.TaskListNeedsUser | src/App.jsx:12-20 | The task list is shown exactly when the session gate has finished loading and holds a user. |

## Left out

- The identity provider and the persistence service are not modelled. Each call becomes a parameter holding its reply (`Outcome`, `SignUpReply` and the like).
- Asynchrony is not modelled: each handler runs as one atomic step. Interleaved replies and the concurrent deletes of clear-completed (joined by `Promise.all`) are not captured.
- Browser storage and JSON are abstracted. The task slot is a `Slot` value: missing, a stored list, or text that does not parse. Stored JSON that parses to something other than a list is not modelled.
- Setting the `data-theme` attribute on the document is not modelled.
- Clock values are integers. That covers `Date.now()` ids, `toLocaleString()` creation stamps and the `new Date(...)` parsing of creation times. Date parsing and locale formatting are not modelled.
- Text.LowerChar: `toLowerCase` is modelled for ASCII letters only; Unicode case mapping is not.
- All rendering is left out: animation, icons, layout and the drag sensors. Only the state that rendering reads is modelled.
- The three-second timer that hides the priority suggestions again is not modelled. Nor is the page reload of the "Try Again" button in the main page's error banner (src/pages/TodoApp.jsx:356-357).
- The main page's Enter-key handler, which just calls add, is not modelled as a separate member (src/pages/TodoApp.jsx:196-201).
- LocalTodos.Weight: priority strings other than the three names are not modelled. The source comparator would then compute `NaN`.
- RemoteTodos.OrderKey: an order index that is not a number is not modelled. A missing one counts as 0, as in the source.
- Routes.RouteKey: percent-encoded characters in a path are not decoded before matching.
- Language.Inherited: lists the inherited names of a plain object other than `__proto__`.
- Registration.Shown: a non-string translation is shown as a fixed placeholder. The framework's own rendering of such a value is not modelled.
- LocalTodos.TodoList.HandleDragEnd: requires a drop target and, when the ids differ, both ids present in the list. With no target the source dereferences a missing object. With a missing id it passes index -1 to `arrayMove`. Neither path is modelled.
- The login form and the landing, theme-toggle and language-toggle components are not part of this model. The backend client module (src/lib/supabase.js) is not part of this model either.

## Findings

| source | as written | input that shows it | evidently intended | confidence | as-written member | corrected member |
|---|---|---|---|---|---|---|
| src/contexts/LanguageContext.jsx:246 | A key segment is tested with `k in value`, which also sees the properties every object inherits. | `t("toString")` in Chinese steps into the inherited `toString` function, which is truthy, so a function is returned instead of a string. | A segment the table does not define yields the key itself. | not executed | Language.LookupAsWritten (shown by Language.ToStringKey) | Language.Lookup (computed by Language.LanguageProvider.Translate) |
