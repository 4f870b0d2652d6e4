# Kanban board state engine, in Dafny

This project models the client-side core of a kanban task board. The board
has three seeded columns: "To Do", "In Progress" and "Done". Cards live in
one flat list, and each card names its column by `columnId` and its position
by `order`.

The model covers:

- **The board store** (`board_store.dfy`). Columns are added, renamed and
  deleted. Cards are created, updated and deleted only after the task gateway
  confirms. A cross-column move is written locally first, then persisted; if
  the write fails, the store reloads from the server. A same-column reorder is
  persisted card by card and committed only when every write succeeds. Each
  asynchronous store call is one atomic step, and what the gateway answers is
  an input.
- **The board screen** (`board.dfy`). The search, priority filter and sort
  projection. A finished drag becomes a no-op, a `reorderCards` call or a
  `moveCard` call. The screen's drag-overlay and delete-confirmation state.
- **The column view** (`column_view.dfy`). The column's own sort by `order`,
  its colour scheme with a fallback, and its count badge.
- **The react-query task hooks** (`task_hooks.dfy`). The query keys. The
  optimistic `setQueryData` updaters. The `onMutate` snapshot and the
  `onError` rollback on a mutable query cache.
- **The user-profile store** (`user_store.dfy`). Its setters and the
  projection of it that is persisted.
- **The multi-select control** (`multi_select.dfy`). Toggling and removing
  selected items, where identity is by id.
- **The add and edit task forms** (`task_forms.dfy`). Their six fields,
  loading a card into the edit form, and the submit normalisation.
- **The due-date input's validation** (`date_input.dfy`).
- **The settings panel** (`settings.dfy`). Avatar file checks, the save
  payload and its status messages, the avatar URL fallback, and the profile
  load that keeps the stored avatar.

Shared pieces:

- `types.dfy` holds the entities. A JavaScript `undefined` is `None`. A
  `Partial<T>` spread is a record of `Patch`es: `Keep` when the key is
  absent, `Set(v)` when it is present, even when `v` is `undefined`.
- `seq_util.dfy` holds `filter`, `some`, `find`, `findIndex` and `map` on
  lists.
- `text.dfy` holds `trim`, ASCII lower-casing, `includes`, code-unit
  comparison and decimal rendering.
- `sorting.dfy` models `Array.prototype.sort` as a stable insertion sort.

Three host primitives are parameters:

- `localeCompare` is a function `titleOrder`.
- The date parser's verdict is a predicate `parses`.
- `encodeURIComponent` is a function `encode`.

Due dates are `YYYY-MM-DD` strings. They compare chronologically exactly when
they compare as strings, so the due-date sort uses string comparison.

Card order within a column:

- `order` is renumbered 0..N-1 only on the reorder path.
- `deleteCard` and `moveCard` leave gaps, and `addCard`, which takes the
  column's card count as the new order, can then repeat an order.
- `BoardStore.DeleteLeavesGap`, `BoardStore.MoveLeavesGapInSource` and
  `BoardStore.AddAfterDeleteDuplicatesOrder` show these cases.
- `BoardStore.ReorderMakesDense` and `Board.DragReorderList` prove density on
  the reorder path.

## Model

| member | source | states |
|---|---|---|
| Types.Merge | src/store/boardStore.ts:132 | A spread key that is present wins, even when it is `undefined`; an absent key keeps the card's value |
| Types.MergeEmptyIsIdentity | src/store/boardStore.ts:132 | Spreading an object without keys leaves the card as it was |
| Types.MergeIdempotent | src/hooks/useTasks.ts:109 | Spreading the same partial card twice equals spreading it once |
| Types.MergeCompose | src/hooks/useTasks.ts:114 | Two spreads in a row equal one spread of the combined object, where the later keys win |
| SeqUtil.Find | src/components/Board.tsx:102 | `find` yields a value exactly when some element passes, and then it is the first one that passes |
| SeqUtil.FindIndex | src/components/Board.tsx:140-141 | `findIndex` is -1 exactly when no element passes; otherwise it is the first passing index |
| SeqUtil.Filter | src/components/Board.tsx:52-57 | `filter` never lengthens a list; `FilterMembers`, `FilterMultiset` and `FilterConcat` prove it keeps exactly the passing elements, in order |
| Sorting.SortSorted | src/components/Board.tsx:65-87 | Sorting with a comparator that is antisymmetric on the input gives a list in comparator order |
| Sorting.SortStable | src/components/Board.tsx:65-87 | Cards that compare equal keep their input order, because the sort is stable |
| Sorting.Sort | src/components/Board.tsx:65-87 | `Array.prototype.sort` returns a permutation of its input; its order is stated by `SortSorted` and `SortStable` |
| Text.Trim | src/components/AddTaskModal.tsx:33 | `trim` cuts exactly the leading and trailing ECMAScript white space, and keeps a contiguous piece |
| Text.BlankIffAllSpaces | src/components/AddTaskModal.tsx:33 | `!title.trim()` holds exactly when every character is white space |
| Text.TrimIdempotent | src/components/EditTaskModal.tsx:48 | Trimming a trimmed string changes nothing |
| Text.Lower | src/components/Board.tsx:54 | Lower-casing leaves no ASCII upper-case letter, shifts each upper-case letter to its lower-case partner, and keeps every other character in place |
| Text.LowerIdempotent | src/components/Board.tsx:54 | Lower-casing a lower-cased string changes nothing |
| Text.Includes | src/components/Board.tsx:54-55 | `includes` holds exactly when the substring occurs at some position |
| Text.CompareStringsAntisymmetric | src/components/Board.tsx:77-78 | Comparing due dates with the operands swapped negates the result |
| Text.CompareStringsTransitive | src/components/Board.tsx:77-78 | The due-date comparison is transitive |
| Text.Decimal | src/hooks/useTasks.ts:68 | The clock reading in an id is rendered as decimal digits without a leading zero whose value is the reading |
| Text.DecimalInjective | src/store/boardStore.ts:53 | Two readings render to the same digits exactly when they are equal |
| BoardStore.RenameColumn | src/store/boardStore.ts:61-66 | Only the title of the column with that id changes; ids, orders and positions are kept |
| BoardStore.NewColumn | src/store/boardStore.ts:52-57 | The new column has a `column-` id from the clock, the given title, order equal to the column count, and no cards |
| BoardStore.NewColumnIdsDistinct | src/store/boardStore.ts:53 | Two clock readings give the same column id exactly when they are equal |
| BoardStore.RemoveColumn | src/store/boardStore.ts:70 | The columns without the deleted id; `DeleteColumnRemovesItsCards` states what goes |
| BoardStore.CreatedCard | src/store/boardStore.ts:84-102 | The stored card is the client-built one, with the column count read before the call as its order, under the server id |
| BoardStore.PatchMatching | src/store/boardStore.ts:131-133 | The cards with the id get the spread and the others are kept, list length unchanged; `UpdateCardChangesOnlyFields` states the fields |
| BoardStore.RemoveCard | src/store/boardStore.ts:145 | The cards without the id; `DeleteCardKeepsOthers` states what stays |
| BoardStore.CardsOutside | src/store/boardStore.ts:186 | The cards of every other column, in store order |
| BoardStore.CommitReorder | src/store/boardStore.ts:185-188 | The other columns' cards followed by the given list; `ReorderReplacesColumn` and `ReorderMakesDense` state its effect |
| BoardStore.AllSettled | src/store/boardStore.ts:180-182 | `Promise.all` over the per-card writes succeeds exactly when every write succeeds |
| BoardStore.Store.constructor | src/store/boardStore.ts:43-48 | The store starts with the three seeded columns and no cards |
| BoardStore.Store.AddColumn | src/store/boardStore.ts:50-59 | The new column is appended with order equal to the column count; the cards are unchanged |
| BoardStore.Store.UpdateColumn | src/store/boardStore.ts:61-66 | The column list becomes the renamed one; the cards are unchanged |
| BoardStore.Store.DeleteColumn | src/store/boardStore.ts:68-72 | The column is removed together with every card in it |
| BoardStore.Store.AddCard | src/store/boardStore.ts:74-107 | On success the client-built card is appended under the server's id; on failure nothing changes and the call rejects |
| BoardStore.Store.UpdateCard | src/store/boardStore.ts:109-139 | On success the six fields are spread over every card with the id; on failure nothing changes and the call rejects |
| BoardStore.Store.DeleteCard | src/store/boardStore.ts:141-151 | On success every card with the id is removed; on failure nothing changes and the call rejects |
| BoardStore.Store.MoveCard | src/store/boardStore.ts:153-175 | The move is written first. A failed write reloads from the server. When the reload also fails, the move stays and the call rejects |
| BoardStore.Store.ReorderCards | src/store/boardStore.ts:177-195 | The column's list is committed only if every write succeeds. Otherwise the store reloads from the server. When the reload fails, the cards are unchanged and the call rejects |
| BoardStore.Store.FetchTasks | src/store/boardStore.ts:197-206 | The card list is replaced by the server's list; on failure it is unchanged and the call rejects |
| BoardStore.InitialColumnsAreSeeded | src/store/boardStore.ts:43-47 | The seeded columns are `todo`, `in-progress` and `done`, each at its own position and without nested cards |
| BoardStore.AddColumnKeepsPositions | src/store/boardStore.ts:50-59 | Adding a column keeps every column at the position its order names |
| BoardStore.DeleteColumnRemovesItsCards | src/store/boardStore.ts:68-72 | Exactly the column and exactly its cards go; the deleted column has no cards left |
| BoardStore.AddCardAppendsToColumn | src/store/boardStore.ts:84-102 | The new card goes to the end of its column, with order equal to the column's earlier count; other columns are unchanged |
| BoardStore.UpdateCardChangesOnlyFields | src/store/boardStore.ts:119-134 | Matching cards get exactly the six given fields, and an absent argument clears its field; id, column, order and other cards are unchanged |
| BoardStore.DeleteCardKeepsOthers | src/store/boardStore.ts:144-146 | Every card with the id goes; every other card stays with its multiplicity |
| BoardStore.MoveCardRewritesOnlyTarget | src/store/boardStore.ts:156-162 | Only the moved card's column and order are rewritten |
| BoardStore.ReorderReplacesColumn | src/store/boardStore.ts:185-188 | After the commit, the column's cards are exactly the given list, and other columns are unchanged |
| BoardStore.ReorderMakesDense | src/store/boardStore.ts:185-188 | Committing a list numbered 0..N-1 leaves the column's orders dense |
| BoardStore.DeleteLeavesGap | src/store/boardStore.ts:141-151 | Deleting from a dense column leaves a gap, because nothing is renumbered |
| BoardStore.AddAfterDeleteDuplicatesOrder | src/store/boardStore.ts:84-91 | After such a gap, a new card takes an order that is already used |
| BoardStore.MoveLeavesGapInSource | src/store/boardStore.ts:153-162 | Moving a card out of a dense column leaves a gap in the source column |
| ColumnView.SortedCardsOrdered | src/components/Column.tsx:36 | The column's sorted copy holds the same cards, in non-decreasing order |
| ColumnView.SortedCardsStable | src/components/Column.tsx:36 | Cards with equal order keep the order the column received them in |
| ColumnView.ColumnColorFallback | src/components/Column.tsx:19-26 | The seeded ids get their own scheme; any other id gets the to-do scheme |
| ColumnView.SortedCards | src/components/Column.tsx:36 | The column's copy sorted by order; `SortedCardsOrdered` and `SortedCardsStable` state the result |
| ColumnView.ColumnColorFor | src/components/Column.tsx:19-26 | The table entry for the id, or the to-do entry; `ColumnColorFallback` states which |
| ColumnView.CountBadge | src/components/Column.tsx:48 | The badge shows how many cards the column was given; `Board.ColumnShowsPassingCards` ties the count to the store |
| Board.ProjectContents | src/components/Board.tsx:47-62 | The projection holds exactly the cards that pass the search and the priority filter, each with its multiplicity; with neither, it is a permutation of all cards |
| Board.TextMatches | src/components/Board.tsx:54-55 | The lower-cased text includes the lower-cased query |
| Board.SearchIgnoresCase | src/components/Board.tsx:54-55 | Lower-casing the text or the query first changes no match, so the search ignores ASCII case |
| Board.SearchHit | src/components/Board.tsx:52-56 | The title matches, or a description is present and matches |
| Board.Passes | src/components/Board.tsx:51-62 | A card survives when the query is empty or hits and the filter is "all" or its priority; `ProjectContents` keeps exactly these cards |
| Board.HasDue | src/components/Board.tsx:73-75 | `!!dueDate`: a missing and an empty due date both count as no date |
| Board.CompareBy | src/components/Board.tsx:66-84 | The ascending comparison by title collation, by due date with undated cards last, or by order; `CompareByFlips` and `DatedBeforeUndated` state its properties |
| Board.Comparator | src/components/Board.tsx:86 | Descending negates the whole ascending comparison, the undated rule included |
| Board.Project | src/components/Board.tsx:47-90 | Search, then the priority filter, then the sort; `ProjectContents` and `ProjectSorted` state what it holds and in what order |
| Board.DisplayedAsWritten | src/components/Column.tsx:36 | The column re-sorts by order the cards the board passes it; `TitleSortHiddenByColumn` shows the board's sort is lost |
| Board.Displayed | src/components/Column.tsx:36 | The corrected column shows its cards in the board's order; `DisplayedKeepsDueDatePlacement` proves the due-date sort survives |
| Board.CompareByFlips | src/components/Board.tsx:65-86 | For every sort key, swapping the operands flips the sign of the comparison, given a sign-antisymmetric collation for titles |
| Board.ProjectSorted | src/components/Board.tsx:64-87 | The projection is in the order of the chosen key and direction |
| Board.DueDatesPlacement | src/components/Board.tsx:72-86 | Ascending puts every dated card before every undated one; descending puts every undated card first |
| Board.OrderSortStable | src/components/Board.tsx:80-83 | Sorting by order keeps cards with equal order in store order |
| Board.SearchScenario | src/components/Board.tsx:51-57 | Searching "bug" keeps "Fix bug in login" and drops "Add feature" |
| Board.DueDateAscScenario | src/components/Board.tsx:64-87 | Dates 2024-01-10, none, 2024-01-05 sort ascending to 2024-01-05, 2024-01-10, none |
| Board.DueDateDescScenario | src/components/Board.tsx:64-87 | The same cards sort descending to none, 2024-01-10, 2024-01-05 |
| Board.ColumnShowsPassingCards | src/components/Board.tsx:386-388 | A column gets exactly its passing cards; with no search and no filter, its badge counts all of its cards |
| Board.TitleSortHiddenByColumn | src/components/Column.tsx:36 | As written, the column re-sorts by order, so the title sort shows "Beta" before "Alpha" |
| Board.TitleSortShownByColumn | src/components/Column.tsx:36 | Without the re-sort, the column shows "Alpha" before "Beta" |
| Board.DisplayedKeepsDueDatePlacement | src/components/Column.tsx:36 | Without the re-sort, each column keeps the due-date placement of the projection |
| Board.ArrayMove | src/components/Board.tsx:145 | `arrayMove` keeps the length and the elements, puts the moved element at the target index, and keeps every other element in its relative order |
| Board.Renumber | src/components/Board.tsx:145-150 | The orders become 0..N-1 and every other field of every card is kept |
| Board.DragEnd | src/components/Board.tsx:108-162 | The store call a drop asks for: none, a reorder or a move; `DragEndNoOps`, `DragEndTarget` and `DragReorderList` state which and with what |
| Board.ColumnReorder | src/components/Board.tsx:136-152 | The same-column branch: sort the column, find both indices, move, renumber; `ColumnReorderList` states the result |
| Board.ColumnReorderKeepsOthers | src/components/Board.tsx:140-150 | Apart from the orders, the dragged card lands at the over card's sorted index and every other card keeps its relative order |
| Board.DragEndNoOps | src/components/Board.tsx:112-143 | No call is made for: no drop target; an unknown card; a target that is neither a column nor a card; the card's own column; the card itself |
| Board.DragEndTarget | src/components/Board.tsx:120-160 | The target column is the dropped-on column or the dropped-on card's column. A move goes to another column, at that column's card count |
| Board.ColumnReorderStaysInColumn | src/components/Board.tsx:136-152 | A reorder lists only cards of the target column |
| Board.ColumnReorderPermutes | src/components/Board.tsx:136-150 | Apart from their orders, the reordered list holds exactly the column's cards |
| Board.DragReorderList | src/components/Board.tsx:132-152 | The reorder list is the column's cards numbered 0..N-1. The dragged card takes the dropped-on card's sorted position, and every other card keeps its relative order. Committing the list makes the column dense |
| Board.ColumnReorderList | src/components/Board.tsx:136-150 | A same-column reorder lists the column's cards, and only those, numbered 0..N-1. The dragged card takes the over card's sorted index and every other card keeps its relative order. Committing the list makes the column dense |
| Board.ColumnReorderLands | src/components/Board.tsx:140-145 | The dragged card lands at the index the over card had in the sorted column |
| Board.DragReorderIsColumnReorder | src/components/Board.tsx:132-152 | A drop that reorders is a drop onto a card of the dragged card's own column |
| Board.DatedBeforeUndated | src/components/Board.tsx:72-76 | A card with a due date compares before a card without one, in either argument order |
| Board.MoveScenario | src/components/Board.tsx:153-160 | Dropping a to-do card on "done", which holds two cards, moves it there with order 2 |
| Board.ReorderScenario | src/components/Board.tsx:108-152 | Dropping C on A in the seeded board calls `reorderCards("todo", [C0, A1, B2])` |
| Board.BoardView.constructor | src/components/Board.tsx:31-33 | No card is being dragged or deleted |
| Board.BoardView.HandleDragStart | src/components/Board.tsx:100-106 | A known card becomes the overlay card; an unknown id changes nothing |
| Board.BoardView.HandleDragEnd | src/components/Board.tsx:108-162 | The overlay clears, and the store call follows the decision: a reorder, a move, or nothing |
| Board.BoardView.HandleDeleteCard | src/components/Board.tsx:164-169 | A known card opens the delete confirmation; an unknown id changes nothing |
| Board.BoardView.ConfirmDelete | src/components/Board.tsx:171-176 | With a pending card, its deletion is issued; the confirmation always closes |
| TaskHooks.KeyShapes | src/hooks/useTasks.ts:6-13 | The list key is `["tasks","list"]` and a detail key is `["tasks","detail",id]`; each key extends its parent key |
| TaskHooks.KeysSeparate | src/hooks/useTasks.ts:6-13 | Detail keys are equal exactly when their ids are; the list key is no detail key and neither is a prefix of the other |
| TaskHooks.Snapshot | src/hooks/useTasks.ts:59-61 | `getQueryData` yields the cached value exactly when the key is cached |
| TaskHooks.SetData | src/hooks/useTasks.ts:78 | `setQueryData` stores a defined value and leaves the cache as it is for `undefined`; `RestoreSnapshot` states the consequence |
| TaskHooks.RestoreSnapshot | src/hooks/useTasks.ts:78 | Writing back a snapshot undoes a write only when the key was cached; otherwise the write stays |
| TaskHooks.CreateUpdater | src/hooks/useTasks.ts:64-71 | The previous list is kept, and the new task is appended with a `temp-` id and order equal to the list length |
| TaskHooks.TempIdsDistinct | src/hooks/useTasks.ts:68 | Two clock readings give the same `temp-` id exactly when they are equal |
| TaskHooks.UpdateListUpdaterMergesMatching | src/hooks/useTasks.ts:108-110 | Tasks with the id get the patch spread over them; the others are unchanged |
| TaskHooks.UpdateListUpdater | src/hooks/useTasks.ts:108-110 | The list with the partial task spread over the entries with the id |
| TaskHooks.DeleteUpdater | src/hooks/useTasks.ts:152-154 | The list without the entries with the id |
| TaskHooks.CreateMutated | src/hooks/useTasks.ts:64-71 | The cache after the create updater: the list entry replaced by the prior list (or `[]`) plus the placeholder |
| TaskHooks.UpdateMutated | src/hooks/useTasks.ts:107-115 | The cache after both update updaters: the patched list, and the patched detail when one is cached |
| TaskHooks.DeleteMutated | src/hooks/useTasks.ts:151-154 | The cache after the delete updater |
| TaskHooks.ListRolledBack | src/hooks/useTasks.ts:77-79 | The list snapshot written back through `setQueryData`, as written; `CreateRollbackAsWritten` states the outcome |
| TaskHooks.UpdateRolledBack | src/hooks/useTasks.ts:120-126 | The list then the detail snapshot written back, as written; `UpdateRollbackAsWritten` states the outcome |
| TaskHooks.Restore | src/hooks/useTasks.ts:78 | The corrected rollback writes the snapshot back or drops the entry; `RestoreUndoesWrite` proves it undoes any write |
| TaskHooks.UpdateDetailUpdater | src/hooks/useTasks.ts:113-115 | A cached detail gets the patch; a missing detail stays missing |
| TaskHooks.CreateRollbackAsWritten | src/hooks/useTasks.ts:54-79 | A failed create restores a cached list. With no list cached, the placeholder list stays |
| TaskHooks.UpdateRollbackAsWritten | src/hooks/useTasks.ts:96-126 | A failed update restores the cache when a list was cached. Otherwise an empty list stays |
| TaskHooks.DeleteRollbackAsWritten | src/hooks/useTasks.ts:144-161 | A failed delete restores the cache when a list was cached. Otherwise an empty list stays |
| TaskHooks.CreateRollbackKeepsPlaceholder | src/hooks/useTasks.ts:64-79 | From an empty cache, a failed create leaves the `temp-7` card in the list |
| TaskHooks.RestoreUndoesWrite | src/hooks/useTasks.ts:78 | A rollback that removes the key when the snapshot is missing undoes any write |
| TaskHooks.IntendedRollbackRestores | src/hooks/useTasks.ts:77-79 | With that rollback, a failed create or delete restores the cache exactly |
| TaskHooks.QueryCache.constructor | src/hooks/useTasks.ts:40 | The query cache starts empty |
| TaskHooks.QueryCache.GetQueryData | src/hooks/useTasks.ts:59-61 | Reading a key yields its entry exactly when the key is cached |
| TaskHooks.QueryCache.SetQueryData | src/hooks/useTasks.ts:78 | Writing a value stores it; writing `undefined` leaves the cache as it was |
| TaskHooks.CreateOnMutate | src/hooks/useTasks.ts:54-74 | Snapshots the list, appends the placeholder task, and returns the snapshot as the context |
| TaskHooks.ListOnError | src/hooks/useTasks.ts:77-79 | Writes the list snapshot back, as written |
| TaskHooks.UpdateOnMutate | src/hooks/useTasks.ts:96-118 | Snapshots the list and the detail, then applies the patch to both |
| TaskHooks.UpdateOnError | src/hooks/useTasks.ts:120-126 | Writes both snapshots back, as written |
| TaskHooks.DeleteOnMutate | src/hooks/useTasks.ts:144-157 | Snapshots the list and drops the task from it |
| UserStore.InitialProfile | src/store/userStore.ts:18-24 | The profile starts with id "1" and every other field `''` |
| UserStore.Spread | src/store/userStore.ts:30-33 | `{ ...profile, ...updates }`; `SpreadOverwritesExactlyGiven` states which keys change |
| UserStore.WithAvatar | src/store/userStore.ts:26-27 | `{ ...profile, avatar }`; `WithAvatarChangesOnlyAvatar` proves only the avatar changes |
| UserStore.Partialize | src/store/userStore.ts:37-42 | The persisted state is the avatar alone; `PartializeKeepsOnlyAvatar` states it |
| UserStore.ProfileStore.Persist | src/store/userStore.ts:37-42 | What the store persists of its current profile |
| UserStore.ProfileStore.constructor | src/store/userStore.ts:17-24 | The store starts with the initial profile |
| UserStore.ProfileStore.SetProfile | src/store/userStore.ts:25 | The whole profile is replaced |
| UserStore.ProfileStore.SetAvatar | src/store/userStore.ts:26-27 | Only the avatar changes |
| UserStore.ProfileStore.RemoveAvatar | src/store/userStore.ts:28-29 | The avatar becomes `''` and nothing else changes |
| UserStore.ProfileStore.UpdateProfile | src/store/userStore.ts:30-33 | The update is spread over the profile |
| UserStore.SpreadOverwritesExactlyGiven | src/store/userStore.ts:30-33 | Exactly the keys the update carries are overwritten, even with `undefined`; the rest are kept |
| UserStore.SpreadNothingIsIdentity | src/store/userStore.ts:30-33 | An empty update changes nothing |
| UserStore.SpreadIdempotent | src/store/userStore.ts:30-33 | Applying the same update twice equals applying it once |
| UserStore.WithAvatarChangesOnlyAvatar | src/store/userStore.ts:26-29 | Setting the avatar changes only the avatar, as an update carrying only `avatar` would |
| UserStore.PartializeKeepsOnlyAvatar | src/store/userStore.ts:37-42 | Two profiles persist the same state exactly when their avatars agree |
| UserStore.AvatarSetThenRemoved | src/store/userStore.ts:26-42 | Setting and then removing an avatar ends with the initial profile, which persists `''` |
| MultiSelect.Remove | src/components/ui/MultiSelect.tsx:39-43 | The result holds exactly the selected items whose id differs from the item's |
| MultiSelect.Toggle | src/components/ui/MultiSelect.tsx:29-37 | A selected id is removed everywhere; an unselected item is appended after the unchanged list |
| MultiSelect.RemoveDropsEveryMatch | src/components/ui/MultiSelect.tsx:39-43 | After a remove, no item with the id is selected, and every other item keeps its multiplicity |
| MultiSelect.RemoveKeepsOrder | src/components/ui/MultiSelect.tsx:42 | Removing works piece by piece on a list, so the rest keep their order |
| MultiSelect.RemoveAbsentIsIdentity | src/components/ui/MultiSelect.tsx:42 | Removing an unselected item changes nothing |
| MultiSelect.RemoveIdempotent | src/components/ui/MultiSelect.tsx:39-43 | Removing twice equals removing once |
| MultiSelect.ToggleFlipsSelection | src/components/ui/MultiSelect.tsx:29-37 | After a toggle, the item is selected exactly when it was not selected before |
| MultiSelect.ToggleTwiceRestores | src/components/ui/MultiSelect.tsx:29-37 | Toggling an unselected item twice restores the list |
| MultiSelect.SameIdSameItem | src/components/ui/MultiSelect.tsx:30-31 | Items with the same id are treated as the same item by both operations |
| MultiSelect.RenamedTagDeselects | src/components/ui/MultiSelect.tsx:29-33 | A tag edited apart from its id still deselects the selected tag |
| TaskForms.OrUndefined | src/components/AddTaskModal.tsx:38 | An empty string becomes `undefined`; any other string is kept |
| TaskForms.ListOrUndefined | src/components/AddTaskModal.tsx:40-41 | An empty list becomes `undefined`; any other list is kept |
| TaskForms.Submitted | src/components/AddTaskModal.tsx:31-43 | A blank title sends nothing. Otherwise the title and description are trimmed. Blank or empty optionals become `undefined`, and the priority is always sent |
| TaskForms.LoadedFields | src/components/EditTaskModal.tsx:31-40 | The form takes each of the card's fields, or the form default when the field is missing |
| TaskForms.SubmittedIsNormal | src/components/AddTaskModal.tsx:33-42 | What the form sends has a trimmed title, no empty optionals, and a priority |
| TaskForms.ReloadResubmits | src/components/EditTaskModal.tsx:31-54 | Opening a normal card and saving it unedited sends back its fields, and they leave the card unchanged |
| TaskForms.SubmitIsStable | src/components/EditTaskModal.tsx:31-54 | A created card sends the same fields again when it is opened in the edit form and saved unedited |
| TaskForms.MissingPrioritySentAsMedium | src/components/EditTaskModal.tsx:35-50 | A card without a priority is saved with `medium` |
| TaskForms.BlankOptionalsSentAsUndefined | src/components/AddTaskModal.tsx:38-42 | A whitespace description, an empty date and empty lists are sent as `undefined` |
| TaskForms.AddTaskModal.constructor | src/components/AddTaskModal.tsx:24-29 | The form starts blank, with priority `medium` |
| TaskForms.AddTaskModal.Fill | src/components/AddTaskModal.tsx:69-108 | The inputs set the six fields |
| TaskForms.AddTaskModal.HandleSubmit | src/components/AddTaskModal.tsx:31-52 | A blank title changes nothing. Otherwise `addCard` gets the normalised fields, the form resets, and `onClose` runs |
| TaskForms.EditTaskModal.constructor | src/components/EditTaskModal.tsx:24-40 | Mounting loads the card into the form |
| TaskForms.EditTaskModal.ReceiveCard | src/components/EditTaskModal.tsx:31-40 | A new card property reloads all six fields |
| TaskForms.EditTaskModal.Fill | src/components/EditTaskModal.tsx:74-113 | The inputs set the six fields |
| TaskForms.EditTaskModal.HandleSubmit | src/components/EditTaskModal.tsx:42-57 | A blank title changes nothing. Otherwise `updateCard` gets the card id and the normalised fields, and `onClose` runs |
| TaskForms.UnchangedSaveKeepsCards | src/components/EditTaskModal.tsx:42-57 | Saving an unedited normal card leaves the store's cards as they were |
| TaskForms.PatchFixingCardKeepsAll | src/store/boardStore.ts:130-134 | A patch that leaves the card unchanged leaves the list unchanged |
| DateInput.MatchesDatePattern | src/components/ui/DateInput.tsx:14-15 | Exactly ten characters: digits, with `-` at positions 4 and 7 |
| DateInput.IsValidDate | src/components/ui/DateInput.tsx:12-18 | The empty string is valid; any other string must match the pattern and parse |
| DateInput.DisplayValue | src/components/ui/DateInput.tsx:20 | The value is shown exactly when it is valid; otherwise `''` is shown |
| DateInput.DisplayValueIsValid | src/components/ui/DateInput.tsx:20 | What is shown is valid, and showing it again changes nothing |
| DateInput.WrongLengthBlanked | src/components/ui/DateInput.tsx:14-20 | A non-empty value that is not ten characters long is blanked out |
| DateInput.ShapeExamples | src/components/ui/DateInput.tsx:14-15 | `2024-1-05`, `2024/01/05` and `05-01-2024` are rejected |
| DateInput.ShapeIsNotEnough | src/components/ui/DateInput.tsx:16-17 | A well-shaped string that does not parse is blanked out |
| Settings.CheckFile | src/components/Settings.tsx:48-62 | The checks run in order: no file, too large, wrong type, accepted |
| Settings.MatchesImageType | src/components/Settings.tsx:59 | The unanchored type pattern; `TypeCheckIsUnanchored`, `NoImageSlashRejected` and `OtherTypesRejected` state what passes |
| Settings.Alert | src/components/Settings.tsx:53-62 | Exactly the two rejections show an alert |
| Settings.SizeLimitIsInclusive | src/components/Settings.tsx:53 | Exactly 2 MiB is accepted; one byte more is too large |
| Settings.TypeCheckIsUnanchored | src/components/Settings.tsx:59 | The four image types pass, and so do `image/pngx` and `x-image/gif+zip` |
| Settings.NoImageSlashRejected | src/components/Settings.tsx:59 | A type without `image/` is rejected |
| Settings.OtherTypesRejected | src/components/Settings.tsx:59-62 | `text/plain` and `IMAGE/PNG` are rejected, because the check is case-sensitive |
| Settings.SavePayloadSplitsProfile | src/components/Settings.tsx:87-88 | The payload plus the avatar is the profile; the avatar never reaches the server |
| Settings.SavePayload | src/components/Settings.tsx:86-88 | The profile without its avatar, sent to the server |
| Settings.AvatarUrl | src/components/Settings.tsx:103-109 | A non-empty avatar is the URL; otherwise the URL is the fallback built from the encoded name |
| Settings.AvatarUrlFollowsStore | src/components/Settings.tsx:103-109 | The URL is never empty. Removing the avatar gives the fallback, and a set avatar is shown |
| Settings.LoadKeepsStoredAvatar | src/components/Settings.tsx:33-36 | A loaded profile takes the server's fields and keeps the stored avatar, so the persisted state is unchanged |
| Settings.LoadedProfile | src/components/Settings.tsx:33-36 | The fetched profile with the stored avatar |
| Settings.LoadProfileEffect | src/components/Settings.tsx:28-46 | The profile is loaded only while the name is empty, and a failed load changes nothing |
| Settings.HandleFileChange | src/components/Settings.tsx:48-71 | Only an accepted file becomes the avatar |
| Settings.SettingsPanel.constructor | src/components/Settings.tsx:15-16 | The panel starts idle, with no message |
| Settings.SettingsPanel.BeginSave | src/components/Settings.tsx:81-88 | The panel is busy, the message is cleared, and the payload is the profile without the avatar |
| Settings.SettingsPanel.FinishSave | src/components/Settings.tsx:90-100 | The message reports the outcome, the busy state ends, and the clearing timer starts only on success |
| Settings.SettingsPanel.ClearMessage | src/components/Settings.tsx:92-94 | The timer clears the message |

## Left out

- Network I/O (`src/lib/api.ts` is not part of this model). Every gateway answer is an input to the method that awaits it.
- Concurrency. Each asynchronous store call and each mutation callback is one atomic step. Races between the snapshot read in `addCard` and its commit are not modelled. Races between interleaved mutations are not modelled either.
- `Promise.all` in `reorderCards` is reduced to "every write succeeded or not". Partial server-side effects of the writes that did succeed are not modelled.
- react-query's `cancelQueries`, `invalidateQueries` and the `onSettled` refetches. These are library scheduling around the cache writes.
- The `useTasks` and `useTask` query hooks. They only register a fetch under a key.
- The data-shape checks behind the `as Card[]` and `as Card` casts. The cache holds typed entries (`CacheData`).
- The `Record<string, unknown>` list filters. They are simplified to a string-to-string map, since only key equality is used.
- Host functions:
  - `localeCompare` is a `titleOrder` parameter.
  - `toLowerCase` folds only ASCII letters.
  - `new Date(...)` validity is a `parses` parameter.
  - `encodeURIComponent` is an `encode` parameter.
  - Strings are sequences of characters, not UTF-16 code units.
- Board.CompareBy: compares due dates as strings, which is chronological only for `YYYY-MM-DD` values. Sorting by unparseable dates, whose comparison is `NaN`, is left out.
- `Date.now()` (column ids, `temp-` ids) is a `now` parameter. The three-second message timer is the `ClearMessage` step.
- The zustand `persist` middleware and localStorage. Only the `partialize` projection is modelled.
- `FileReader` and base64 conversion. The file's data URL is a parameter.
- Settings' `handleRemoveAvatar`. It calls `removeAvatar`, which is modelled, and otherwise resets a DOM input.
- ColumnView.ColumnColorFor: ignores the case where a column id names an inherited object property such as `constructor`.
- Rendering, the dnd-kit sensors and overlay, the mobile filter drawer, the body-scroll effect, and the `isOpen` state of the multi-select.
- The fixture data of users and tags.

## Findings

| source | as written | input that shows it | evidently intended | confidence | as-written member | corrected member |
|---|---|---|---|---|---|---|
| src/components/Column.tsx:36 | Each column re-sorts its cards by `order`. The board's title and due-date sorts then show only among cards with equal `order` | cards "Beta" (order 0) and "Alpha" (order 1) in `todo`, sorted by title ascending: the column shows Beta, Alpha | the column shows its cards in the board's projected order | not executed | Board.TitleSortHiddenByColumn | Board.TitleSortShownByColumn |
| src/hooks/useTasks.ts:78 | `onError` writes back `context?.previousTasks`. When no list was cached, that is `undefined`, and `setQueryData(key, undefined)` changes nothing | a create from an empty cache that fails: the list keeps the `temp-` card. A failed update or delete leaves `[]` cached | a failed mutation restores the cache to what it was before | not executed | TaskHooks.CreateRollbackKeepsPlaceholder | TaskHooks.IntendedRollbackRestores |
