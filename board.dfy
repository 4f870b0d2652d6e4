/** The board screen (src/components/Board.tsx): the filtered and sorted
    projection of the store's cards, the translation of a finished drag into
    one store mutation, and the drag and delete state the screen keeps. */
module Board {

  import opened Types
  import opened SeqUtil
  import Text
  import opened Sorting
  import opened BoardStore
  import opened ColumnView

  // ---------------------------------------------------------------------------
  // Search, filter and sort

  datatype PriorityFilter = AnyPriority | Only(level: Priority)
  datatype SortKey = ByOrder | ByTitle | ByDueDate
  datatype SortDirection = Asc | Desc

  /** `s.toLowerCase().includes(query.toLowerCase())` */
  predicate TextMatches(s: string, query: string) {
    Text.Includes(Text.Lower(s), Text.Lower(query))
  }

  /** The search ignores case: lower-casing either the text or the query
      changes no match. */
  lemma SearchIgnoresCase(s: string, query: string)
    ensures TextMatches(s, query) == TextMatches(s, Text.Lower(query))
    ensures TextMatches(s, query) == TextMatches(Text.Lower(s), query)
  {
    Text.LowerIdempotent(s);
    Text.LowerIdempotent(query);
  }

  /** The title matches, or there is a description and it matches. */
  predicate SearchHit(c: Card, query: string) {
    TextMatches(c.title, query) || (c.description.Some? && TextMatches(c.description.value, query))
  }

  /** Whether a card survives both filters. */
  predicate Passes(c: Card, query: string, filter: PriorityFilter) {
    && (query == "" || SearchHit(c, query))
    && (filter.AnyPriority? || c.priority == Some(filter.level))
  }

  function Searched(cards: seq<Card>, query: string): seq<Card> {
    if query == "" then cards else Filter(cards, (c: Card) => SearchHit(c, query))
  }

  function Prioritised(cards: seq<Card>, filter: PriorityFilter): seq<Card> {
    if filter.AnyPriority? then cards else Filter(cards, (c: Card) => c.priority == Some(filter.level))
  }

  function Selected(cards: seq<Card>, query: string, filter: PriorityFilter): seq<Card> {
    Prioritised(Searched(cards, query), filter)
  }

  /** `!!card.dueDate`: absent and empty dates both count as missing. */
  predicate HasDue(c: Card) {
    c.dueDate.Some? && c.dueDate.value != ""
  }

  /** The ascending comparison for one sort key. Titles are compared by the
      host's collation `titleOrder`; due dates, which are `YYYY-MM-DD`
      strings, compare chronologically exactly when they compare as strings. */
  function CompareBy(key: SortKey, titleOrder: (string, string) -> int, a: Card, b: Card): int {
    match key
    case ByTitle => titleOrder(a.title, b.title)
    case ByDueDate =>
      if !HasDue(a) && !HasDue(b) then 0
      else if !HasDue(a) then 1
      else if !HasDue(b) then -1
      else Text.CompareStrings(a.dueDate.value, b.dueDate.value)
    case ByOrder => a.order - b.order
  }

  /** Descending negates the whole comparison, the missing-date rule included. */
  function Comparator(key: SortKey, dir: SortDirection, titleOrder: (string, string) -> int): (Card, Card) -> int {
    (a: Card, b: Card) => if dir == Asc then CompareBy(key, titleOrder, a, b) else -CompareBy(key, titleOrder, a, b)
  }

  /** `filteredAndSortedCards` */
  function Project(cards: seq<Card>, query: string, filter: PriorityFilter, key: SortKey,
                   dir: SortDirection, titleOrder: (string, string) -> int): seq<Card>
  {
    Sort(Selected(cards, query, filter), Comparator(key, dir, titleOrder))
  }

  /** The projection holds every card that passes both filters, as many times
      as the store holds it, and nothing else. */
  lemma ProjectContents(cards: seq<Card>, query: string, filter: PriorityFilter, key: SortKey,
                        dir: SortDirection, titleOrder: (string, string) -> int)
    ensures forall c :: (multiset(Project(cards, query, filter, key, dir, titleOrder))[c]
                         == if Passes(c, query, filter) then multiset(cards)[c] else 0)
    ensures query == "" && filter == AnyPriority ==>
      multiset(Project(cards, query, filter, key, dir, titleOrder)) == multiset(cards)
  {
    var searched := Searched(cards, query);
    if query != "" {
      FilterMultiset(cards, (c: Card) => SearchHit(c, query));
    }
    if filter.Only? {
      FilterMultiset(searched, (c: Card) => c.priority == Some(filter.level));
    }
  }

  /** A collation whose sign flips when its arguments are swapped. */
  ghost predicate SignAntisymmetric(order: (string, string) -> int) {
    forall x, y :: order(x, y) > 0 <==> order(y, x) < 0
  }

  lemma CompareByFlips(key: SortKey, titleOrder: (string, string) -> int, a: Card, b: Card)
    requires key == ByTitle ==> SignAntisymmetric(titleOrder)
    ensures CompareBy(key, titleOrder, a, b) > 0 <==> CompareBy(key, titleOrder, b, a) < 0
  {
    if key == ByDueDate && HasDue(a) && HasDue(b) {
      Text.CompareStringsAntisymmetric(a.dueDate.value, b.dueDate.value);
    }
  }

  /** Every neighbouring pair of the projection is in comparator order. */
  lemma ProjectSorted(cards: seq<Card>, query: string, filter: PriorityFilter, key: SortKey,
                      dir: SortDirection, titleOrder: (string, string) -> int)
    requires key == ByTitle ==> SignAntisymmetric(titleOrder)
    ensures Sorted(Project(cards, query, filter, key, dir, titleOrder), Comparator(key, dir, titleOrder))
  {
    var s := Selected(cards, query, filter);
    var cmp := Comparator(key, dir, titleOrder);
    forall i, j | 0 <= i < |s| && 0 <= j < |s| && cmp(s[i], s[j]) > 0 ensures cmp(s[j], s[i]) < 0 {
      CompareByFlips(key, titleOrder, s[i], s[j]);
    }
    SortSorted(s, cmp);
  }

  /** Ascending puts every dated card before every undated one; descending
      puts every undated card first. */
  lemma DueDatesPlacement(cards: seq<Card>, query: string, filter: PriorityFilter,
                          dir: SortDirection, titleOrder: (string, string) -> int)
    ensures var r := Project(cards, query, filter, ByDueDate, dir, titleOrder);
      forall i, j :: 0 <= i < j < |r| ==>
        && (dir == Asc ==> HasDue(r[i]) || !HasDue(r[j]))
        && (dir == Desc ==> !HasDue(r[i]) || HasDue(r[j]))
  {
    var r := Project(cards, query, filter, ByDueDate, dir, titleOrder);
    ProjectSorted(cards, query, filter, ByDueDate, dir, titleOrder);
    if dir == Asc {
      forall i, j | 0 <= i < j < |r| ensures HasDue(r[i]) || !HasDue(r[j]) {
        NeverRises(r, HasDue, i, j);
      }
    } else {
      var undated := (c: Card) => !HasDue(c);
      forall i, j | 0 <= i < j < |r| ensures !HasDue(r[i]) || HasDue(r[j]) {
        NeverRises(r, undated, i, j);
      }
    }
  }

  /** Sorting by `order` keeps cards with the same `order` in store order. */
  lemma OrderSortStable(cards: seq<Card>, query: string, filter: PriorityFilter,
                        dir: SortDirection, titleOrder: (string, string) -> int, k: int)
    ensures Filter(Project(cards, query, filter, ByOrder, dir, titleOrder), (c: Card) => c.order == k)
         == Filter(Selected(cards, query, filter), (c: Card) => c.order == k)
  {
    SortStable(Selected(cards, query, filter), Comparator(ByOrder, dir, titleOrder), (c: Card) => c.order == k);
  }

  /** A search for "bug" keeps only the card whose title mentions it. */
  lemma SearchScenario()
    ensures var fix := Card("1", "Fix bug in login", None, "todo", 0, None, None, None, None);
            var add := Card("2", "Add feature", None, "todo", 1, None, None, None, None);
            Selected([fix, add], "bug", AnyPriority) == [fix]
  {
    var fix := Card("1", "Fix bug in login", None, "todo", 0, None, None, None, None);
    var add := Card("2", "Add feature", None, "todo", 1, None, None, None, None);
    BugFound(fix);
    BugNotFound(add);
    assert [fix, add][1..] == [add];
    assert Filter([add], (c: Card) => SearchHit(c, "bug")) == [];
  }

  lemma BugFound(c: Card)
    requires c.title == "Fix bug in login"
    ensures SearchHit(c, "bug")
  {
    assert Text.Lower("bug") == "bug";
    assert Text.OccursAt(Text.Lower(c.title), "bug", 4);
  }

  lemma BugNotFound(c: Card)
    requires c.title == "Add feature" && c.description.None?
    ensures !SearchHit(c, "bug")
  {
    assert Text.Lower("bug") == "bug";
    var lowered := Text.Lower(c.title);
    assert forall i :: 0 <= i < |lowered| ==> lowered[i] != 'b';
    forall lo | 0 <= lo <= |lowered| ensures !Text.OccursAt(lowered, "bug", lo) {
      if lo <= |lowered| - 3 {
        assert lowered[lo..lo + 3][0] == lowered[lo];
      }
    }
  }

  function Jan10(): Card { Card("a", "Task a", None, "todo", 0, None, None, None, Some("2024-01-10")) }
  function Undated(): Card { Card("b", "Task b", None, "todo", 0, None, None, None, None) }
  function Jan5(): Card { Card("c", "Task c", None, "todo", 0, None, None, None, Some("2024-01-05")) }

  lemma DueDateComparisons(titleOrder: (string, string) -> int)
    ensures CompareBy(ByDueDate, titleOrder, Undated(), Jan5()) == 1
    ensures CompareBy(ByDueDate, titleOrder, Jan10(), Jan5()) == 1
    ensures CompareBy(ByDueDate, titleOrder, Jan10(), Undated()) == -1
  {
    DatedBeforeUndated(titleOrder, Jan5(), Undated());
    DatedBeforeUndated(titleOrder, Jan10(), Undated());
    Jan10AfterJan5();
  }

  /** A card with a due date compares before one without, either way round. */
  lemma DatedBeforeUndated(titleOrder: (string, string) -> int, dated: Card, undated: Card)
    requires HasDue(dated) && !HasDue(undated)
    ensures CompareBy(ByDueDate, titleOrder, undated, dated) == 1
    ensures CompareBy(ByDueDate, titleOrder, dated, undated) == -1
  {
  }

  lemma Jan10AfterJan5()
    ensures Text.CompareStrings("2024-01-10", "2024-01-05") == 1
  {
    assert "2024-01-10"[..8] == "2024-01-05"[..8];
    Text.CompareStringsAt("2024-01-10", "2024-01-05", 8);
  }

  /** Due 2024-01-10, undated and due 2024-01-05 sorted ascending: 05, 10,
      undated. */
  lemma DueDateAscScenario(titleOrder: (string, string) -> int)
    ensures Project([Jan10(), Undated(), Jan5()], "", AnyPriority, ByDueDate, Asc, titleOrder)
         == [Jan5(), Jan10(), Undated()]
  {
    DueDateComparisons(titleOrder);
    SortLastFirst(Jan10(), Undated(), Jan5(), Comparator(ByDueDate, Asc, titleOrder));
  }

  /** The same cards sorted descending: undated, 10, 05. */
  lemma DueDateDescScenario(titleOrder: (string, string) -> int)
    ensures Project([Jan10(), Undated(), Jan5()], "", AnyPriority, ByDueDate, Desc, titleOrder)
         == [Undated(), Jan10(), Jan5()]
  {
    DueDateComparisons(titleOrder);
    SortMiddleFirst(Jan10(), Undated(), Jan5(), Comparator(ByDueDate, Desc, titleOrder));
  }

  /** The cards one column shows: the projection's cards in that column. */
  function ColumnCards(projected: seq<Card>, columnId: string): seq<Card> {
    Filter(projected, (c: Card) => c.columnId == columnId)
  }

  /** A column shows exactly the store's cards in it that pass the filters, so
      its badge counts them; with no search and no priority filter it counts
      every card of the column. */
  lemma ColumnShowsPassingCards(cards: seq<Card>, query: string, filter: PriorityFilter, key: SortKey,
                                dir: SortDirection, titleOrder: (string, string) -> int, columnId: string)
    ensures var shown := ColumnCards(Project(cards, query, filter, key, dir, titleOrder), columnId);
      forall c :: multiset(shown)[c] == if Passes(c, query, filter) && c.columnId == columnId then multiset(cards)[c] else 0
    ensures query == "" && filter == AnyPriority ==>
      CountBadge(ColumnCards(Project(cards, query, filter, key, dir, titleOrder), columnId)) == |CardsIn(cards, columnId)|
  {
    ColumnContents(cards, query, filter, key, dir, titleOrder, columnId);
    if query == "" && filter == AnyPriority {
      ColumnCountsAll(cards, key, dir, titleOrder, columnId);
    }
  }

  lemma ColumnContents(cards: seq<Card>, query: string, filter: PriorityFilter, key: SortKey,
                       dir: SortDirection, titleOrder: (string, string) -> int, columnId: string)
    ensures var shown := ColumnCards(Project(cards, query, filter, key, dir, titleOrder), columnId);
      forall c :: multiset(shown)[c] == if Passes(c, query, filter) && c.columnId == columnId then multiset(cards)[c] else 0
  {
    ProjectContents(cards, query, filter, key, dir, titleOrder);
    FilterMultiset(Project(cards, query, filter, key, dir, titleOrder), (c: Card) => c.columnId == columnId);
  }

  lemma ColumnCountsAll(cards: seq<Card>, key: SortKey, dir: SortDirection,
                        titleOrder: (string, string) -> int, columnId: string)
    ensures CountBadge(ColumnCards(Project(cards, "", AnyPriority, key, dir, titleOrder), columnId)) == |CardsIn(cards, columnId)|
  {
    var shown := ColumnCards(Project(cards, "", AnyPriority, key, dir, titleOrder), columnId);
    ColumnContents(cards, "", AnyPriority, key, dir, titleOrder, columnId);
    FilterMultiset(cards, (c: Card) => c.columnId == columnId);
    assert multiset(shown) == multiset(CardsIn(cards, columnId));
    assert |shown| == |multiset(shown)|;
    assert |CardsIn(cards, columnId)| == |multiset(CardsIn(cards, columnId))|;
  }

  // ---------------------------------------------------------------------------
  // What a column displays

  /** As written: the column sorts the cards it is given by `order` again, so
      the board's title or due-date order survives only among equal `order`s. */
  function DisplayedAsWritten(projected: seq<Card>, columnId: string): seq<Card> {
    SortedCards(ColumnCards(projected, columnId))
  }

  /** As evidently intended: the column shows its cards in the board's order. */
  function Displayed(projected: seq<Card>, columnId: string): seq<Card> {
    ColumnCards(projected, columnId)
  }

  function Beta(): Card { Card("b", "Beta", None, "todo", 0, None, None, None, None) }
  function Alpha(): Card { Card("a", "Alpha", None, "todo", 1, None, None, None, None) }

  lemma TitleProjection()
    ensures Project([Beta(), Alpha()], "", AnyPriority, ByTitle, Asc, Text.CompareStrings) == [Alpha(), Beta()]
  {
    Text.CompareStringsAt("Beta", "Alpha", 0);
    var cmp := Comparator(ByTitle, Asc, Text.CompareStrings);
    assert cmp(Beta(), Alpha()) == 1;
    assert [Beta(), Alpha()][1..] == [Alpha()];
    assert Sort([Alpha()], cmp) == [Alpha()];
  }

  lemma AlphaBetaInTodo()
    ensures ColumnCards([Alpha(), Beta()], "todo") == [Alpha(), Beta()]
  {
    FilterKeepsAll([Alpha(), Beta()], (c: Card) => c.columnId == "todo");
  }

  /** Sorting Beta (order 0) and Alpha (order 1) by title ascending, the column
      as written still shows Beta above Alpha. */
  lemma TitleSortHiddenByColumn()
    ensures DisplayedAsWritten(Project([Beta(), Alpha()], "", AnyPriority, ByTitle, Asc, Text.CompareStrings), "todo")
         == [Beta(), Alpha()]
  {
    TitleProjection();
    AlphaBetaInTodo();
    var cmp := OrderCmp();
    assert cmp(Alpha(), Beta()) == 1;
    assert [Alpha(), Beta()][1..] == [Beta()];
    assert Sort([Beta()], cmp) == [Beta()];
  }

  /** The corrected column shows Alpha above Beta. */
  lemma TitleSortShownByColumn()
    ensures Displayed(Project([Beta(), Alpha()], "", AnyPriority, ByTitle, Asc, Text.CompareStrings), "todo")
         == [Alpha(), Beta()]
  {
    TitleProjection();
    AlphaBetaInTodo();
  }

  /** With the corrected column, a due-date sort reaches every column: dated
      cards above undated ones ascending, below them descending. */
  lemma DisplayedKeepsDueDatePlacement(cards: seq<Card>, query: string, filter: PriorityFilter,
                                       dir: SortDirection, titleOrder: (string, string) -> int, columnId: string)
    ensures var r := Displayed(Project(cards, query, filter, ByDueDate, dir, titleOrder), columnId);
      forall i, j :: 0 <= i < j < |r| ==>
        && (dir == Asc ==> HasDue(r[i]) || !HasDue(r[j]))
        && (dir == Desc ==> !HasDue(r[i]) || HasDue(r[j]))
  {
    DueDatesPlacement(cards, query, filter, dir, titleOrder);
    var rel := (x: Card, y: Card) =>
      && (dir == Asc ==> HasDue(x) || !HasDue(y))
      && (dir == Desc ==> !HasDue(x) || HasDue(y));
    FilterPairwise(Project(cards, query, filter, ByDueDate, dir, titleOrder), (c: Card) => c.columnId == columnId, rel);
  }

  // ---------------------------------------------------------------------------
  // Drag and drop

  /** The store mutation a finished drag issues, if any. */
  datatype DragAction =
    | NoOp
    | Reorder(columnId: string, list: seq<Card>)
    | Move(cardId: string, toColumn: string, newOrder: int)

  function IdIs(id: string): Card -> bool {
    (c: Card) => c.id == id
  }

  function ColumnIdIs(id: string): Column -> bool {
    (col: Column) => col.id == id
  }

  /** `arrayMove(s, from, to)`: take the element out at `from` and insert it at `to`. */
  function ArrayMove<T>(s: seq<T>, from: nat, to: nat): (r: seq<T>)
    requires from < |s| && to < |s|
    ensures |r| == |s| && multiset(r) == multiset(s) && r[to] == s[from]
    ensures r[..to] + r[to + 1..] == s[..from] + s[from + 1..]
  {
    var rest := s[..from] + s[from + 1..];
    assert s == s[..from] + [s[from]] + s[from + 1..];
    assert rest == rest[..to] + rest[to..];
    assert multiset(s) == multiset(rest) + multiset{s[from]};
    var r := rest[..to] + [s[from]] + rest[to..];
    assert r[..to] == rest[..to] && r[to + 1..] == rest[to..];
    r
  }

  /** The card with its position left out. */
  function WithoutOrder(c: Card): Card {
    c.(order := 0)
  }

  /** `.map((c, index) => ({ ...c, order: index }))`: the orders become
      0..n-1, and nothing else changes. */
  function Renumber(s: seq<Card>): (r: seq<Card>)
    ensures |r| == |s| && Orders(r) == Iota(|s|)
    ensures Map(r, WithoutOrder) == Map(s, WithoutOrder)
  {
    var r := seq(|s|, i requires 0 <= i < |s| => s[i].(order := i));
    assert forall i :: 0 <= i < |s| ==> WithoutOrder(r[i]) == WithoutOrder(s[i]);
    r
  }

  /** `handleDragEnd` without its effects: what the drop of `activeId` on
      `over` asks the store to do. */
  function DragEnd(columns: seq<Column>, cards: seq<Card>, activeId: string, over: Option<string>): DragAction {
    if over.None? then NoOp
    else
      var overId := over.value;
      var card := Find(cards, IdIs(activeId));
      if card.None? then NoOp
      else
        var isOverColumn := Any(columns, ColumnIdIs(overId));
        var overCard := Find(cards, IdIs(overId));
        if !isOverColumn && overCard.None? then NoOp
        else
          var target := if isOverColumn then overId else overCard.value.columnId;
          if card.value.columnId == target then
            if isOverColumn then NoOp else ColumnReorder(cards, target, activeId, overId)
          else Move(activeId, target, |CardsIn(cards, target)|)
  }

  /** The same-column branch: move the dragged card to the over card's index
      in the column's cards sorted by `order`, then renumber. */
  function ColumnReorder(cards: seq<Card>, target: string, activeId: string, overId: string): DragAction {
    var columnCards := SortedCards(CardsIn(cards, target));
    var oldIndex := FindIndex(columnCards, IdIs(activeId));
    var newIndex := FindIndex(columnCards, IdIs(overId));
    if oldIndex == -1 || newIndex == -1 || oldIndex == newIndex then NoOp
    else Reorder(target, Renumber(ArrayMove(columnCards, oldIndex, newIndex)))
  }

  /** The drops that do nothing: no target, an unknown dragged card, a target
      that is neither a column nor a card, the card's own column, and the card
      itself. */
  lemma DragEndNoOps(columns: seq<Column>, cards: seq<Card>, activeId: string, over: Option<string>)
    ensures over.None? ==> DragEnd(columns, cards, activeId, over) == NoOp
    ensures !Any(cards, IdIs(activeId)) ==> DragEnd(columns, cards, activeId, over) == NoOp
    ensures over.Some? && !Any(columns, ColumnIdIs(over.value)) && !Any(cards, IdIs(over.value)) ==>
      DragEnd(columns, cards, activeId, over) == NoOp
    ensures (&& over.Some? && Any(columns, ColumnIdIs(over.value)) && Find(cards, IdIs(activeId)).Some?
             && Find(cards, IdIs(activeId)).value.columnId == over.value) ==>
            DragEnd(columns, cards, activeId, over) == NoOp
    ensures !Any(columns, ColumnIdIs(activeId)) ==> DragEnd(columns, cards, activeId, Some(activeId)) == NoOp
  {
  }

  /** A drop that does something targets `over` itself when a column has that
      id, and otherwise the column of the first card with that id; a move
      appends to the target after every store card already there. */
  lemma DragEndTarget(columns: seq<Column>, cards: seq<Card>, activeId: string, over: Option<string>)
    ensures var a := DragEnd(columns, cards, activeId, over);
      !a.NoOp? ==> (
        && over.Some? && Any(cards, IdIs(activeId))
        && var target := if a.Reorder? then a.columnId else a.toColumn;
           && (Any(columns, ColumnIdIs(over.value)) ==> target == over.value)
           && (!Any(columns, ColumnIdIs(over.value)) ==>
                 Find(cards, IdIs(over.value)).Some? && target == Find(cards, IdIs(over.value)).value.columnId))
    ensures var a := DragEnd(columns, cards, activeId, over);
      a.Move? ==> && a.cardId == activeId
                  && a.newOrder == |CardsIn(cards, a.toColumn)|
                  && Find(cards, IdIs(activeId)).value.columnId != a.toColumn
    ensures var a := DragEnd(columns, cards, activeId, over);
      a.Reorder? ==> Find(cards, IdIs(activeId)).value.columnId == a.columnId
  {
  }

  /** Position by position: the card at index `i`, numbered `i`. */
  lemma RenumberAt(s: seq<Card>)
    ensures forall i :: 0 <= i < |s| ==> Renumber(s)[i] == s[i].(order := i)
  {
    var r := Renumber(s);
    forall i | 0 <= i < |s| ensures r[i] == s[i].(order := i) {
      assert Orders(r)[i] == i;
      assert Map(r, WithoutOrder)[i] == Map(s, WithoutOrder)[i];
    }
  }

  /** Every card of a column reorder list belongs to that column. */
  lemma ColumnReorderStaysInColumn(cards: seq<Card>, target: string, activeId: string, overId: string)
    requires ColumnReorder(cards, target, activeId, overId).Reorder?
    ensures var a := ColumnReorder(cards, target, activeId, overId);
      a.columnId == target && forall i :: 0 <= i < |a.list| ==> a.list[i].columnId == target
  {
    var sorted := SortedCards(CardsIn(cards, target));
    var moved := ArrayMove(sorted, FindIndex(sorted, IdIs(activeId)), FindIndex(sorted, IdIs(overId)));
    MovedColumnStaysInColumn(cards, target, moved);
    RenumberAt(moved);
  }

  /** Any rearrangement of a column's cards holds only cards of that column. */
  lemma MovedColumnStaysInColumn(cards: seq<Card>, target: string, moved: seq<Card>)
    requires multiset(moved) == multiset(CardsIn(cards, target))
    ensures forall i :: 0 <= i < |moved| ==> moved[i].columnId == target
  {
    FilterMembers(cards, (c: Card) => c.columnId == target);
    PermutationKeeps(moved, CardsIn(cards, target), (c: Card) => c.columnId == target);
  }

  /** A column reorder list is the column's cards with nothing but their
      positions changed. */
  lemma ColumnReorderPermutes(cards: seq<Card>, target: string, activeId: string, overId: string)
    requires ColumnReorder(cards, target, activeId, overId).Reorder?
    ensures var a := ColumnReorder(cards, target, activeId, overId);
      && |a.list| == |CardsIn(cards, target)|
      && multiset(Map(a.list, WithoutOrder)) == multiset(Map(CardsIn(cards, target), WithoutOrder))
  {
    var sorted := SortedCards(CardsIn(cards, target));
    var moved := ArrayMove(sorted, FindIndex(sorted, IdIs(activeId)), FindIndex(sorted, IdIs(overId)));
    MapPermutation(moved, CardsIn(cards, target), WithoutOrder);
  }

  /** `list` is `sorted` with the card at `from` moved to `to`, up to the
      orders: the moved card lands at `to`, and every other card keeps its
      relative order. */
  ghost predicate MovedFrom(list: seq<Card>, sorted: seq<Card>, from: int, to: int) {
    && 0 <= from < |sorted| && 0 <= to < |sorted| && |list| == |sorted|
    && WithoutOrder(list[to]) == WithoutOrder(sorted[from])
    && Map(list, WithoutOrder)[..to] + Map(list, WithoutOrder)[to + 1..]
       == Map(sorted, WithoutOrder)[..from] + Map(sorted, WithoutOrder)[from + 1..]
  }

  /** The dragged card takes the over card's index in the sorted column, and
      every other card keeps its relative order. */
  lemma ColumnReorderKeepsOthers(cards: seq<Card>, target: string, activeId: string, overId: string)
    requires ColumnReorder(cards, target, activeId, overId).Reorder?
    ensures var sorted := SortedCards(CardsIn(cards, target));
      var from := FindIndex(sorted, IdIs(activeId));
      var to := FindIndex(sorted, IdIs(overId));
      && from != to && sorted[from].id == activeId && sorted[to].id == overId
      && MovedFrom(ColumnReorder(cards, target, activeId, overId).list, sorted, from, to)
  {
    var sorted := SortedCards(CardsIn(cards, target));
    RenumberedMoveKeepsOthers(sorted, FindIndex(sorted, IdIs(activeId)), FindIndex(sorted, IdIs(overId)));
  }

  lemma RenumberedMoveKeepsOthers(s: seq<Card>, from: nat, to: nat)
    requires from < |s| && to < |s|
    ensures MovedFrom(Renumber(ArrayMove(s, from, to)), s, from, to)
  {
    var m := ArrayMove(s, from, to);
    MapWithout(m, to, WithoutOrder);
    MapWithout(s, from, WithoutOrder);
    assert Map(Renumber(m), WithoutOrder)[to] == WithoutOrder(m[to]);
  }

  /** A reorder hands the store the target column's cards with nothing but
      their positions changed, renumbered 0..n-1; the dragged card lands where
      the card it was dropped on stood in `order` order; and committing the
      list leaves the column densely numbered. */
  lemma DragReorderList(columns: seq<Column>, cards: seq<Card>, activeId: string, over: Option<string>)
    requires DragEnd(columns, cards, activeId, over).Reorder?
    ensures var a := DragEnd(columns, cards, activeId, over);
      var column := CardsIn(cards, a.columnId);
      && |a.list| == |column|
      && (forall i :: 0 <= i < |a.list| ==> a.list[i].order == i && a.list[i].columnId == a.columnId)
      && multiset(Map(a.list, WithoutOrder)) == multiset(Map(column, WithoutOrder))
      && over.Some?
      && (exists k :: 0 <= k < |a.list| && a.list[k].id == activeId && SortedCards(column)[k].id == over.value)
      && (var sorted := SortedCards(column); MovedFrom(a.list, sorted, FindIndex(sorted, IdIs(activeId)), FindIndex(sorted, IdIs(over.value))))
      && Dense(CommitReorder(cards, a.columnId, a.list), a.columnId)
  {
    var a := DragEnd(columns, cards, activeId, over);
    DragReorderIsColumnReorder(columns, cards, activeId, over);
    ColumnReorderList(cards, a.columnId, activeId, over.value);
  }

  /** Everything a column reorder promises, gathered for one target column. */
  lemma ColumnReorderList(cards: seq<Card>, target: string, activeId: string, overId: string)
    requires ColumnReorder(cards, target, activeId, overId).Reorder?
    ensures var a := ColumnReorder(cards, target, activeId, overId);
      var column := CardsIn(cards, target);
      && a.columnId == target
      && |a.list| == |column|
      && (forall i :: 0 <= i < |a.list| ==> a.list[i].order == i && a.list[i].columnId == target)
      && multiset(Map(a.list, WithoutOrder)) == multiset(Map(column, WithoutOrder))
      && (exists k :: 0 <= k < |a.list| && a.list[k].id == activeId && SortedCards(column)[k].id == overId)
      && (var sorted := SortedCards(column); MovedFrom(a.list, sorted, FindIndex(sorted, IdIs(activeId)), FindIndex(sorted, IdIs(overId))))
      && Dense(CommitReorder(cards, target, a.list), target)
  {
    ColumnReorderShape(cards, target, activeId, overId);
    ColumnReorderPlacement(cards, target, activeId, overId);
  }

  /** The list holds the column's cards, and only those, numbered 0..n-1,
      and committing it leaves the column dense. */
  lemma ColumnReorderShape(cards: seq<Card>, target: string, activeId: string, overId: string)
    requires ColumnReorder(cards, target, activeId, overId).Reorder?
    ensures var a := ColumnReorder(cards, target, activeId, overId);
      var column := CardsIn(cards, target);
      && a.columnId == target
      && |a.list| == |column|
      && (forall i :: 0 <= i < |a.list| ==> a.list[i].order == i && a.list[i].columnId == target)
      && multiset(Map(a.list, WithoutOrder)) == multiset(Map(column, WithoutOrder))
      && Dense(CommitReorder(cards, target, a.list), target)
  {
    var a := ColumnReorder(cards, target, activeId, overId);
    ColumnReorderStaysInColumn(cards, target, activeId, overId);
    ColumnReorderPermutes(cards, target, activeId, overId);
    ReorderMakesDense(cards, target, a.list);
  }

  /** Where the cards of the list come from in the sorted column. */
  lemma ColumnReorderPlacement(cards: seq<Card>, target: string, activeId: string, overId: string)
    requires ColumnReorder(cards, target, activeId, overId).Reorder?
    ensures var a := ColumnReorder(cards, target, activeId, overId);
      var sorted := SortedCards(CardsIn(cards, target));
      && (exists k :: 0 <= k < |a.list| && a.list[k].id == activeId && sorted[k].id == overId)
      && MovedFrom(a.list, sorted, FindIndex(sorted, IdIs(activeId)), FindIndex(sorted, IdIs(overId)))
  {
    ColumnReorderLands(cards, target, activeId, overId);
    ColumnReorderKeepsOthers(cards, target, activeId, overId);
  }

  /** A drop that reorders is a same-column reorder onto a card. */
  lemma DragReorderIsColumnReorder(columns: seq<Column>, cards: seq<Card>, activeId: string, over: Option<string>)
    requires DragEnd(columns, cards, activeId, over).Reorder?
    ensures over.Some?
    ensures var a := DragEnd(columns, cards, activeId, over);
      a == ColumnReorder(cards, a.columnId, activeId, over.value)
  {
  }

  /** The dragged card takes the over card's place in the sorted column. */
  lemma ColumnReorderLands(cards: seq<Card>, target: string, activeId: string, overId: string)
    requires ColumnReorder(cards, target, activeId, overId).Reorder?
    ensures var a := ColumnReorder(cards, target, activeId, overId);
      exists k :: 0 <= k < |a.list| && a.list[k].id == activeId && SortedCards(CardsIn(cards, target))[k].id == overId
  {
    var a := ColumnReorder(cards, target, activeId, overId);
    var sorted := SortedCards(CardsIn(cards, target));
    var newIndex := FindIndex(sorted, IdIs(overId));
    assert a.list[newIndex].id == activeId && sorted[newIndex].id == overId;
  }

  /** A cross-column drop names the dragged card and the end of the target
      column. */
  lemma MoveScenario()
    ensures var five := Card("5", "Five", None, "todo", 0, None, None, None, None);
            var first := Card("6", "Six", None, "done", 0, None, None, None, None);
            var second := Card("7", "Seven", None, "done", 1, None, None, None, None);
            DragEnd(InitialColumns(), [five, first, second], "5", Some("done")) == Move("5", "done", 2)
  {
    var five := Card("5", "Five", None, "todo", 0, None, None, None, None);
    var first := Card("6", "Six", None, "done", 0, None, None, None, None);
    var second := Card("7", "Seven", None, "done", 1, None, None, None, None);
    var cards := [five, first, second];
    assert InitialColumns()[2].id == "done";
    assert IdIs("5")(cards[0]);
    assert Find(cards, IdIs("5")) == Some(five);
    assert cards == [five] + [first, second];
    FilterConcat([five], [first, second], (c: Card) => c.columnId == "done");
    FilterKeepsAll([first, second], (c: Card) => c.columnId == "done");
  }

  function CardA(): Card { Card("a", "A", None, "todo", 0, None, None, None, None) }
  function CardB(): Card { Card("b", "B", None, "todo", 1, None, None, None, None) }
  function CardC(): Card { Card("c", "C", None, "todo", 2, None, None, None, None) }

  lemma ColumnABCSorted()
    ensures SortedCards(CardsIn([CardA(), CardB(), CardC()], "todo")) == [CardA(), CardB(), CardC()]
  {
    var cards := [CardA(), CardB(), CardC()];
    FilterKeepsAll(cards, (x: Card) => x.columnId == "todo");
    assert Sorted(cards, OrderCmp());
    SortKeepsSorted(cards, OrderCmp());
  }

  lemma ColumnABCIndices()
    ensures FindIndex([CardA(), CardB(), CardC()], IdIs("c")) == 2
    ensures FindIndex([CardA(), CardB(), CardC()], IdIs("a")) == 0
  {
    var cards := [CardA(), CardB(), CardC()];
    assert IdIs("c")(cards[2]) && IdIs("a")(cards[0]);
  }

  lemma ColumnABCMove()
    ensures ArrayMove([CardA(), CardB(), CardC()], 2, 0) == [CardC(), CardA(), CardB()]
  {
    var cards := [CardA(), CardB(), CardC()];
    assert cards[..2] + cards[3..] == [CardA(), CardB()];
  }

  lemma ColumnCABRenumbered()
    ensures Renumber([CardC(), CardA(), CardB()]) == [CardC().(order := 0), CardA().(order := 1), CardB().(order := 2)]
  {
  }

  lemma ColumnABCDecision()
    ensures ColumnReorder([CardA(), CardB(), CardC()], "todo", "c", "a")
         == Reorder("todo", Renumber(ArrayMove([CardA(), CardB(), CardC()], 2, 0)))
  {
    ColumnABCSorted();
    ColumnABCIndices();
  }

  /** In a column holding A, B, C in that order, moving C onto A gives C, A,
      B numbered 0, 1, 2. */
  lemma ColumnReorderScenario()
    ensures ColumnReorder([CardA(), CardB(), CardC()], "todo", "c", "a")
         == Reorder("todo", [CardC().(order := 0), CardA().(order := 1), CardB().(order := 2)])
  {
    calc {
      ColumnReorder([CardA(), CardB(), CardC()], "todo", "c", "a");
      { ColumnABCDecision(); }
      Reorder("todo", Renumber(ArrayMove([CardA(), CardB(), CardC()], 2, 0)));
      { ColumnABCMove(); }
      Reorder("todo", Renumber([CardC(), CardA(), CardB()]));
      { ColumnCABRenumbered(); }
      Reorder("todo", [CardC().(order := 0), CardA().(order := 1), CardB().(order := 2)]);
    }
  }

  /** Dropping C onto A on the initial board is that reorder of the to-do
      column. */
  lemma ReorderScenario()
    ensures DragEnd(InitialColumns(), [CardA(), CardB(), CardC()], "c", Some("a"))
         == Reorder("todo", [CardC().(order := 0), CardA().(order := 1), CardB().(order := 2)])
  {
    ColumnABCFound();
    NoColumnCalledA();
    ColumnReorderScenario();
  }

  lemma ColumnABCFound()
    ensures Find([CardA(), CardB(), CardC()], IdIs("c")) == Some(CardC())
    ensures Find([CardA(), CardB(), CardC()], IdIs("a")) == Some(CardA())
  {
    var cards := [CardA(), CardB(), CardC()];
    assert IdIs("c")(cards[2]) && IdIs("a")(cards[0]);
  }

  lemma NoColumnCalledA()
    ensures !Any(InitialColumns(), ColumnIdIs("a"))
  {
    var columns := InitialColumns();
    assert columns[0].id == "todo" && columns[1].id == "in-progress" && columns[2].id == "done";
  }

  // ---------------------------------------------------------------------------
  // The screen's drag and delete state

  class BoardView {
    /** The card shown in the drag overlay. */
    var activeCard: Option<Card>
    /** The card the delete confirmation is open for. */
    var deletingCard: Option<Card>

    constructor()
      ensures activeCard == None && deletingCard == None
    {
      activeCard := None;
      deletingCard := None;
    }

    /** A drag of a known card shows it in the overlay; an unknown id changes
        nothing. */
    method HandleDragStart(cards: seq<Card>, activeId: string)
      modifies this
      ensures activeCard == if Any(cards, IdIs(activeId)) then Find(cards, IdIs(activeId)) else old(activeCard)
      ensures deletingCard == old(deletingCard)
    {
      var card := Find(cards, IdIs(activeId));
      if card.Some? {
        activeCard := card;
      }
    }

    /** Clears the overlay, then issues the store mutation `DragEnd` decides
        on, with the gateway answers it will get. */
    method HandleDragEnd(store: Store, activeId: string, over: Option<string>,
                         moveAnswer: Outcome<Card>, writes: seq<Outcome<Card>>, resync: Outcome<seq<Card>>)
      returns (action: DragAction)
      requires var a := DragEnd(store.columns, store.cards, activeId, over); a.Reorder? ==> |writes| == |a.list|
      modifies this, store
      ensures action == DragEnd(old(store.columns), old(store.cards), activeId, over)
      ensures activeCard == None && deletingCard == old(deletingCard)
      ensures store.columns == old(store.columns)
      ensures action.NoOp? ==> store.cards == old(store.cards)
      ensures action.Move? ==>
        store.cards == if moveAnswer.Fail? && resync.Ok? then resync.value
                       else PatchMatching(old(store.cards), action.cardId, MovePatch(action.toColumn, action.newOrder))
      ensures action.Reorder? ==>
        store.cards == if forall i :: 0 <= i < |writes| ==> writes[i].Ok? then CommitReorder(old(store.cards), action.columnId, action.list)
                       else if resync.Ok? then resync.value
                       else old(store.cards)
    {
      activeCard := None;
      action := DragEnd(store.columns, store.cards, activeId, over);
      match action
      case NoOp =>
      case Reorder(columnId, list) =>
        var _ := store.ReorderCards(columnId, list, writes, resync);
      case Move(cardId, toColumn, newOrder) =>
        var _ := store.MoveCard(cardId, toColumn, newOrder, moveAnswer, resync);
    }

    /** Opens the delete confirmation for a known card; an unknown id changes
        nothing. */
    method HandleDeleteCard(cards: seq<Card>, cardId: string)
      modifies this
      ensures deletingCard == if Any(cards, IdIs(cardId)) then Find(cards, IdIs(cardId)) else old(deletingCard)
      ensures activeCard == old(activeCard)
    {
      var card := Find(cards, IdIs(cardId));
      if card.Some? {
        deletingCard := card;
      }
    }

    /** Deletes the card the confirmation was open for, if any, and closes it. */
    method ConfirmDelete(store: Store, answer: Outcome<()>)
      modifies this, store
      ensures deletingCard == None && activeCard == old(activeCard)
      ensures store.columns == old(store.columns)
      ensures store.cards == if old(deletingCard).Some? && answer.Ok?
                             then RemoveCard(old(store.cards), old(deletingCard).value.id)
                             else old(store.cards)
    {
      if deletingCard.Some? {
        var _ := store.DeleteCard(deletingCard.value.id, answer);
        deletingCard := None;
      }
    }
  }
}
