/** The board state store (src/store/boardStore.ts): the session's columns and
    flat card list, and the operations that change them around calls to the
    remote task gateway. Each asynchronous operation is one atomic step; what
    the gateway answers is an input to it. */
module BoardStore {

  import opened Types
  import opened SeqUtil
  import Text

  /** What a gateway call answered: its value, or a failure (a thrown error). */
  datatype Outcome<+T> = Ok(value: T) | Fail

  /** How a store call ends for its caller: it resolves, or it rejects with the
      error it caught and rethrew. */
  datatype Status = Resolved | Rejected

  /** The arguments `addCard` and `updateCard` take after the column or card id. */
  datatype CardFields = CardFields(
    title: string,
    description: Option<string>,
    priority: Option<Priority>,
    tags: Option<seq<Tag>>,
    assignees: Option<seq<Assignee>>,
    dueDate: Option<string>)

  function InitialColumns(): seq<Column> {
    [ Column("todo", "To Do", 0, []),
      Column("in-progress", "In Progress", 1, []),
      Column("done", "Done", 2, []) ]
  }

  /** Every column sits at the position its `order` names. */
  ghost predicate OrdersArePositions(columns: seq<Column>) {
    forall i :: 0 <= i < |columns| ==> columns[i].order == i
  }

  /** The store never puts cards inside a column record. */
  ghost predicate NoNestedCards(columns: seq<Column>) {
    forall col :: col in columns ==> col.cards == []
  }

  /** The column `addColumn` builds; `now` is the clock reading `Date.now()`. */
  function NewColumn(columns: seq<Column>, title: string, now: nat): Column {
    Column("column-" + Text.Decimal(now), title, |columns|, [])
  }

  /** Two clock readings give the same column id only when they are equal. */
  lemma NewColumnIdsDistinct(columns: seq<Column>, title: string, m: nat, other: seq<Column>, otherTitle: string, n: nat)
    ensures NewColumn(columns, title, m).id == NewColumn(other, otherTitle, n).id <==> m == n
  {
    var a, b := "column-" + Text.Decimal(m), "column-" + Text.Decimal(n);
    if a == b {
      assert a[7..] == Text.Decimal(m) && b[7..] == Text.Decimal(n);
    }
    Text.DecimalInjective(m, n);
  }

  function RenameColumn(columns: seq<Column>, id: string, title: string): (r: seq<Column>)
    ensures |r| == |columns|
    ensures forall i :: 0 <= i < |r| ==>
      r[i].id == columns[i].id && r[i].order == columns[i].order && r[i].cards == columns[i].cards
      && r[i].title == (if columns[i].id == id then title else columns[i].title)
  {
    seq(|columns|, i requires 0 <= i < |columns| =>
      if columns[i].id == id then columns[i].(title := title) else columns[i])
  }

  function RemoveColumn(columns: seq<Column>, id: string): seq<Column> {
    Filter(columns, (col: Column) => col.id != id)
  }

  /** The cards whose `columnId` is `columnId`, in list order. */
  function CardsIn(cards: seq<Card>, columnId: string): seq<Card> {
    Filter(cards, (c: Card) => c.columnId == columnId)
  }

  function CardsOutside(cards: seq<Card>, columnId: string): seq<Card> {
    Filter(cards, (c: Card) => c.columnId != columnId)
  }

  /** The card `addCard` stores: the client-built card, with the order read
      before the call, under the id the server returned. */
  function CreatedCard(cards: seq<Card>, columnId: string, f: CardFields, serverId: string): Card {
    Card(serverId, f.title, f.description, columnId, |CardsIn(cards, columnId)|,
         f.priority, f.tags, f.assignees, f.dueDate)
  }

  /** `updatedData`: all six keys present, an `undefined` argument included. */
  function FieldsPatch(f: CardFields): CardPatch {
    CardPatch(Keep, Set(f.title), Set(f.description), Keep, Keep,
              Set(f.priority), Set(f.tags), Set(f.assignees), Set(f.dueDate))
  }

  /** `{ columnId, order }`, the keys `moveCard` writes. */
  function MovePatch(columnId: string, order: int): CardPatch {
    EmptyPatch.(columnId := Set(columnId), order := Set(order))
  }

  /** `cards.map(card => card.id === id ? { ...card, ...patch } : card)` */
  function PatchMatching(cards: seq<Card>, id: string, patch: CardPatch): (r: seq<Card>)
    ensures |r| == |cards|
  {
    seq(|cards|, i requires 0 <= i < |cards| =>
      if cards[i].id == id then Merge(cards[i], patch) else cards[i])
  }

  function RemoveCard(cards: seq<Card>, id: string): seq<Card> {
    Filter(cards, (c: Card) => c.id != id)
  }

  /** The list `reorderCards` commits: the other columns' cards, then the given list. */
  function CommitReorder(cards: seq<Card>, columnId: string, list: seq<Card>): seq<Card> {
    CardsOutside(cards, columnId) + list
  }

  function Orders(cards: seq<Card>): (r: seq<int>)
    ensures |r| == |cards| && forall i :: 0 <= i < |cards| ==> r[i] == cards[i].order
  {
    seq(|cards|, i requires 0 <= i < |cards| => cards[i].order)
  }

  /** The orders of a column's N cards are exactly 0..N-1. */
  ghost predicate Dense(cards: seq<Card>, columnId: string) {
    var inColumn := CardsIn(cards, columnId);
    multiset(Orders(inColumn)) == multiset(Iota(|inColumn|))
  }

  /** `Promise.all` over the per-card order writes: it succeeds only when every
      write does. */
  method AllSettled(writes: seq<Outcome<Card>>) returns (ok: bool)
    ensures ok <==> forall i :: 0 <= i < |writes| ==> writes[i].Ok?
  {
    ok := true;
    var i := 0;
    while i < |writes|
      invariant 0 <= i <= |writes|
      invariant ok <==> forall j :: 0 <= j < i ==> writes[j].Ok?
    {
      if writes[i].Fail? {
        ok := false;
      }
      i := i + 1;
    }
  }

  class Store {
    var columns: seq<Column>
    var cards: seq<Card>

    function State(): BoardState
      reads this
    {
      BoardState(columns, cards)
    }

    ghost predicate Valid()
      reads this
    {
      NoNestedCards(columns)
    }

    constructor ()
      ensures Valid()
      ensures columns == InitialColumns() && cards == []
    {
      columns := InitialColumns();
      cards := [];
    }

    method AddColumn(title: string, now: nat)
      requires Valid()
      modifies this
      ensures Valid()
      ensures columns == old(columns) + [NewColumn(old(columns), title, now)]
      ensures cards == old(cards)
    {
      columns := columns + [NewColumn(columns, title, now)];
    }

    method UpdateColumn(id: string, title: string)
      requires Valid()
      modifies this
      ensures Valid()
      ensures columns == RenameColumn(old(columns), id, title)
      ensures cards == old(cards)
    {
      columns := RenameColumn(columns, id, title);
    }

    method DeleteColumn(id: string)
      requires Valid()
      modifies this
      ensures Valid()
      ensures columns == RemoveColumn(old(columns), id)
      ensures cards == CardsOutside(old(cards), id)
    {
      FilterMembers(columns, (col: Column) => col.id != id);
      columns := RemoveColumn(columns, id);
      cards := CardsOutside(cards, id);
    }

    /** `created` is what the gateway's create answered; only its id is kept. */
    method AddCard(columnId: string, f: CardFields, created: Outcome<Card>) returns (status: Status)
      modifies this
      ensures columns == old(columns)
      ensures status == Rejected <==> created.Fail?
      ensures cards == if created.Ok?
        then old(cards) + [CreatedCard(old(cards), columnId, f, created.value.id)]
        else old(cards)
    {
      var draft := CreatedCard(cards, columnId, f, "");
      if created.Fail? {
        return Rejected;
      }
      cards := cards + [draft.(id := created.value.id)];
      return Resolved;
    }

    method UpdateCard(id: string, f: CardFields, answer: Outcome<Card>) returns (status: Status)
      modifies this
      ensures columns == old(columns)
      ensures status == Rejected <==> answer.Fail?
      ensures cards == if answer.Ok? then PatchMatching(old(cards), id, FieldsPatch(f)) else old(cards)
    {
      if answer.Fail? {
        return Rejected;
      }
      cards := PatchMatching(cards, id, FieldsPatch(f));
      return Resolved;
    }

    method DeleteCard(id: string, answer: Outcome<()>) returns (status: Status)
      modifies this
      ensures columns == old(columns)
      ensures status == Rejected <==> answer.Fail?
      ensures cards == if answer.Ok? then RemoveCard(old(cards), id) else old(cards)
    {
      if answer.Fail? {
        return Rejected;
      }
      cards := RemoveCard(cards, id);
      return Resolved;
    }

    /** The local write happens first. If the gateway write fails, the store
        reloads the list from the server (`resync`); if that fails as well, its
        error propagates and the optimistic list stays. */
    method MoveCard(cardId: string, newColumnId: string, newOrder: int,
                    answer: Outcome<Card>, resync: Outcome<seq<Card>>) returns (status: Status)
      modifies this
      ensures columns == old(columns)
      ensures status == Rejected <==> answer.Fail? && resync.Fail?
      ensures answer.Ok? ==> cards == PatchMatching(old(cards), cardId, MovePatch(newColumnId, newOrder))
      ensures answer.Fail? && resync.Ok? ==> cards == resync.value
      ensures answer.Fail? && resync.Fail? ==>
        cards == PatchMatching(old(cards), cardId, MovePatch(newColumnId, newOrder))
    {
      cards := PatchMatching(cards, cardId, MovePatch(newColumnId, newOrder));
      if answer.Ok? {
        return Resolved;
      }
      status := FetchTasks(resync);
    }

    /** One gateway write per card of `list`; the list is committed only when
        all of them succeed, and any failure reloads from the server instead. */
    method ReorderCards(columnId: string, list: seq<Card>, writes: seq<Outcome<Card>>,
                        resync: Outcome<seq<Card>>) returns (status: Status)
      requires |writes| == |list|
      modifies this
      ensures columns == old(columns)
      ensures var allOk := forall i :: 0 <= i < |writes| ==> writes[i].Ok?;
        && (allOk ==> cards == CommitReorder(old(cards), columnId, list) && status == Resolved)
        && (!allOk && resync.Ok? ==> cards == resync.value && status == Resolved)
        && (!allOk && resync.Fail? ==> cards == old(cards) && status == Rejected)
    {
      var ok := AllSettled(writes);
      if ok {
        cards := CommitReorder(cards, columnId, list);
        return Resolved;
      }
      status := FetchTasks(resync);
    }

    method FetchTasks(answer: Outcome<seq<Card>>) returns (status: Status)
      modifies this
      ensures columns == old(columns)
      ensures status == Rejected <==> answer.Fail?
      ensures cards == if answer.Ok? then answer.value else old(cards)
    {
      if answer.Fail? {
        return Rejected;
      }
      cards := answer.value;
      return Resolved;
    }
  }

  // ---------------------------------------------------------------------------
  // Properties of the state changes

  lemma InitialColumnsAreSeeded()
    ensures |InitialColumns()| == 3 && OrdersArePositions(InitialColumns())
    ensures NoNestedCards(InitialColumns())
    ensures InitialColumns()[0].id == "todo" && InitialColumns()[1].id == "in-progress"
      && InitialColumns()[2].id == "done"
  {
  }

  /** `addColumn` appends at position `|columns|` with that order, so columns
      that sat at their positions still do. */
  lemma AddColumnKeepsPositions(columns: seq<Column>, title: string, now: nat)
    requires OrdersArePositions(columns)
    ensures OrdersArePositions(columns + [NewColumn(columns, title, now)])
    ensures (columns + [NewColumn(columns, title, now)])[..|columns|] == columns
    ensures NewColumn(columns, title, now).cards == []
  {
  }

  /** `deleteColumn` removes exactly that column and exactly the cards it held. */
  lemma {:induction false} DeleteColumnRemovesItsCards(columns: seq<Column>, cards: seq<Card>, id: string)
    ensures forall col :: col in RemoveColumn(columns, id) <==> col in columns && col.id != id
    ensures forall c :: c in CardsOutside(cards, id) <==> c in cards && c.columnId != id
    ensures CardsIn(CardsOutside(cards, id), id) == []
  {
    FilterMembers(columns, (col: Column) => col.id != id);
    FilterMembers(cards, (c: Card) => c.columnId != id);
    var rest := CardsOutside(cards, id);
    assert forall i :: 0 <= i < |rest| ==> rest[i].columnId != id by {
      forall i | 0 <= i < |rest| ensures rest[i].columnId != id {
        assert rest[i] in rest;
      }
    }
    FilterDropsAll(rest, (c: Card) => c.columnId == id);
  }

  /** A successful `addCard` adds one card, at the end of its column, whose
      order is the column's card count before the call; other columns keep
      their cards. */
  lemma {:induction false} AddCardAppendsToColumn(cards: seq<Card>, columnId: string, f: CardFields, serverId: string, other: string)
    requires other != columnId
    ensures var added := CreatedCard(cards, columnId, f, serverId);
      && added.order == |CardsIn(cards, columnId)|
      && added.id == serverId && added.columnId == columnId && added.title == f.title
      && CardsIn(cards + [added], columnId) == CardsIn(cards, columnId) + [added]
      && CardsIn(cards + [added], other) == CardsIn(cards, other)
  {
    var added := CreatedCard(cards, columnId, f, serverId);
    FilterConcat(cards, [added], (c: Card) => c.columnId == columnId);
    FilterConcat(cards, [added], (c: Card) => c.columnId == other);
  }

  /** A successful `updateCard` gives matching cards exactly the six fields
      (an absent argument clears its field) and changes nothing else. */
  lemma UpdateCardChangesOnlyFields(cards: seq<Card>, id: string, f: CardFields)
    ensures var r := PatchMatching(cards, id, FieldsPatch(f));
      && |r| == |cards|
      && forall i :: 0 <= i < |r| ==>
        && r[i].id == cards[i].id && r[i].columnId == cards[i].columnId && r[i].order == cards[i].order
        && (cards[i].id != id ==> r[i] == cards[i])
        && (cards[i].id == id ==>
              r[i].title == f.title && r[i].description == f.description
              && r[i].priority == f.priority && r[i].tags == f.tags
              && r[i].assignees == f.assignees && r[i].dueDate == f.dueDate)
  {
  }

  /** A successful `deleteCard` removes every card with the id and keeps every
      other card exactly as it was, order field included. */
  lemma {:induction false} DeleteCardKeepsOthers(cards: seq<Card>, id: string)
    ensures forall c :: c in RemoveCard(cards, id) <==> c in cards && c.id != id
    ensures forall c: Card :: c.id != id ==> multiset(RemoveCard(cards, id))[c] == multiset(cards)[c]
  {
    FilterMembers(cards, (c: Card) => c.id != id);
    FilterMultiset(cards, (c: Card) => c.id != id);
  }

  /** `moveCard` rewrites only the moved card's column and order. */
  lemma MoveCardRewritesOnlyTarget(cards: seq<Card>, cardId: string, col: string, order: int)
    ensures var r := PatchMatching(cards, cardId, MovePatch(col, order));
      && |r| == |cards|
      && forall i :: 0 <= i < |r| ==>
        if cards[i].id == cardId then r[i] == cards[i].(columnId := col, order := order)
        else r[i] == cards[i]
  {
  }

  /** A successful `reorderCards` whose list holds only cards of the column
      leaves exactly that list as the column's cards and every other column's
      cards as they were. */
  lemma {:induction false} ReorderReplacesColumn(cards: seq<Card>, columnId: string, list: seq<Card>, other: string)
    requires forall i :: 0 <= i < |list| ==> list[i].columnId == columnId
    requires other != columnId
    ensures CardsIn(CommitReorder(cards, columnId, list), columnId) == list
    ensures CardsIn(CommitReorder(cards, columnId, list), other) == CardsIn(cards, other)
  {
    var outside := CardsOutside(cards, columnId);
    FilterConcat(outside, list, (c: Card) => c.columnId == columnId);
    FilterConcat(outside, list, (c: Card) => c.columnId == other);
    FilterMembers(cards, (c: Card) => c.columnId != columnId);
    assert forall i :: 0 <= i < |outside| ==> outside[i].columnId != columnId by {
      forall i | 0 <= i < |outside| ensures outside[i].columnId != columnId {
        assert outside[i] in outside;
      }
    }
    FilterDropsAll(outside, (c: Card) => c.columnId == columnId);
    FilterKeepsAll(list, (c: Card) => c.columnId == columnId);
    FilterDropsAll(list, (c: Card) => c.columnId == other);
    var notHere := (c: Card) => c.columnId != columnId;
    var there := (c: Card) => c.columnId == other;
    FilterFilter(cards, notHere, there, there);
  }

  /** The only path that re-establishes dense orders: committing a list of the
      column's cards renumbered 0..N-1. */
  lemma ReorderMakesDense(cards: seq<Card>, columnId: string, list: seq<Card>)
    requires forall i :: 0 <= i < |list| ==> list[i].columnId == columnId && list[i].order == i
    ensures Dense(CommitReorder(cards, columnId, list), columnId)
  {
    ReorderReplacesColumn(cards, columnId, list, columnId + "-");
    assert Orders(list) == Iota(|list|);
  }

  lemma InColumnTwo(a: Card, b: Card, col: string)
    requires a.columnId == col && b.columnId == col
    ensures CardsIn([a, b], col) == [a, b]
  {
    FilterKeepsAll([a, b], (c: Card) => c.columnId == col);
  }

  /** `deleteCard` does not renumber: deleting the first of two dense cards
      leaves a gap at order 0. */
  lemma DeleteLeavesGap()
    ensures var a := Card("a", "A", None, "todo", 0, None, None, None, None);
      var b := Card("b", "B", None, "todo", 1, None, None, None, None);
      && Dense([a, b], "todo")
      && RemoveCard([a, b], "a") == [b]
      && !Dense(RemoveCard([a, b], "a"), "todo")
  {
    var a := Card("a", "A", None, "todo", 0, None, None, None, None);
    var b := Card("b", "B", None, "todo", 1, None, None, None, None);
    InColumnTwo(a, b, "todo");
    assert Orders([a, b]) == [0, 1] && Iota(2) == [0, 1];
    assert RemoveCard([a, b], "a") == [b] by {
      var p := (c: Card) => c.id != "a";
      assert [a, b][1..] == [b] && [b][1..] == [];
      assert Filter([b], p) == [b] + Filter([], p);
      assert Filter([a, b], p) == [] + Filter([b], p);
    }
    assert CardsIn([b], "todo") == [b];
    assert Orders([b]) == [1] && Iota(1) == [0];
    assert multiset([1]) != multiset([0]) by {
      assert multiset([1])[1] == 1 && multiset([0])[1] == 0;
    }
  }

  /** After such a gap, `addCard` takes the count as the new order and so
      duplicates an order already in the column. */
  lemma AddAfterDeleteDuplicatesOrder(f: CardFields)
    ensures var b := Card("b", "B", None, "todo", 1, None, None, None, None);
      CreatedCard([b], "todo", f, "c").order == b.order
  {
    var b := Card("b", "B", None, "todo", 1, None, None, None, None);
    assert CardsIn([b], "todo") == [b];
  }

  /** `moveCard` does not renumber the source column: moving the first of two
      dense cards away leaves a gap there. */
  lemma MoveLeavesGapInSource()
    ensures var a := Card("a", "A", None, "todo", 0, None, None, None, None);
      var b := Card("b", "B", None, "todo", 1, None, None, None, None);
      && Dense([a, b], "todo")
      && !Dense(PatchMatching([a, b], "a", MovePatch("done", 0)), "todo")
  {
    var a := Card("a", "A", None, "todo", 0, None, None, None, None);
    var b := Card("b", "B", None, "todo", 1, None, None, None, None);
    InColumnTwo(a, b, "todo");
    assert Orders([a, b]) == [0, 1] && Iota(2) == [0, 1];
    var moved := PatchMatching([a, b], "a", MovePatch("done", 0));
    assert moved == [a.(columnId := "done"), b];
    assert moved[1..] == [b] && [b][1..] == [];
    assert CardsIn(moved, "todo") == [b];
    assert Orders([b]) == [1] && Iota(1) == [0];
    assert multiset([1]) != multiset([0]) by {
      assert multiset([1])[1] == 1 && multiset([0])[1] == 0;
    }
  }
}
