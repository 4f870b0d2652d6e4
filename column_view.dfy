/** A board column's view logic (src/components/Column.tsx): its cards sorted by
    `order`, its colour scheme with a fallback, and its count badge. */
module ColumnView {

  import opened Types
  import opened SeqUtil
  import opened Sorting

  /** `(a, b) => a.order - b.order` */
  function OrderCmp(): (Card, Card) -> int {
    (a: Card, b: Card) => a.order - b.order
  }

  /** `[...cards].sort((a, b) => a.order - b.order)`: a sorted copy. */
  function SortedCards(cards: seq<Card>): seq<Card> {
    Sort(cards, OrderCmp())
  }

  lemma {:induction false} AdjacentToGlobal(r: seq<Card>)
    requires forall i :: 0 <= i < |r| - 1 ==> r[i].order <= r[i + 1].order
    ensures forall i, j :: 0 <= i < j < |r| ==> r[i].order <= r[j].order
  {
    if |r| > 1 {
      AdjacentToGlobal(r[1..]);
      forall i, j | 0 <= i < j < |r| ensures r[i].order <= r[j].order {
        if i > 0 {
          assert r[i] == r[1..][i - 1] && r[j] == r[1..][j - 1];
        } else if j > 1 {
          assert r[1] == r[1..][0] && r[j] == r[1..][j - 1];
        }
      }
    }
  }

  /** The sorted copy holds the same cards, in non-decreasing order. */
  lemma SortedCardsOrdered(cards: seq<Card>)
    ensures multiset(SortedCards(cards)) == multiset(cards)
    ensures var r := SortedCards(cards);
      forall i, j :: 0 <= i < j < |r| ==> r[i].order <= r[j].order
  {
    assert AntisymmetricOn(cards, OrderCmp());
    SortSorted(cards, OrderCmp());
    AdjacentToGlobal(SortedCards(cards));
  }

  /** Cards with equal `order` keep the order they were passed in. */
  lemma SortedCardsStable(cards: seq<Card>, k: int)
    ensures Filter(SortedCards(cards), (c: Card) => c.order == k) == Filter(cards, (c: Card) => c.order == k)
  {
    SortStable(cards, OrderCmp(), (c: Card) => c.order == k);
  }

  datatype ColumnColor = ColumnColor(bg: string, dot: string, text: string)

  function ColorTable(): map<string, ColumnColor> {
    map[
      "todo" := ColumnColor("bg-gradient-to-br from-slate-50 to-slate-100", "bg-slate-400", "text-slate-700"),
      "in-progress" := ColumnColor("bg-gradient-to-br from-blue-50 to-indigo-50", "bg-blue-500", "text-blue-700"),
      "done" := ColumnColor("bg-gradient-to-br from-green-50 to-emerald-50", "bg-green-500", "text-green-700")
    ]
  }

  /** `colors[columnId] || colors['todo']` */
  function ColumnColorFor(columnId: string): ColumnColor {
    var table := ColorTable();
    if columnId in table then table[columnId] else table["todo"]
  }

  /** The three seeded columns get their own scheme; every other id gets the
      to-do scheme. */
  lemma ColumnColorFallback(columnId: string)
    ensures columnId in {"todo", "in-progress", "done"} ==> ColumnColorFor(columnId) == ColorTable()[columnId]
    ensures columnId !in {"todo", "in-progress", "done"} ==> ColumnColorFor(columnId) == ColorTable()["todo"]
    ensures ColumnColorFor(columnId).dot in {"bg-slate-400", "bg-blue-500", "bg-green-500"}
  {
  }

  /** The badge shows how many cards the column was given. */
  function CountBadge(cards: seq<Card>): nat {
    |cards|
  }
}
