/** The selection logic of the multi-select control
    (src/components/ui/MultiSelect.tsx): toggling and removing items of a
    selected list, where two items are the same item when `getItemId` gives
    them the same id. */
module MultiSelect {

  import opened Types
  import opened SeqUtil

  /** `(i) => getItemId(i) === id` */
  function HasId<T(!new)>(getItemId: T -> string, id: string): T -> bool {
    (i: T) => getItemId(i) == id
  }

  /** `(i) => getItemId(i) !== id` */
  function LacksId<T(!new)>(getItemId: T -> string, id: string): T -> bool {
    (i: T) => getItemId(i) != id
  }

  /** `selectedItems.some((i) => getItemId(i) === itemId)` */
  predicate IsSelected<T(!new)>(selected: seq<T>, item: T, getItemId: T -> string) {
    Any(selected, HasId(getItemId, getItemId(item)))
  }

  /** `removeItem`: the list handed to `onChange`. */
  function Remove<T(!new)>(selected: seq<T>, item: T, getItemId: T -> string): (r: seq<T>)
    ensures forall i :: 0 <= i < |r| ==> r[i] in selected && getItemId(r[i]) != getItemId(item)
    ensures forall i :: 0 <= i < |selected| && getItemId(selected[i]) != getItemId(item) ==> selected[i] in r
  {
    var r := Filter(selected, LacksId(getItemId, getItemId(item)));
    FilterMembers(selected, LacksId(getItemId, getItemId(item)));
    assert forall i :: 0 <= i < |r| ==> r[i] in r;
    r
  }

  /** `toggleItem`: the list handed to `onChange`. */
  function Toggle<T(!new)>(selected: seq<T>, item: T, getItemId: T -> string): (r: seq<T>)
    ensures IsSelected(selected, item, getItemId) ==> r == Remove(selected, item, getItemId)
    ensures !IsSelected(selected, item, getItemId) ==>
      |r| == |selected| + 1 && r[..|selected|] == selected && r[|selected|] == item
  {
    if IsSelected(selected, item, getItemId) then Remove(selected, item, getItemId)
    else selected + [item]
  }

  /** After removing, no item with that id is selected; each other item keeps
      the number of times it occurred. */
  lemma RemoveDropsEveryMatch<T(!new)>(selected: seq<T>, item: T, getItemId: T -> string)
    ensures !IsSelected(Remove(selected, item, getItemId), item, getItemId)
    ensures forall x :: getItemId(x) != getItemId(item) ==>
      multiset(Remove(selected, item, getItemId))[x] == multiset(selected)[x]
  {
    var r := Remove(selected, item, getItemId);
    assert forall i :: 0 <= i < |r| ==> !HasId(getItemId, getItemId(item))(r[i]);
    FilterMultiset(selected, LacksId(getItemId, getItemId(item)));
  }

  /** Removing keeps the rest in order: it works piece by piece on a list. */
  lemma RemoveKeepsOrder<T(!new)>(a: seq<T>, b: seq<T>, item: T, getItemId: T -> string)
    ensures Remove(a + b, item, getItemId) == Remove(a, item, getItemId) + Remove(b, item, getItemId)
  {
    FilterConcat(a, b, LacksId(getItemId, getItemId(item)));
  }

  /** Removing an item that is not selected changes nothing. */
  lemma RemoveAbsentIsIdentity<T(!new)>(selected: seq<T>, item: T, getItemId: T -> string)
    requires !IsSelected(selected, item, getItemId)
    ensures Remove(selected, item, getItemId) == selected
  {
    assert forall i :: 0 <= i < |selected| ==> LacksId(getItemId, getItemId(item))(selected[i]) by {
      forall i | 0 <= i < |selected| ensures LacksId(getItemId, getItemId(item))(selected[i]) {
        assert !HasId(getItemId, getItemId(item))(selected[i]);
      }
    }
    FilterKeepsAll(selected, LacksId(getItemId, getItemId(item)));
  }

  lemma RemoveIdempotent<T(!new)>(selected: seq<T>, item: T, getItemId: T -> string)
    ensures Remove(Remove(selected, item, getItemId), item, getItemId) == Remove(selected, item, getItemId)
  {
    FilterIdempotent(selected, LacksId(getItemId, getItemId(item)));
  }

  /** Toggling a selected item removes every item with its id; toggling an
      unselected one makes it selected. */
  lemma ToggleFlipsSelection<T(!new)>(selected: seq<T>, item: T, getItemId: T -> string)
    ensures IsSelected(Toggle(selected, item, getItemId), item, getItemId) <==> !IsSelected(selected, item, getItemId)
  {
    var r := Toggle(selected, item, getItemId);
    if IsSelected(selected, item, getItemId) {
      RemoveDropsEveryMatch(selected, item, getItemId);
    } else {
      assert HasId(getItemId, getItemId(item))(r[|selected|]);
    }
  }

  /** Toggling an unselected item twice gives back the list it started from. */
  lemma {:induction false} ToggleTwiceRestores<T(!new)>(selected: seq<T>, item: T, getItemId: T -> string)
    requires !IsSelected(selected, item, getItemId)
    ensures Toggle(Toggle(selected, item, getItemId), item, getItemId) == selected
  {
    var once := Toggle(selected, item, getItemId);
    assert once == selected + [item];
    ToggleFlipsSelection(selected, item, getItemId);
    RemoveKeepsOrder(selected, [item], item, getItemId);
    RemoveAbsentIsIdentity(selected, item, getItemId);
    assert Remove([item], item, getItemId) == [];
  }

  /** Identity is by id: two items with the same id are the same item to both
      operations, even when they differ otherwise. */
  lemma SameIdSameItem<T(!new)>(selected: seq<T>, a: T, b: T, getItemId: T -> string)
    requires getItemId(a) == getItemId(b)
    ensures IsSelected(selected, a, getItemId) == IsSelected(selected, b, getItemId)
    ensures Remove(selected, a, getItemId) == Remove(selected, b, getItemId)
    ensures IsSelected(selected, a, getItemId) ==> Toggle(selected, a, getItemId) == Toggle(selected, b, getItemId)
  {
  }

  /** A tag whose name or colour changed still deselects the tag with its id. */
  lemma RenamedTagDeselects()
    ensures Toggle([Tag("t1", "Bug", "red")], Tag("t1", "Defect", "orange"), (t: Tag) => t.id) == []
  {
    var getId := (t: Tag) => t.id;
    var item := Tag("t1", "Defect", "orange");
    assert HasId(getId, getId(item))([Tag("t1", "Bug", "red")][0]);
    assert Remove([Tag("t1", "Bug", "red")], item, getId) == [];
  }
}
