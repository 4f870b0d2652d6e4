/** The board's entities (src/types/index.ts) as values.
    An optional TypeScript property (`x?: T`) is an `Option<T>`; a `Partial<T>`
    object that is spread over a record is a record of `Patch`es, one per key. */
module Types {

  datatype Option<+T> = None | Some(value: T) {
    function GetOr(default: T): T {
      match this
      case Some(v) => v
      case None => default
    }
  }

  /** One key of a `Partial<T>` object: absent (`Keep`) or present (`Set`).
      For an optional field a present key may carry `undefined`: `Set(None)`. */
  datatype Patch<+T> = Keep | Set(v: T) {
    function Over(current: T): T {
      match this
      case Keep => current
      case Set(v) => v
    }
  }

  datatype Priority = Low | Medium | High | Urgent

  datatype Tag = Tag(id: string, name: string, color: string)

  datatype Assignee = Assignee(id: string, name: string, avatar: Option<string>)

  datatype Card = Card(
    id: string,
    title: string,
    description: Option<string>,
    columnId: string,
    order: int,
    priority: Option<Priority>,
    tags: Option<seq<Tag>>,
    assignees: Option<seq<Assignee>>,
    dueDate: Option<string>)

  /** `cards` exists on the type, but the board store always keeps it empty and
      holds every card in the flat list of `BoardState`. */
  datatype Column = Column(id: string, title: string, order: int, cards: seq<Card>)

  datatype BoardState = BoardState(columns: seq<Column>, cards: seq<Card>)

  datatype UserProfile = UserProfile(
    id: string,
    name: string,
    email: string,
    role: string,
    avatar: Option<string>)

  /** A `Partial<Card>`: the keys a caller may put in an update. */
  datatype CardPatch = CardPatch(
    id: Patch<string>,
    title: Patch<string>,
    description: Patch<Option<string>>,
    columnId: Patch<string>,
    order: Patch<int>,
    priority: Patch<Option<Priority>>,
    tags: Patch<Option<seq<Tag>>>,
    assignees: Patch<Option<seq<Assignee>>>,
    dueDate: Patch<Option<string>>)

  const EmptyPatch := CardPatch(Keep, Keep, Keep, Keep, Keep, Keep, Keep, Keep, Keep)

  /** `{ ...card, ...patch }`: every key present in the patch wins, even when it
      carries `undefined`; every absent key keeps the card's value. */
  function Merge(c: Card, p: CardPatch): (r: Card)
    ensures p.title.Set? ==> r.title == p.title.v
    ensures p.title.Keep? ==> r.title == c.title
    ensures p.description.Set? ==> r.description == p.description.v
    ensures p.description.Keep? ==> r.description == c.description
    ensures p.priority.Set? ==> r.priority == p.priority.v
    ensures p.priority.Keep? ==> r.priority == c.priority
    ensures p.id.Set? ==> r.id == p.id.v
    ensures p.id.Keep? ==> r.id == c.id
    ensures p.columnId.Set? ==> r.columnId == p.columnId.v
    ensures p.columnId.Keep? ==> r.columnId == c.columnId
    ensures p.order.Set? ==> r.order == p.order.v
    ensures p.order.Keep? ==> r.order == c.order
    ensures p.tags.Set? ==> r.tags == p.tags.v
    ensures p.tags.Keep? ==> r.tags == c.tags
    ensures p.assignees.Set? ==> r.assignees == p.assignees.v
    ensures p.assignees.Keep? ==> r.assignees == c.assignees
    ensures p.dueDate.Set? ==> r.dueDate == p.dueDate.v
    ensures p.dueDate.Keep? ==> r.dueDate == c.dueDate
  {
    Card(
      p.id.Over(c.id),
      p.title.Over(c.title),
      p.description.Over(c.description),
      p.columnId.Over(c.columnId),
      p.order.Over(c.order),
      p.priority.Over(c.priority),
      p.tags.Over(c.tags),
      p.assignees.Over(c.assignees),
      p.dueDate.Over(c.dueDate))
  }

  lemma MergeEmptyIsIdentity(c: Card)
    ensures Merge(c, EmptyPatch) == c
  {
  }

  /** Spreading the same patch twice is spreading it once. */
  lemma MergeIdempotent(c: Card, p: CardPatch)
    ensures Merge(Merge(c, p), p) == Merge(c, p)
  {
  }

  /** A later spread wins key by key over an earlier one. */
  function Then(p: CardPatch, q: CardPatch): CardPatch {
    CardPatch(
      if q.id.Set? then q.id else p.id,
      if q.title.Set? then q.title else p.title,
      if q.description.Set? then q.description else p.description,
      if q.columnId.Set? then q.columnId else p.columnId,
      if q.order.Set? then q.order else p.order,
      if q.priority.Set? then q.priority else p.priority,
      if q.tags.Set? then q.tags else p.tags,
      if q.assignees.Set? then q.assignees else p.assignees,
      if q.dueDate.Set? then q.dueDate else p.dueDate)
  }

  lemma MergeCompose(c: Card, p: CardPatch, q: CardPatch)
    ensures Merge(Merge(c, p), q) == Merge(c, Then(p, q))
  {
  }
}
