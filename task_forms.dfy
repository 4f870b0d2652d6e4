/** The add-task and edit-task forms (src/components/AddTaskModal.tsx,
    src/components/EditTaskModal.tsx): six form fields, loaded from a card when
    editing, and a submit that normalises them into the arguments of the board
    store's `addCard` or `updateCard`. */
module TaskForms {

  import opened Types
  import opened Text
  import opened BoardStore

  /** The six pieces of form state. */
  datatype FormFields = FormFields(
    title: string,
    description: string,
    priority: Priority,
    dueDate: string,
    assignees: seq<Assignee>,
    tags: seq<Tag>)

  /** The `useState` initial values, and what the add form resets to. */
  function BlankForm(): FormFields {
    FormFields("", "", Medium, "", [], [])
  }

  /** `s || undefined` on a string. */
  function OrUndefined(s: string): (r: Option<string>)
    ensures r.None? <==> s == ""
    ensures r.Some? ==> r.value == s
  {
    if s == "" then None else Some(s)
  }

  /** `xs.length > 0 ? xs : undefined` */
  function ListOrUndefined<T>(xs: seq<T>): (r: Option<seq<T>>)
    ensures r.None? <==> xs == []
    ensures r.Some? ==> r.value == xs
  {
    if xs == [] then None else Some(xs)
  }

  /** The arguments `handleSubmit` passes after the column or card id, or
      `None` when a blank title makes it return early. */
  function Submitted(f: FormFields): (r: Option<CardFields>)
    ensures r.None? <==> IsBlank(f.title)
    ensures r.Some? ==> r.value.title == Trim(f.title) && r.value.title != ""
    ensures r.Some? ==> (r.value.description.None? <==> IsBlank(f.description))
    ensures r.Some? && r.value.description.Some? ==> r.value.description.value == Trim(f.description)
    ensures r.Some? ==> r.value.priority == Some(f.priority)
    ensures r.Some? ==> (r.value.tags.None? <==> f.tags == []) && r.value.tags.GetOr([]) == f.tags
    ensures r.Some? ==> (r.value.assignees.None? <==> f.assignees == []) && r.value.assignees.GetOr([]) == f.assignees
    ensures r.Some? ==> (r.value.dueDate.None? <==> f.dueDate == "") && r.value.dueDate.GetOr("") == f.dueDate
  {
    if IsBlank(f.title) then None
    else Some(CardFields(
      Trim(f.title),
      OrUndefined(Trim(f.description)),
      Some(f.priority),
      ListOrUndefined(f.tags),
      ListOrUndefined(f.assignees),
      OrUndefined(f.dueDate)))
  }

  /** The shape every submitted set of fields has: a trimmed non-empty title,
      no empty optional string or list, and a priority. */
  ghost predicate Normal(c: CardFields) {
    && c.title != "" && Trim(c.title) == c.title
    && (c.description.Some? ==> c.description.value != "" && Trim(c.description.value) == c.description.value)
    && c.priority.Some?
    && (c.tags.Some? ==> c.tags.value != [])
    && (c.assignees.Some? ==> c.assignees.value != [])
    && (c.dueDate.Some? ==> c.dueDate.value != "")
  }

  /** The fields of a card that `updateCard` can write. */
  function FieldsOf(c: Card): CardFields {
    CardFields(c.title, c.description, c.priority, c.tags, c.assignees, c.dueDate)
  }

  /** The edit form's effect: every missing field gets the form's default. */
  function LoadedFields(c: Card): (f: FormFields)
    ensures f.title == c.title
    ensures c.description.Some? ==> f.description == c.description.value
    ensures c.description.None? ==> f.description == ""
    ensures f.priority == if c.priority.Some? then c.priority.value else Medium
    ensures f.dueDate == if c.dueDate.Some? then c.dueDate.value else ""
    ensures f.assignees == if c.assignees.Some? then c.assignees.value else []
    ensures f.tags == if c.tags.Some? then c.tags.value else []
  {
    FormFields(c.title, c.description.GetOr(""), c.priority.GetOr(Medium),
               c.dueDate.GetOr(""), c.assignees.GetOr([]), c.tags.GetOr([]))
  }

  /** Whatever the form sends is already normal. */
  lemma SubmittedIsNormal(f: FormFields)
    ensures Submitted(f).Some? ==> Normal(Submitted(f).value)
  {
    TrimIdempotent(f.title);
    TrimIdempotent(f.description);
  }

  /** Loading a card whose fields are normal and submitting without an edit
      sends exactly the card's fields back, and storing them changes nothing. */
  lemma {:induction false} ReloadResubmits(c: Card)
    requires Normal(FieldsOf(c))
    ensures Submitted(LoadedFields(c)) == Some(FieldsOf(c))
    ensures Merge(c, FieldsPatch(FieldsOf(c))) == c
  {
    TrimmedTitleKept(c.title);
    TrimmedOptionKept(c.description);
    FieldsPatchKeepsCard(c);
  }

  /** A trimmed non-empty title is not blank and is sent as it is. */
  lemma TrimmedTitleKept(title: string)
    requires title != "" && Trim(title) == title
    ensures !IsBlank(title)
  {
  }

  /** A loaded description that was trimmed and non-empty, or missing, is sent
      back as it was. */
  lemma TrimmedOptionKept(d: Option<string>)
    requires d.Some? ==> d.value != "" && Trim(d.value) == d.value
    ensures OrUndefined(Trim(d.GetOr(""))) == d
  {
    if d.None? {
      assert Trim("") == "";
    }
  }

  /** Spreading a card's own fields over it changes nothing. */
  lemma FieldsPatchKeepsCard(c: Card)
    ensures Merge(c, FieldsPatch(FieldsOf(c))) == c
  {
  }

  /** A card submitted once comes back unchanged from a second round through
      the edit form. */
  lemma {:induction false} SubmitIsStable(f: FormFields, cards: seq<Card>, columnId: string, id: string)
    requires !IsBlank(f.title)
    ensures var c := CreatedCard(cards, columnId, Submitted(f).value, id);
      Submitted(LoadedFields(c)) == Submitted(f)
  {
    SubmittedIsNormal(f);
    var c := CreatedCard(cards, columnId, Submitted(f).value, id);
    assert FieldsOf(c) == Submitted(f).value;
    ReloadResubmits(c);
  }

  /** Saving a card that had no priority sends `medium`. */
  lemma MissingPrioritySentAsMedium(c: Card)
    requires !IsBlank(c.title) && c.priority.None?
    ensures Submitted(LoadedFields(c)).Some?
    ensures Submitted(LoadedFields(c)).value.priority == Some(Medium)
  {
  }

  /** A description of spaces only is sent as `undefined`, and so is an empty
      due date or an empty list. */
  lemma BlankOptionalsSentAsUndefined(title: string, p: Priority)
    requires !IsBlank(title)
    ensures var r := Submitted(FormFields(title, " \t ", p, "", [], []));
      r.Some? && r.value.description.None? && r.value.dueDate.None?
      && r.value.tags.None? && r.value.assignees.None?
  {
    BlankIffAllSpaces(" \t ");
  }

  class AddTaskModal {
    /** The column the form adds to, a property of the component. */
    const columnId: string
    var title: string
    var description: string
    var priority: Priority
    var dueDate: string
    var assignees: seq<Assignee>
    var tags: seq<Tag>

    function Form(): FormFields
      reads this
    {
      FormFields(title, description, priority, dueDate, assignees, tags)
    }

    constructor (columnId: string)
      ensures this.columnId == columnId && Form() == BlankForm()
    {
      this.columnId := columnId;
      title, description, priority, dueDate, assignees, tags := "", "", Medium, "", [], [];
    }

    /** The inputs' `onChange` setters. */
    method Fill(f: FormFields)
      modifies this
      ensures Form() == f
    {
      title, description, priority := f.title, f.description, f.priority;
      dueDate, assignees, tags := f.dueDate, f.assignees, f.tags;
    }

    /** `handleSubmit`. `created` is what the gateway answers to the store's
        `addCard`, which is not awaited; `closed` says whether `onClose` ran. */
    method HandleSubmit(store: Store, created: Outcome<Card>) returns (closed: bool)
      modifies this, store
      ensures closed <==> !IsBlank(old(title))
      ensures store.columns == old(store.columns)
      ensures !closed ==> Form() == old(Form()) && store.cards == old(store.cards)
      ensures closed ==> Form() == BlankForm()
      ensures closed ==> store.cards == if created.Ok?
        then old(store.cards) + [CreatedCard(old(store.cards), columnId, Submitted(old(Form())).value, created.value.id)]
        else old(store.cards)
    {
      var sent := Submitted(Form());
      if sent.None? {
        return false;
      }
      var _ := store.AddCard(columnId, sent.value, created);
      Fill(BlankForm());
      return true;
    }
  }

  class EditTaskModal {
    /** The card being edited, a property of the component. */
    var card: Card
    var title: string
    var description: string
    var priority: Priority
    var dueDate: string
    var assignees: seq<Assignee>
    var tags: seq<Tag>

    function Form(): FormFields
      reads this
    {
      FormFields(title, description, priority, dueDate, assignees, tags)
    }

    /** Mounting: the `useState` defaults, then the effect loads the card. */
    constructor (card: Card)
      ensures this.card == card && Form() == LoadedFields(card)
    {
      this.card := card;
      title, description, priority, dueDate, assignees, tags := "", "", Medium, "", [], [];
      new;
      ReceiveCard(card);
    }

    /** The effect that runs whenever the `card` property changes. */
    method ReceiveCard(c: Card)
      modifies this
      ensures card == c && Form() == LoadedFields(c)
    {
      card := c;
      title := c.title;
      description := c.description.GetOr("");
      priority := c.priority.GetOr(Medium);
      dueDate := c.dueDate.GetOr("");
      assignees := c.assignees.GetOr([]);
      tags := c.tags.GetOr([]);
    }

    method Fill(f: FormFields)
      modifies this
      ensures card == old(card) && Form() == f
    {
      title, description, priority := f.title, f.description, f.priority;
      dueDate, assignees, tags := f.dueDate, f.assignees, f.tags;
    }

    /** `handleSubmit`. `answer` is what the gateway answers to the store's
        `updateCard`, which is not awaited; the form keeps its fields. */
    method HandleSubmit(store: Store, answer: Outcome<Card>) returns (closed: bool)
      modifies store
      ensures closed <==> !IsBlank(title)
      ensures store.columns == old(store.columns)
      ensures !closed ==> store.cards == old(store.cards)
      ensures closed ==> store.cards == if answer.Ok?
        then PatchMatching(old(store.cards), card.id, FieldsPatch(Submitted(Form()).value))
        else old(store.cards)
    {
      var sent := Submitted(Form());
      if sent.None? {
        return false;
      }
      var _ := store.UpdateCard(card.id, sent.value, answer);
      return true;
    }
  }

  /** Opening the edit form on a normal card and saving it at once leaves the
      store's cards as they were, when no other card shares its id. */
  lemma UnchangedSaveKeepsCards(cards: seq<Card>, c: Card)
    requires Normal(FieldsOf(c))
    requires forall i :: 0 <= i < |cards| && cards[i].id == c.id ==> cards[i] == c
    ensures PatchMatching(cards, c.id, FieldsPatch(Submitted(LoadedFields(c)).value)) == cards
  {
    ReloadResubmits(c);
    PatchFixingCardKeepsAll(cards, c, FieldsPatch(FieldsOf(c)));
  }

  lemma PatchFixingCardKeepsAll(cards: seq<Card>, c: Card, patch: CardPatch)
    requires Merge(c, patch) == c
    requires forall i :: 0 <= i < |cards| && cards[i].id == c.id ==> cards[i] == c
    ensures PatchMatching(cards, c.id, patch) == cards
  {
    var r := PatchMatching(cards, c.id, patch);
    forall i | 0 <= i < |cards| ensures r[i] == cards[i] {
      if cards[i].id == c.id {
        assert cards[i] == c;
      }
    }
  }
}
