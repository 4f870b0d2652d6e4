/** The task query hooks (src/hooks/useTasks.ts): the query keys, the cache
    updaters of the create, update and delete mutations, and the optimistic
    `onMutate` / `onError` pair of each mutation over a shared query cache. */
module TaskHooks {

  import opened Types
  import opened SeqUtil
  import Text
  import opened BoardStore

  // ---------------------------------------------------------------------------
  // Query keys

  /** One element of a query key: a literal segment or a filter record. */
  datatype KeyPart = Segment(name: string) | Filters(entries: map<string, string>)

  type QueryKey = seq<KeyPart>

  /** `taskKeys.all` */
  function AllKey(): QueryKey {
    [Segment("tasks")]
  }

  /** `taskKeys.lists()` */
  function ListsKey(): QueryKey {
    AllKey() + [Segment("list")]
  }

  /** `taskKeys.list(filters)` */
  function ListKey(filters: map<string, string>): QueryKey {
    ListsKey() + [Filters(filters)]
  }

  /** `taskKeys.details()` */
  function DetailsKey(): QueryKey {
    AllKey() + [Segment("detail")]
  }

  /** `taskKeys.detail(id)` */
  function DetailKey(id: string): QueryKey {
    DetailsKey() + [Segment(id)]
  }

  predicate IsKeyPrefix(pre: QueryKey, key: QueryKey) {
    |pre| <= |key| && key[..|pre|] == pre
  }

  /** The keys spelled out; `"tasks"` heads every key, the list key heads every
      filtered list key, and the details key heads every detail key. */
  lemma KeyShapes(filters: map<string, string>, id: string)
    ensures ListsKey() == [Segment("tasks"), Segment("list")]
    ensures DetailKey(id) == [Segment("tasks"), Segment("detail"), Segment(id)]
    ensures && IsKeyPrefix(AllKey(), ListsKey()) && IsKeyPrefix(AllKey(), ListKey(filters))
            && IsKeyPrefix(AllKey(), DetailsKey()) && IsKeyPrefix(AllKey(), DetailKey(id))
    ensures IsKeyPrefix(ListsKey(), ListKey(filters)) && IsKeyPrefix(DetailsKey(), DetailKey(id))
  {
    assert ListKey(filters)[..2] == ListsKey();
    assert DetailKey(id)[..2] == DetailsKey();
  }

  /** Distinct ids have distinct detail keys, and no detail key is the list
      key, so the update mutation's two cache writes never touch the same
      entry. */
  lemma KeysSeparate(a: string, b: string)
    ensures DetailKey(a) == DetailKey(b) <==> a == b
    ensures ListsKey() != DetailKey(a)
    ensures !IsKeyPrefix(ListsKey(), DetailKey(a)) && !IsKeyPrefix(DetailsKey(), ListsKey())
  {
    if DetailKey(a) == DetailKey(b) {
      assert DetailKey(a)[2] == Segment(a) && DetailKey(b)[2] == Segment(b);
    }
    assert DetailKey(a)[1] == Segment("detail");
  }

  // ---------------------------------------------------------------------------
  // Cache contents

  /** What an entry holds: the task list or one task. */
  datatype CacheData = Cards(list: seq<Card>) | OneCard(card: Card)

  type Entries = map<QueryKey, CacheData>

  /** The list key holds a list and every detail key holds one task, as the
      `useTasks` and `useTask` queries store them. */
  ghost predicate WellTyped(entries: Entries) {
    && (ListsKey() in entries ==> entries[ListsKey()].Cards?)
    && (forall id :: DetailKey(id) in entries ==> entries[DetailKey(id)].OneCard?)
  }

  /** `getQueryData(key)`: the entry, or `undefined`. */
  function Snapshot(entries: Entries, key: QueryKey): (r: Option<CacheData>)
    ensures r.Some? <==> key in entries
    ensures r.Some? ==> r.value == entries[key]
  {
    if key in entries then Some(entries[key]) else None
  }

  /** `setQueryData(key, value)`: a defined value replaces the entry; the value
      `undefined` leaves the cache as it is. */
  function SetData(entries: Entries, key: QueryKey, value: Option<CacheData>): Entries {
    if value.Some? then entries[key := value.value] else entries
  }

  /** `(old: Card[] = [])`: the cached list, or the empty list when there is none. */
  function ListOrEmpty(entries: Entries): seq<Card>
    requires WellTyped(entries)
  {
    if ListsKey() in entries then entries[ListsKey()].list else []
  }

  /** Writing back a snapshot of an entry restores the entry exactly when it
      existed; for a missing entry the write is dropped and the new value
      stays. */
  lemma RestoreSnapshot(entries: Entries, key: QueryKey, value: CacheData)
    ensures key in entries ==> SetData(entries[key := value], key, Snapshot(entries, key)) == entries
    ensures key !in entries ==> SetData(entries[key := value], key, Snapshot(entries, key)) == entries[key := value]
  {
  }

  // ---------------------------------------------------------------------------
  // Updaters

  /** The fields `useCreateTask` is called with. */
  datatype NewTask = NewTask(
    title: string,
    description: Option<string>,
    columnId: string,
    priority: Option<Priority>,
    tags: Option<seq<Tag>>,
    assignees: Option<seq<Assignee>>,
    dueDate: Option<string>)

  /** `temp-${Date.now()}` */
  function TempId(now: nat): string {
    "temp-" + Text.Decimal(now)
  }

  /** Two clock readings give the same placeholder id only when they are
      equal. */
  lemma TempIdsDistinct(m: nat, n: nat)
    ensures TempId(m) == TempId(n) <==> m == n
  {
    if TempId(m) == TempId(n) {
      assert TempId(m)[5..] == Text.Decimal(m) && TempId(n)[5..] == Text.Decimal(n);
    }
    Text.DecimalInjective(m, n);
  }

  /** The create updater: the prior list with one placeholder appended, numbered
      after the whole prior list. */
  function CreateUpdater(prior: seq<Card>, task: NewTask, now: nat): (r: seq<Card>)
    ensures |r| == |prior| + 1 && r[..|prior|] == prior
    ensures var added := r[|prior|];
      && added.id == TempId(now) && added.order == |prior|
      && added.title == task.title && added.description == task.description
      && added.columnId == task.columnId && added.priority == task.priority
      && added.tags == task.tags && added.assignees == task.assignees && added.dueDate == task.dueDate
  {
    prior + [Card(TempId(now), task.title, task.description, task.columnId, |prior|,
                task.priority, task.tags, task.assignees, task.dueDate)]
  }

  /** The update updater of the list: `{ ...task, ...data }` for matching ids. */
  function UpdateListUpdater(prior: seq<Card>, id: string, data: CardPatch): seq<Card> {
    PatchMatching(prior, id, data)
  }

  /** The list updater merges the partial card into the entries with the id
      and into nothing else. */
  lemma UpdateListUpdaterMergesMatching(prior: seq<Card>, id: string, data: CardPatch)
    ensures var r := UpdateListUpdater(prior, id, data);
      && |r| == |prior|
      && forall i :: 0 <= i < |prior| ==> r[i] == if prior[i].id == id then Merge(prior[i], data) else prior[i]
    ensures data == EmptyPatch ==> UpdateListUpdater(prior, id, data) == prior
  {
    if data == EmptyPatch {
      forall i | 0 <= i < |prior| ensures Merge(prior[i], data) == prior[i] {
        MergeEmptyIsIdentity(prior[i]);
      }
    }
  }

  /** The update updater of the detail entry: merge when it is cached, else
      stay `undefined`. */
  function UpdateDetailUpdater(prior: Option<CacheData>, data: CardPatch): (r: Option<CacheData>)
    requires prior.Some? ==> prior.value.OneCard?
    ensures r.Some? <==> prior.Some?
    ensures r.Some? ==> r.value == OneCard(Merge(prior.value.card, data))
  {
    if prior.Some? then Some(OneCard(Merge(prior.value.card, data))) else None
  }

  /** The delete updater: every entry with the id removed. */
  function DeleteUpdater(prior: seq<Card>, id: string): seq<Card> {
    RemoveCard(prior, id)
  }

  // ---------------------------------------------------------------------------
  // Whole-cache effect of each step

  /** What `onMutate` returns: the snapshots taken before the writes. */
  datatype MutationContext = MutationContext(previousTasks: Option<CacheData>, previousTask: Option<CacheData>)

  function CreateMutated(entries: Entries, task: NewTask, now: nat): Entries
    requires WellTyped(entries)
  {
    entries[ListsKey() := Cards(CreateUpdater(ListOrEmpty(entries), task, now))]
  }

  function UpdateMutated(entries: Entries, id: string, data: CardPatch): Entries
    requires WellTyped(entries)
  {
    var listed := entries[ListsKey() := Cards(UpdateListUpdater(ListOrEmpty(entries), id, data))];
    KeysSeparate(id, id);
    SetData(listed, DetailKey(id), UpdateDetailUpdater(Snapshot(entries, DetailKey(id)), data))
  }

  function DeleteMutated(entries: Entries, id: string): Entries
    requires WellTyped(entries)
  {
    entries[ListsKey() := Cards(DeleteUpdater(ListOrEmpty(entries), id))]
  }

  /** `setQueryData(taskKeys.lists(), context?.previousTasks)` */
  function ListRolledBack(entries: Entries, context: Option<MutationContext>): Entries {
    SetData(entries, ListsKey(), if context.Some? then context.value.previousTasks else None)
  }

  /** The update `onError`: the list rollback, then the detail rollback. */
  function UpdateRolledBack(entries: Entries, id: string, context: Option<MutationContext>): Entries {
    SetData(ListRolledBack(entries, context), DetailKey(id), if context.Some? then context.value.previousTask else None)
  }

  /** A create that fails restores the cache exactly when a list was cached;
      with no list cached the placeholder card stays in the cache. */
  lemma CreateRollbackAsWritten(entries: Entries, task: NewTask, now: nat)
    requires WellTyped(entries)
    ensures var ctx := Some(MutationContext(Snapshot(entries, ListsKey()), None));
      && (ListsKey() in entries ==> ListRolledBack(CreateMutated(entries, task, now), ctx) == entries)
      && (ListsKey() !in entries ==>
            ListRolledBack(CreateMutated(entries, task, now), ctx)
              == entries[ListsKey() := Cards([Card(TempId(now), task.title, task.description, task.columnId, 0,
                                                   task.priority, task.tags, task.assignees, task.dueDate)])])
  {
    RestoreSnapshot(entries, ListsKey(), Cards(CreateUpdater(ListOrEmpty(entries), task, now)));
  }

  /** A failing update restores the detail entry always, and the list exactly
      when a list was cached; with no list cached an empty list stays. */
  lemma UpdateRollbackAsWritten(entries: Entries, id: string, data: CardPatch)
    requires WellTyped(entries)
    ensures var ctx := Some(MutationContext(Snapshot(entries, ListsKey()), Snapshot(entries, DetailKey(id))));
      && (ListsKey() in entries ==> UpdateRolledBack(UpdateMutated(entries, id, data), id, ctx) == entries)
      && (ListsKey() !in entries ==>
            UpdateRolledBack(UpdateMutated(entries, id, data), id, ctx) == entries[ListsKey() := Cards([])])
  {
    KeysSeparate(id, id);
    var ctx := Some(MutationContext(Snapshot(entries, ListsKey()), Snapshot(entries, DetailKey(id))));
    RestoreSnapshot(entries, ListsKey(), Cards(UpdateListUpdater(ListOrEmpty(entries), id, data)));
  }

  /** A failing delete restores the cache exactly when a list was cached; with
      no list cached an empty list stays. */
  lemma DeleteRollbackAsWritten(entries: Entries, id: string)
    requires WellTyped(entries)
    ensures var ctx := Some(MutationContext(Snapshot(entries, ListsKey()), None));
      && (ListsKey() in entries ==> ListRolledBack(DeleteMutated(entries, id), ctx) == entries)
      && (ListsKey() !in entries ==> ListRolledBack(DeleteMutated(entries, id), ctx) == entries[ListsKey() := Cards([])])
  {
    RestoreSnapshot(entries, ListsKey(), Cards(DeleteUpdater(ListOrEmpty(entries), id)));
  }

  /** With no list cached, a failed create leaves a cached list holding the
      placeholder card. */
  lemma CreateRollbackKeepsPlaceholder(task: NewTask)
    ensures var ctx := Some(MutationContext(Snapshot(map[], ListsKey()), None));
      var rolled := ListRolledBack(CreateMutated(map[], task, 7), ctx);
      ListsKey() in rolled && rolled[ListsKey()].Cards? && |rolled[ListsKey()].list| == 1
      && rolled[ListsKey()].list[0].id == "temp-7"
  {
    CreateRollbackAsWritten(map[], task, 7);
    assert TempId(7) == "temp-7";
  }

  /** The intended rollback: write the snapshot back, or drop the entry when
      there was none. */
  function Restore(entries: Entries, key: QueryKey, snapshot: Option<CacheData>): Entries {
    if snapshot.Some? then entries[key := snapshot.value] else entries - {key}
  }

  /** The intended list rollback. */
  function ListRestored(entries: Entries, context: Option<MutationContext>): Entries {
    if context.Some? then Restore(entries, ListsKey(), context.value.previousTasks) else entries
  }

  /** Restoring a snapshot undoes any write to its entry. */
  lemma {:induction false} RestoreUndoesWrite(entries: Entries, key: QueryKey, value: CacheData)
    ensures Restore(entries[key := value], key, Snapshot(entries, key)) == entries
  {
    if key !in entries {
      var r := Restore(entries[key := value], key, Snapshot(entries, key));
      assert r.Keys == entries.Keys;
    }
  }

  /** With the intended rollback, a failed create or delete is the identity on
      the cache whether or not a list was cached. */
  lemma IntendedRollbackRestores(entries: Entries, task: NewTask, now: nat, id: string)
    requires WellTyped(entries)
    ensures var ctx := Some(MutationContext(Snapshot(entries, ListsKey()), None));
      && ListRestored(CreateMutated(entries, task, now), ctx) == entries
      && ListRestored(DeleteMutated(entries, id), ctx) == entries
  {
    RestoreUndoesWrite(entries, ListsKey(), Cards(CreateUpdater(ListOrEmpty(entries), task, now)));
    RestoreUndoesWrite(entries, ListsKey(), Cards(DeleteUpdater(ListOrEmpty(entries), id)));
  }

  // ---------------------------------------------------------------------------
  // The query cache and the mutation callbacks

  /** The query client's cache, keyed by query key. */
  class QueryCache {
    var entries: Entries

    ghost predicate Valid()
      reads this
    {
      WellTyped(entries)
    }

    constructor()
      ensures Valid() && entries == map[]
    {
      entries := map[];
    }

    function GetQueryData(key: QueryKey): (r: Option<CacheData>)
      reads this
      ensures r.Some? <==> key in entries
      ensures r.Some? ==> r.value == entries[key]
    {
      Snapshot(entries, key)
    }

    method SetQueryData(key: QueryKey, value: Option<CacheData>)
      modifies this
      ensures entries == SetData(old(entries), key, value)
    {
      if value.Some? {
        entries := entries[key := value.value];
      }
    }
  }

  /** A context whose snapshots have the shapes the keys hold. */
  ghost predicate ContextFits(context: Option<MutationContext>) {
    context.Some? ==>
      && (context.value.previousTasks.Some? ==> context.value.previousTasks.value.Cards?)
      && (context.value.previousTask.Some? ==> context.value.previousTask.value.OneCard?)
  }

  method CreateOnMutate(cache: QueryCache, task: NewTask, now: nat) returns (context: MutationContext)
    requires cache.Valid()
    modifies cache
    ensures cache.Valid() && ContextFits(Some(context))
    ensures context == MutationContext(Snapshot(old(cache.entries), ListsKey()), None)
    ensures cache.entries == CreateMutated(old(cache.entries), task, now)
  {
    var previousTasks := cache.GetQueryData(ListsKey());
    var prior := if previousTasks.Some? then previousTasks.value.list else [];
    cache.SetQueryData(ListsKey(), Some(Cards(CreateUpdater(prior, task, now))));
    KeysSeparate("", "");
    context := MutationContext(previousTasks, None);
  }

  /** The `onError` of create and delete. */
  method ListOnError(cache: QueryCache, context: Option<MutationContext>)
    requires cache.Valid() && ContextFits(context)
    modifies cache
    ensures cache.Valid()
    ensures cache.entries == ListRolledBack(old(cache.entries), context)
  {
    cache.SetQueryData(ListsKey(), if context.Some? then context.value.previousTasks else None);
    KeysSeparate("", "");
  }

  method UpdateOnMutate(cache: QueryCache, id: string, data: CardPatch) returns (context: MutationContext)
    requires cache.Valid()
    modifies cache
    ensures cache.Valid() && ContextFits(Some(context))
    ensures context == MutationContext(Snapshot(old(cache.entries), ListsKey()), Snapshot(old(cache.entries), DetailKey(id)))
    ensures cache.entries == UpdateMutated(old(cache.entries), id, data)
  {
    var previousTasks := cache.GetQueryData(ListsKey());
    var previousTask := cache.GetQueryData(DetailKey(id));
    KeysSeparate(id, id);
    var prior := if previousTasks.Some? then previousTasks.value.list else [];
    cache.SetQueryData(ListsKey(), Some(Cards(UpdateListUpdater(prior, id, data))));
    cache.SetQueryData(DetailKey(id), UpdateDetailUpdater(cache.GetQueryData(DetailKey(id)), data));
    context := MutationContext(previousTasks, previousTask);
  }

  method UpdateOnError(cache: QueryCache, id: string, context: Option<MutationContext>)
    requires cache.Valid() && ContextFits(context)
    modifies cache
    ensures cache.Valid()
    ensures cache.entries == UpdateRolledBack(old(cache.entries), id, context)
  {
    KeysSeparate(id, id);
    cache.SetQueryData(ListsKey(), if context.Some? then context.value.previousTasks else None);
    cache.SetQueryData(DetailKey(id), if context.Some? then context.value.previousTask else None);
  }

  method DeleteOnMutate(cache: QueryCache, id: string) returns (context: MutationContext)
    requires cache.Valid()
    modifies cache
    ensures cache.Valid() && ContextFits(Some(context))
    ensures context == MutationContext(Snapshot(old(cache.entries), ListsKey()), None)
    ensures cache.entries == DeleteMutated(old(cache.entries), id)
  {
    var previousTasks := cache.GetQueryData(ListsKey());
    var prior := if previousTasks.Some? then previousTasks.value.list else [];
    cache.SetQueryData(ListsKey(), Some(Cards(DeleteUpdater(prior, id))));
    KeysSeparate("", "");
    context := MutationContext(previousTasks, None);
  }
}
