/**
 * Properties of the sortable-list context provider: the index derivation
 * determines a unique answer, worked examples of the derivation, and the
 * snapshot lifecycle across renders and commits.
 */
module SortableContextProperties {
  import opened SortableContext

  /** The index law admits one value only, so it fully specifies `indexOf`. */
  lemma IndexLawDeterminesIndex(s: seq<UniqueIdentifier>, target: Option<UniqueIdentifier>, i: int, j: int)
    requires IndexLaw(s, target, i) && IndexLaw(s, target, j)
    ensures i == j
  {
  }

  /** Any first occurrence of an id is what `indexOf` returns. */
  lemma IndexOfFindsFirstOccurrence(s: seq<UniqueIdentifier>, id: UniqueIdentifier, k: int)
    requires IsFirstIndex(s, id, k)
    ensures IndexOf(s, id) == k
  {
  }

  /** A list held by the snapshot is suppressed only for reasons from the drag engine. */
  lemma SettledListSuppression<Rect>(
    containerId: string,
    items: ItemsList,
    drag: DndState<Rect>,
    getSortedRects: (seq<UniqueIdentifier>, map<UniqueIdentifier, Rect>) -> seq<Rect>)
    ensures Derive(containerId, items, items, drag, getSortedRects).disableInlineStyles <==>
      drag.willRecomputeClientRects || CrossListOver(items.ids, drag)
  {
  }

  /** A new list reference suppresses styles even when its ids are the same. */
  lemma EqualIdsNewListSuppresses<Rect>(
    containerId: string,
    previousItems: ItemsList,
    items: ItemsList,
    drag: DndState<Rect>,
    getSortedRects: (seq<UniqueIdentifier>, map<UniqueIdentifier, Rect>) -> seq<Rect>)
    requires previousItems.ids == items.ids && previousItems != items
    ensures Derive(containerId, previousItems, items, drag, getSortedRects).disableInlineStyles
  {
  }

  /**
   * Items [a, b, c], nothing dragged, "b" targeted: the list is targeted from
   * outside, so its styles are suppressed.
   */
  lemma CrossListExample<Rect>(
    containerId: string,
    items: ItemsList,
    drag: DndState<Rect>,
    getSortedRects: (seq<UniqueIdentifier>, map<UniqueIdentifier, Rect>) -> seq<Rect>)
    requires items.ids == ["a", "b", "c"]
    requires drag.active == None && drag.over == Some("b")
    ensures var ctx := Derive(containerId, items, items, drag, getSortedRects);
      ctx.activeIndex == -1 && ctx.overIndex == 1 && ctx.disableInlineStyles
  {
  }

  /**
   * Items [A, B, C, D] each measured, B dragged over C, no remeasurement, no
   * clone, list unchanged: indices 1 and 2, nothing suppressed.
   */
  lemma EndToEndScenario<Rect>(
    containerId: string,
    items: ItemsList,
    r1: Rect, r2: Rect, r3: Rect, r4: Rect,
    getSortedRects: (seq<UniqueIdentifier>, map<UniqueIdentifier, Rect>) -> seq<Rect>)
    requires items.ids == ["A", "B", "C", "D"]
    ensures
      var rects := map["A" := r1, "B" := r2, "C" := r3, "D" := r4];
      var drag := DndState(Some("B"), Some("C"), false, rects, None);
      var ctx := Derive(containerId, items, items, drag, getSortedRects);
      && ctx.activeIndex == 1 && ctx.overIndex == 2
      && ctx.clientRects == getSortedRects(items.ids, rects)
      && !ctx.disableInlineStyles && !ctx.useClone
  {
  }

  /** The first render after mounting compares the list with itself. */
  method MountCycle<Rect>(
    containerId: string,
    items: ItemsList,
    drag: DndState<Rect>,
    getSortedRects: (seq<UniqueIdentifier>, map<UniqueIdentifier, Rect>) -> seq<Rect>
  ) returns (ctx: ContextValue<Rect>)
    ensures ctx.containerId == containerId && ctx.items == items
    ensures ctx.disableInlineStyles <==> drag.willRecomputeClientRects || CrossListOver(items.ids, drag)
  {
    var provider := new SortableProvider(containerId, items);
    ctx := provider.Cycle(items, drag, getSortedRects);
  }

  /**
   * Renders from mount until the snapshot catches up after the caller swaps
   * `current` for `next` (when the drag engine gives no reason to suppress):
   * the mounting render is not suppressed; a render that sees `next` and is
   * discarded is suppressed, and so is the next one; once a render with `next`
   * is committed, the following render with `next` is not.
   */
  method SuppressionWindow<Rect>(
    containerId: string,
    current: ItemsList,
    next: ItemsList,
    drag: DndState<Rect>,
    getSortedRects: (seq<UniqueIdentifier>, map<UniqueIdentifier, Rect>) -> seq<Rect>
  ) returns (before: ContextValue<Rect>, discarded: ContextValue<Rect>,
             during: ContextValue<Rect>, after: ContextValue<Rect>)
    requires current != next
    requires !drag.willRecomputeClientRects
    requires !CrossListOver(current.ids, drag) && !CrossListOver(next.ids, drag)
    ensures !before.disableInlineStyles && before.items == current
    ensures discarded.disableInlineStyles && discarded.items == next
    ensures during.disableInlineStyles && during.items == next
    ensures !after.disableInlineStyles && after.items == next
  {
    var provider := new SortableProvider(containerId, current);
    before := provider.Cycle(current, drag, getSortedRects);
    discarded := provider.Cycle(next, drag, getSortedRects);
    during := provider.Cycle(next, drag, getSortedRects);
    provider.Commit(next);
    after := provider.Cycle(next, drag, getSortedRects);
  }

  /**
   * The same window from any provider state: a render with a list other than
   * the snapshot's is suppressed, and after it is committed a render with the
   * same list is not (when the drag engine gives no reason to suppress).
   */
  method SuppressionWindowFrom<Rect>(
    provider: SortableProvider,
    next: ItemsList,
    drag: DndState<Rect>,
    getSortedRects: (seq<UniqueIdentifier>, map<UniqueIdentifier, Rect>) -> seq<Rect>
  ) returns (during: ContextValue<Rect>, after: ContextValue<Rect>)
    requires next != provider.previousItems
    requires !drag.willRecomputeClientRects && !CrossListOver(next.ids, drag)
    modifies provider`previousItems
    ensures during.disableInlineStyles && during.items == next
    ensures !after.disableInlineStyles && after.items == next
    ensures provider.previousItems == next
  {
    during := provider.Cycle(next, drag, getSortedRects);
    provider.Commit(next);
    after := provider.Cycle(next, drag, getSortedRects);
  }

  /** Renders without a commit in between leave the snapshot alone and agree. */
  method RepeatedCycle<Rect>(
    provider: SortableProvider,
    items: ItemsList,
    drag: DndState<Rect>,
    getSortedRects: (seq<UniqueIdentifier>, map<UniqueIdentifier, Rect>) -> seq<Rect>
  ) returns (first: ContextValue<Rect>, second: ContextValue<Rect>)
    ensures first == second
    ensures first.disableInlineStyles <==>
      drag.willRecomputeClientRects || CrossListOver(items.ids, drag) || items != provider.previousItems
  {
    first := provider.Cycle(items, drag, getSortedRects);
    second := provider.Cycle(items, drag, getSortedRects);
  }
}
