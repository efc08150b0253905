/**
 * The sortable-list context provider of @dnd-kit/sortable.
 *
 * On every render the provider turns the caller's ordered list of ids and the
 * drag engine's live state into one record that every sortable element below it
 * reads: where the dragged ("active") and the targeted ("over") element sit in
 * the list, the measured rectangles in list order, whether elements should skip
 * their inline transform styles for now, and whether a clone of the dragged
 * element is shown.  The only state the provider keeps is a snapshot of the list
 * reference of the last committed render; it is compared by identity, and it
 * advances only once a render has been committed.  After the caller swaps in a
 * new list, style suppression therefore lasts until the first render that sees
 * the new reference is committed: one render when that render commits, longer
 * when renders are discarded.
 */
module SortableContext {

  datatype Option<+T> = None | Some(value: T)

  /** Identifier of a draggable element.  `indexOf` compares ids with strict
      equality, which on strings is equality of values. */
  type UniqueIdentifier = string

  /** Prefix handed to the id generator, and the default context's container id. */
  const ID_PREFIX: string := "Sortable"

  /**
   * A list of ids as the caller passes it.  Lists are compared by reference:
   * two distinct `ItemsList` objects are different lists even when their ids
   * are equal, exactly as two JavaScript arrays are.
   */
  class ItemsList {
    const ids: seq<UniqueIdentifier>

    constructor (ids: seq<UniqueIdentifier>)
      ensures this.ids == ids
    {
      this.ids := ids;
    }
  }

  /**
   * The part of the drag engine's state the provider reads: the id of the
   * active element and of the element it is over (when there is one), whether
   * a bulk remeasurement is pending, the measured rectangles by id, and the
   * rectangle of the clone node (present while a clone is rendered).
   */
  datatype DndState<Rect> = DndState(
    active: Option<UniqueIdentifier>,
    over: Option<UniqueIdentifier>,
    willRecomputeClientRects: bool,
    clientRects: map<UniqueIdentifier, Rect>,
    cloneNodeRect: Option<Rect>)

  /** The record every sortable element of the list reads. */
  datatype ContextValue<Rect> = ContextValue(
    containerId: string,
    items: ItemsList,
    overIndex: int,
    activeIndex: int,
    clientRects: seq<Rect>,
    disableInlineStyles: bool,
    useClone: bool)

  /** `k` is the first position of `id` in `s`. */
  predicate IsFirstIndex(s: seq<UniqueIdentifier>, id: UniqueIdentifier, k: int)
  {
    0 <= k < |s| && s[k] == id && id !in s[..k]
  }

  /** `Array.prototype.indexOf`: the first position of `id` in `s`, or -1. */
  function IndexOf(s: seq<UniqueIdentifier>, id: UniqueIdentifier): (r: int)
    ensures -1 <= r < |s|
    ensures r == -1 <==> id !in s
    ensures r != -1 ==> IsFirstIndex(s, id, r)
  {
    if s == [] then -1
    else if s[0] == id then 0
    else
      var k := IndexOf(s[1..], id);
      if k == -1 then -1
      else k + 1
  }

  /**
   * What an index derived from an optional element must be: -1 when there is
   * no element or it is not in the list, and otherwise its first position.
   */
  ghost predicate IndexLaw(s: seq<UniqueIdentifier>, target: Option<UniqueIdentifier>, index: int)
  {
    if target.None? then index == -1
    else (index == -1 && target.value !in s) || IsFirstIndex(s, target.value, index)
  }

  /** The index of the active or over element in the list, -1 if it has none. */
  function TargetIndex(s: seq<UniqueIdentifier>, target: Option<UniqueIdentifier>): (r: int)
    ensures IndexLaw(s, target, r)
    ensures -1 <= r < |s|
  {
    if target.Some? then IndexOf(s, target.value) else -1
  }

  /**
   * Something from this list is targeted while the dragged element is not in
   * it (or nothing is dragged): a drag coming over from another list.
   */
  ghost predicate CrossListOver<Rect>(s: seq<UniqueIdentifier>, drag: DndState<Rect>)
  {
    drag.over.Some? && drag.over.value in s && (drag.active.None? || drag.active.value !in s)
  }

  /**
   * The facts about a context value that consumers rely on: both indices lie
   * in [-1, |items|), and a list targeted from outside has styles suppressed.
   */
  ghost predicate Consistent<Rect>(ctx: ContextValue<Rect>)
  {
    && -1 <= ctx.activeIndex < |ctx.items.ids|
    && -1 <= ctx.overIndex < |ctx.items.ids|
    && (ctx.overIndex != -1 && ctx.activeIndex == -1 ==> ctx.disableInlineStyles)
  }

  /**
   * One render of the provider, given the list reference held by the snapshot
   * (`previousItems`) at that moment.  `getSortedRects` stands for the helper
   * that projects the measured rectangles onto list order; it is not part of
   * this model and nothing is assumed about it.
   */
  function Derive<Rect>(
    containerId: string,
    previousItems: ItemsList,
    items: ItemsList,
    drag: DndState<Rect>,
    getSortedRects: (seq<UniqueIdentifier>, map<UniqueIdentifier, Rect>) -> seq<Rect>
  ): (ctx: ContextValue<Rect>)
    ensures ctx.containerId == containerId && ctx.items == items
    ensures IndexLaw(items.ids, drag.active, ctx.activeIndex)
    ensures IndexLaw(items.ids, drag.over, ctx.overIndex)
    ensures ctx.clientRects == getSortedRects(items.ids, drag.clientRects)
    ensures ctx.useClone <==> drag.cloneNodeRect.Some?
    ensures ctx.disableInlineStyles <==>
      drag.willRecomputeClientRects || CrossListOver(items.ids, drag) || items != previousItems
    ensures Consistent(ctx)
  {
    var useClone := drag.cloneNodeRect.Some?;
    var activeIndex := TargetIndex(items.ids, drag.active);
    var overIndex := TargetIndex(items.ids, drag.over);
    var sortedClientRects := getSortedRects(items.ids, drag.clientRects);
    var disableInlineStyles :=
      drag.willRecomputeClientRects ||
      (overIndex != -1 && activeIndex == -1) ||
      previousItems != items;
    ContextValue(containerId, items, overIndex, activeIndex, sortedClientRects,
                 disableInlineStyles, useClone)
  }

  /**
   * The provider as a stateful component: a container id fixed when it is
   * mounted, and the snapshot of the list reference.
   */
  class SortableProvider {
    const containerId: string
    var previousItems: ItemsList

    /** Mounting: the snapshot starts out as the first list the provider sees. */
    constructor (containerId: string, items: ItemsList)
      ensures this.containerId == containerId && previousItems == items
    {
      this.containerId := containerId;
      previousItems := items;
    }

    /**
     * A render: reads the snapshot, never writes it.  Suppression holds exactly
     * when a remeasurement is pending, the list is targeted from outside, or the
     * list is not the one held by the snapshot.
     */
    method Cycle<Rect>(
      items: ItemsList,
      drag: DndState<Rect>,
      getSortedRects: (seq<UniqueIdentifier>, map<UniqueIdentifier, Rect>) -> seq<Rect>
    ) returns (ctx: ContextValue<Rect>)
      ensures ctx == Derive(containerId, previousItems, items, drag, getSortedRects)
      ensures ctx.disableInlineStyles <==>
        drag.willRecomputeClientRects || CrossListOver(items.ids, drag) || items != previousItems
    {
      ctx := Derive(containerId, previousItems, items, drag, getSortedRects);
    }

    /**
     * What a committed render does to the snapshot.  The effect depends on
     * `[items]`: it runs on mount and after a commit whose `items` differs by
     * reference from the previously committed render's.  When it is skipped,
     * the snapshot already holds that reference (it was stored by the last run
     * of the effect, and the list has not changed since), so after any commit
     * the snapshot is the committed list.
     */
    method Commit(items: ItemsList)
      modifies this`previousItems
      ensures previousItems == items
    {
      if items != previousItems {
        previousItems := items;
      }
    }
  }

  /**
   * The value consumers see when no provider is above them.  Each call
   * allocates its own empty list, whereas the source has one default object
   * with one `items` array; two defaults here hold different list references.
   */
  method DefaultContext<Rect>() returns (ctx: ContextValue<Rect>)
    ensures ctx.containerId == ID_PREFIX && ctx.items.ids == [] && ctx.clientRects == []
    ensures ctx.activeIndex == -1 && ctx.overIndex == -1
    ensures !ctx.disableInlineStyles && !ctx.useClone
    ensures Consistent(ctx)
  {
    var empty := new ItemsList([]);
    ctx := ContextValue(ID_PREFIX, empty, -1, -1, [], false, false);
  }
}
