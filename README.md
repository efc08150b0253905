# Sortable context provider (@dnd-kit/sortable), modelled in Dafny

`SortableContext` is the React provider that sits above a sortable list. On every
render it reads the caller's ordered list of ids (`items`) and the drag engine's
live state, and publishes one record to every sortable element below it:

- `activeIndex` and `overIndex`: the position in `items` of the dragged element and
  of the element it is over. Each is found with `indexOf`, and is -1 when there is
  no such element or when the id is not in this list.
- `clientRects`: the measured rectangles projected into list order by
  `getSortedRects`.
- `useClone`: whether the drag engine currently renders a clone of the dragged
  element.
- `disableInlineStyles`: whether elements should skip their transform styles for
  now. This holds when a bulk remeasurement is pending, or when this list is
  targeted while the dragged element is not in it, or when `items` is not the same
  array reference as the one the provider saw at its last commit.

The provider's one piece of state is `previousItemsRef`. It starts as the first
`items`. An effect with dependency list `[items]` advances it to the current
`items`; the effect runs on mount and after a commit whose `items` differs by
reference from the previously committed render's. When the effect is skipped,
the ref already holds that reference, so after every commit the ref is the
committed `items` (`Commit` models this, and skips the write in the same case).
As a result, after the caller swaps in a new list reference, every render that
sees it is suppressed until one of those renders is committed; a discarded
render leaves the ref alone. The render after that commit is not suppressed by
the identity condition.

The files:

- `sortable_context.dfy`, module `SortableContext`, holds the model.
  - `ItemsList` is a class, so `==` on lists is reference identity.
  - `IndexOf` is the `indexOf` scan.
  - `Derive` is one render, given the reference the snapshot holds.
  - `SortableProvider` holds the snapshot. It has `Cycle` (a render, which reads the
    snapshot) and `Commit` (the post-commit effect, which writes it).
  - `DefaultContext` is the value consumers see when no provider is above them.
- `sortable_context_properties.dfy`, module `SortableContextProperties`, holds
  lemmas about the derivation and methods that run the render and commit lifecycle.

## Model

| member | source | states |
|---|---|---|
| `SortableContext.IndexOf` | packages/sortable/src/components/SortableContext.tsx:48-49 | the result lies in [-1, \|s\|); it is -1 exactly when the id is absent; otherwise it is a position holding the id with no earlier occurrence |
| `SortableContext.TargetIndex` | packages/sortable/src/components/SortableContext.tsx:48-49 | with no active/over element the index is -1; otherwise it is -1 if the id is absent and its first position if it is present |
| `SortableContext.Derive` | packages/sortable/src/components/SortableContext.tsx:47-73 | one render: `containerId` and `items` pass through; both indices obey the index law; `clientRects` is `getSortedRects(items, clientRects)`; `useClone` holds iff the clone rect is present; suppression holds iff a remeasurement is pending, or the over id is in the list while the active one is not, or `items` is not the snapshot's reference; the result is consistent (indices in [-1, \|items\|), a cross-list over is suppressed) |
| `SortableContext.SortableProvider.constructor` | packages/sortable/src/components/SortableContext.tsx:50 | on mount the snapshot is the first list seen, and the container id is fixed |
| `SortableContext.SortableProvider.Cycle` | packages/sortable/src/components/SortableContext.tsx:50-58 | a render returns `Derive` of the current snapshot, and the snapshot is not written (no modifies clause); suppression is stated against the snapshot's reference |
| `SortableContext.SortableProvider.Commit` | packages/sortable/src/components/SortableContext.tsx:60-62 | after a commit the snapshot is the committed list and nothing else changes; the write is skipped, as the `[items]` dependency skips the effect, when the reference is already held |
| `SortableContext.DefaultContext` | packages/sortable/src/components/SortableContext.tsx:28-36 | the default value has container id "Sortable", empty items and rects, both indices -1, both flags false, and is consistent |
| `SortableContextProperties.IndexLawDeterminesIndex` | packages/sortable/src/components/SortableContext.tsx:48-49 | the index law admits a single value, so it specifies `indexOf` completely |
| `SortableContextProperties.IndexOfFindsFirstOccurrence` | packages/sortable/src/components/SortableContext.tsx:48 | whenever k is the first position of an id, `indexOf` returns k |
| `SortableContextProperties.SettledListSuppression` | packages/sortable/src/components/SortableContext.tsx:55-58 | when the list is the snapshot's reference, suppression holds exactly when a remeasurement is pending or the list is targeted from outside |
| `SortableContextProperties.EqualIdsNewListSuppresses` | packages/sortable/src/components/SortableContext.tsx:58 | a different list reference with equal ids still suppresses styles: the comparison is by identity, not by value |
| `SortableContextProperties.CrossListExample` | packages/sortable/src/components/SortableContext.tsx:57 | items [a,b,c], nothing active, over b: activeIndex -1, overIndex 1, styles suppressed |
| `SortableContextProperties.EndToEndScenario` | packages/sortable/src/components/SortableContext.tsx:47-73 | items [A,B,C,D], all measured, B over C, nothing pending, no clone, settled list: indices 1 and 2, rects from `getSortedRects`, no suppression, no clone |
| `SortableContextProperties.MountCycle` | packages/sortable/src/components/SortableContext.tsx:50-58 | on the first render after mounting the identity condition is false, so only the drag engine's conditions can suppress |
| `SortableContextProperties.SuppressionWindow` | packages/sortable/src/components/SortableContext.tsx:50-62 | from mount with one list: renders with a different reference are suppressed, including after a discarded one, until one is committed; the next render with that reference is then not suppressed (when nothing else suppresses) |
| `SortableContextProperties.SuppressionWindowFrom` | packages/sortable/src/components/SortableContext.tsx:50-62 | from any provider state: a render with a reference other than the snapshot's is suppressed; after it is committed, the snapshot is that reference and the next render with it is not suppressed (when nothing else suppresses) |
| `SortableContextProperties.RepeatedCycle` | packages/sortable/src/components/SortableContext.tsx:50-58 | renders with no commit in between give equal records: a render leaves the snapshot unchanged |

## Left out

- React rendering, `Context.Provider` and the propagation to children (line 84). These are UI-framework plumbing.
- `useDndContext` (lines 39-45) is the external drag engine. Its fields `active`, `over`, `willRecomputeClientRects`, `clientRects` and `cloneNode.clientRect` are the plain input `DndState`. `active` and `over` are reduced to their ids, the only part read here.
- `DefaultContext`: allocates a fresh empty list on each call, while the source's default is one object holding one `items` array, so two reads of the default hold different list references in the model.
- `useUniqueId` (line 46) generates ids outside this file. The container id is a constructor argument, fixed for the provider's lifetime.
- `getSortedRects` (line 10) lives in `../utilities`, which is not part of this model. It is a function parameter, and nothing is stated about its result beyond passing it through.
- `useMemo` caching and reference reuse (lines 51-54, 64-82) are React hook behaviour. The model keeps only determinism: equal inputs give equal records (`Derive` is a function, and see `RepeatedCycle`).
- `PositionalClientRect` geometry is out of scope. Rectangles are an opaque type parameter, because no arithmetic is done on them here.
- `UniqueIdentifier` is modelled as a string, and `indexOf` compares ids by value. An id list is immutable once passed (`ItemsList.ids` is a constant), since this component never mutates `items`. So the model cannot express a caller that mutates its array in place: the reference stays the same while the ids change, line 58 then does not suppress, and the indices move under unsuppressed styles.
- A general claim that `clientRects` has one entry per item, aligned to `items`, is not stated. It depends on `getSortedRects`, whose body is not part of this model.
