# Systemic constellation editor — a verified model of its core

The editor lets a user place named, iconed elements on a canvas, drag them around,
and draw typed relations between them by shift-clicking a source element and then
clicking a target. This project models, in Dafny:

- the **constellation store** — the state hook that holds the elements, the selected
  element, the relations, the current relation type and the one-slot drawing gesture,
  together with its event handlers (`ConstellationStore.Store`). The list updates the
  hook passes to its setters (`prev => …` over elements and relations) are functions
  over sequences in `ConstellationLogic`; the drawing-state updates are record updates
  inside the `Store` methods;
- the **relation-type table**: a closed five-way vocabulary and the style each type is
  drawn with (`RelationTypes`);
- the **relation overlay's logic**: the line each relation yields, if any, and the
  provisional line of an armed gesture (`RelationLines`);
- the **add-element form**: its three fields, the submit guard and the reset, cancel,
  and the label under which an icon file is shown (`CreateElementModal`);
- the records they share (`Types`), order-preserving filtering (`Sequences`), and the
  string operations of the ECMAScript library that the code relies on: `trim`,
  `indexOf` and the ASCII classes behind `\w`/`\b` (`Text`).

Element ids, coordinates and relation endpoints are integers. The source stores a
relation's endpoints as `String(id)`; that conversion is injective on integers, so the
model keeps the integers themselves, and the gesture source is an `Option<int>`. The
clock (`Date.now()`), the random spawn offset (`Math.random()`), the cursor position
computed from the DOM, and the answer to `window.confirm` are arguments of the
handlers that use them.

The store keeps `Valid()` from its constructor on: a gesture has a source exactly while
it is armed, at most one relation joins an unordered pair of elements, and no relation
joins an element to itself. "Every relation names an existing element" is **not** an
invariant of the code. Neither `deleteElement` nor a confirmed `resetConstellation`
touches an armed gesture, so after either one the gesture can point at an element that no
longer exists, and completing it appends a relation from that missing element. The model
states the property only under the condition that the gesture's source, if any, exists.
`ConstellationStore.DanglingAfterDeletingGestureSource` (delete the source) and
`ConstellationStore.DanglingAfterResetDuringGesture` (confirm a reset, then add an
element) are the handler call sequences that break it, and
`RelationLines.DanglingRelationIsHidden` shows that such a relation is stored but never
drawn.

## Model

| member | source | states |
|---|---|---|
| Sequences.Filter | src/hooks/useConstellationLogic.ts:64-70 | `Array.prototype.filter`: the result is no longer than the input |
| Sequences.FilterMembers | src/hooks/useConstellationLogic.ts:64-70 | the filtered list holds exactly the inputs that pass the callback |
| Sequences.FilterConcat | src/hooks/useConstellationLogic.ts:64-70 | filtering a concatenation is concatenating the filtered parts, so survivors keep their order |
| Sequences.FilterKeepsAll | src/hooks/useConstellationLogic.ts:64-70 | when every element passes, the filter returns the list unchanged |
| Text.LeadingSpaceCount | src/components/CreateElementModal.tsx:20 | the leading run that `trim` removes is exactly the whitespace before the first non-space |
| Text.TrailingSpaceStart | src/components/CreateElementModal.tsx:20 | the trailing run that `trim` removes is exactly the whitespace after the last non-space |
| Text.Trim | src/components/CreateElementModal.tsx:20 | `trim` gives an empty result exactly for an all-whitespace string, and a non-empty result neither starts nor ends with whitespace |
| Text.TrimKeepsMiddle | src/components/CreateElementModal.tsx:20 | `trim` keeps a contiguous slice of the input and removes only whitespace at the two ends |
| Text.TrimIdempotent | src/components/CreateElementModal.tsx:21 | trimming the already trimmed name changes nothing |
| Text.IndexOf | src/components/CreateElementModal.tsx:37 | `indexOf`: the pattern occurs at the returned position and at no earlier one; `None` exactly when it occurs nowhere |
| Text.IndexOfFrom | src/components/CreateElementModal.tsx:37 | the same search, started at a given position |
| Text.ToUpper | src/components/CreateElementModal.tsx:39 | `toUpperCase` on a `\w` character: a lower-case letter moves to its capital, any other character stays |
| Text.ToLower | src/components/CreateElementModal.tsx:39 | lower-casing of ASCII letters, used to say that capitalising changes case only |
| RelationTypes.FromKey | src/types/RelationTypes.ts:1-17 | reading a tag back gives the type filed under that tag, and `None` exactly for a string that is no type's tag |
| RelationTypes.Style | src/types/RelationTypes.ts:1-17 | only `weak` is dashed, every width is positive, and `strong` and `weak` are exactly the entries without a colour |
| RelationTypes.KeyRoundTrip | src/types/RelationTypes.ts:1-17 | every type's tag reads back as that type |
| RelationTypes.VocabularyIsClosed | src/types/RelationTypes.ts:1-17 | exactly five distinct types, every type among them, tags in the order strong, weak, conflict, neutral, positive |
| RelationTypes.StyleValues | src/types/RelationTypes.ts:2-16 | the widths 4, 2, 3, 2, 3 and the colours #e74c3c, #7f8c8d, #2ecc71 of the table |
| Types.FirstIndexOf | src/hooks/useConstellationLogic.ts:144 | the position of the first element with the id, or `None` exactly when no element has it |
| Types.FindElement | src/hooks/useConstellationLogic.ts:144 | `elements.find(el => el.id === id) \|\| null`: `None` exactly when the id is absent; otherwise an element with that id, the first one in the list |
| Types.FindElementIsFirst | src/components/RelationLines.tsx:17-23 | the lookup returns the first element with the id even when ids repeat |
| ConstellationLogic.AddedElements | src/hooks/useConstellationLogic.ts:44-58 | a name that trims to nothing or an empty icon changes nothing; otherwise exactly one element is appended, with the untrimmed name, the icon, colour, id and position, and the earlier elements stay unchanged and in order |
| ConstellationLogic.WithoutElement | src/hooks/useConstellationLogic.ts:64 | the survivors are exactly the elements with another id, and none keeps the deleted id |
| ConstellationLogic.MovedElements | src/hooks/useConstellationLogic.ts:155-161 | the drag rewrites `x` and `y` of the elements with the dragged id and nothing else; the other elements are unchanged |
| ConstellationLogic.WithoutRelationsOf | src/hooks/useConstellationLogic.ts:65-70 | the cascade keeps exactly the relations touching neither endpoint equal to the id |
| ConstellationLogic.Retagged | src/hooks/useConstellationLogic.ts:108-113 | the `map`: every relation joining the pair in either orientation takes the new type and keeps its orientation; the others are unchanged |
| ConstellationLogic.LinkedRelations | src/hooks/useConstellationLogic.ts:100-124 | the upsert: with a relation on the pair, the count stays, endpoints stay, non-joining relations are unchanged and joining ones carry the type; without one, exactly `{from, to, type}` is appended at the end |
| ConstellationLogic.DeleteUnknownElement | src/hooks/useConstellationLogic.ts:64 | deleting an id no element carries leaves the elements unchanged |
| ConstellationLogic.DeleteUnknownKeepsRelations | src/hooks/useConstellationLogic.ts:65-70 | in a store without dangling relations, deleting an unknown id leaves the relations unchanged |
| ConstellationLogic.DeleteRemovesOnlyThat | src/hooks/useConstellationLogic.ts:64 | with unique ids, deleting the id of the element at position k removes exactly that element and keeps the rest in order |
| ConstellationLogic.DeleteKeepsOrder | src/hooks/useConstellationLogic.ts:64-70 | deleting from a list split in two is deleting from each part, in the same order, for elements and relations alike |
| ConstellationLogic.DeleteUndoesAdd | src/hooks/useConstellationLogic.ts:44-64 | deleting an element just added under a fresh id gives back the element list before the add |
| ConstellationLogic.DeleteKeepsNoDangling | src/hooks/useConstellationLogic.ts:62-77 | the cascade keeps "every relation names existing elements" |
| ConstellationLogic.DeleteKeepsWellFormed | src/hooks/useConstellationLogic.ts:65-70 | the cascade keeps "one relation per unordered pair, no self loop" |
| ConstellationLogic.LinkKeepsWellFormed | src/hooks/useConstellationLogic.ts:100-124 | an upsert between distinct endpoints keeps "one relation per unordered pair, no self loop" |
| ConstellationLogic.LinkLeavesOneRelation | src/hooks/useConstellationLogic.ts:100-124 | after an upsert exactly one relation joins the pair, and it carries the gesture's type |
| ConstellationLogic.LinkIntoEmpty | src/hooks/useConstellationLogic.ts:116-123 | the first gesture on an empty list yields exactly its relation |
| ConstellationLogic.RelinkReversedRetags | src/hooks/useConstellationLogic.ts:100-124 | drawing the pair back the other way re-tags the first relation: same count, first orientation, latest type |
| ConstellationLogic.LinkKeepsNoDangling | src/hooks/useConstellationLogic.ts:116-123 | a gesture between existing elements creates no dangling relation |
| ConstellationLogic.AddKeepsNoDangling | src/hooks/useConstellationLogic.ts:44-58 | adding an element never makes a relation dangle |
| ConstellationLogic.MoveKeepsIds | src/hooks/useConstellationLogic.ts:155-161 | a drag leaves the set of element ids unchanged |
| ConstellationLogic.MoveTwiceIsLastMove | src/hooks/useConstellationLogic.ts:155-161 | two drag steps of the same element amount to the last one |
| ConstellationLogic.DeletedSourceLeavesDangling | src/hooks/useConstellationLogic.ts:62-123 | with two elements and no relation, deleting the source and then completing the gesture yields a relation whose source is missing |
| ConstellationStore.Store.constructor | src/hooks/useConstellationLogic.ts:5-13 | empty lists, no selection, type `neutral`, idle gesture at the origin; `Valid()` holds |
| ConstellationStore.Store.AddElement | src/hooks/useConstellationLogic.ts:44-60 | elements become `AddedElements` of the old list; keeps `Valid()`, absence of dangling relations and the existence of the gesture source |
| ConstellationStore.Store.DeleteElement | src/hooks/useConstellationLogic.ts:62-77 | elements and relations become their filtered versions; the selection is cleared exactly when it has the id; the gesture and the type are not in the frame; absence of dangling relations is kept |
| ConstellationStore.Store.StartDrawingRelation | src/hooks/useConstellationLogic.ts:79-85 | the gesture is armed with the id as its source, the cursor kept |
| ConstellationStore.Store.FinishDrawingRelation | src/hooks/useConstellationLogic.ts:87-133 | always ends idle with no source and the cursor kept; relations unchanged when not armed or when the target is the source, otherwise the upsert of `LinkedRelations`; no dangling relation when the source and the target exist |
| ConstellationStore.Store.HandleMouseDown | src/hooks/useConstellationLogic.ts:135-149 | with shift: cursor recorded and gesture armed from the id, selection unchanged; without: selection becomes the lookup result, gesture unchanged |
| ConstellationStore.Store.HandleMouseMove | src/hooks/useConstellationLogic.ts:151-170 | the selected element follows the cursor (`MovedElements`), the gesture's cursor moves only while armed, the ids are unchanged |
| ConstellationStore.Store.HandleMouseUp | src/hooks/useConstellationLogic.ts:172-174 | only the selection changes, to none |
| ConstellationStore.Store.ResetConstellation | src/hooks/useConstellationLogic.ts:176-181 | confirmed: both lists empty; declined: nothing changes; type and gesture are not in the frame |
| ConstellationStore.Store.SetRelationType | src/hooks/useConstellationLogic.ts:8 | only the current type changes |
| ConstellationStore.RedrawRetagsSession | src/hooks/useConstellationLogic.ts:87-133 | adding two elements, drawing A→B as conflict and then B→A as weak leaves the single relation A→B of type weak |
| ConstellationStore.DeleteCascadesSession | src/hooks/useConstellationLogic.ts:62-77 | after a declined reset, deleting one end of the only relation removes that element and the relation |
| ConstellationStore.DanglingAfterDeletingGestureSource | src/hooks/useConstellationLogic.ts:62-133 | arm a gesture on A, delete A, complete on B: the store holds A→B with A gone, so no-dangling fails |
| ConstellationStore.DanglingAfterResetDuringGesture | src/hooks/useConstellationLogic.ts:176-181 | arm a gesture on A, confirm a reset, add B, complete on B: the store holds A→B with A gone, so no-dangling fails |
| RelationLines.RenderRelationLine | src/components/RelationLines.tsx:16-40 | a line exactly when both endpoints are found; stroke is the type's colour or `#000`; width is the type's (the `\|\| 2` fallback never applies); dash `5,5` exactly for `weak`, else empty |
| RelationLines.RelationLineEndpoints | src/components/RelationLines.tsx:17-34 | the line runs from the first element with the `from` id to the first with the `to` id, at their current positions |
| RelationLines.RenderDrawingLine | src/components/RelationLines.tsx:42-61 | a provisional line exactly while armed on a source that is found; it ends at the cursor and is black, 2 wide, dashed `5,5` |
| RelationLines.DrawingLineStart | src/components/RelationLines.tsx:47-53 | the provisional line starts at the first element carrying the source id |
| RelationLines.RenderLines | src/components/RelationLines.tsx:63-67 | one entry per relation in relation order, then the provisional line last |
| RelationLines.NoDanglingDrawsEveryRelation | src/components/RelationLines.tsx:63-67 | without dangling relations every relation is drawn |
| RelationLines.DeletedSourceHidesDrawingLine | src/components/RelationLines.tsx:45-48 | once the gesture's source is deleted, no provisional line is drawn although the gesture stays armed |
| RelationLines.DanglingRelationIsHidden | src/components/RelationLines.tsx:17-24 | the dangling relation of the deleted-source case is silently not drawn |
| CreateElementModal.CreateElementForm.constructor | src/components/CreateElementModal.tsx:14-16 | the form starts blank: empty name and icon, colour `#3B82F6` |
| CreateElementModal.CreateElementForm.SetName | src/components/CreateElementModal.tsx:55 | only the name changes, to the input's value |
| CreateElementModal.CreateElementForm.SelectIcon | src/components/CreateElementModal.tsx:72 | only the selected icon changes (the icon buttons and the drop-down at line 103) |
| CreateElementModal.CreateElementForm.SetColor | src/components/CreateElementModal.tsx:124 | only the colour changes |
| CreateElementModal.CreateElementForm.HandleSubmit | src/components/CreateElementModal.tsx:18-26 | a request exactly when the submit button is enabled (its `disabled` test at line 178); the request carries the trimmed name, the icon and the colour and the form becomes blank; otherwise nothing changes |
| CreateElementModal.CreateElementForm.HandleCancel | src/components/CreateElementModal.tsx:28-33 | the form becomes blank and the modal is asked to close |
| CreateElementModal.SubmittedRequestIsAccepted | src/components/CreateElementModal.tsx:20-21 | whatever the form submits passes the store's own guard, and the submitted name is already trimmed |
| CreateElementModal.RemoveFirst | src/components/CreateElementModal.tsx:37 | `replace` with a string pattern shortens by the pattern's length or not at all |
| CreateElementModal.RemoveFirstAbsent | src/components/CreateElementModal.tsx:37 | a name without `.png` passes unchanged |
| CreateElementModal.RemoveFirstCutsFirstOccurrence | src/components/CreateElementModal.tsx:37 | exactly the first occurrence is cut out, wherever it is |
| CreateElementModal.DashesToSpaces | src/components/CreateElementModal.tsx:38 | every `-` and `_` becomes a space, every other character stays |
| CreateElementModal.CapitalizeWords | src/components/CreateElementModal.tsx:39 | the length is kept |
| CreateElementModal.IconDisplayName | src/components/CreateElementModal.tsx:35-40 | the label is as long as the file name, or four characters shorter |
| CreateElementModal.ToUpperKeepsWordChar | src/components/CreateElementModal.tsx:39 | upper-casing keeps a character inside or outside `\w` |
| CreateElementModal.CapitalizeWordsChangesCaseOnly | src/components/CreateElementModal.tsx:39 | lower-casing before and after gives the same text; a character changes only where it is a lower-case letter starting a word |
| CreateElementModal.CapitalizedWordsStartUpper | src/components/CreateElementModal.tsx:39 | word boundaries stay where they were, and every word then starts with a non-lower-case character |
| CreateElementModal.CapitalizeWordsIdempotent | src/components/CreateElementModal.tsx:39 | capitalising twice is capitalising once |
| CreateElementModal.DisplayNameHasNoSeparators | src/components/CreateElementModal.tsx:35-40 | a label never shows `-` or `_` |
| CreateElementModal.DisplayNameOfIconFile | src/components/CreateElementModal.tsx:35-40 | `<stem>.png` with a dot-free stem is shown as the stem with separators turned to spaces and words capitalised |
| CreateElementModal.LowerWordLabel | src/components/CreateElementModal.tsx:38-39 | a lower-case word has no dot, no separator to replace, and gains only a capital first letter |
| CreateElementModal.WizardLabel | src/App.tsx:9-18 | the bundled icon `wizard.png` is shown as `Wizard` |

## Left out

- DOM geometry: `getContainerRect`, `getMousePosition` and `getRandomPosition` read the
  container's bounding box and produce floating-point coordinates (`NaN` when the
  container is missing). Positions are integer arguments instead.
- `Date.now()` ids and `Math.random()` offsets are arguments. The code does not make ids
  unique (two adds in one millisecond collide), so uniqueness appears only as a
  `requires` of the lemmas that need it.
- `window.confirm` is a boolean argument of `ResetConstellation`.
- React mechanics: `useCallback` closures, stale state between renders and the batching
  of setter calls. Each handler is one atomic update of the fields it sets.
- The window-level `mouseup` subscription and the show/hide wiring of the modal in
  `src/App.tsx`, including the notes text that the app clears on reset; the notes are
  not part of this model.
- The view components (sidebar, element list, canvas, element tile, relation selector,
  notes) only forward events and render markup. The element tile calls the finish
  handler only while drawing; the model's `FinishDrawingRelation` handles both cases.
- Presentation: image `onError` fallbacks, CSS classes, the initials badge, the React
  `key` string of a relation line and the SVG element itself. A rendered line is its
  attribute record `Line`, and an absent line is `None`.
- Unicode: `Text.Trim` uses the fixed whitespace list of ECMAScript (section 12.2 and
  12.3 of ECMA-262) as it stands. The Unicode database may change category Zs over time.
- Strings are sequences of Unicode scalar values, not of UTF-16 code units as in the
  source. Lone surrogates cannot be represented, and the lengths in `Text.Trim`,
  `CreateElementModal.RemoveFirst` and `CreateElementModal.IconDisplayName` count
  scalar values rather than `.length`. Every character these operations match lies in
  the Basic Multilingual Plane, so their results are the same.
- Text.ToUpper: upper-cases ASCII letters only. That is exact here, because it is only
  applied to characters of `\w`, which is ASCII without the `u` flag.
