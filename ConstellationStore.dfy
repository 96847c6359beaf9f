/**
 * The constellation store: the five state slots of the hook and its event handlers.
 * Each handler overwrites the slots its setters name, with the value the matching
 * function of `ConstellationLogic` computes from the old state.
 */
module ConstellationStore {
  import opened Wrappers
  import opened RelationTypes
  import opened Types
  import opened ConstellationLogic

  class Store {
    var elements: seq<Element>
    /** A copy of the element being dragged, taken at mouse-down. */
    var selectedElement: Option<Element>
    var relations: seq<Relation>
    var relationType: RelationType
    var drawingState: DrawingState

    /**
     * What every handler keeps: the gesture has a source exactly while it is armed,
     * and the relations hold at most one relation per unordered pair and no self loop.
     */
    ghost predicate Valid()
      reads this
    {
      && (drawingState.isDrawing <==> drawingState.drawingFrom.Some?)
      && WellFormed(relations)
    }

    /**
     * Every relation names existing elements. `FinishDrawingRelation` breaks it when
     * `DeleteElement` or a confirmed `ResetConstellation` has left the armed gesture on
     * a source that no longer exists.
     */
    ghost predicate NoDanglingRelations()
      reads this
    {
      NoDangling(elements, relations)
    }

    /** The armed gesture's source, if any, is an element that exists. */
    ghost predicate GestureSourceExists()
      reads this
    {
      drawingState.drawingFrom.Some? ==> drawingState.drawingFrom.value in Ids(elements)
    }

    /** The initial state of the hook. */
    constructor ()
      ensures Valid()
      ensures elements == [] && selectedElement == None && relations == []
      ensures relationType == DefaultRelationType && drawingState == InitialDrawingState
    {
      elements := [];
      selectedElement := None;
      relations := [];
      relationType := DefaultRelationType;
      drawingState := InitialDrawingState;
    }

    /**
     * `addElement`, with the clock's id and the random spawn position as arguments.
     */
    method AddElement(name: string, icon: string, color: string, id: int, position: Point)
      requires Valid()
      modifies this`elements
      ensures Valid()
      ensures elements == AddedElements(old(elements), name, icon, color, id, position)
      ensures old(NoDanglingRelations()) ==> NoDanglingRelations()
      ensures old(GestureSourceExists()) ==> GestureSourceExists()
    {
      ghost var before := elements;
      elements := AddedElements(elements, name, icon, color, id, position);
      if NoDangling(before, relations) {
        AddKeepsNoDangling(before, relations, name, icon, color, id, position);
      }
      forall k | k in Ids(before) ensures k in Ids(elements) {
        var e :| e in before && e.id == k;
        if AddAccepted(name, icon) {
          assert e in elements[..|before|];
        }
      }
    }

    /**
     * `deleteElement`: remove the element and, by cascade, every relation touching it;
     * drop the selection exactly when it is that element. The gesture is left alone,
     * so deleting the gesture's source leaves it armed on a missing element.
     */
    method DeleteElement(id: int)
      requires Valid()
      modifies this`elements, this`relations, this`selectedElement
      ensures Valid()
      ensures elements == WithoutElement(old(elements), id)
      ensures relations == WithoutRelationsOf(old(relations), id)
      ensures selectedElement == if old(selectedElement).Some? && old(selectedElement).value.id == id then None else old(selectedElement)
      ensures old(NoDanglingRelations()) ==> NoDanglingRelations()
      ensures old(GestureSourceExists()) && drawingState.drawingFrom != Some(id) ==> GestureSourceExists()
    {
      ghost var before := elements;
      if NoDangling(elements, relations) {
        DeleteKeepsNoDangling(elements, relations, id);
      }
      DeleteKeepsWellFormed(relations, id);
      elements := WithoutElement(elements, id);
      relations := WithoutRelationsOf(relations, id);
      if selectedElement.Some? && selectedElement.value.id == id {
        selectedElement := None;
      }
      if drawingState.drawingFrom.Some? && drawingState.drawingFrom.value != id && drawingState.drawingFrom.value in Ids(before) {
        var e :| e in before && e.id == drawingState.drawingFrom.value;
        assert e in elements;
      }
    }

    /** `startDrawingRelation`: arm the gesture with `id` as its source; the cursor stays. */
    method StartDrawingRelation(id: int)
      modifies this`drawingState
      ensures drawingState == old(drawingState).(isDrawing := true, drawingFrom := Some(id))
      ensures drawingState.isDrawing && drawingState.drawingFrom.Some?
    {
      drawingState := drawingState.(isDrawing := true, drawingFrom := Some(id));
    }

    /**
     * `finishDrawingRelation`: when armed on a source other than `toId`, upsert the
     * relation between the two with the current type; in every case end idle, keeping
     * the cursor.
     */
    method FinishDrawingRelation(toId: int)
      requires Valid()
      modifies this`relations, this`drawingState
      ensures Valid()
      ensures !drawingState.isDrawing && drawingState.drawingFrom == None
      ensures drawingState.mousePosition == old(drawingState).mousePosition
      ensures !old(drawingState).isDrawing || old(drawingState).drawingFrom == Some(toId) ==> relations == old(relations)
      ensures old(drawingState).isDrawing && old(drawingState).drawingFrom != Some(toId) ==>
        relations == LinkedRelations(old(relations), old(drawingState).drawingFrom.value, toId, relationType)
      ensures old(NoDanglingRelations()) && old(GestureSourceExists()) && toId in Ids(elements) ==> NoDanglingRelations()
    {
      if !drawingState.isDrawing || drawingState.drawingFrom == Some(toId) {
        drawingState := drawingState.(isDrawing := false, drawingFrom := None);
        return;
      }
      var from := drawingState.drawingFrom.value;
      LinkKeepsWellFormed(relations, from, toId, relationType);
      if NoDangling(elements, relations) && from in Ids(elements) && toId in Ids(elements) {
        LinkKeepsNoDangling(elements, relations, from, toId, relationType);
      }
      relations := LinkedRelations(relations, from, toId, relationType);
      drawingState := drawingState.(isDrawing := false, drawingFrom := None);
    }

    /**
     * `handleMouseDown` on element `id`, with the cursor position as an argument. With
     * shift it records the cursor and arms the gesture from `id`, leaving the selection;
     * without shift it selects the first element with that id (none if absent), leaving
     * the gesture.
     */
    method HandleMouseDown(id: int, shiftKey: bool, cursor: Point)
      requires Valid()
      modifies this`drawingState, this`selectedElement
      ensures Valid()
      ensures shiftKey ==> drawingState == DrawingState(true, Some(id), cursor) && selectedElement == old(selectedElement)
      ensures !shiftKey ==> selectedElement == FindElement(elements, id) && drawingState == old(drawingState)
      ensures id in Ids(elements) && old(GestureSourceExists()) ==> GestureSourceExists()
    {
      if shiftKey {
        drawingState := drawingState.(mousePosition := cursor);
        StartDrawingRelation(id);
      } else {
        selectedElement := FindElement(elements, id);
      }
    }

    /**
     * `handleMouseMove`, with the cursor position as an argument: the selected element
     * follows the cursor, and an armed gesture tracks it.
     */
    method HandleMouseMove(cursor: Point)
      requires Valid()
      modifies this`elements, this`drawingState
      ensures Valid()
      ensures elements == if old(selectedElement).Some? then MovedElements(old(elements), selectedElement.value.id, cursor) else old(elements)
      ensures drawingState == if old(drawingState).isDrawing then old(drawingState).(mousePosition := cursor) else old(drawingState)
      ensures Ids(elements) == Ids(old(elements))
      ensures old(NoDanglingRelations()) ==> NoDanglingRelations()
      ensures old(GestureSourceExists()) ==> GestureSourceExists()
    {
      if selectedElement.Some? {
        MoveKeepsIds(elements, selectedElement.value.id, cursor);
        elements := MovedElements(elements, selectedElement.value.id, cursor);
      }
      if drawingState.isDrawing {
        drawingState := drawingState.(mousePosition := cursor);
      }
    }

    /** `handleMouseUp`: the drag ends; nothing else changes. */
    method HandleMouseUp()
      modifies this`selectedElement
      ensures selectedElement == None
    {
      selectedElement := None;
    }

    /**
     * `resetConstellation`, with the user's answer to the confirmation as an argument:
     * a confirmed reset empties elements and relations, a declined one changes nothing.
     * The gesture is left alone, so a reset while armed leaves it on a missing element.
     */
    method ResetConstellation(confirmed: bool)
      requires Valid()
      modifies this`elements, this`relations
      ensures Valid()
      ensures confirmed ==> elements == [] && relations == []
      ensures !confirmed ==> elements == old(elements) && relations == old(relations)
      ensures old(NoDanglingRelations()) ==> NoDanglingRelations()
    {
      if confirmed {
        elements := [];
        relations := [];
      }
    }

    /** `setRelationType`: only later gestures use the new type. */
    method SetRelationType(t: RelationType)
      modifies this`relationType
      ensures relationType == t
    {
      relationType := t;
    }
  }

  /**
   * A session with two elements: a gesture from Alice to Bob with `conflict` selected,
   * then the same pair redrawn from Bob to Alice with `weak`. One relation remains,
   * oriented as first drawn, with the latest type.
   */
  method RedrawRetagsSession(alice: Element, bob: Element) returns (relations: seq<Relation>)
    requires AddAccepted(alice.name, alice.icon) && AddAccepted(bob.name, bob.icon)
    requires alice.id != bob.id
    ensures relations == [Relation(alice.id, bob.id, Weak)]
  {
    var store := new Store();
    store.AddElement(alice.name, alice.icon, alice.color, alice.id, Point(alice.x, alice.y));
    store.AddElement(bob.name, bob.icon, bob.color, bob.id, Point(bob.x, bob.y));
    assert store.elements == [alice, bob];

    store.SetRelationType(Conflict);
    store.HandleMouseDown(alice.id, true, Point(alice.x, alice.y));
    store.FinishDrawingRelation(bob.id);
    assert store.relations == [Relation(alice.id, bob.id, Conflict)];
    assert !store.drawingState.isDrawing;

    store.SetRelationType(Weak);
    store.HandleMouseDown(bob.id, true, Point(bob.x, bob.y));
    store.FinishDrawingRelation(alice.id);
    RelinkReversedRetags([], alice.id, bob.id, Conflict, Weak);
    relations := store.relations;
  }

  /**
   * Alice and Bob joined by one relation: a declined reset keeps everything; deleting
   * Alice then removes her and, by cascade, the relation to Bob.
   */
  method DeleteCascadesSession(store: Store, alice: Element, bob: Element, t: RelationType)
    requires store.Valid() && alice.id != bob.id
    requires store.elements == [alice, bob] && store.relations == [Relation(alice.id, bob.id, t)]
    modifies store
    ensures store.Valid()
    ensures store.elements == [bob] && store.relations == []
  {
    assert WithoutElement([alice, bob], alice.id) == [bob] by {
      DeleteRemovesOnlyThat([alice, bob], 0);
      assert [alice, bob][1..] == [bob];
    }
    store.ResetConstellation(false);
    assert store.elements == [alice, bob];
    store.DeleteElement(alice.id);
  }

  /**
   * The gesture-source caveat on the store itself: with Alice and Bob and no relation,
   * arm a gesture on Alice, delete Alice, complete the gesture on Bob, and the store
   * holds a relation from an element that no longer exists.
   */
  method DanglingAfterDeletingGestureSource(store: Store, alice: Element, bob: Element)
    requires store.Valid() && alice.id != bob.id
    requires store.elements == [alice, bob] && store.relations == []
    modifies store
    ensures store.elements == [bob] && store.relations == [Relation(alice.id, bob.id, old(store.relationType))]
    ensures !store.NoDanglingRelations()
  {
    ghost var t := store.relationType;
    assert WithoutElement([alice, bob], alice.id) == [bob] by {
      DeleteRemovesOnlyThat([alice, bob], 0);
      assert [alice, bob][1..] == [bob];
    }
    store.HandleMouseDown(alice.id, true, Point(alice.x, alice.y));
    store.DeleteElement(alice.id);
    assert store.elements == [bob] && store.relations == [];
    assert store.drawingState.isDrawing && store.drawingState.drawingFrom == Some(alice.id);
    store.FinishDrawingRelation(bob.id);
    LinkIntoEmpty(alice.id, bob.id, t);
    var dangling := Relation(alice.id, bob.id, t);
    assert store.relations == [dangling];
    assert dangling in store.relations && dangling.from !in Ids(store.elements);
    assert !NoDangling(store.elements, store.relations);
  }

  /**
   * The same caveat through a reset: arm a gesture on Alice, confirm a reset, add Bob,
   * complete the gesture on Bob, and the store holds a relation from an element that
   * no longer exists.
   */
  method DanglingAfterResetDuringGesture(store: Store, alice: Element, bob: Element)
    requires store.Valid() && alice.id != bob.id
    requires AddAccepted(bob.name, bob.icon)
    requires store.elements == [alice] && store.relations == []
    modifies store
    ensures store.elements == [bob] && store.relations == [Relation(alice.id, bob.id, old(store.relationType))]
    ensures !store.NoDanglingRelations()
  {
    ghost var t := store.relationType;
    store.HandleMouseDown(alice.id, true, Point(alice.x, alice.y));
    store.ResetConstellation(true);
    store.AddElement(bob.name, bob.icon, bob.color, bob.id, Point(bob.x, bob.y));
    assert store.elements == [bob] && store.relations == [];
    assert store.drawingState.isDrawing && store.drawingState.drawingFrom == Some(alice.id);
    store.FinishDrawingRelation(bob.id);
    LinkIntoEmpty(alice.id, bob.id, t);
    var dangling := Relation(alice.id, bob.id, t);
    assert store.relations == [dangling];
    assert store.relationType == t;
    assert dangling in store.relations && dangling.from !in Ids(store.elements);
    assert !NoDangling(store.elements, store.relations);
  }
}
