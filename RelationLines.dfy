/**
 * The SVG overlay: one line per relation between the current positions of its
 * endpoints, styled by the relation's type, and the dashed provisional line of an
 * armed gesture from its source to the cursor. A line whose endpoint element cannot
 * be found is not drawn.
 */
module RelationLines {
  import opened Wrappers
  import opened RelationTypes
  import opened Types
  import opened ConstellationLogic

  /** The attributes of one `<line>`; `dashArray` is `strokeDasharray`, empty for a solid line. */
  datatype Line = Line(x1: int, y1: int, x2: int, y2: int, stroke: string, strokeWidth: int, dashArray: string)

  /** The stroke used when a type has no colour, and for the provisional line. */
  const Black: string := "#000"

  /** The dash pattern of dashed types and of the provisional line. */
  const DashPattern: string := "5,5"

  /** The provisional line's width, also the fallback for a falsy width. */
  const DefaultWidth: int := 2

  /**
   * `renderRelationLine`: drawn exactly when both endpoints are found; the stroke is
   * the type's colour if it has one and black otherwise; the width is the type's
   * (the `|| 2` fallback never applies, every width being non-zero); only `weak`
   * is dashed.
   */
  function RenderRelationLine(elements: seq<Element>, relation: Relation): (line: Option<Line>)
    ensures line.Some? <==> relation.from in Ids(elements) && relation.to in Ids(elements)
    ensures line.Some? && Style(relation.kind).color.Some? ==> line.value.stroke == Style(relation.kind).color.value
    ensures line.Some? && Style(relation.kind).color.None? ==> line.value.stroke == Black
    ensures line.Some? ==> line.value.strokeWidth == Style(relation.kind).width
    ensures line.Some? ==> (line.value.dashArray == DashPattern <==> relation.kind == Weak)
    ensures line.Some? && relation.kind != Weak ==> line.value.dashArray == ""
  {
    var fromElement := FindElement(elements, relation.from);
    var toElement := FindElement(elements, relation.to);
    if fromElement.None? || toElement.None? then None
    else
      var relationStyle := Style(relation.kind);
      Some(Line(
        fromElement.value.x, fromElement.value.y, toElement.value.x, toElement.value.y,
        if relationStyle.color.Some? then relationStyle.color.value else Black,
        if relationStyle.width != 0 then relationStyle.width else DefaultWidth,
        if relationStyle.style == Dashed then DashPattern else ""))
  }

  /** A drawn relation runs between the first elements carrying its endpoint ids. */
  lemma RelationLineEndpoints(elements: seq<Element>, relation: Relation, i: nat, j: nat)
    requires FirstWithId(elements, relation.from, i) && FirstWithId(elements, relation.to, j)
    ensures RenderRelationLine(elements, relation).Some?
    ensures var line := RenderRelationLine(elements, relation).value;
      line.x1 == elements[i].x && line.y1 == elements[i].y && line.x2 == elements[j].x && line.y2 == elements[j].y
  {
    FindElementIsFirst(elements, relation.from, i);
    FindElementIsFirst(elements, relation.to, j);
  }

  /**
   * `renderDrawingLine`: drawn exactly while a gesture is armed on a source that is
   * found; it runs to the cursor, black, two wide and dashed.
   */
  function RenderDrawingLine(elements: seq<Element>, drawingState: DrawingState): (line: Option<Line>)
    ensures line.Some? <==>
      drawingState.isDrawing && drawingState.drawingFrom.Some? && drawingState.drawingFrom.value in Ids(elements)
    ensures line.Some? ==> line.value.x2 == drawingState.mousePosition.x && line.value.y2 == drawingState.mousePosition.y
    ensures line.Some? ==> line.value.stroke == Black && line.value.strokeWidth == DefaultWidth && line.value.dashArray == DashPattern
  {
    if !drawingState.isDrawing || drawingState.drawingFrom.None? then None
    else
      match FindElement(elements, drawingState.drawingFrom.value)
      case None => None
      case Some(fromElement) =>
        Some(Line(fromElement.x, fromElement.y, drawingState.mousePosition.x, drawingState.mousePosition.y,
          Black, DefaultWidth, DashPattern))
  }

  /** The provisional line starts at the first element carrying the source id. */
  lemma DrawingLineStart(elements: seq<Element>, drawingState: DrawingState, i: nat)
    requires drawingState.isDrawing && drawingState.drawingFrom.Some?
    requires FirstWithId(elements, drawingState.drawingFrom.value, i)
    ensures RenderDrawingLine(elements, drawingState).Some?
    ensures RenderDrawingLine(elements, drawingState).value.x1 == elements[i].x
    ensures RenderDrawingLine(elements, drawingState).value.y1 == elements[i].y
  {
    FindElementIsFirst(elements, drawingState.drawingFrom.value, i);
  }

  /**
   * The overlay's children in order: one entry per relation, in the order of the
   * relation list, then the provisional line; `None` entries render nothing.
   */
  function RenderLines(elements: seq<Element>, relations: seq<Relation>, drawingState: DrawingState): (children: seq<Option<Line>>)
    ensures |children| == |relations| + 1
    ensures forall k | 0 <= k < |relations| :: children[k] == RenderRelationLine(elements, relations[k])
    ensures children[|relations|] == RenderDrawingLine(elements, drawingState)
  {
    seq(|relations|, k requires 0 <= k < |relations| => RenderRelationLine(elements, relations[k]))
      + [RenderDrawingLine(elements, drawingState)]
  }

  /** With no dangling relation, every relation is drawn. */
  lemma NoDanglingDrawsEveryRelation(elements: seq<Element>, relations: seq<Relation>, drawingState: DrawingState)
    requires NoDangling(elements, relations)
    ensures forall k | 0 <= k < |relations| :: RenderLines(elements, relations, drawingState)[k].Some?
  {
    var children := RenderLines(elements, relations, drawingState);
    forall k | 0 <= k < |relations| ensures children[k].Some? {
      assert relations[k] in relations;
    }
  }

  /** Deleting the gesture's source hides the provisional line, though the gesture stays armed. */
  lemma DeletedSourceHidesDrawingLine(elements: seq<Element>, drawingState: DrawingState)
    requires drawingState.drawingFrom.Some?
    ensures RenderDrawingLine(WithoutElement(elements, drawingState.drawingFrom.value), drawingState).None?
  {
  }

  /**
   * The relation a gesture completes after its source was deleted is stored but never
   * drawn: the dangling relation of the gesture-source caveat is invisible.
   */
  lemma DanglingRelationIsHidden(alice: Element, bob: Element, t: RelationType, drawingState: DrawingState)
    requires alice.id != bob.id && !drawingState.isDrawing
    ensures RenderLines([bob], [Relation(alice.id, bob.id, t)], drawingState) == [None, None]
  {
    assert alice.id !in Ids([bob]);
  }
}
