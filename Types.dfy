/**
 * The records the editor works on: elements (nodes), relations (typed edges whose
 * endpoints are element ids) and the one-slot drawing gesture, with the lookup by
 * id that both the store and the renderer use (`Array.prototype.find`).
 */
module Types {
  import opened Wrappers
  import opened RelationTypes

  /** A container-relative pointer position. */
  datatype Point = Point(x: int, y: int)

  datatype Element = Element(id: int, name: string, icon: string, color: string, x: int, y: int)

  /** A relation. The source's endpoints are `String(id)`; the conversion is injective on ids. */
  datatype Relation = Relation(from: int, to: int, kind: RelationType)

  /** The drawing gesture: armed or not, its source element, and the tracked cursor. */
  datatype DrawingState = DrawingState(isDrawing: bool, drawingFrom: Option<int>, mousePosition: Point)

  /** The ids of the elements present. */
  function Ids(elements: seq<Element>): set<int> {
    set e | e in elements :: e.id
  }

  /** The position of the first element with id `id`, if there is one. */
  function FirstIndexOf(elements: seq<Element>, id: int): (r: Option<nat>)
    ensures r.Some? ==> r.value < |elements| && elements[r.value].id == id
    ensures r.Some? ==> forall j | 0 <= j < r.value :: elements[j].id != id
    ensures r.None? ==> id !in Ids(elements)
  {
    if elements == [] then None
    else if elements[0].id == id then Some(0)
    else
      match FirstIndexOf(elements[1..], id)
      case None =>
        assert elements == [elements[0]] + elements[1..];
        None
      case Some(k) => Some(k + 1)
  }

  /** `elements.find(e => e.id === id)`: the first element with that id, or none exactly when the id is absent. */
  function FindElement(elements: seq<Element>, id: int): (r: Option<Element>)
    ensures r.None? <==> id !in Ids(elements)
    ensures r.Some? ==> r.value in elements && r.value.id == id
    ensures r.Some? ==> exists i | 0 <= i < |elements| :: elements[i] == r.value && forall j | 0 <= j < i :: elements[j].id != id
  {
    match FirstIndexOf(elements, id)
    case None => None
    case Some(i) => Some(elements[i])
  }

  /** Position `i` holds the first element whose id is `id`. */
  predicate FirstWithId(elements: seq<Element>, id: int, i: nat) {
    i < |elements| && elements[i].id == id && forall j | 0 <= j < i :: elements[j].id != id
  }

  /** The lookup returns the first element with the id, whatever other elements share it. */
  lemma FindElementIsFirst(elements: seq<Element>, id: int, i: nat)
    requires FirstWithId(elements, id, i)
    ensures FindElement(elements, id) == Some(elements[i])
  {
    assert elements[i] in elements;
    var k := FirstIndexOf(elements, id);
    assert k.Some?;
    if k.value < i || i < k.value {
      assert false;
    }
  }
}
