/**
 * The state updates of the constellation store, each written as the function the
 * source passes to a state setter (`prev => ...`), and the properties that relate them:
 * cascade delete, upsert on an unordered pair, a drag that moves one element, and the
 * relation invariants these updates keep.
 */
module ConstellationLogic {
  import opened Wrappers
  import opened Sequences
  import opened Text
  import opened RelationTypes
  import opened Types

  /** The relation type a new store starts with. */
  const DefaultRelationType: RelationType := Neutral

  /** The gesture a new store starts with: idle, no source, cursor at the origin. */
  const InitialDrawingState: DrawingState := DrawingState(false, None, Point(0, 0))

  // ---------------------------------------------------------------- elements

  /** `addElement` ignores a name that trims to nothing and an empty icon. */
  predicate AddAccepted(name: string, icon: string) {
    Trim(name) != [] && icon != []
  }

  /**
   * The element list after `addElement`: unchanged when the input is rejected, and
   * otherwise the old list followed by exactly one new element carrying the given
   * (untrimmed) name, icon, colour, id and position.
   */
  function AddedElements(prev: seq<Element>, name: string, icon: string, color: string, id: int, position: Point): (r: seq<Element>)
    ensures !AddAccepted(name, icon) ==> r == prev
    ensures AddAccepted(name, icon) ==> |r| == |prev| + 1 && r[..|prev|] == prev
    ensures AddAccepted(name, icon) ==> r[|prev|] == Element(id, name, icon, color, position.x, position.y)
  {
    if !AddAccepted(name, icon) then prev
    else prev + [Element(id, name, icon, color, position.x, position.y)]
  }

  /** Whether an element survives deleting `id`. */
  predicate KeepsElement(id: int, e: Element) {
    e.id != id
  }

  /** The filter callback of `deleteElement(id)` for elements. */
  function ElementKeeper(id: int): Element -> bool {
    e => KeepsElement(id, e)
  }

  /** The element list after `deleteElement(id)`: every element with that id is gone. */
  function WithoutElement(prev: seq<Element>, id: int): (r: seq<Element>)
    ensures forall e | e in r :: e in prev && e.id != id
    ensures forall e | e in prev && e.id != id :: e in r
    ensures id !in Ids(r)
  {
    FilterMembers(prev, ElementKeeper(id));
    Filter(prev, ElementKeeper(id))
  }

  /**
   * The element list after a pointer move while `id` is selected: elements with that id
   * take the cursor's coordinates, every other field and every other element stays.
   */
  function MovedElements(prev: seq<Element>, id: int, position: Point): (r: seq<Element>)
    ensures |r| == |prev|
    ensures forall i | 0 <= i < |prev| && prev[i].id != id :: r[i] == prev[i]
    ensures forall i | 0 <= i < |prev| && prev[i].id == id :: r[i] == prev[i].(x := position.x, y := position.y)
  {
    seq(|prev|, i requires 0 <= i < |prev| =>
      if prev[i].id == id then prev[i].(x := position.x, y := position.y) else prev[i])
  }

  // --------------------------------------------------------------- relations

  /** Relation `r` joins `a` and `b` in either orientation. */
  predicate Joins(r: Relation, a: int, b: int) {
    (r.from == a && r.to == b) || (r.from == b && r.to == a)
  }

  /** Relation `r` has `id` as an endpoint. */
  predicate Touches(r: Relation, id: int) {
    r.from == id || r.to == id
  }

  /** Some relation already joins `a` and `b` (`prev.some(...)`). */
  predicate Linked(rels: seq<Relation>, a: int, b: int) {
    exists i | 0 <= i < |rels| :: Joins(rels[i], a, b)
  }

  /** At most one relation per unordered pair of endpoints. */
  predicate UniquePairs(rels: seq<Relation>) {
    forall i, j | 0 <= i < j < |rels| :: !Joins(rels[j], rels[i].from, rels[i].to)
  }

  /** No relation joins an element to itself. */
  predicate NoSelfLoops(rels: seq<Relation>) {
    forall i | 0 <= i < |rels| :: rels[i].from != rels[i].to
  }

  /** The relation invariant the store keeps at all times. */
  predicate WellFormed(rels: seq<Relation>) {
    UniquePairs(rels) && NoSelfLoops(rels)
  }

  /** Every relation's endpoints name elements that exist. */
  predicate NoDangling(elements: seq<Element>, rels: seq<Relation>) {
    forall r | r in rels :: r.from in Ids(elements) && r.to in Ids(elements)
  }

  /** Whether a relation survives deleting `id`. */
  predicate KeepsRelation(id: int, r: Relation) {
    !Touches(r, id)
  }

  /** The filter callback of `deleteElement(id)` for relations. */
  function RelationKeeper(id: int): Relation -> bool {
    x => KeepsRelation(id, x)
  }

  /** The relation list after `deleteElement(id)`: the cascade removes every relation touching `id`. */
  function WithoutRelationsOf(prev: seq<Relation>, id: int): (r: seq<Relation>)
    ensures forall x | x in r :: x in prev && !Touches(x, id)
    ensures forall x | x in prev && !Touches(x, id) :: x in r
  {
    FilterMembers(prev, RelationKeeper(id));
    Filter(prev, RelationKeeper(id))
  }

  /**
   * The relation list after re-tagging: every relation joining `a` and `b` takes type `t`
   * and keeps its own orientation; the others are untouched.
   */
  function Retagged(prev: seq<Relation>, a: int, b: int, t: RelationType): (r: seq<Relation>)
    ensures |r| == |prev|
    ensures forall i | 0 <= i < |prev| && Joins(prev[i], a, b) :: r[i] == prev[i].(kind := t)
    ensures forall i | 0 <= i < |prev| && !Joins(prev[i], a, b) :: r[i] == prev[i]
  {
    seq(|prev|, i requires 0 <= i < |prev| => if Joins(prev[i], a, b) then prev[i].(kind := t) else prev[i])
  }

  /**
   * The relation list after a completed gesture from `from` to `to` with type `t`:
   * an existing relation between the two, in either orientation, is re-tagged in place;
   * otherwise exactly `{from, to, t}` is appended at the end.
   */
  function LinkedRelations(prev: seq<Relation>, from: int, to: int, t: RelationType): (r: seq<Relation>)
    ensures Linked(prev, from, to) ==> |r| == |prev|
    ensures !Linked(prev, from, to) ==> |r| == |prev| + 1 && r[..|prev|] == prev && r[|prev|] == Relation(from, to, t)
    ensures forall i | 0 <= i < |prev| :: r[i].from == prev[i].from && r[i].to == prev[i].to
    ensures forall i | 0 <= i < |prev| && !Joins(prev[i], from, to) :: r[i] == prev[i]
    ensures forall i | 0 <= i < |r| && Joins(r[i], from, to) :: r[i].kind == t
  {
    if Linked(prev, from, to) then Retagged(prev, from, to, t)
    else prev + [Relation(from, to, t)]
  }

  // ------------------------------------------------------------------ lemmas

  /** Deleting an id that no element carries leaves the element list as it was. */
  lemma DeleteUnknownElement(prev: seq<Element>, id: int)
    requires id !in Ids(prev)
    ensures WithoutElement(prev, id) == prev
  {
    forall i | 0 <= i < |prev| ensures KeepsElement(id, prev[i]) {
      assert prev[i] in prev;
    }
    FilterKeepsAll(prev, ElementKeeper(id));
  }

  /**
   * Deleting an unknown id leaves a consistent store's relations as they were:
   * no relation can touch an id that names no element.
   */
  lemma DeleteUnknownKeepsRelations(elements: seq<Element>, rels: seq<Relation>, id: int)
    requires NoDangling(elements, rels)
    requires id !in Ids(elements)
    ensures WithoutRelationsOf(rels, id) == rels
  {
    forall i | 0 <= i < |rels| ensures KeepsRelation(id, rels[i]) {
      assert rels[i] in rels;
    }
    FilterKeepsAll(rels, RelationKeeper(id));
  }

  /**
   * With ids unique, deleting the id of the element at position `k` removes exactly
   * that element and leaves the rest in place and in order.
   */
  lemma DeleteRemovesOnlyThat(prev: seq<Element>, k: nat)
    requires k < |prev|
    requires forall j | 0 <= j < |prev| && j != k :: prev[j].id != prev[k].id
    ensures WithoutElement(prev, prev[k].id) == prev[..k] + prev[k + 1..]
  {
    var id := prev[k].id;
    var left, mid, right := prev[..k], [prev[k]], prev[k + 1..];
    assert prev == left + (mid + right);
    forall i | 0 <= i < |left| ensures ElementKeeper(id)(left[i]) {
      assert left[i] == prev[i];
    }
    forall i | 0 <= i < |right| ensures ElementKeeper(id)(right[i]) {
      assert right[i] == prev[k + 1 + i];
    }
    FilterKeepsAll(left, ElementKeeper(id));
    FilterKeepsAll(right, ElementKeeper(id));
    assert Filter(mid, ElementKeeper(id)) == [] by {
      assert mid[1..] == [];
    }
    FilterConcat(mid, right, ElementKeeper(id));
    FilterConcat(left, mid + right, ElementKeeper(id));
  }

  /**
   * The cascade keeps the survivors' relative order: deleting from a list split in two
   * is deleting from each part and joining the results in the same order.
   */
  lemma DeleteKeepsOrder(a: seq<Element>, b: seq<Element>, ra: seq<Relation>, rb: seq<Relation>, id: int)
    ensures WithoutElement(a + b, id) == WithoutElement(a, id) + WithoutElement(b, id)
    ensures WithoutRelationsOf(ra + rb, id) == WithoutRelationsOf(ra, id) + WithoutRelationsOf(rb, id)
  {
    FilterConcat(a, b, ElementKeeper(id));
    FilterConcat(ra, rb, RelationKeeper(id));
  }

  /** Deleting an element just added with a fresh id gives back the list before the add. */
  lemma DeleteUndoesAdd(prev: seq<Element>, name: string, icon: string, color: string, id: int, position: Point)
    requires id !in Ids(prev)
    ensures WithoutElement(AddedElements(prev, name, icon, color, id, position), id) == prev
  {
    DeleteUnknownElement(prev, id);
    if AddAccepted(name, icon) {
      var e := Element(id, name, icon, color, position.x, position.y);
      FilterConcat(prev, [e], ElementKeeper(id));
      assert [e][1..] == [];
    }
  }

  /** After the cascade, no relation refers to the deleted element and none refers to a missing one. */
  lemma DeleteKeepsNoDangling(elements: seq<Element>, rels: seq<Relation>, id: int)
    requires NoDangling(elements, rels)
    ensures NoDangling(WithoutElement(elements, id), WithoutRelationsOf(rels, id))
  {
    var es := WithoutElement(elements, id);
    forall r | r in WithoutRelationsOf(rels, id)
      ensures r.from in Ids(es) && r.to in Ids(es)
    {
      var f :| f in elements && f.id == r.from;
      var g :| g in elements && g.id == r.to;
      assert f in es && g in es;
    }
  }

  /** Filtering never creates a second relation on a pair, nor a self loop. */
  lemma {:induction false} DeleteKeepsWellFormed(rels: seq<Relation>, id: int)
    requires WellFormed(rels)
    ensures WellFormed(WithoutRelationsOf(rels, id))
  {
    if rels != [] {
      var rest := rels[1..];
      assert WellFormed(rest) by {
        forall i, j | 0 <= i < j < |rest| ensures !Joins(rest[j], rest[i].from, rest[i].to) {
          assert rest[i] == rels[i + 1] && rest[j] == rels[j + 1];
        }
      }
      DeleteKeepsWellFormed(rest, id);
      var tail := WithoutRelationsOf(rest, id);
      var r := WithoutRelationsOf(rels, id);
      if KeepsRelation(id, rels[0]) {
        assert r == [rels[0]] + tail;
        forall j | 0 < j < |r| ensures !Joins(r[j], r[0].from, r[0].to) {
          assert r[j] in tail;
          var k :| 0 <= k < |rest| && rest[k] == r[j];
          assert rels[k + 1] == r[j];
        }
      } else {
        assert r == tail;
      }
    }
  }

  /** A completed gesture between two distinct endpoints keeps the relation invariant. */
  lemma LinkKeepsWellFormed(prev: seq<Relation>, from: int, to: int, t: RelationType)
    requires WellFormed(prev)
    requires from != to
    ensures WellFormed(LinkedRelations(prev, from, to, t))
  {
    var r := LinkedRelations(prev, from, to, t);
    if !Linked(prev, from, to) {
      forall i, j | 0 <= i < j < |r| ensures !Joins(r[j], r[i].from, r[i].to) {
        if j == |prev| {
          assert !Joins(prev[i], from, to);
        }
      }
    }
  }

  /**
   * After a completed gesture between distinct endpoints, exactly one relation joins
   * them, and it carries the gesture's type.
   */
  lemma LinkLeavesOneRelation(prev: seq<Relation>, from: int, to: int, t: RelationType)
    requires WellFormed(prev)
    requires from != to
    ensures var r := LinkedRelations(prev, from, to, t);
      && Linked(r, from, to)
      && (forall i, j | 0 <= i < |r| && 0 <= j < |r| && Joins(r[i], from, to) && Joins(r[j], from, to) :: i == j)
      && (forall i | 0 <= i < |r| && Joins(r[i], from, to) :: r[i].kind == t)
  {
    var r := LinkedRelations(prev, from, to, t);
    LinkKeepsWellFormed(prev, from, to, t);
    if !Linked(prev, from, to) {
      assert Joins(r[|prev|], from, to);
    } else {
      var k :| 0 <= k < |prev| && Joins(prev[k], from, to);
      assert Joins(r[k], from, to);
    }
    forall i, j | 0 <= i < |r| && 0 <= j < |r| && Joins(r[i], from, to) && Joins(r[j], from, to)
      ensures i == j
    {
      if i < j || j < i {
        assert false;
      }
    }
  }

  /** The first gesture on an empty relation list appends exactly its relation. */
  lemma LinkIntoEmpty(from: int, to: int, t: RelationType)
    ensures LinkedRelations([], from, to, t) == [Relation(from, to, t)]
  {
  }

  /**
   * A gesture drawn back the other way re-tags the relation the first gesture appended:
   * the count stays, the orientation of the first gesture stays, the type is the latest.
   */
  lemma RelinkReversedRetags(prev: seq<Relation>, a: int, b: int, t1: RelationType, t2: RelationType)
    requires !Linked(prev, a, b)
    ensures LinkedRelations(LinkedRelations(prev, a, b, t1), b, a, t2) == prev + [Relation(a, b, t2)]
  {
    var mid := LinkedRelations(prev, a, b, t1);
    assert Joins(mid[|prev|], b, a);
    var r := LinkedRelations(mid, b, a, t2);
    forall i | 0 <= i < |prev| ensures r[i] == prev[i] {
      assert !Joins(prev[i], a, b);
    }
  }

  /** A gesture between elements that exist cannot create a dangling relation. */
  lemma LinkKeepsNoDangling(elements: seq<Element>, prev: seq<Relation>, from: int, to: int, t: RelationType)
    requires NoDangling(elements, prev)
    requires from in Ids(elements) && to in Ids(elements)
    ensures NoDangling(elements, LinkedRelations(prev, from, to, t))
  {
    var r := LinkedRelations(prev, from, to, t);
    forall x | x in r ensures x.from in Ids(elements) && x.to in Ids(elements) {
      var i :| 0 <= i < |r| && r[i] == x;
      if i < |prev| {
        assert prev[i] in prev;
      }
    }
  }

  /** Adding an element never makes a relation dangle. */
  lemma AddKeepsNoDangling(elements: seq<Element>, rels: seq<Relation>, name: string, icon: string, color: string, id: int, position: Point)
    requires NoDangling(elements, rels)
    ensures NoDangling(AddedElements(elements, name, icon, color, id, position), rels)
  {
    var es := AddedElements(elements, name, icon, color, id, position);
    forall e | e in elements ensures e in es {
      if AddAccepted(name, icon) {
        var i :| 0 <= i < |elements| && elements[i] == e;
        assert es[i] == e;
      }
    }
  }

  /** A drag changes no id, so it keeps the element ids and cannot make a relation dangle. */
  lemma MoveKeepsIds(elements: seq<Element>, id: int, position: Point)
    ensures Ids(MovedElements(elements, id, position)) == Ids(elements)
  {
    var es := MovedElements(elements, id, position);
    forall k | k in Ids(elements) ensures k in Ids(es) {
      var i :| 0 <= i < |elements| && elements[i].id == k;
      assert es[i] in es;
    }
    forall k | k in Ids(es) ensures k in Ids(elements) {
      var i :| 0 <= i < |es| && es[i].id == k;
      assert elements[i] in elements;
    }
  }

  /** The element follows the cursor directly: the second of two moves wins outright. */
  lemma MoveTwiceIsLastMove(elements: seq<Element>, id: int, p: Point, q: Point)
    ensures MovedElements(MovedElements(elements, id, p), id, q) == MovedElements(elements, id, q)
  {
  }

  /**
   * The gesture-source caveat: a relation whose source was deleted mid-gesture is
   * appended by the next completed gesture and dangles.
   */
  lemma DeletedSourceLeavesDangling(alice: Element, bob: Element, t: RelationType)
    requires alice.id != bob.id
    ensures var es := WithoutElement([alice, bob], alice.id);
      var rs := LinkedRelations(WithoutRelationsOf([], alice.id), alice.id, bob.id, t);
      && NoDangling([alice, bob], [])
      && !NoDangling(es, rs)
  {
    var es := WithoutElement([alice, bob], alice.id);
    var rs := LinkedRelations(WithoutRelationsOf([], alice.id), alice.id, bob.id, t);
    assert rs[0] in rs;
  }
}
