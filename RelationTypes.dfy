/**
 * The fixed vocabulary of relation types and the line style each one is drawn with.
 * The source keeps this as a constant object literal keyed by a string tag; here the
 * tag is a closed enumeration and the literal is a total lookup function.
 */
module RelationTypes {
  import opened Wrappers

  datatype RelationType = Strong | Weak | Conflict | Neutral | Positive

  datatype LineStyle = Solid | Dashed

  /** One entry of the table; `color` is absent for the entries that have no `color` key. */
  datatype RelationStyle = RelationStyle(caption: string, style: LineStyle, width: int, color: Option<string>)

  /** The table's keys in declaration order, which is also the order of the selector's options. */
  const AllRelationTypes: seq<RelationType> := [Strong, Weak, Conflict, Neutral, Positive]

  /** The string tag under which the table files each type. */
  function Key(t: RelationType): string {
    match t
    case Strong => "strong"
    case Weak => "weak"
    case Conflict => "conflict"
    case Neutral => "neutral"
    case Positive => "positive"
  }

  /** Reading a tag back, as the selector does with the value of the chosen option. */
  function FromKey(k: string): (r: Option<RelationType>)
    ensures r.Some? ==> Key(r.value) == k
    ensures r.None? ==> forall t :: Key(t) != k
  {
    if k == "strong" then Some(Strong)
    else if k == "weak" then Some(Weak)
    else if k == "conflict" then Some(Conflict)
    else if k == "neutral" then Some(Neutral)
    else if k == "positive" then Some(Positive)
    else None
  }

  /**
   * The table entry of a type. Only `weak` is dashed; every width is positive;
   * `strong` and `weak` are the entries without a colour.
   */
  function Style(t: RelationType): (s: RelationStyle)
    ensures s.style == Dashed <==> t == Weak
    ensures s.width > 0
    ensures s.color.None? <==> t == Strong || t == Weak
  {
    match t
    case Strong => RelationStyle("Сильний зв'язок", Solid, 4, None)
    case Weak => RelationStyle("Слабкий зв'язок", Dashed, 2, None)
    case Conflict => RelationStyle("Конфлікт", Solid, 3, Some("#e74c3c"))
    case Neutral => RelationStyle("Нейтральний", Solid, 2, Some("#7f8c8d"))
    case Positive => RelationStyle("Позитивний", Solid, 3, Some("#2ecc71"))
  }

  /** Tags and types are in one-to-one correspondence: every type's tag reads back as that type. */
  lemma KeyRoundTrip(t: RelationType)
    ensures FromKey(Key(t)) == Some(t)
  {
  }

  /** The vocabulary is exactly five types, each listed once, in table order. */
  lemma VocabularyIsClosed()
    ensures |AllRelationTypes| == 5
    ensures forall t :: t in AllRelationTypes
    ensures forall i, j | 0 <= i < j < |AllRelationTypes| :: AllRelationTypes[i] != AllRelationTypes[j]
    ensures forall i | 0 <= i < |AllRelationTypes| :: Key(AllRelationTypes[i]) == ["strong", "weak", "conflict", "neutral", "positive"][i]
  {
    forall t ensures t in AllRelationTypes {
      match t
      case Strong => assert AllRelationTypes[0] == t;
      case Weak => assert AllRelationTypes[1] == t;
      case Conflict => assert AllRelationTypes[2] == t;
      case Neutral => assert AllRelationTypes[3] == t;
      case Positive => assert AllRelationTypes[4] == t;
    }
  }

  /** The widths and colours of the table. */
  lemma StyleValues()
    ensures Style(Strong).width == 4 && Style(Weak).width == 2 && Style(Conflict).width == 3
    ensures Style(Neutral).width == 2 && Style(Positive).width == 3
    ensures Style(Conflict).color == Some("#e74c3c")
    ensures Style(Neutral).color == Some("#7f8c8d")
    ensures Style(Positive).color == Some("#2ecc71")
  {
  }
}
