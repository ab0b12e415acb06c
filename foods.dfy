/**
 * The food candidates a catalog search returns, and the rule that picks the
 * singular or plural unit name for a spoken amount.
 */
module Foods {
  import opened Wrappers

  /** A JSON number: its value, and the text Python's `str` renders for it ("1", "0.5", "3.0"). */
  datatype Number = Number(value: real, text: string) {
    /** The text reads as 1 ("1" or "1.0") exactly when the value is 1. */
    predicate WellFormed() {
      value == 1.0 <==> (text == "1" || text == "1.0")
    }
  }

  /** A food's `defaultUnit` object. */
  datatype Unit = Unit(id: int, name: string, plural: string)

  /** One entry of the search response's `foods` list; `defaultServingSize` may be absent. */
  datatype Food = Food(
    foodId: int,
    name: string,
    calories: Number,
    defaultServingSize: Option<Number>,
    defaultUnit: Unit)

  /** The amount is present and compares equal to 1 (`x == 1` holds for 1 and 1.0 alike). */
  predicate IsOne(amount: Option<Number>) {
    amount.Some? && amount.value.value == 1.0
  }

  /** The unit name spoken after an amount: singular for exactly 1, plural otherwise. */
  function UnitWord(unit: Unit, amount: Option<Number>): (word: string)
    ensures IsOne(amount) ==> word == unit.name
    ensures !IsOne(amount) ==> word == unit.plural
  {
    if IsOne(amount) then unit.name else unit.plural
  }

  /** The amount a confirmed food is logged with: `defaultServingSize`, or 1 when absent. */
  function ServingOrOne(food: Food): (amount: Number)
    ensures food.defaultServingSize.Some? ==> amount == food.defaultServingSize.value
    ensures food.defaultServingSize.None? ==> amount.value == 1.0 && amount.text == "1"
  {
    match food.defaultServingSize
    case Some(size) => size
    case None => Number(1.0, "1")
  }
}
