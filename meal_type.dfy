/** The meal slot a log entry is filed under, chosen from the local hour. */
module MealType {

  /** `get_meal_type_id`: the first half-open window holding the hour, or 6 (anytime). */
  function MealTypeId(hour: int): (id: int)
    ensures 1 <= id <= 6
  {
    if 6 <= hour < 11 then 1        // breakfast
    else if 11 <= hour < 12 then 2  // morning snack
    else if 12 <= hour < 16 then 3  // lunch
    else if 16 <= hour < 18 then 4  // afternoon snack
    else if 18 <= hour < 21 then 5  // dinner
    else 6                          // anytime
  }

  /** A half-open window of hours `[start, end)` and the meal type it selects. */
  datatype Window = Window(start: int, end: int, id: int)

  /** The classification table, earliest window first. */
  const Windows: seq<Window> := [
    Window(6, 11, 1), Window(11, 12, 2), Window(12, 16, 3), Window(16, 18, 4), Window(18, 21, 5)
  ]

  /** Reference reading of a table: the id of the first window holding the hour, else 6. */
  function Lookup(windows: seq<Window>, hour: int): int {
    if windows == [] then 6
    else if windows[0].start <= hour < windows[0].end then windows[0].id
    else Lookup(windows[1..], hour)
  }

  /** The classifier agrees with the table for every hour. */
  lemma MealTypeIdIsTable(hour: int)
    ensures MealTypeId(hour) == Lookup(Windows, hour)
  {
    var w1 := [Window(11, 12, 2), Window(12, 16, 3), Window(16, 18, 4), Window(18, 21, 5)];
    var w2 := [Window(12, 16, 3), Window(16, 18, 4), Window(18, 21, 5)];
    var w3 := [Window(16, 18, 4), Window(18, 21, 5)];
    var w4 := [Window(18, 21, 5)];
    assert Windows[1..] == w1 && w1[1..] == w2 && w2[1..] == w3 && w3[1..] == w4 && w4[1..] == [];
    assert Lookup(w4, hour) == if 18 <= hour < 21 then 5 else 6;
    assert Lookup(w3, hour) == if 16 <= hour < 18 then 4 else Lookup(w4, hour);
    assert Lookup(w2, hour) == if 12 <= hour < 16 then 3 else Lookup(w3, hour);
    assert Lookup(w1, hour) == if 11 <= hour < 12 then 2 else Lookup(w2, hour);
    assert Lookup(Windows, hour) == if 6 <= hour < 11 then 1 else Lookup(w1, hour);
  }

  /** Meal type `id` (1 to 5) is chosen exactly for the hours of its window. */
  lemma MealTypeIdExactly(hour: int, id: int)
    requires 1 <= id <= 5
    ensures MealTypeId(hour) == id <==> Windows[id - 1].start <= hour < Windows[id - 1].end
  {
  }

  /** Hours outside 6..20 are filed as anytime, and only those. */
  lemma AnytimeOutsideWindows(hour: int)
    ensures MealTypeId(hour) == 6 <==> hour < 6 || 21 <= hour
  {
  }
}
