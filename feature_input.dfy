/** The start of the feature-vector builder (app.py:43-77): the shape gate on
    the loaded feature order, the loop that creates a 0-valued entry in
    `user_input` for every month and day column the feature order declares,
    and the activation of the selected month and day columns. */
module FeatureInput {
  import opened PyValues
  import opened CategoricalMaps

  /** The dictionary that the initialisation loop of app.py:72-74 leaves behind
      when it starts from `d` and walks `names` from first to last: every
      categorical name is inserted with value 0, every other name is skipped,
      and an entry of `d` that no name overwrites keeps its value. */
  function InitColumns(d: map<string, int>, names: seq<string>): (r: map<string, int>)
    ensures forall c :: c in r <==> c in d || (c in names && IsCategoricalColumn(c))
    ensures forall c :: c in r ==> r[c] == if c in names && IsCategoricalColumn(c) then 0 else d[c]
    decreases |names|
  {
    if names == [] then d
    else
      var before := InitColumns(d, names[..|names| - 1]);
      var col := names[|names| - 1];
      assert names == names[..|names| - 1] + [col];
      if IsCategoricalColumn(col) then before[col := 0] else before
  }

  /** Running the loop again over the same feature order changes nothing:
      the insertions are keyed and always write the same constant. */
  lemma InitColumnsIdempotent(d: map<string, int>, names: seq<string>)
    ensures InitColumns(InitColumns(d, names), names) == InitColumns(d, names)
  {
  }

  /** Walking `a` and then `b` leaves the same dictionary as walking `a + b`
      in one go. */
  lemma InitColumnsConcat(d: map<string, int>, a: seq<string>, b: seq<string>)
    ensures InitColumns(InitColumns(d, a), b) == InitColumns(d, a + b)
  {
  }

  /** Only the set of names matters: reordering the feature order or repeating
      a name in it gives the same dictionary, so a duplicated name yields a
      single key. */
  lemma InitColumnsOrderInsensitive(d: map<string, int>, a: seq<string>, b: seq<string>)
    requires forall c :: c in a <==> c in b
    ensures InitColumns(d, a) == InitColumns(d, b)
  {
  }

  /** Starting from the empty dictionary, as the script does: the keys are
      exactly the feature-order names that start with `month_` or `day_`, so
      no key lies outside the feature order and no other name (such as `X`
      or `temp`) is inserted; every value is 0. */
  lemma InitFromEmpty(names: seq<string>)
    ensures forall c :: c in InitColumns(map[], names) ==> c in names
    ensures forall c :: c in names && IsCategoricalColumn(c) ==> c in InitColumns(map[], names)
    ensures forall c :: c in names && !IsCategoricalColumn(c) ==> c !in InitColumns(map[], names)
    ensures forall c :: c in InitColumns(map[], names) ==> InitColumns(map[], names)[c] == 0
  {
  }

  /** The guard of the activation step, "the selected column is already a key
      of `user_input`", holds exactly when the feature order declares that
      column, because every value of the two maps passes the prefix test. */
  lemma SelectedColumnPresent(names: seq<string>, month: Month, day: Day)
    ensures MonthColumn(month) in InitColumns(map[], names) <==> MonthColumn(month) in names
    ensures DayColumn(day) in InitColumns(map[], names) <==> DayColumn(day) in names
  {
  }

  /** The loop of app.py:72-74 over the deserialised feature order, building
      `user_input` from an empty dictionary. The loop calls `startswith` on
      each element; an element that is not a `str` stops it there, and no
      dictionary is produced. */
  method InitCategoricalColumns(order: seq<PyObject>) returns (r: Result<map<string, int>, ScriptError>)
    ensures r.Success? <==> AllStrings(order)
    ensures r.Success? ==> r.value == InitColumns(map[], Names(order))
    ensures r.Failure? ==> r.error == ElementNotStr(FirstNonString(order))
  {
    var userInput: map<string, int> := map[];
    var i := 0;
    while i < |order|
      invariant i <= |order|
      invariant AllStrings(order[..i])
      invariant userInput == InitColumns(map[], Names(order[..i]))
    {
      var col := order[i];
      if !col.PyStr? {
        return Failure(ElementNotStr(i));
      }
      assert Names(order[..i + 1]) == Names(order[..i]) + [col.s];
      if IsCategoricalColumn(col.s) {
        userInput := userInput[col.s := 0];
      }
      i := i + 1;
    }
    assert order[..i] == order;
    return Success(userInput);
  }

  /** The activation step begun at app.py:76-77: the column encoding the
      selected month, then the one encoding the selected day, is set to 1 if
      it is already a key; no key is added and every other entry keeps its
      value. */
  method ActivateSelected(userInput: map<string, int>, month: Month, day: Day)
    returns (activated: map<string, int>)
    ensures activated.Keys == userInput.Keys
    ensures forall c :: c in activated ==>
      activated[c] == if c == MonthColumn(month) || c == DayColumn(day) then 1 else userInput[c]
  {
    activated := userInput;
    var monthColumn := MonthColumn(month);
    if monthColumn in activated {
      activated := activated[monthColumn := 1];
    }
    var dayColumn := DayColumn(day);
    if dayColumn in activated {
      activated := activated[dayColumn := 1];
    }
  }

  /** app.py:43-77 end to end, from the deserialised feature order and the two
      selections to the categorical part of `user_input`. A feature order that
      is not a list stops the script before any column is built; one holding
      a non-string stops it in the loop. Otherwise the keys are exactly the
      declared month and day columns, the selected month's and day's columns
      are 1 when declared, every other column is 0, and so at most one month
      column and at most one day column is 1. */
  method PrepareCategoricalInput(loaded: PyObject, month: Month, day: Day)
    returns (r: Result<map<string, int>, ScriptError>)
    ensures !loaded.PyList? ==> r == Failure(FeatureOrderNotList)
    ensures loaded.PyList? ==> (r.Success? <==> AllStrings(loaded.items))
    ensures loaded.PyList? && r.Failure? ==> r.error == ElementNotStr(FirstNonString(loaded.items))
    ensures r.Success? ==> forall c :: c in r.value <==> c in Names(loaded.items) && IsCategoricalColumn(c)
    ensures r.Success? ==> forall c :: c in r.value ==>
      r.value[c] == if c == MonthColumn(month) || c == DayColumn(day) then 1 else 0
    ensures r.Success? ==> (MonthColumn(month) in r.value <==> MonthColumn(month) in Names(loaded.items))
    ensures r.Success? ==> (DayColumn(day) in r.value <==> DayColumn(day) in Names(loaded.items))
    ensures r.Success? ==> forall c :: c in r.value && r.value[c] == 1 && StartsWith(c, MonthPrefix) ==> c == MonthColumn(month)
    ensures r.Success? ==> forall c :: c in r.value && r.value[c] == 1 && StartsWith(c, DayPrefix) ==> c == DayColumn(day)
  {
    if !loaded.PyList? {
      return Failure(FeatureOrderNotList);
    }
    var initialised := InitCategoricalColumns(loaded.items);
    if initialised.Failure? {
      return initialised;
    }
    ghost var names := Names(loaded.items);
    InitFromEmpty(names);
    var activated := ActivateSelected(initialised.value, month, day);
    ColumnsDistinct(month, month, day, day);
    return Success(activated);
  }
}
