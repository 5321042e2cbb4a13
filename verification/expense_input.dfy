/** Building the day's batch of categories from the five amounts the user
    typed. The dialog and the number parser are outside the model: the
    caller passes whether the user pressed OK and, for each field, the
    parsed amount or None when the text is not a number. */
module ExpenseInput {
  import opened Expense

  datatype Option<T> = None | Some(value: T)

  /** The names the batch gives its five categories, top to bottom. */
  const BATCH_NAMES: seq<string> := ["Food", "Transport", "Grocery", "Utilities", "Others"]

  /** All-or-nothing: on OK with five numbers, five categories in a fixed
      order, each amount under its field's name; on cancel, nothing; on OK
      with any field that is not a number, nothing and an error report. */
  method GetExpenseCategoriesFromUser(
    confirmed: bool,
    food: Option<real>, transportation: Option<real>, entertainment: Option<real>,
    utilities: Option<real>, others: Option<real>)
    returns (categories: seq<Category>, reportedError: bool)
    ensures var parsed := food.Some? && transportation.Some? && entertainment.Some?
                          && utilities.Some? && others.Some?;
      && (categories != [] <==> confirmed && parsed)
      && (reportedError <==> confirmed && !parsed)
    ensures categories == [] || |categories| == 5
    ensures categories != [] ==>
      && (forall i :: 0 <= i < 5 ==> categories[i].name == BATCH_NAMES[i] && WellFormed(categories[i]))
      && categories[0].amount == food.value
      && categories[1].amount == transportation.value
      && categories[2].amount == entertainment.value
      && categories[3].amount == utilities.value
      && categories[4].amount == others.value
  {
    categories, reportedError := [], false;
    if confirmed {
      if food.Some? && transportation.Some? && entertainment.Some? && utilities.Some? && others.Some? {
        categories := categories + [MakeCategory("Food", food.value)];
        categories := categories + [MakeCategory("Transport", transportation.value)];
        categories := categories + [MakeCategory("Grocery", entertainment.value)];
        categories := categories + [MakeCategory("Utilities", utilities.value)];
        categories := categories + [MakeCategory("Others", others.value)];
      } else {
        reportedError := true;
      }
    }
  }

  /** The batch names that are table keys once lower-cased. */
  lemma TabledBatchNames()
    ensures ColorFor("Food") == FOOD_COLOR
    ensures ColorFor("Utilities") == UTILITIES_COLOR
    ensures ColorFor("Others") == OTHERS_COLOR
  {
    assert ToLower("Food") == "food";
    assert ToLower("Utilities") == "utilities";
    assert ToLower("Others") == "others";
  }

  /** The batch names that are not table keys: "Transport" is not
      "transportation", and "Grocery" is not in the table at all. */
  lemma UntabledBatchNames()
    ensures ColorFor("Transport") == FALLBACK_COLOR
    ensures ColorFor("Grocery") == FALLBACK_COLOR
  {
    assert ToLower("Transport") == "transport";
    assert ToLower("Grocery") == "grocery";
  }

  /** The colours a full batch gets: Food, Utilities and Others find their
      table colours, while "Transport" and "Grocery" are not table keys and
      get the fallback colour. */
  lemma BatchColors(categories: seq<Category>)
    requires |categories| == 5
    requires forall i :: 0 <= i < 5 ==> categories[i].name == BATCH_NAMES[i] && WellFormed(categories[i])
    ensures categories[0].color == FOOD_COLOR
    ensures categories[1].color == FALLBACK_COLOR
    ensures categories[2].color == FALLBACK_COLOR
    ensures categories[3].color == UTILITIES_COLOR
    ensures categories[4].color == OTHERS_COLOR
  {
    TabledBatchNames();
    UntabledBatchNames();
    assert WellFormed(categories[0]) && WellFormed(categories[1]) && WellFormed(categories[2])
      && WellFormed(categories[3]) && WellFormed(categories[4]);
  }
}
