/** One row of the chart: an expense category with a name, an amount, a
    colour chosen from its name, and the shared maximum amount that bar
    widths are scaled against. */
module Expense {

  /** A colour, kept as the hex code the category table decodes. */
  datatype Color = Hex(code: string)

  const FOOD_COLOR := Hex("#097969")
  const TRANSPORTATION_COLOR := Hex("#50C878")
  const ENTERTAINMENT_COLOR := Hex("#2AAA8A")
  const UTILITIES_COLOR := Hex("#478778")
  const OTHERS_COLOR := Hex("#E64A19")
  const FALLBACK_COLOR := Hex("#ececa3")

  /** Every colour a category can get. */
  const PALETTE: set<Color> :=
    {FOOD_COLOR, TRANSPORTATION_COLOR, ENTERTAINMENT_COLOR, UTILITIES_COLOR, OTHERS_COLOR, FALLBACK_COLOR}

  /** The lookup table as an immutable map from lower-cased name to colour. */
  const COLOR_TABLE: map<string, Color> := map[
    "food" := FOOD_COLOR,
    "transportation" := TRANSPORTATION_COLOR,
    "entertainment" := ENTERTAINMENT_COLOR,
    "utilities" := UTILITIES_COLOR,
    "others" := OTHERS_COLOR
  ]

  /** The denominator every bar width is scaled by, the same for every category. */
  const MAX_AMOUNT: real := 1000.0

  /** The lower-case form of one character; only the ASCII letters A-Z
      change, each to its lower-case letter. */
  function LowerChar(c: char): (r: char)
    ensures 'A' <= c <= 'Z' ==> 'a' <= r <= 'z' && r as int - c as int == 'a' as int - 'A' as int
    ensures !('A' <= c <= 'Z') ==> r == c
    ensures !('A' <= r <= 'Z')
  {
    if 'A' <= c <= 'Z' then (c as int - 'A' as int + 'a' as int) as char else c
  }

  /** Lower-cases a name character by character, as the category
      constructor does before it looks the name up. */
  function ToLower(s: string): string {
    seq(|s|, i requires 0 <= i < |s| => LowerChar(s[i]))
  }

  /** Two names that differ only in the case of their letters. */
  predicate EqualIgnoringCase(s: string, t: string) {
    |s| == |t| && forall i :: 0 <= i < |s| ==> LowerChar(s[i]) == LowerChar(t[i])
  }

  /** The colour the category constructor resolves for a name: one of five
      fixed colours when the lower-cased name is a table key, the fallback
      colour for every other name. */
  function ColorFor(name: string): (r: Color)
    ensures r in PALETTE
    ensures r == FOOD_COLOR <==> ToLower(name) == "food"
    ensures r == TRANSPORTATION_COLOR <==> ToLower(name) == "transportation"
    ensures r == ENTERTAINMENT_COLOR <==> ToLower(name) == "entertainment"
    ensures r == UTILITIES_COLOR <==> ToLower(name) == "utilities"
    ensures r == OTHERS_COLOR <==> ToLower(name) == "others"
    ensures r == FALLBACK_COLOR <==> ToLower(name) !in COLOR_TABLE
  {
    var key := ToLower(name);
    if key == "food" then FOOD_COLOR
    else if key == "transportation" then TRANSPORTATION_COLOR
    else if key == "entertainment" then ENTERTAINMENT_COLOR
    else if key == "utilities" then UTILITIES_COLOR
    else if key == "others" then OTHERS_COLOR
    else FALLBACK_COLOR
  }

  /** The branching lookup agrees with the table read as a map. */
  lemma ColorForIsTableLookup(name: string)
    ensures ColorFor(name) ==
      if ToLower(name) in COLOR_TABLE then COLOR_TABLE[ToLower(name)] else FALLBACK_COLOR
  {
  }

  /** The lower-cased name has the name's length, no upper-case ASCII
      letter, and differs from the name only in letter case. */
  lemma ToLowerFoldsCase(s: string)
    ensures |ToLower(s)| == |s|
    ensures forall i :: 0 <= i < |s| ==> !('A' <= ToLower(s)[i] <= 'Z')
    ensures EqualIgnoringCase(ToLower(s), s)
  {
  }

  /** The colour lookup is case-insensitive. */
  lemma ColorIgnoresCase(s: string, t: string)
    requires EqualIgnoringCase(s, t)
    ensures ColorFor(s) == ColorFor(t)
  {
    assert ToLower(s) == ToLower(t);
  }

  /** Looking up an already lower-cased name gives the same colour. */
  lemma ColorOfLowerCased(name: string)
    ensures ColorFor(ToLower(name)) == ColorFor(name)
  {
    assert ToLower(ToLower(name)) == ToLower(name);
  }

  /** An expense category. Its colour is fixed when it is made, from its name. */
  datatype Category = Category(name: string, amount: real, color: Color)

  /** A category whose colour is the one its name resolves to, which every
      category made by MakeCategory is. */
  predicate WellFormed(c: Category) {
    c.color == ColorFor(c.name)
  }

  /** The category constructor: keeps the name and the amount as given and
      resolves the colour from the name; no amount is rejected. */
  function MakeCategory(name: string, amount: real): (c: Category)
    ensures c.name == name && c.amount == amount
    ensures WellFormed(c) && c.color in PALETTE
  {
    Category(name, amount, ColorFor(name))
  }

  /** Every category reports the same maximum amount, 1000, whatever its
      name and amount. */
  function MaxAmount(c: Category): (m: real)
    ensures m == 1000.0
  {
    MAX_AMOUNT
  }
}
