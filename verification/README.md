# Gantt-style expense chart, modelled in Dafny

The repository draws a horizontal bar chart of the day's expenses in a Swing
panel (`GanttChart.java`). Each `ExpenseCategory` has a name, an amount and a
colour looked up from its lower-cased name; the panel paints a centred title
and, for every category in list order, a bar scaled against the shared
maximum amount of 1000, the name right-aligned to the left of the bar and the
formatted amount to its right. A modal form collects five amounts and hands
the panel either five categories or none.

The model has four modules:

- `JavaArith` (`java_arith.dfy`): Java's truncating `int` division and the
  truncating `(int)` cast of a floating-point value, stated on `int` and `real`.
- `Expense` (`expense_category.dfy`): colours as hex codes, the name-to-colour
  switch, the category constructor and `getMaxAmount`.
- `Chart` (`gantt_chart.dfy`): the painting arithmetic as a pure function from
  (title, categories, panel width, font metrics) to an ordered list of draw
  commands `Text(s, x, y)` and `Rect(color, x, y, w, h)`, lemmas about that
  layout, and the class `GanttChart` whose `PaintComponent` loop appends the
  commands row by row and is proved to produce exactly that list.
- `ExpenseInput` (`expense_input.dfy`): the all-or-nothing batch built by
  `getExpenseCategoriesFromUser`, with the dialog's OK/cancel answer and the
  five parse results as inputs.

Font metrics (`stringWidth` of the title and label fonts, the label font's
height and descent) and the `"$%.2f"` formatting of an amount are supplied by
the caller in a `Toolkit` value, since they come from the toolkit, not the code.

Points where the code's behaviour may surprise:
- bar widths are truncated toward zero by the `(int)` cast, not rounded;
- negative amounts give bars of negative length; nothing clamps them;
- the maximum amount is the constant 1000, not a parameter;
- "Others" maps to `#E64A19` and "Transportation" (in any case) to `#50C878`;
- the batch names its second and third categories "Transport" and "Grocery"
  (not "Transportation" and "Entertainment"), so both get the fallback colour.

## Model

| member | source | states |
|---|---|---|
| `JavaArith.Quot` | GanttChart.java:43 | the quotient of Java `int` division by a positive divisor: the remainder is smaller than the divisor and never has the opposite sign of the dividend (truncation toward zero) |
| `JavaArith.Truncate` | GanttChart.java:38 | the `(int)` cast rounds toward zero: the result's magnitude is at most the value's and within 1 of it, and its sign is the value's |
| `JavaArith.TruncateMonotone` | GanttChart.java:38 | the truncating cast never reverses the order of two values |
| `Expense.LowerChar` | GanttChart.java:111 | lower-casing a character maps each ASCII capital to its small letter and leaves every other character unchanged; no result is an ASCII capital |
| `Expense.ToLowerFoldsCase` | GanttChart.java:111 | the lower-cased name has the name's length, no ASCII capital, and differs from the name only in letter case |
| `Expense.ColorFor` | GanttChart.java:111-130 | the colour is always one of six; it is each of the five table colours exactly when the lower-cased name is that colour's key, and the fallback `#ececa3` exactly when the lower-cased name is not a key |
| `Expense.ColorForIsTableLookup` | GanttChart.java:111-130 | the switch agrees with the table read as a map from lower-cased key to colour, with the fallback for missing keys |
| `Expense.ColorIgnoresCase` | GanttChart.java:111 | two names that differ only in letter case get the same colour |
| `Expense.ColorOfLowerCased` | GanttChart.java:111 | looking up the lower-cased name gives the same colour as looking up the name |
| `Expense.MakeCategory` | GanttChart.java:108-131 | the constructor keeps name and amount as given, accepts every amount, and fixes the colour its name resolves to |
| `Expense.MaxAmount` | GanttChart.java:141-143 | every category reports the maximum amount 1000, whatever its name and amount |
| `Chart.ChartWidth` | GanttChart.java:26 | the chart width leaves a 100px margin on each side of the panel |
| `Chart.RowY` | GanttChart.java:37 | row i's top is at least the 50px top margin, and its offset below the margin is exactly i row pitches of taskHeight + barGap = 50 |
| `Chart.BarWidth` | GanttChart.java:38 | amount 0 gives width 0; amount 1000 gives the full chart width; with a non-negative chart width a negative amount gives a non-positive width and an amount in [0, 1000] a width in [0, chart width] |
| `Chart.BarCmd` | GanttChart.java:39-40 | row i's bar is a rectangle at x 100, at the row's top, 30 high, in the category's colour; empty for amount 0 and ending 100px before the panel's right edge for amount 1000 |
| `Chart.RowCmds` | GanttChart.java:37-46 | a row is its bar, then its name label, then its amount label; the name ends 10px left of the bar on baseline top + 15 + height/2 - descent; the amount text (the formatted amount) starts 10px after the bar's end, 15px below the bar's top |
| `Chart.BarWidthMonotone` | GanttChart.java:38 | with a non-negative chart width, a larger amount never gives a shorter bar |
| `Chart.TitleCmd` | GanttChart.java:30-31 | the title text sits on baseline 25 and is centred: the space left of it and the space right of it differ by at most one pixel, the odd pixel going where truncation puts it |
| `Chart.Rows` | GanttChart.java:35-47 | n rows issue exactly 3n commands |
| `Chart.Layout` | GanttChart.java:19-47 | a paint issues 1 + 3 commands per category, the first being the title text |
| `Chart.RowsAt` | GanttChart.java:35-47 | row i's three commands are at positions 3i..3i+2 of the rows, so rows appear in list order |
| `Chart.LayoutOfNoCategories` | GanttChart.java:31-35 | an empty list paints the title and nothing else |
| `Chart.RowGeometry` | GanttChart.java:37-46 | row i's bar is at x 100, y 50 + 50i, height 30, in the category's colour; the name label ends at x 90 (10px left of the bar) on baseline y + 15 + height/2 - descent; the amount label starts 10px after the bar's end, 15px below the bar's top |
| `Chart.RowsStacked` | GanttChart.java:37 | consecutive bars are exactly taskHeight + barGap = 50 apart |
| `Chart.BarsInCategoryOrder` | GanttChart.java:35-40 | the rectangles of a paint are exactly one per category, in list order: the i-th is row i's bar for the i-th category |
| `Chart.ExampleColors` | GanttChart.java:111-130 | "Food", "Transportation" and "Others" resolve to `#097969`, `#50C878` and `#E64A19` |
| `Chart.ExampleBars` | GanttChart.java:26-40 | on an 800px panel, Food 250, Transportation 75 and Others 1000 in rows 0, 1, 2 give bars 150, 45 and 600 long at y 50, 100, 150 in `#097969`, `#50C878`, `#E64A19` |
| `Chart.ThreeCategoryExample` | GanttChart.java:26-40 | a paint of those three categories draws exactly those three bars, in that order |
| `Chart.PaintedRow` | GanttChart.java:37-46 | the bar and the two labels the loop body builds from its local row top, bar length and baseline are exactly row i's three commands |
| `Chart.GanttChart.constructor` | GanttChart.java:9-13 | a new chart has the given title and no categories |
| `Chart.GanttChart.SetExpenseCategories` | GanttChart.java:14-17 | the category list is replaced wholesale and the title kept |
| `Chart.GanttChart.PaintComponent` | GanttChart.java:19-48 | the loop issues exactly the command list `Layout` describes for the chart's title and categories |
| `ExpenseInput.GetExpenseCategoriesFromUser` | GanttChart.java:62-100 | the batch is non-empty exactly when the user pressed OK and all five fields parsed, and then holds five categories named Food, Transport, Grocery, Utilities, Others carrying the five amounts in field order; an error is reported exactly when OK was pressed and some field did not parse |
| `ExpenseInput.TabledBatchNames` | GanttChart.java:89-93 | "Food", "Utilities" and "Others" resolve to their table colours |
| `ExpenseInput.UntabledBatchNames` | GanttChart.java:90-91 | "Transport" and "Grocery" resolve to the fallback colour |
| `ExpenseInput.BatchColors` | GanttChart.java:89-93 | in a full batch Food, Utilities and Others get their table colours and Transport and Grocery the fallback colour |

## Left out

- `JavaArith.Quot`: stated only for positive divisors; every division in the painting code is by 2.
- The Swing frame, the dialog and its text fields, `SwingUtilities.invokeLater` and `main` (window title, 800x600 size, the title "Expenses of the Day"): user-interface plumbing; the dialog's answer and the parsed fields are inputs of `GetExpenseCategoriesFromUser`, and the error dialog is its `reportedError` result.
- `Double.parseDouble` and `trim`: each field arrives already parsed, as `Some(amount)` or `None` for text that is not a number.
- Font construction and `FontMetrics`: string widths, height and descent are parameters (`Toolkit`).
- `String.format("$%.2f", ...)`: the amount text is an uninterpreted function of the amount.
- Floating point: amounts are `real`; IEEE rounding in `chartWidth * amount / 1000`, NaN and infinite amounts (which `parseDouble` accepts) and the saturation of `(int)` at the `int` range are not modelled.
- Java `int` overflow in the coordinates (row tops, label positions) is not modelled: integers are unbounded.
- `Color.decode`: colours are kept as their hex codes.
- `toLowerCase` is modelled on the ASCII letters only; non-ASCII case mappings and locale-specific ones (such as the Turkish dotless i, under which "UTILITIES" would not match) are not modelled.
- The graphics context's current colour for text (black for the labels, whatever was set before for the title) and the fonts set on it: `Text` commands carry neither.
- `repaint`, `setBackground` and `super.paintComponent`: toolkit side effects.
- Sharing: the Java panel keeps a reference to the caller's list, so later changes to that list show on the next paint; the model copies the list as a value.
