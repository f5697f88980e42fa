# Pizza order: validation and pricing

This project models the two classes of a small pizza-ordering program and
proves what they promise.

- A `Pizza` is built from four words: size, cheese, mushrooms and pepperoni.
  Each word is checked ignoring case and stored in lower case. Pepperoni
  "none" forbids mushrooms. The pizza is priced from a small table.
- A `LineItem` is a pizza with a quantity from 1 to 100. Its cost carries a
  volume discount. Line items are compared by cost, with differences under
  a dollar treated as equal, and each one renders as a line of text.

Layout:

- `wrappers.dfy` (module `Wrappers`): `Option` stands for a possibly-null
  Java reference. `Result` and `Outcome` stand for a constructor or a setter
  that may throw `IllegalPizza`.
- `text.dfy` (module `Text`): the string behaviour the classes depend on.
  It covers ASCII `toLowerCase` and `equalsIgnoreCase`, how an `int` prints
  in a string, and `DecimalFormat("0.00")`.
- `pizza.dfy` (module `Pizzas`): the pure part is split into functions.
  - One function per setter check, and `Build` for the constructor.
  - The price table (`SizeCost`, `ToppingCost`, `Cost`), in integer cents.
  - `ToNone`, `Describe` (toString) and `SameFields` (the comparison inside
    equals).
  - The class `Pizza`: its four fields, its setters, and static methods for
    the two constructors. `Create` runs the setters in the source's order on
    a fresh object. Also `Clone` and `Equals`.
- `line_item.dfy` (module `LineItems`):
  - The quantity check, the discounted cost in exact `real` dollars, and
    Java's truncating `(int)` cast.
  - The comparison and the line text.
  - The class `LineItem`: its fields, `SetNumber`, `SetPizza`, the two
    constructors as static methods, and `GetCost`, `CompareTo` and
    `ToString`.

Java's constructors become static methods that return `Result`. They
allocate an object that no setter has touched yet (`Unset`), then call the
setters one after the other. They return the object only if every setter
succeeded, so no half-built object escapes. `LineItem.Unset` holds Java's
default field values, a null pizza and quantity 0. `Pizza.Unset` holds ""
in each field where Java has null, because the fields are plain strings
here; such an object never leaves `Pizza.Create`.

Two facts about the code that its shape does not make obvious:

- In `compareTo`, the special case at LineItem.java:108-109 (a difference
  strictly between 0 and 1 gives 0) changes nothing. The difference is
  then truncated toward zero, which already gives 0 for any difference
  strictly between -1 and 1. So the comparison is antisymmetric
  (`LineItems.Compare`, `LineItems.CompareAntisymmetric`).
- `LineItem.setNumber` is public, so a line item's quantity can change
  after construction. `SetNumber` is modelled as a state change.

## Model

| member | source | states |
|---|---|---|
| `Text.Lower` | Pizza.java:73 | `toLowerCase` keeps the length, lowers each ASCII letter and leaves no upper-case letter |
| `Text.EqualsIgnoreCase` | Pizza.java:69-70 | equal strings compare equal ignoring case; the full characterisation, by lower-case forms, is `Text.EqualsIgnoreCaseIffLower` |
| `Text.EqualsIgnoreCaseIffLower` | Pizza.java:69-70 | `equalsIgnoreCase` holds exactly when the lower-case forms are equal |
| `Text.LowerOfLower` | Pizza.java:265 | lower-casing an already lower-case string changes nothing |
| `Text.EqualsIgnoreCaseWord` | Pizza.java:87 | against a lower-case word, `equalsIgnoreCase` holds iff the argument lower-cases to that word |
| `Text.Show` | LineItem.java:122 | an int prints as decimal digits with no leading zero, reads back as the number, and is one digit exactly below 10 |
| `Text.FormatCents` | Pizza.java:211-213 | `DecimalFormat("0.00")` gives the whole dollars with no leading zero, a point and two cent digits; the parts read back as the dollars, the cents and the amount |
| `Pizzas.CheckWord` | Pizza.java:64-75 | a setter's check: null or "" is refused as blank; any other argument succeeds iff its lower-cased form is one of the three words, yields that form, and is otherwise refused as not allowed |
| `Pizzas.SizeCheck` | Pizza.java:64-75 | setSize accepts exactly small/medium/large in any case and yields the lower-case word |
| `Pizzas.CheeseCheck` | Pizza.java:82-92 | setCheese accepts exactly single/double/triple in any case and yields the lower-case word |
| `Pizzas.PepperoniCheck` | Pizza.java:127-139 | setPepperoni accepts exactly none/single/double in any case and yields the lower-case word |
| `Pizzas.MushroomsCheck` | Pizza.java:99-120 | setMushrooms accepts none/single/double given a non-blank pepperoni, except any mushrooms with pepperoni "none" |
| `Pizzas.Build` | Pizza.java:33-45 | the constructor succeeds iff all four arguments are valid and the mushroom rule holds; it stores their lower-case forms, which satisfy the pizza invariant; the all-null error arises exactly when all four are null; the pepperoni guard of setMushrooms never fires |
| `Pizzas.SizeCost` | Pizza.java:157-180 | between $7.00 and $14.00; $7.00 plus $2.00 per size step plus $1.50 per cheese step, a size outside the scale counting as large (the table itself is the body) |
| `Pizzas.ToppingCost` | Pizza.java:185-200 | at most $3.00; $1.50 per step above "none", a word outside the scale counting as none (the table itself is the body) |
| `Pizzas.Cost` | Pizza.java:147-152 | any pizza costs between $7.00 and $20.00, in steps of 50 cents |
| `Pizzas.CostFormula` | Pizza.java:157-200 | for every pizza the price is $7.00, plus $2.00 per size step, plus $1.50 per step of cheese, mushrooms or pepperoni |
| `Pizzas.ToNone` | Pizza.java:223-231 | on topping words the rendering yields no/single/double and is "no" exactly for "none" |
| `Pizzas.Describe` | Pizza.java:206-215 | the text opens with the size and " pizza, " and closes with "$", the price as `FormatCents` writes it, and " each."; `Pizzas.DescribeInjective` is its partner |
| `Pizzas.DescribeInjective` | Pizza.java:206-215 | two valid pizzas with the same toString text are the same pizza |
| `Pizzas.DescribeDefault` | Pizza.java:206-215 | the default pizza renders as "small pizza, single cheese, no mushrooms, single pepperoni. Cost: $8.50 each." |
| `Pizzas.RevalidateStored` | Pizza.java:261-270 | rebuilding from the stored fields of a valid pizza succeeds and gives back the same fields |
| `Pizzas.DefaultPizza` | Pizza.java:51-53 | the no-argument constructor succeeds with small, single cheese, no mushrooms, single pepperoni, costing $8.50 |
| `Pizzas.MushroomsNeedPepperoni` | Pizza.java:114-116 | pepperoni "none" with mushrooms single or double (any case) is always refused, and by that rule when size and cheese are valid |
| `Pizzas.SameFields` | Pizza.java:244-247 | the four case-insensitive field comparisons hold exactly when the lower-case forms of the four fields agree |
| `Pizzas.SameFieldsIsEquality` | Pizza.java:244-247 | on lower-case fields, comparing ignoring case is plain equality of the four fields |
| `Pizzas.SameFieldsEquivalence` | Pizza.java:244-247 | the field comparison in equals is reflexive, symmetric and transitive |
| `Pizzas.Pizza.Unset` | Pizza.java:14-17 | the object before any setter has run |
| `Pizzas.Pizza.SetSize` | Pizza.java:64-75 | stores the lower-cased size iff it is valid; otherwise fails with the check's error and leaves the field alone |
| `Pizzas.Pizza.SetCheese` | Pizza.java:82-92 | stores the lower-cased cheese iff it is valid; otherwise fails with the check's error and leaves the field alone |
| `Pizzas.Pizza.SetPepperoni` | Pizza.java:127-139 | stores the lower-cased pepperoni iff it is valid; otherwise fails with the check's error and leaves the field alone |
| `Pizzas.Pizza.SetMushrooms` | Pizza.java:99-120 | stores the lower-cased mushrooms iff the mushroom check passes; otherwise fails and leaves the field alone |
| `Pizzas.Pizza.Create` | Pizza.java:33-45 | the constructor yields a fresh valid pizza holding what `Build` computes iff the arguments are accepted, and `Build`'s error otherwise |
| `Pizzas.Pizza.Default` | Pizza.java:51-53 | `new Pizza()` never fails and yields the default pizza |
| `Pizzas.Pizza.Clone` | Pizza.java:261-270 | clone of a valid pizza is never null, is a fresh valid pizza with the same fields, and equals the original |
| `Pizzas.Pizza.Equals` | Pizza.java:239-254 | false for null or a non-Pizza; for two valid pizzas, true exactly when their four fields agree |
| `LineItems.NumberCheck` | LineItem.java:41-51 | setNumber accepts exactly 1..100, and its zero test never decides |
| `LineItems.LineCost` | LineItem.java:86-98 | for at least one pizza the cost never exceeds the list price, and is positive when the pizza costs something |
| `LineItems.DiscountThresholds` | LineItem.java:90-96 | 9 pizzas pay the list price, 10 and 20 pay 90% of it, 21 pay 85% of it |
| `LineItems.FifteenDefaultPizzas` | LineItem.java:86-98 | fifteen default pizzas cost $114.75 |
| `LineItems.ThresholdsReversePrice` | LineItem.java:90-96 | ten pizzas cost what nine do, and twenty-one cost less than twenty |
| `LineItems.LineCostBounds` | LineItem.java:86-98 | a valid line costs more than $0 and at most $1700 |
| `LineItems.Trunc` | LineItem.java:111 | the `(int)` cast truncates toward zero: the result is within one of the value, on the side of zero |
| `LineItems.Compare` | LineItem.java:104-114 | differences under a dollar either way give 0; the sign follows the difference; the result is the truncated difference |
| `LineItems.CompareAntisymmetric` | LineItem.java:104-114 | swapping the two line items negates the comparison |
| `LineItems.CompareExamples` | LineItem.java:100-103 | costs 50 cents apart compare as 0; $1.50 apart they compare as 1 or -1 |
| `LineItems.LineText` | LineItem.java:120-128 | for every quantity: a leading space exactly below 10, then the quantity as decimal digits with no leading zero that read back as it, then a space and the pizza text; below 100 the pizza text starts at column 3 |
| `LineItems.OneDefaultPizzaText` | LineItem.java:120-128 | one default pizza renders as " 1 small pizza, single cheese, no mushrooms, single pepperoni. Cost: $8.50 each." |
| `LineItems.LineItem.Unset` | LineItem.java:13-14 | the object before any setter has run |
| `LineItems.LineItem.SetNumber` | LineItem.java:41-51 | out of range: fails and keeps the quantity; in range: stores it; the pizza never changes; validity is preserved |
| `LineItems.LineItem.SetPizza` | LineItem.java:58-65 | refuses null and otherwise stores the reference |
| `LineItems.LineItem.Create` | LineItem.java:22-25 | succeeds iff 1 <= n <= 100 and the pizza is non-null, checking the quantity first, and stores both |
| `LineItems.LineItem.CreateSingle` | LineItem.java:31-34 | with a non-null pizza yields quantity 1; null is refused |
| `LineItems.LineItem.GetCost` | LineItem.java:86-98 | a valid line's cost is positive, at most $1700, and at most its list price |
| `LineItems.LineItem.CompareTo` | LineItem.java:104-114 | positive only when the other line costs more, negative only when it costs less, and within int range |
| `LineItems.LineItem.ToString` | LineItem.java:120-128 | the line is the padded quantity, which reads back as the stored quantity, then a space and the pizza's description; below 100 the description starts at column 3 |

## Left out

- IllegalPizza.java is not part of this model. It only carries a message. Failures are error values (`PizzaError`, `LineItemError`) that record which check refused, not the message text.
- Serialization (`Serializable`, `serialVersionUID`) is not modelled, as it is I/O with no logic.
- Floating point is not modelled. Pizza prices are exact integer cents and line costs exact reals. IEEE-754 rounding of `* 0.9` and `* 0.85`, and its effect on the truncation in `compareTo` near whole dollars, is not reproduced. `DecimalFormat`'s rounding mode never matters, because prices are multiples of 50 cents.
- `Text.FormatCents` always writes '.' as the decimal separator. Java's `DecimalFormat` takes its symbols from the default locale, so it can write "8,50". Locales are not modelled.
- Case folding is ASCII only. Unicode and locale rules of `equalsIgnoreCase` and `toLowerCase` are not modelled, for example a character that matches "s" ignoring case but does not lower-case to "s".
- `Pizzas.MushroomsCheck` gives a null pepperoni the same `PepperoniBlank` error as "". Java tests `pepperoni.equals("")` before `pepperoni == null` (Pizza.java:111), so it would throw NullPointerException instead. `Build` proves this guard unreachable, because setPepperoni runs first.
- `getNumber` and `getPizza` (LineItem.java:70-80) only return a field. The model reads the fields `numOrdered` and `aPizza` directly.
- `LineItems.LineItem.Create` and `CreateSingle` require a non-null pizza argument to be valid. In Java every Pizza object comes out of the validating constructor. In Dafny an `Unset` pizza exists, but it is never returned by `Pizza.Create`.
- `LineItems.Trunc` does not model the saturation of Java's `(int)` cast beyond the int range. `LineCostBounds` shows that line costs, and so their differences, stay far below it.
- No transitivity is claimed for `compareTo`. The rule that treats differences under a dollar as equal makes it a non-transitive ordering, so nothing here proves that sorting line items is correct.
- `toString` of a `LineItem` with a negative quantity is not modelled. `LineText` takes a natural number, and valid line items hold 1..100.
