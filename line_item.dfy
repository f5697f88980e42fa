/** A line of an order: a pizza and how many of it, with the volume
    discount, the price comparison used for sorting, and the line's text. */
module LineItems {
  import opened Wrappers
  import opened Text
  import opened Pizzas

  /** Why a line item was refused (Java throws IllegalPizza for each). */
  datatype LineItemError =
    | NumberOutOfRange(number: int)  // the quantity is above 100 or below 1
    | NumberZero                     // the separate test for a zero quantity
    | NullPizza                      // the pizza was null

  /** setNumber's checks, in the source's order. The test for zero comes
      after the range test has already refused zero, so it never decides. */
  function NumberCheck(num: int): (o: Outcome<LineItemError>)
    ensures o.Pass? <==> 1 <= num <= 100
    ensures o != Fail(NumberZero)
  {
    if num > 100 || num < 1 then Fail(NumberOutOfRange(num))
    else if num == 0 then Fail(NumberZero)
    else Pass
  }

  /** The undiscounted price of `n` pizzas of `unitCents` each, in dollars. */
  function ListPrice(unitCents: nat, n: int): real {
    unitCents as real / 100.0 * n as real
  }

  /** getCost(): the list price, less 15% above 20 pizzas and 10% from 10
      to 20 pizzas. A line of at least one pizza never costs more than its
      list price, and costs something when the pizza does. */
  function LineCost(unitCents: nat, n: int): (cost: real)
    ensures n >= 1 ==> cost <= ListPrice(unitCents, n)
    ensures n >= 1 && unitCents > 0 ==> cost > 0.0
  {
    var totalCost := ListPrice(unitCents, n);
    if n > 20 then totalCost * 0.85
    else if n >= 10 && n <= 20 then totalCost * 0.9
    else totalCost
  }

  /** The discount boundaries: 9 pizzas pay the list price, 10 and 20 pay
      90% of it, 21 pay 85% of it. */
  lemma DiscountThresholds(unitCents: nat)
    ensures LineCost(unitCents, 9) == ListPrice(unitCents, 9)
    ensures LineCost(unitCents, 10) == ListPrice(unitCents, 10) * 0.9
    ensures LineCost(unitCents, 20) == ListPrice(unitCents, 20) * 0.9
    ensures LineCost(unitCents, 21) == ListPrice(unitCents, 21) * 0.85
  {
  }

  /** Fifteen default pizzas cost 15 * $8.50 * 0.9 = $114.75. */
  lemma FifteenDefaultPizzas()
    ensures LineCost(Pizzas.Cost(DefaultConfig), 15) == 114.75
  {
  }

  /** The thresholds make a larger order no dearer: ten pizzas cost what
      nine do, and twenty-one cost less than twenty. */
  lemma ThresholdsReversePrice(unitCents: nat)
    requires unitCents > 0
    ensures LineCost(unitCents, 10) == LineCost(unitCents, 9)
    ensures LineCost(unitCents, 21) < LineCost(unitCents, 20)
  {
  }

  /** A valid line costs more than nothing and at most $1700 (a hundred
      pizzas at $20.00, less 15%), well inside what compareTo's int cast
      can hold. */
  lemma LineCostBounds(unitCents: nat, n: int)
    requires 700 <= unitCents <= 2000 && 1 <= n <= 100
    ensures 0.0 < LineCost(unitCents, n) <= 1700.0
  {
    var unit, count := unitCents as real / 100.0, n as real;
    assert 7.0 <= unit <= 20.0 && 1.0 <= count <= 100.0;
    ScaleMonotone(unit, 20.0, count);
    assert ListPrice(unitCents, n) == unit * count <= 20.0 * count;
  }

  lemma ScaleMonotone(a: real, b: real, c: real)
    requires 0.0 <= a <= b && 0.0 <= c
    ensures 0.0 <= a * c <= b * c
  {
  }

  /** Java's `(int)` cast of a double: truncation toward zero. */
  function Trunc(x: real): (r: int)
    ensures x >= 0.0 ==> 0 <= r && r as real <= x < r as real + 1.0
    ensures x < 0.0 ==> r <= 0 && r as real - 1.0 < x <= r as real
  {
    if x >= 0.0 then x.Floor else -((-x).Floor)
  }

  /** compareTo: the other line's cost minus this line's, set to 0 when it
      lies strictly between 0 and 1 and otherwise truncated toward zero.
      Differences under a dollar either way give 0, and the sign follows
      the difference. Truncation already gives 0 strictly between 0 and 1,
      so the special case changes nothing. */
  function Compare(thisCost: real, otherCost: real): (r: int)
    ensures -1.0 < otherCost - thisCost < 1.0 ==> r == 0
    ensures otherCost - thisCost >= 1.0 ==> r >= 1
    ensures otherCost - thisCost <= -1.0 ==> r <= -1
    ensures r == Trunc(otherCost - thisCost)
  {
    var difference := otherCost - thisCost;
    if difference < 1.0 && difference > 0.0 then 0 else Trunc(difference)
  }

  /** Swapping the two lines negates the comparison, so the "negligible
      under $1" rule applies in both directions. */
  lemma CompareAntisymmetric(x: real, y: real)
    ensures Compare(x, y) == -Compare(y, x)
  {
  }

  /** Costs 50 cents apart compare as equal; $1.50 apart they compare as 1. */
  lemma CompareExamples(x: real)
    ensures Compare(x, x + 0.5) == 0 && Compare(x + 0.5, x) == 0
    ensures Compare(x, x + 1.5) == 1 && Compare(x + 1.5, x) == -1
  {
  }

  /** `s` is the line toString gives `n` pizzas described by `text`: the
      quantity as Java writes it, padded by one space below 10, then a
      space and the description. */
  predicate IsLineOf(s: string, n: nat, text: string) {
    && |s| > 0 && (s[0] == ' ' <==> n < 10)
    && var pad, space := if n < 10 then 1 else 0, |s| - |text| - 1;
       && pad < space && s[space..] == " " + text && IsDecimalOf(s[pad..space], n)
  }

  /** toString(): the quantity, a space and the pizza's description, with
      one more leading space below 10 so that quantities of one and two
      digits line up: the description then always starts at column 3. */
  function LineText(n: nat, pizzaText: string): (s: string)
    ensures IsLineOf(s, n, pizzaText)
    ensures 1 <= n < 100 ==> |s| == |pizzaText| + 3 && s[2] == ' ' && s[3..] == pizzaText
    ensures n < 10 ==> |s| >= 2 && s[1] == Digit(n)
    ensures 10 <= n < 100 ==> ParseNat(s[..2]) == n
  {
    var line := Show(n) + " " + pizzaText;
    assert 10 <= n < 100 ==> line[..2] == Show(n);
    var s := if n < 10 then " " + line else line;
    var pad := if n < 10 then 1 else 0;
    assert s[pad..|s| - |pizzaText| - 1] == Show(n);
    assert s[|s| - |pizzaText| - 1..] == " " + pizzaText;
    s
  }

  /** The line for one default pizza. */
  lemma OneDefaultPizzaText()
    ensures LineText(1, Describe(DefaultConfig))
         == " 1 " + "small pizza, single cheese, no mushrooms, single pepperoni. Cost: $8.50 each."
  {
    var text := Describe(DefaultConfig);
    DescribeDefault();
    assert Show(1) == "1";
    assert LineText(1, text) == " 1 " + text;
  }

  /** A line item: a pizza and a quantity from 1 to 100. The quantity can
      be changed after construction through SetNumber. */
  class LineItem {
    var aPizza: Pizza?
    var numOrdered: int

    ghost predicate Valid()
      reads this, aPizza
    {
      aPizza != null && aPizza.Valid() && 1 <= numOrdered <= 100
    }

    /** The object before any setter has run, as Java's default field
        values leave it; it does not leave Create or CreateSingle. */
    constructor Unset()
      ensures aPizza == null && numOrdered == 0
    {
      aPizza, numOrdered := null, 0;
    }

    /** setNumber(num): refuses a quantity outside 1..100 and keeps the old
        one; otherwise stores it. The pizza never changes. */
    method SetNumber(num: int) returns (o: Outcome<LineItemError>)
      modifies this`numOrdered
      ensures o == NumberCheck(num)
      ensures o.Pass? <==> 1 <= num <= 100
      ensures o.Fail? ==> o.error == NumberOutOfRange(num)
      ensures numOrdered == if o.Pass? then num else old(numOrdered)
      ensures old(Valid()) ==> Valid()
    {
      o := NumberCheck(num);
      if o.Pass? {
        numOrdered := num;
      }
    }

    /** setPizza(pizza): refuses null, otherwise stores the reference. */
    method SetPizza(pizza: Pizza?) returns (o: Outcome<LineItemError>)
      modifies this`aPizza
      ensures o.Pass? <==> pizza != null
      ensures o.Fail? ==> o.error == NullPizza
      ensures aPizza == if pizza != null then pizza else old(aPizza)
    {
      if pizza == null {
        return Fail(NullPizza);
      }
      aPizza := pizza;
      return Pass;
    }

    /** `new LineItem(numOrdered, pizza)`: the quantity is checked before
        the pizza. */
    static method Create(num: int, pizza: Pizza?) returns (r: Result<LineItem, LineItemError>)
      requires pizza != null ==> pizza.Valid()
      ensures r.Ok? <==> 1 <= num <= 100 && pizza != null
      ensures r.Err? ==> r.error == if 1 <= num <= 100 then NullPizza else NumberOutOfRange(num)
      ensures r.Ok? ==> fresh(r.value) && r.value.Valid()
      ensures r.Ok? ==> r.value.numOrdered == num && r.value.aPizza == pizza
    {
      var item := new LineItem.Unset();
      var o := item.SetNumber(num);
      if o.Fail? {
        return Err(o.error);
      }
      o := item.SetPizza(pizza);
      if o.Fail? {
        return Err(o.error);
      }
      return Ok(item);
    }

    /** `new LineItem(pizza)`: one pizza. */
    static method CreateSingle(pizza: Pizza?) returns (r: Result<LineItem, LineItemError>)
      requires pizza != null ==> pizza.Valid()
      ensures r.Ok? <==> pizza != null
      ensures r.Err? ==> r.error == NullPizza
      ensures r.Ok? ==> fresh(r.value) && r.value.Valid()
      ensures r.Ok? ==> r.value.numOrdered == 1 && r.value.aPizza == pizza
    {
      var item := new LineItem.Unset();
      item.numOrdered := 1;
      var o := item.SetPizza(pizza);
      if o.Fail? {
        return Err(o.error);
      }
      return Ok(item);
    }

    /** getCost() */
    function GetCost(): (r: real)
      reads this, aPizza
      requires Valid()
      ensures 0.0 < r <= 1700.0
      ensures r <= ListPrice(Pizzas.Cost(aPizza.Value()), numOrdered)
    {
      LineCostBounds(Pizzas.Cost(aPizza.Value()), numOrdered);
      LineCost(Pizzas.Cost(aPizza.Value()), numOrdered)
    }

    /** compareTo(otherLine): positive only when the other line costs more,
        negative only when it costs less, and small enough for an int. */
    function CompareTo(other: LineItem): (r: int)
      reads this, aPizza, other, other.aPizza
      requires Valid() && other.Valid()
      ensures r > 0 ==> other.GetCost() > GetCost()
      ensures r < 0 ==> other.GetCost() < GetCost()
      ensures -1700 < r < 1700
    {
      Compare(GetCost(), other.GetCost())
    }

    /** toString(): the quantity as Java writes it, padded by one space
        below 10, then a space and the pizza's description, which starts
        at column 3 for every quantity below 100. */
    function ToString(): (s: string)
      reads this, aPizza
      requires Valid()
      ensures IsLineOf(s, numOrdered, Describe(aPizza.Value()))
      ensures numOrdered < 100 ==> |s| >= 3 && s[3..] == Describe(aPizza.Value())
    {
      var text := Describe(aPizza.Value());
      LineText(numOrdered, text)
    }
  }
}
