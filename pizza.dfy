/** A pizza: four attributes given as words, checked case-insensitively when
    the pizza is built and stored in lower case, and the price they imply. */
module Pizzas {
  import opened Wrappers
  import opened Text

  /** The four attributes of a pizza. */
  datatype Field = Size | Cheese | Mushrooms | Pepperoni

  /** Why the constructor refused its arguments (it throws IllegalPizza). */
  datatype PizzaError =
    | AllNull                    // all four arguments were null
    | Blank(field: Field)        // this argument was null or ""
    | NotAllowed(field: Field)   // this argument is none of its three words
    | PepperoniBlank             // the mushroom check found pepperoni null or ""
    | MushroomsWithoutPepperoni  // pepperoni is "none" but mushrooms is not

  /** The four stored fields of a pizza, in the order the constructor
      takes them. */
  datatype Config = Config(size: string, cheese: string, mushrooms: string, pepperoni: string)

  const SizeWords: set<string> := {"small", "medium", "large"}
  const CheeseWords: set<string> := {"single", "double", "triple"}
  const ToppingWords: set<string> := {"none", "single", "double"}

  /** What every constructed pizza satisfies: each field is one of its
      lower-case words, and there are no mushrooms without pepperoni. */
  predicate ValidConfig(c: Config) {
    && c.size in SizeWords
    && c.cheese in CheeseWords
    && c.mushrooms in ToppingWords
    && c.pepperoni in ToppingWords
    && (c.pepperoni == "none" ==> c.mushrooms == "none")
  }

  /** The pizza `new Pizza()` builds. */
  const DefaultConfig := Config("small", "single", "none", "single")

  /** The check every setter starts with: the argument must be non-null,
      non-empty and equal, ignoring case, to one of three words; the value
      stored is its lower-case form. */
  function CheckWord(arg: Option<string>, field: Field, w1: string, w2: string, w3: string): (r: Result<string, PizzaError>)
    requires IsLower(w1) && IsLower(w2) && IsLower(w3)
    ensures r.Ok? <==> arg.Some? && arg.value != "" && Lower(arg.value) in {w1, w2, w3}
    ensures r.Ok? ==> r.value == Lower(arg.value)
    ensures arg.None? || arg == Some("") ==> r == Err(Blank(field))
    ensures r.Err? ==> r.error == Blank(field) || r.error == NotAllowed(field)
    ensures arg.Some? && arg.value != "" && r.Err? ==> r.error == NotAllowed(field)
  {
    if arg.None? || arg.value == "" then Err(Blank(field))
    else
      EqualsIgnoreCaseWord(arg.value, w1);
      EqualsIgnoreCaseWord(arg.value, w2);
      EqualsIgnoreCaseWord(arg.value, w3);
      if !EqualsIgnoreCase(arg.value, w1) && !EqualsIgnoreCase(arg.value, w2) && !EqualsIgnoreCase(arg.value, w3)
      then Err(NotAllowed(field))
      else Ok(Lower(arg.value))
  }

  /** setSize's check. */
  function SizeCheck(size: Option<string>): (r: Result<string, PizzaError>)
    ensures r.Ok? <==> size.Some? && Lower(size.value) in SizeWords
    ensures r.Ok? ==> r.value == Lower(size.value) && r.value in SizeWords
    ensures r.Err? ==> r.error == Blank(Size) || r.error == NotAllowed(Size)
  {
    CheckWord(size, Size, "small", "medium", "large")
  }

  /** setCheese's check. */
  function CheeseCheck(cheese: Option<string>): (r: Result<string, PizzaError>)
    ensures r.Ok? <==> cheese.Some? && Lower(cheese.value) in CheeseWords
    ensures r.Ok? ==> r.value == Lower(cheese.value) && r.value in CheeseWords
    ensures r.Err? ==> r.error == Blank(Cheese) || r.error == NotAllowed(Cheese)
  {
    CheckWord(cheese, Cheese, "single", "double", "triple")
  }

  /** setPepperoni's check. */
  function PepperoniCheck(pepperoni: Option<string>): (r: Result<string, PizzaError>)
    ensures r.Ok? <==> pepperoni.Some? && Lower(pepperoni.value) in ToppingWords
    ensures r.Ok? ==> r.value == Lower(pepperoni.value) && r.value in ToppingWords
    ensures r.Err? ==> r.error == Blank(Pepperoni) || r.error == NotAllowed(Pepperoni)
  {
    CheckWord(pepperoni, Pepperoni, "single", "double", "none")
  }

  /** setMushrooms's check: the word check, then a guard that pepperoni is
      neither null nor "", then the rule that "none" pepperoni (in any case)
      allows only "none" mushrooms. */
  function MushroomsCheck(mushrooms: Option<string>, pepperoni: Option<string>): (r: Result<string, PizzaError>)
    ensures r.Ok? <==>
      && mushrooms.Some? && Lower(mushrooms.value) in ToppingWords
      && pepperoni.Some? && pepperoni.value != ""
      && !(Lower(pepperoni.value) == "none" && Lower(mushrooms.value) != "none")
    ensures r.Ok? ==> r.value == Lower(mushrooms.value) && r.value in ToppingWords
    ensures r.Err? ==> || r.error == Blank(Mushrooms) || r.error == NotAllowed(Mushrooms)
                       || r.error == PepperoniBlank || r.error == MushroomsWithoutPepperoni
  {
    var m :- CheckWord(mushrooms, Mushrooms, "single", "double", "none");
    if pepperoni.None? || pepperoni.value == "" then Err(PepperoniBlank)
    else
      EqualsIgnoreCaseWord(mushrooms.value, "none");
      EqualsIgnoreCaseWord(pepperoni.value, "none");
      if EqualsIgnoreCase(pepperoni.value, "none") && !EqualsIgnoreCase(mushrooms.value, "none")
      then Err(MushroomsWithoutPepperoni)
      else Ok(m)
  }

  /** The argument lists the four-argument constructor accepts, stated
      without regard to the order of its checks. */
  predicate Accepts(size: Option<string>, cheese: Option<string>, mushrooms: Option<string>, pepperoni: Option<string>) {
    && size.Some? && cheese.Some? && mushrooms.Some? && pepperoni.Some?
    && Lower(size.value) in SizeWords
    && Lower(cheese.value) in CheeseWords
    && Lower(mushrooms.value) in ToppingWords
    && Lower(pepperoni.value) in ToppingWords
    && !(Lower(pepperoni.value) == "none" && Lower(mushrooms.value) != "none")
  }

  /** What `new Pizza(size, cheese, mushrooms, pepperoni)` stores or why it
      throws: the all-null test, then the setters for size, cheese,
      pepperoni and mushrooms in that order, the first failure winning.
      It succeeds exactly on the accepted arguments, stores their lower-case
      forms, and the guard in the mushroom check never fires. */
  function Build(size: Option<string>, cheese: Option<string>, mushrooms: Option<string>, pepperoni: Option<string>): (r: Result<Config, PizzaError>)
    ensures r.Ok? <==> Accepts(size, cheese, mushrooms, pepperoni)
    ensures r.Ok? ==> r.value == Config(Lower(size.value), Lower(cheese.value), Lower(mushrooms.value), Lower(pepperoni.value))
    ensures r.Ok? ==> ValidConfig(r.value)
    ensures r != Err(PepperoniBlank)
    ensures r == Err(AllNull) <==> size.None? && cheese.None? && mushrooms.None? && pepperoni.None?
  {
    if size.None? && cheese.None? && mushrooms.None? && pepperoni.None? then Err(AllNull)
    else
      var s :- SizeCheck(size);
      var c :- CheeseCheck(cheese);
      var p :- PepperoniCheck(pepperoni);
      var m :- MushroomsCheck(mushrooms, pepperoni);
      Ok(Config(s, c, m, p))
  }

  /** sizeCost(): the base price by size plus the cheese surcharge, in
      cents; any size other than small or medium is priced as large. */
  function SizeCost(size: string, cheese: string): (cents: nat)
    ensures 700 <= cents <= 1400
    ensures cents == 700 + 200 * SizeRank(size) + 150 * CheeseRank(cheese)
  {
    (if size == "small" then 700 else if size == "medium" then 900 else 1100)
    + (if cheese == "double" then 150 else if cheese == "triple" then 300 else 0)
  }

  /** toppingCost(topping), in cents; any word other than single or double
      costs nothing. */
  function ToppingCost(topping: string): (cents: nat)
    ensures cents <= 300
    ensures cents == 150 * ToppingRank(topping)
  {
    if topping == "single" then 150 else if topping == "double" then 300 else 0
  }

  /** getCost(), in cents. Every pizza costs between $7.00 and $20.00, in
      steps of 50 cents, since unknown words price as large or as nothing. */
  function Cost(c: Config): (cents: nat)
    ensures 700 <= cents <= 2000 && cents % 50 == 0
  {
    var steps := 14 + 4 * SizeRank(c.size) + 3 * (CheeseRank(c.cheese) + ToppingRank(c.mushrooms) + ToppingRank(c.pepperoni));
    assert SizeCost(c.size, c.cheese) + ToppingCost(c.mushrooms) + ToppingCost(c.pepperoni) == 50 * steps;
    SizeCost(c.size, c.cheese) + ToppingCost(c.mushrooms) + ToppingCost(c.pepperoni)
  }

  /** The position of a word in its scale: small < medium < large,
      single < double < triple, none < single < double. A word outside the
      scale takes the position the price table gives it: large for a size,
      the bottom for cheese and toppings. */
  function SizeRank(size: string): nat {
    if size == "small" then 0 else if size == "medium" then 1 else 2
  }

  function CheeseRank(cheese: string): nat {
    if cheese == "double" then 1 else if cheese == "triple" then 2 else 0
  }

  function ToppingRank(topping: string): nat {
    if topping == "single" then 1 else if topping == "double" then 2 else 0
  }

  /** The price table in one formula: $7.00, plus $2.00 per step of size,
      plus $1.50 per step of cheese, mushrooms or pepperoni. */
  lemma CostFormula(c: Config)
    ensures Cost(c) == 700 + 200 * SizeRank(c.size)
                       + 150 * (CheeseRank(c.cheese) + ToppingRank(c.mushrooms) + ToppingRank(c.pepperoni))
  {
  }

  /** toNone(topping): "none" is shown as "no"; on the topping words the
      rendering loses nothing. */
  function ToNone(topping: string): (r: string)
    ensures topping in ToppingWords ==> r in {"no", "single", "double"}
    ensures topping in ToppingWords ==> (r == "no" <==> topping == "none")
  {
    if topping == "none" then "no" else topping
  }

  /** toString(): the one-line description of a pizza and its price. It
      opens with the size and closes with the price as DecimalFormat
      writes it. */
  function Describe(c: Config): (s: string)
    ensures |s| > |c.size| + 8 && s[..|c.size| + 8] == c.size + " pizza, "
    ensures var price := "$" + FormatCents(Cost(c)) + " each.";
            |s| > |price| && s[|s| - |price|..] == price
  {
    FieldsText(c) + " pepperoni" + PriceText(c)
  }

  /** The part of a description that names the four fields. */
  function FieldsText(c: Config): string {
    c.size + " pizza, " + c.cheese + " cheese, " + ToNone(c.mushrooms) + " mushrooms, " + ToNone(c.pepperoni)
  }

  /** The part of a description that gives the price. */
  function PriceText(c: Config): string {
    ". Cost: $" + FormatCents(Cost(c)) + " each."
  }

  /** Equal descriptions agree at every position of both field texts. */
  lemma SameLetter(a: Config, b: Config, i: nat)
    requires Describe(a) == Describe(b)
    requires i < |FieldsText(a)| && i < |FieldsText(b)|
    ensures FieldsText(a)[i] == FieldsText(b)[i]
  {
    assert Describe(a)[i] == FieldsText(a)[i];
    assert Describe(b)[i] == FieldsText(b)[i];
  }

  /** Where the first letter of each field's word stands in a description. */
  lemma SizeAt(c: Config)
    requires c.size != []
    ensures |FieldsText(c)| > 0 && FieldsText(c)[0] == c.size[0]
  {
  }

  lemma CheeseAt(c: Config)
    requires c.cheese != []
    ensures |FieldsText(c)| > |c.size| + 8 && FieldsText(c)[|c.size| + 8] == c.cheese[0]
  {
  }

  lemma MushroomsAt(c: Config)
    requires ToNone(c.mushrooms) != []
    ensures |FieldsText(c)| > |c.size| + 8 + |c.cheese| + 9
    ensures FieldsText(c)[|c.size| + 8 + |c.cheese| + 9] == ToNone(c.mushrooms)[0]
  {
  }

  lemma PepperoniAt(c: Config)
    requires ToNone(c.pepperoni) != []
    ensures |FieldsText(c)| > |c.size| + 8 + |c.cheese| + 9 + |ToNone(c.mushrooms)| + 12
    ensures FieldsText(c)[|c.size| + 8 + |c.cheese| + 9 + |ToNone(c.mushrooms)| + 12] == ToNone(c.pepperoni)[0]
  {
  }

  /** Within each word set, the first letter (of the shown form, for
      toppings) tells the words apart. */
  lemma SizeInitial(x: string, y: string)
    requires x in SizeWords && y in SizeWords && x[0] == y[0]
    ensures x == y
  {
  }

  lemma CheeseInitial(x: string, y: string)
    requires x in CheeseWords && y in CheeseWords && x[0] == y[0]
    ensures x == y
  {
  }

  lemma ToppingInitial(x: string, y: string)
    requires x in ToppingWords && y in ToppingWords
    requires ToNone(x) != [] && ToNone(y) != [] && ToNone(x)[0] == ToNone(y)[0]
    ensures x == y
  {
  }

  /** Field by field, equal descriptions name the same words: the words
      already shown equal line up the next word's first letter, which
      decides that word. */
  lemma SameSize(a: Config, b: Config)
    requires a.size in SizeWords && b.size in SizeWords
    requires Describe(a) == Describe(b)
    ensures a.size == b.size
  {
    SizeAt(a);
    SizeAt(b);
    SameLetter(a, b, 0);
    SizeInitial(a.size, b.size);
  }

  lemma SameCheese(a: Config, b: Config)
    requires a.cheese in CheeseWords && b.cheese in CheeseWords
    requires Describe(a) == Describe(b) && a.size == b.size
    ensures a.cheese == b.cheese
  {
    CheeseAt(a);
    CheeseAt(b);
    SameLetter(a, b, |a.size| + 8);
    CheeseInitial(a.cheese, b.cheese);
  }

  lemma SameMushrooms(a: Config, b: Config)
    requires a.mushrooms in ToppingWords && b.mushrooms in ToppingWords
    requires Describe(a) == Describe(b) && a.size == b.size && a.cheese == b.cheese
    ensures a.mushrooms == b.mushrooms
  {
    MushroomsAt(a);
    MushroomsAt(b);
    SameLetter(a, b, |a.size| + 8 + |a.cheese| + 9);
    ToppingInitial(a.mushrooms, b.mushrooms);
  }

  lemma SamePepperoni(a: Config, b: Config)
    requires a.pepperoni in ToppingWords && b.pepperoni in ToppingWords
    requires Describe(a) == Describe(b) && a.size == b.size && a.cheese == b.cheese && a.mushrooms == b.mushrooms
    ensures a.pepperoni == b.pepperoni
  {
    PepperoniAt(a);
    PepperoniAt(b);
    SameLetter(a, b, |a.size| + 8 + |a.cheese| + 9 + |ToNone(a.mushrooms)| + 12);
    ToppingInitial(a.pepperoni, b.pepperoni);
  }

  /** toString loses nothing: two valid pizzas with the same description
      are the same pizza. */
  lemma {:induction false} DescribeInjective(a: Config, b: Config)
    requires ValidConfig(a) && ValidConfig(b)
    ensures Describe(a) == Describe(b) ==> a == b
  {
    if Describe(a) == Describe(b) {
      SameSize(a, b);
      SameCheese(a, b);
      SameMushrooms(a, b);
      SamePepperoni(a, b);
    }
  }

  /** equals' comparison of two pizzas' fields, each ignoring case: the
      lower-case forms of the four fields agree. */
  predicate SameFields(a: Config, b: Config): (r: bool)
    ensures r <==> && Lower(a.size) == Lower(b.size) && Lower(a.cheese) == Lower(b.cheese)
                   && Lower(a.mushrooms) == Lower(b.mushrooms) && Lower(a.pepperoni) == Lower(b.pepperoni)
  {
    && EqualsIgnoreCase(a.size, b.size)
    && EqualsIgnoreCase(a.cheese, b.cheese)
    && EqualsIgnoreCase(a.mushrooms, b.mushrooms)
    && EqualsIgnoreCase(a.pepperoni, b.pepperoni)
  }

  /** Every field of a valid pizza is free of upper-case letters. */
  predicate IsLowerConfig(c: Config) {
    IsLower(c.size) && IsLower(c.cheese) && IsLower(c.mushrooms) && IsLower(c.pepperoni)
  }

  lemma ValidIsLower(c: Config)
    ensures ValidConfig(c) ==> IsLowerConfig(c)
  {
    WordsAreLower();
  }

  /** Every word a setter accepts is already lower case. */
  lemma WordsAreLower()
    ensures forall w :: w in SizeWords + CheeseWords + ToppingWords ==> IsLower(w)
  {
    forall w | w in SizeWords + CheeseWords + ToppingWords
      ensures IsLower(w)
    {
      assert w in {"small", "medium", "large", "single", "double", "triple", "none"};
    }
  }

  /** Stored values are lower-case words, so re-running the constructor on
      them gives back the same pizza: this is why clone() never fails. */
  lemma {:induction false} RevalidateStored(c: Config)
    requires ValidConfig(c)
    ensures Build(Some(c.size), Some(c.cheese), Some(c.mushrooms), Some(c.pepperoni)) == Ok(c)
  {
    ValidIsLower(c);
    LowerOfLower(c.size);
    LowerOfLower(c.cheese);
    LowerOfLower(c.mushrooms);
    LowerOfLower(c.pepperoni);
    assert Accepts(Some(c.size), Some(c.cheese), Some(c.mushrooms), Some(c.pepperoni));
  }

  /** `new Pizza()`: small, single cheese, no mushrooms, single pepperoni,
      priced $8.50. */
  lemma DefaultPizza()
    ensures Build(Some("small"), Some("single"), Some("none"), Some("single")) == Ok(DefaultConfig)
    ensures ValidConfig(DefaultConfig) && Cost(DefaultConfig) == 850
  {
    RevalidateStored(DefaultConfig);
  }

  /** Pepperoni "none" with mushrooms "single" or "double" is refused, in
      any letter case; when the other arguments are fine it is this rule
      that refuses them. */
  lemma MushroomsNeedPepperoni(size: Option<string>, cheese: Option<string>, mushrooms: Option<string>, pepperoni: Option<string>)
    requires pepperoni.Some? && Lower(pepperoni.value) == "none"
    requires mushrooms.Some? && Lower(mushrooms.value) in {"single", "double"}
    ensures Build(size, cheese, mushrooms, pepperoni).Err?
    ensures SizeCheck(size).Ok? && CheeseCheck(cheese).Ok? ==>
              Build(size, cheese, mushrooms, pepperoni) == Err(MushroomsWithoutPepperoni)
  {
  }

  /** Ignoring case when comparing stored fields changes nothing: on
      lower-case fields equals is plain equality of the four fields. */
  lemma SameFieldsIsEquality(a: Config, b: Config)
    ensures IsLowerConfig(a) && IsLowerConfig(b) ==> (SameFields(a, b) <==> a == b)
  {
  }

  /** equals' field comparison is reflexive, symmetric and transitive. */
  lemma SameFieldsEquivalence(a: Config, b: Config, c: Config)
    ensures SameFields(a, a)
    ensures SameFields(a, b) ==> SameFields(b, a)
    ensures SameFields(a, b) && SameFields(b, c) ==> SameFields(a, c)
  {
  }

  /** $8.50 as toString prints it. */
  lemma EightFiftyText()
    ensures FormatCents(850) == "8.50"
  {
  }

  /** The default pizza's price, as toString prints it. */
  lemma DefaultPriceText()
    ensures FormatCents(Cost(DefaultConfig)) == "8.50"
  {
    assert Cost(DefaultConfig) == 850;
    EightFiftyText();
  }

  /** The field part of the default pizza's description: "none" mushrooms
      read "no". */
  lemma DefaultFieldsText()
    ensures FieldsText(DefaultConfig) == "small pizza, single cheese, no mushrooms, single"
  {
    assert ToNone("none") == "no";
    // the concatenation, one piece at a time
    assert "small" + " pizza, " == "small pizza, ";
    assert "small pizza, " + "single" == "small pizza, single";
    assert "small pizza, single" + " cheese, " == "small pizza, single cheese, ";
    assert "small pizza, single cheese, " + "no" == "small pizza, single cheese, no";
    assert "small pizza, single cheese, no" + " mushrooms, " == "small pizza, single cheese, no mushrooms, ";
    assert "small pizza, single cheese, no mushrooms, " + "single" == "small pizza, single cheese, no mushrooms, single";
  }

  /** The price part of the default pizza's description. */
  lemma DefaultPriceLine()
    ensures PriceText(DefaultConfig) == ". Cost: $8.50 each."
  {
    DefaultPriceText();
    assert ". Cost: $" + "8.50" == ". Cost: $8.50";
    assert ". Cost: $8.50" + " each." == ". Cost: $8.50 each.";
  }

  /** The description of the default pizza. */
  lemma DescribeDefault()
    ensures Describe(DefaultConfig) == "small pizza, single cheese, no mushrooms, single pepperoni. Cost: $8.50 each."
  {
    DefaultFieldsText();
    DefaultPriceLine();
    assert "small pizza, single cheese, no mushrooms, single" + " pepperoni"
        == "small pizza, single cheese, no mushrooms, single pepperoni";
    assert "small pizza, single cheese, no mushrooms, single pepperoni" + ". Cost: $8.50 each."
        == "small pizza, single cheese, no mushrooms, single pepperoni. Cost: $8.50 each.";
  }

  /** A pizza is a class whose four-argument constructor runs one setter per
      field. Each setter either stores the lower-case form of its argument
      or throws, so no partly built pizza is ever seen. */
  class Pizza {
    var sizeOfPizza: string
    var amountOfCheese: string
    var amountOfMushrooms: string
    var amountOfPepperoni: string

    /** The stored fields as a value. */
    function Value(): Config
      reads this
    {
      Config(sizeOfPizza, amountOfCheese, amountOfMushrooms, amountOfPepperoni)
    }

    ghost predicate Valid()
      reads this
    {
      ValidConfig(Value())
    }

    /** The object before any setter has run (Java's fields are null
        there); it does not leave Create. */
    constructor Unset()
      ensures Value() == Config("", "", "", "")
    {
      sizeOfPizza, amountOfCheese, amountOfMushrooms, amountOfPepperoni := "", "", "", "";
    }

    /** setSize */
    method SetSize(size: Option<string>) returns (o: Outcome<PizzaError>)
      modifies this`sizeOfPizza
      ensures o.Pass? <==> size.Some? && Lower(size.value) in SizeWords
      ensures o.Pass? ==> sizeOfPizza == Lower(size.value)
      ensures o.Fail? ==> o.error == SizeCheck(size).error && sizeOfPizza == old(sizeOfPizza)
    {
      var checked := SizeCheck(size);
      if checked.Err? {
        return Fail(checked.error);
      }
      sizeOfPizza := checked.value;
      return Pass;
    }

    /** setCheese */
    method SetCheese(cheese: Option<string>) returns (o: Outcome<PizzaError>)
      modifies this`amountOfCheese
      ensures o.Pass? <==> cheese.Some? && Lower(cheese.value) in CheeseWords
      ensures o.Pass? ==> amountOfCheese == Lower(cheese.value)
      ensures o.Fail? ==> o.error == CheeseCheck(cheese).error && amountOfCheese == old(amountOfCheese)
    {
      var checked := CheeseCheck(cheese);
      if checked.Err? {
        return Fail(checked.error);
      }
      amountOfCheese := checked.value;
      return Pass;
    }

    /** setPepperoni */
    method SetPepperoni(pepperoni: Option<string>) returns (o: Outcome<PizzaError>)
      modifies this`amountOfPepperoni
      ensures o.Pass? <==> pepperoni.Some? && Lower(pepperoni.value) in ToppingWords
      ensures o.Pass? ==> amountOfPepperoni == Lower(pepperoni.value)
      ensures o.Fail? ==> o.error == PepperoniCheck(pepperoni).error && amountOfPepperoni == old(amountOfPepperoni)
    {
      var checked := PepperoniCheck(pepperoni);
      if checked.Err? {
        return Fail(checked.error);
      }
      amountOfPepperoni := checked.value;
      return Pass;
    }

    /** setMushrooms, which also looks at the pepperoni argument. */
    method SetMushrooms(mushrooms: Option<string>, pepperoni: Option<string>) returns (o: Outcome<PizzaError>)
      modifies this`amountOfMushrooms
      ensures o.Pass? <==> MushroomsCheck(mushrooms, pepperoni).Ok?
      ensures o.Pass? ==> amountOfMushrooms == Lower(mushrooms.value)
      ensures o.Fail? ==> o.error == MushroomsCheck(mushrooms, pepperoni).error && amountOfMushrooms == old(amountOfMushrooms)
    {
      var checked := MushroomsCheck(mushrooms, pepperoni);
      if checked.Err? {
        return Fail(checked.error);
      }
      amountOfMushrooms := checked.value;
      return Pass;
    }

    /** `new Pizza(size, cheese, mushrooms, pepperoni)`: a fresh, valid
        pizza holding what Build computes, or Build's error. */
    static method Create(size: Option<string>, cheese: Option<string>, mushrooms: Option<string>, pepperoni: Option<string>)
      returns (r: Result<Pizza, PizzaError>)
      ensures r.Ok? <==> Accepts(size, cheese, mushrooms, pepperoni)
      ensures r.Err? ==> Build(size, cheese, mushrooms, pepperoni) == Err(r.error)
      ensures r.Ok? ==> fresh(r.value) && r.value.Valid()
      ensures r.Ok? ==> Build(size, cheese, mushrooms, pepperoni) == Ok(r.value.Value())
    {
      if size.None? && cheese.None? && mushrooms.None? && pepperoni.None? {
        return Err(AllNull);
      }
      var p := new Pizza.Unset();
      var o := p.SetSize(size);
      if o.Fail? {
        return Err(o.error);
      }
      o := p.SetCheese(cheese);
      if o.Fail? {
        return Err(o.error);
      }
      o := p.SetPepperoni(pepperoni);
      if o.Fail? {
        return Err(o.error);
      }
      o := p.SetMushrooms(mushrooms, pepperoni);
      if o.Fail? {
        return Err(o.error);
      }
      return Ok(p);
    }

    /** `new Pizza()`, which cannot fail. */
    static method Default() returns (p: Pizza)
      ensures fresh(p) && p.Valid() && p.Value() == DefaultConfig
    {
      DefaultPizza();
      var r := Create(Some("small"), Some("single"), Some("none"), Some("single"));
      p := r.value;
    }

    /** clone(): re-runs the constructor on the stored fields and answers
        null if it throws, which it never does for a valid pizza. */
    method Clone() returns (copy: Pizza?)
      requires Valid()
      ensures copy != null && fresh(copy) && copy.Valid()
      ensures copy.Value() == Value() && copy.Equals(this)
    {
      RevalidateStored(Value());
      var r := Create(Some(sizeOfPizza), Some(amountOfCheese), Some(amountOfMushrooms), Some(amountOfPepperoni));
      copy := if r.Ok? then r.value else null;
      ValidIsLower(Value());
      SameFieldsIsEquality(copy.Value(), Value());
    }

    /** equals(otherPizza): false for anything that is not a Pizza (null
        included); otherwise the four fields compared ignoring case, which
        for valid pizzas is equality of their values. */
    function Equals(other: object?): (r: bool)
      reads this, other
      ensures r ==> other is Pizza
      ensures r ==> SameFields(Value(), (other as Pizza).Value())
      ensures other is Pizza && Valid() && (other as Pizza).Valid() ==> (r <==> Value() == (other as Pizza).Value())
    {
      if other is Pizza then
        var that := other as Pizza;
        ValidIsLower(Value());
        ValidIsLower(that.Value());
        SameFieldsIsEquality(Value(), that.Value());
        SameFields(Value(), that.Value())
      else
        false
    }
  }
}
