/**
 * The Builder pattern: a pizza whose fields are set one by one and whose
 * toppings are only ever appended to, and a fluent builder that mutates the
 * one pizza it holds and hands that same pizza out on `build`.
 */
module Builder {
  import opened Results

  /** How Java's string concatenation shows a possibly null string. */
  function Show(s: Option<string>): string {
    match s
    case None => "null"
    case Some(v) => v
  }

  /** The elements of a list separated by ", ", as `AbstractCollection.toString` writes them. */
  function Join(xs: seq<string>): string
    decreases |xs|
  {
    if xs == [] then ""
    else if |xs| == 1 then xs[0]
    else Join(xs[..|xs| - 1]) + ", " + xs[|xs| - 1]
  }

  /** `List.toString()`: the joined elements in square brackets. */
  function ListToString(xs: seq<string>): (r: string)
    ensures |r| >= 2 && r[0] == '[' && r[|r| - 1] == ']'
  {
    "[" + Join(xs) + "]"
  }

  /**
   * Appending an element extends the list's text in place: the closing bracket
   * gives way to a separator (unless the list was empty) and the new element.
   */
  lemma ListToStringAppend(xs: seq<string>, t: string)
    ensures ListToString(xs + [t])
         == ListToString(xs)[..|ListToString(xs)| - 1] + (if xs == [] then "" else ", ") + t + "]"
  {
    var r := ListToString(xs);
    assert r[..|r| - 1] == "[" + Join(xs);
    if xs != [] {
      assert (xs + [t])[..|xs + [t]| - 1] == xs;
    }
  }

  /** A pizza under construction. A field or argument of `None` is a null string. */
  class Pizza {
    var size: Option<string>
    var crustType: Option<string>
    var toppings: seq<string>
    var sauce: Option<string>

    /** A new pizza has no toppings, and size, crust and sauce are still null. */
    constructor ()
      ensures size == None && crustType == None && toppings == [] && sauce == None
    {
      size, crustType, toppings, sauce := None, None, [], None;
    }

    method SetSize(s: Option<string>)
      modifies this
      ensures size == s
      ensures crustType == old(crustType) && toppings == old(toppings) && sauce == old(sauce)
    {
      size := s;
    }

    method SetCrustType(c: Option<string>)
      modifies this
      ensures crustType == c
      ensures size == old(size) && toppings == old(toppings) && sauce == old(sauce)
    {
      crustType := c;
    }

    /** Appends the topping at the end; duplicates are kept. */
    method AddTopping(t: string)
      modifies this
      ensures toppings == old(toppings) + [t]
      ensures size == old(size) && crustType == old(crustType) && sauce == old(sauce)
    {
      toppings := toppings + [t];
    }

    method SetSauce(s: Option<string>)
      modifies this
      ensures sauce == s
      ensures size == old(size) && crustType == old(crustType) && toppings == old(toppings)
    {
      sauce := s;
    }

    /**
     * `toString()`: the four fields in declaration order, strings in single
     * quotes. The text opens with the size and closes with the sauce, and a
     * field that was never set shows as null.
     */
    function ToString(): (r: string)
      reads this
      ensures |r| > 14 + |Show(size)| + |Show(sauce)|
      ensures r[..13 + |Show(size)|] == "Pizza{size='" + Show(size) + "'"
      ensures r[|r| - 2 - |Show(sauce)|..] == Show(sauce) + "'}"
    {
      "Pizza{size='" + Show(size) + "'"
        + ", crustType='" + Show(crustType) + "'"
        + ", toppings=" + ListToString(toppings)
        + ", sauce='" + Show(sauce) + "'"
        + "}"
    }
  }

  /** A builder owns one pizza from its construction on and never replaces it. */
  class PizzaBuilder {
    const pizza: Pizza

    constructor ()
      ensures fresh(pizza)
      ensures pizza.size == None && pizza.crustType == None && pizza.toppings == [] && pizza.sauce == None
    {
      pizza := new Pizza();
    }

    method SetSize(s: Option<string>) returns (b: PizzaBuilder)
      modifies pizza
      ensures b == this
      ensures pizza.size == s
      ensures pizza.crustType == old(pizza.crustType) && pizza.toppings == old(pizza.toppings)
      ensures pizza.sauce == old(pizza.sauce)
    {
      pizza.SetSize(s);
      b := this;
    }

    method SetCrustType(c: Option<string>) returns (b: PizzaBuilder)
      modifies pizza
      ensures b == this
      ensures pizza.crustType == c
      ensures pizza.size == old(pizza.size) && pizza.toppings == old(pizza.toppings)
      ensures pizza.sauce == old(pizza.sauce)
    {
      pizza.SetCrustType(c);
      b := this;
    }

    method AddTopping(t: string) returns (b: PizzaBuilder)
      modifies pizza
      ensures b == this
      ensures pizza.toppings == old(pizza.toppings) + [t]
      ensures pizza.size == old(pizza.size) && pizza.crustType == old(pizza.crustType)
      ensures pizza.sauce == old(pizza.sauce)
    {
      pizza.AddTopping(t);
      b := this;
    }

    method SetSauce(s: Option<string>) returns (b: PizzaBuilder)
      modifies pizza
      ensures b == this
      ensures pizza.sauce == s
      ensures pizza.size == old(pizza.size) && pizza.crustType == old(pizza.crustType)
      ensures pizza.toppings == old(pizza.toppings)
    {
      pizza.SetSauce(s);
      b := this;
    }

    /** Hands out the held pizza itself, not a copy. */
    method Build() returns (p: Pizza)
      ensures p == pizza
    {
      p := pizza;
    }
  }

  /**
   * The first order of the demo script: the built pizza carries every field
   * set, and its toppings are the `addTopping` arguments in call order.
   */
  method CustomPizzaScenario() returns (size: Option<string>, crustType: Option<string>,
                                        toppings: seq<string>, sauce: Option<string>)
    ensures size == Some("large") && crustType == Some("thin") && sauce == Some("tomato")
    ensures toppings == ["cheese", "pepperoni", "mushrooms"]
  {
    var builder := new PizzaBuilder();
    builder := builder.SetSize(Some("large"));
    builder := builder.SetCrustType(Some("thin"));
    builder := builder.SetSauce(Some("tomato"));
    builder := builder.AddTopping("cheese");
    builder := builder.AddTopping("pepperoni");
    builder := builder.AddTopping("mushrooms");
    var pizza := builder.Build();
    size, crustType, toppings, sauce := pizza.size, pizza.crustType, pizza.toppings, pizza.sauce;
  }

  /**
   * `build` does not freeze anything: two builds return the same pizza, and a
   * topping added through the builder afterwards shows up on that pizza.
   */
  method AddAfterBuildScenario() returns (same: bool, toppings: seq<string>)
    ensures same
    ensures toppings == ["cheese", "olives"]
  {
    var builder := new PizzaBuilder();
    builder := builder.AddTopping("cheese");
    var first := builder.Build();
    builder := builder.AddTopping("olives");
    var second := builder.Build();
    same := first == second;
    toppings := first.toppings;
  }
}
