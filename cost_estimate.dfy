/**
 * The recipe cost estimate: a left fold over the recipe's ingredients that
 * adds unit price times required quantity for every ingredient whose two
 * numbers can be read, and skips (adds nothing for) every other ingredient.
 * The unit price is first stripped of every character other than the digits
 * and '.'.
 */
module CostEstimate {
  import opened Wrappers
  import opened Entities
  import opened NumberParsing

  /** The characters the price sanitiser keeps. */
  predicate IsPriceChar(c: char) { IsDigit(c) || c == '.' }

  /** The price text with every character other than 0-9 and '.' removed. */
  function Sanitize(s: string): (r: string)
    ensures |r| <= |s|
    ensures forall i :: 0 <= i < |r| ==> IsPriceChar(r[i])
  {
    if s == [] then []
    else (if IsPriceChar(s[0]) then [s[0]] else []) + Sanitize(s[1..])
  }

  /** Sanitising a concatenation sanitises each part. */
  lemma {:induction false} SanitizeAppend(a: string, b: string)
    ensures Sanitize(a + b) == Sanitize(a) + Sanitize(b)
  {
    if a == [] {
      assert a + b == b;
    } else {
      assert (a + b)[0] == a[0];
      assert (a + b)[1..] == a[1..] + b;
      SanitizeAppend(a[1..], b);
    }
  }

  /**
   * Every kept character stays in its place among the others: the result is
   * what comes from before position i, then s[i] if it is a price character,
   * then what comes from after it.
   */
  lemma {:induction false} SanitizeSplitAt(s: string, i: nat)
    requires i < |s|
    ensures Sanitize(s) == Sanitize(s[..i]) + (if IsPriceChar(s[i]) then [s[i]] else []) + Sanitize(s[i + 1..])
  {
    var rest := s[i..];
    assert s == s[..i] + rest;
    SanitizeAppend(s[..i], rest);
    assert rest[0] == s[i];
    assert rest[1..] == s[i + 1..];
  }

  /** Each price character occurs in the result as often as in the input; no other character occurs. */
  lemma {:induction false} SanitizeCounts(s: string, c: char)
    ensures multiset(Sanitize(s))[c] == if IsPriceChar(c) then multiset(s)[c] else 0
  {
    if s != [] {
      SanitizeCounts(s[1..], c);
      assert s == [s[0]] + s[1..];
    }
  }

  /** Text made only of price characters is left as it is. */
  lemma {:induction false} SanitizeKeepsClean(s: string)
    requires forall i :: 0 <= i < |s| ==> IsPriceChar(s[i])
    ensures Sanitize(s) == s
  {
    if s != [] {
      SanitizeKeepsClean(s[1..]);
    }
  }

  /** Sanitising twice is sanitising once. */
  lemma {:induction false} SanitizeIdempotent(s: string)
    ensures Sanitize(Sanitize(s)) == Sanitize(s)
  {
    SanitizeKeepsClean(Sanitize(s));
  }

  /** The unit price as the estimate reads it: `parseFloat` of the sanitised text. */
  function ParsePrice(text: string): Option<real> {
    ParseFloat(Sanitize(text))
  }

  /** A sanitised price has no sign, so a price that can be read is never negative. */
  lemma {:induction false} ParsePriceNonNegative(text: string)
    ensures ParsePrice(text).Some? ==> ParsePrice(text).value >= 0.0
  {
    var t := Sanitize(text);
    if t != [] {
      assert IsPriceChar(t[0]);
      TrimStartKeepsNonSpace(t);
      assert SplitSign(t).0 == false;
      match ScanDecimalLiteral(t)
      case None =>
      case Some(l) =>
        var exponent: int := if l.expNegative then -(DigitsValue(l.expDigits) as int) else DigitsValue(l.expDigits);
        ScaleNonNegative(DigitsValue(l.intDigits + l.fracDigits) as real, exponent - |l.fracDigits|);
    }
  }

  /** A price cannot be read exactly when its sanitised text starts neither with a digit nor with '.' and a digit. */
  lemma {:induction false} ParsePriceFailsIff(text: string)
    ensures ParsePrice(text).None? <==> !StartsWithUnsignedNumber(Sanitize(text))
  {
    var t := Sanitize(text);
    ParseFloatFailsIff(t);
    if t != [] {
      assert IsPriceChar(t[0]);
      assert TrimStart(t) == t;
    }
  }

  /** What an ingredient adds given its two readings: their product when both are numbers, 0 otherwise. */
  function Share(price: Option<real>, quantity: Option<real>): real {
    match (price, quantity)
    case (Some(p), Some(q)) => p * q
    case _ => 0.0
  }

  /** What one ingredient adds to the running total. */
  function ItemCost(item: RecipeItemWithDetails): real {
    Share(ParsePrice(item.inventoryItem.unitPrice), ParseFloat(item.quantityRequired))
  }

  /** Both readings present give their product; a missing one gives 0 (kept apart from the parser so the product is cheap to reason about). */
  lemma {:induction false} ShareCases(price: Option<real>, quantity: Option<real>)
    ensures price.Some? && quantity.Some? ==> Share(price, quantity) == price.value * quantity.value
    ensures price.None? || quantity.None? ==> Share(price, quantity) == 0.0
  {
  }

  /** An ingredient adds price times quantity when both can be read, and exactly 0 otherwise. */
  lemma {:induction false} ItemCostCases(item: RecipeItemWithDetails)
    ensures var price, quantity := ParsePrice(item.inventoryItem.unitPrice), ParseFloat(item.quantityRequired);
      && (price.Some? && quantity.Some? ==> ItemCost(item) == price.value * quantity.value)
      && (price.None? || quantity.None? ==> ItemCost(item) == 0.0)
  {
    ShareCases(ParsePrice(item.inventoryItem.unitPrice), ParseFloat(item.quantityRequired));
  }

  /** An ingredient whose price and quantity read as numbers adds their product. */
  lemma {:induction false} ItemCostReadable(item: RecipeItemWithDetails, price: real, quantity: real)
    requires ParsePrice(item.inventoryItem.unitPrice) == Some(price)
    requires ParseFloat(item.quantityRequired) == Some(quantity)
    ensures ItemCost(item) == price * quantity
  {
    ShareBoth(ParsePrice(item.inventoryItem.unitPrice), ParseFloat(item.quantityRequired), price, quantity);
  }

  /** The same product, reached from readings that are known to be numbers. */
  lemma {:induction false} ShareBoth(p: Option<real>, q: Option<real>, a: real, b: real)
    requires p == Some(a) && q == Some(b)
    ensures Share(p, q) == a * b
  {}

  /**
   * A left fold that adds `f(x)` to the running total for each `x` in turn,
   * as `reduce((total, x) => total + f(x), start)` does. Stated for any `f` so
   * that its laws do not depend on how an ingredient's share is computed.
   */
  function SumFrom<T>(total: real, xs: seq<T>, f: T -> real): real
    decreases |xs|
  {
    if xs == [] then total else SumFrom(total + f(xs[0]), xs[1..], f)
  }

  /** The fold from any start is that start plus the fold from zero. */
  lemma {:induction false} SumFromShift<T>(total: real, xs: seq<T>, f: T -> real)
    ensures SumFrom(total, xs, f) == total + SumFrom(0.0, xs, f)
    decreases |xs|
  {
    if xs != [] {
      SumFromShift(total + f(xs[0]), xs[1..], f);
      SumFromShift(f(xs[0]), xs[1..], f);
    }
  }

  /** The fold over two lists joined is the sum of the folds. */
  lemma {:induction false} SumAppend<T>(xs: seq<T>, ys: seq<T>, f: T -> real)
    ensures SumFrom(0.0, xs + ys, f) == SumFrom(0.0, xs, f) + SumFrom(0.0, ys, f)
    decreases |xs|
  {
    if xs == [] {
      assert xs + ys == ys;
    } else {
      assert (xs + ys)[0] == xs[0];
      assert (xs + ys)[1..] == xs[1..] + ys;
      SumFromShift(f(xs[0]), xs[1..] + ys, f);
      SumFromShift(f(xs[0]), xs[1..], f);
      SumAppend(xs[1..], ys, f);
    }
  }

  /** Inserting one element anywhere adds exactly its share. */
  lemma {:induction false} SumInsert<T>(xs: seq<T>, x: T, ys: seq<T>, f: T -> real)
    ensures SumFrom(0.0, xs + [x] + ys, f) == SumFrom(0.0, xs + ys, f) + f(x)
  {
    SumAppend(xs + [x], ys, f);
    SumAppend(xs, [x], f);
    SumAppend(xs, ys, f);
    assert [x][1..] == [];
  }

  /** Taking the first element of one list and a matching element of another keeps equal multisets equal. */
  lemma RemoveMatching<T>(xs: seq<T>, ys: seq<T>, k: nat)
    requires multiset(xs) == multiset(ys)
    requires |xs| > 0 && k < |ys| && ys[k] == xs[0]
    ensures multiset(xs[1..]) == multiset(ys[..k] + ys[k + 1..])
  {
    assert xs == [xs[0]] + xs[1..];
    assert ys == ys[..k] + [ys[k]] + ys[k + 1..];
    calc {
      multiset(xs[1..]);
      multiset(xs) - multiset{xs[0]};
      multiset(ys) - multiset{xs[0]};
      multiset(ys[..k]) + multiset(ys[k + 1..]);
    }
  }

  /** The fold does not depend on the order of the list. */
  lemma {:induction false} SumPermutation<T>(xs: seq<T>, ys: seq<T>, f: T -> real)
    requires multiset(xs) == multiset(ys)
    ensures SumFrom(0.0, xs, f) == SumFrom(0.0, ys, f)
    decreases |xs|
  {
    if xs != [] {
      var x := xs[0];
      assert x in multiset(ys);
      var k :| 0 <= k < |ys| && ys[k] == x;
      RemoveMatching(xs, ys, k);
      SumPermutation(xs[1..], ys[..k] + ys[k + 1..], f);
      SumInsert(ys[..k], x, ys[k + 1..], f);
      SumInsert([], x, xs[1..], f);
      assert ys == ys[..k] + [x] + ys[k + 1..];
      assert xs == [] + [x] + xs[1..];
      assert [] + xs[1..] == xs[1..];
    }
  }

  /** The estimated cost of a recipe: the reduce of the item shares, started from 0. */
  function Cost(items: seq<RecipeItemWithDetails>): real {
    SumFrom(0.0, items, ItemCost)
  }

  /** No ingredients cost nothing; one ingredient costs what it adds. */
  lemma {:induction false} CostBase(item: RecipeItemWithDetails)
    ensures Cost([]) == 0.0
    ensures Cost([item]) == ItemCost(item)
  {
    var f: RecipeItemWithDetails -> real := ItemCost;
    assert [item][1..] == [];
    assert SumFrom(0.0, [item], f) == SumFrom(0.0 + f(item), [], f);
    assert f(item) == ItemCost(item);
  }

  /** The cost of two lists joined is the sum of their costs. */
  lemma {:induction false} CostAppend(xs: seq<RecipeItemWithDetails>, ys: seq<RecipeItemWithDetails>)
    ensures Cost(xs + ys) == Cost(xs) + Cost(ys)
  {
    SumAppend(xs, ys, ItemCost);
  }

  /** The cost does not depend on the order of the ingredients. */
  lemma {:induction false} CostPermutation(xs: seq<RecipeItemWithDetails>, ys: seq<RecipeItemWithDetails>)
    requires multiset(xs) == multiset(ys)
    ensures Cost(xs) == Cost(ys)
  {
    SumPermutation(xs, ys, ItemCost);
  }

  /** An ingredient whose price or quantity cannot be read leaves the estimate as if it were absent. */
  lemma {:induction false} CostSkipsUnreadable(xs: seq<RecipeItemWithDetails>, item: RecipeItemWithDetails, ys: seq<RecipeItemWithDetails>)
    requires ParsePrice(item.inventoryItem.unitPrice).None? || ParseFloat(item.quantityRequired).None?
    ensures Cost(xs + [item] + ys) == Cost(xs + ys)
  {
    SumInsert(xs, item, ys, ItemCost);
    ShareCases(ParsePrice(item.inventoryItem.unitPrice), ParseFloat(item.quantityRequired));
  }

  /** An ingredient whose price and quantity can be read adds their product. */
  lemma {:induction false} CostAddsReadable(xs: seq<RecipeItemWithDetails>, item: RecipeItemWithDetails, ys: seq<RecipeItemWithDetails>, price: real, quantity: real)
    requires ParsePrice(item.inventoryItem.unitPrice) == Some(price)
    requires ParseFloat(item.quantityRequired) == Some(quantity)
    ensures Cost(xs + [item] + ys) == Cost(xs + ys) + price * quantity
  {
    SumInsert(xs, item, ys, ItemCost);
    ItemCostReadable(item, price, quantity);
  }

  /** The dollar sign goes, the digits and the point stay. */
  lemma SanitizeDollarExample()
    ensures Sanitize("$12.50") == "12.50"
  {
    assert "$12.50"[1..] == "12.50";
    SanitizeKeepsClean("12.50");
  }

  /** Letters are all removed, leaving nothing to read. */
  lemma ParsePriceLettersExample()
    ensures ParsePrice("abc") == None
  {
    assert Sanitize("abc") == [] by {
      assert "abc"[1..] == "bc";
      assert "bc"[1..] == "c";
    }
    ParseFloatFailsIff([]);
  }

  /** A one-digit quantity reads as that digit. */
  lemma ParseQuantityExample()
    ensures ParseFloat("2") == Some(2.0)
  {
    assert DigitsValue("2") == 2 by {
      assert "2"[..0] == [];
    }
    ParseFloatOfDigits("2");
  }

  /** "$12.50" a unit, "2" units: 25. */
  lemma {:induction false} ReadableItemExample(item: RecipeItemWithDetails)
    requires item.inventoryItem.unitPrice == "$12.50" && item.quantityRequired == "2"
    ensures ItemCost(item) == 25.0
  {
    SanitizeDollarExample();
    ParseFloatDecimalExample();
    ParseQuantityExample();
    ItemCostReadable(item, 12.5, 2.0);
  }

  /** A price of "abc" cannot be read, so the ingredient adds nothing. */
  lemma {:induction false} UnreadableItemExample(item: RecipeItemWithDetails)
    requires item.inventoryItem.unitPrice == "abc"
    ensures ItemCost(item) == 0.0
  {
    ParsePriceLettersExample();
    ItemCostCases(item);
  }

  /**
   * Two ingredients, one at "$12.50" a unit needing "2" and one priced "abc"
   * needing "3": the first adds 25, the second adds nothing.
   */
  lemma {:induction false} CostExample(good: RecipeItemWithDetails, bad: RecipeItemWithDetails)
    requires good.inventoryItem.unitPrice == "$12.50" && good.quantityRequired == "2"
    requires bad.inventoryItem.unitPrice == "abc" && bad.quantityRequired == "3"
    ensures Cost([good, bad]) == 25.0
  {
    ReadableItemExample(good);
    UnreadableItemExample(bad);
    SumInsert([good], bad, [], ItemCost);
    CostBase(good);
    assert [good] + [bad] + [] == [good, bad];
    assert [good] + [] == [good];
  }
}
