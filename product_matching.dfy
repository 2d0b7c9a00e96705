/**
 * Which catalogue products the result page shows next to an estimate
 * (components/CalculatorResultDisplay.tsx): the products whose size is within
 * 2 kWp of the recommended size, in catalogue order; if there are none, the
 * first three products of the catalogue.
 */
module ProductMatching {
  import opened Wrappers
  import opened Rounding

  datatype ProviderRef = ProviderRef(name: string, slug: string)

  datatype ProductMatch = ProductMatch(
    id: string,
    name: string,
    slug: string,
    totalKwp: real,
    basePriceSek: real,
    pricePerKwpSek: real,
    warrantyYears: real,
    panelBrand: Option<string>,
    provider: Option<ProviderRef>)

  const MatchToleranceKwp: real := 2.0

  /** How many catalogue products are shown when none matches. */
  const FallbackCount: nat := 3

  /** A product matches when its size is within 2 kWp of the recommendation. */
  predicate MatchesSize(p: ProductMatch, recommendedKwp: real)
    ensures MatchesSize(p, recommendedKwp) <==>
      recommendedKwp - MatchToleranceKwp <= p.totalKwp <= recommendedKwp + MatchToleranceKwp
  {
    Abs(p.totalKwp - recommendedKwp) <= MatchToleranceKwp
  }

  /** `sub` is `s` with some elements left out, the rest in their order. */
  ghost predicate IsSubsequence<T>(sub: seq<T>, s: seq<T>)
    decreases |s|
  {
    if sub == [] then true
    else if s == [] then false
    else (sub[0] == s[0] && IsSubsequence(sub[1..], s[1..])) || IsSubsequence(sub, s[1..])
  }

  /**
   * `products.filter(p => Math.abs(p.totalKwp - recommendedKwp) <= 2)`: every
   * matching product as often as the catalogue lists it, and nothing else.
   */
  function MatchingProducts(products: seq<ProductMatch>, recommendedKwp: real): (r: seq<ProductMatch>)
    ensures forall p :: multiset(r)[p] == if MatchesSize(p, recommendedKwp) then multiset(products)[p] else 0
    ensures forall i :: 0 <= i < |r| ==> MatchesSize(r[i], recommendedKwp)
    ensures |r| <= |products|
  {
    if products == [] then []
    else
      assert products == [products[0]] + products[1..];
      (if MatchesSize(products[0], recommendedKwp) then [products[0]] else [])
        + MatchingProducts(products[1..], recommendedKwp)
  }

  /** The matches keep the catalogue's order: they are a subsequence of it. */
  lemma {:induction false} MatchingIsSubsequence(products: seq<ProductMatch>, recommendedKwp: real)
    ensures IsSubsequence(MatchingProducts(products, recommendedKwp), products)
  {
    if products != [] {
      MatchingIsSubsequence(products[1..], recommendedKwp);
      var rest := MatchingProducts(products[1..], recommendedKwp);
      if MatchesSize(products[0], recommendedKwp) {
        assert MatchingProducts(products, recommendedKwp) == [products[0]] + rest;
        assert ([products[0]] + rest)[1..] == rest;
      } else {
        assert MatchingProducts(products, recommendedKwp) == rest;
      }
    }
  }

  /** Every product of the catalogue that matches is among the matches. */
  lemma MatchingIsComplete(products: seq<ProductMatch>, recommendedKwp: real, i: nat)
    requires i < |products| && MatchesSize(products[i], recommendedKwp)
    ensures products[i] in MatchingProducts(products, recommendedKwp)
  {
    assert products[i] in multiset(products);
  }

  /** There are matches exactly when some product of the catalogue matches. */
  lemma MatchesExistIff(products: seq<ProductMatch>, recommendedKwp: real)
    ensures MatchingProducts(products, recommendedKwp) != []
        <==> exists i :: 0 <= i < |products| && MatchesSize(products[i], recommendedKwp)
  {
    var r := MatchingProducts(products, recommendedKwp);
    if r != [] {
      assert r[0] in multiset(r);
      assert r[0] in multiset(products);
      var i :| 0 <= i < |products| && products[i] == r[0];
      assert MatchesSize(products[i], recommendedKwp);
    }
    if i :| 0 <= i < |products| && MatchesSize(products[i], recommendedKwp) {
      MatchingIsComplete(products, recommendedKwp, i);
    }
  }

  /** A prefix of a sequence is a subsequence of it. */
  lemma {:induction false} PrefixIsSubsequence<T>(s: seq<T>, n: nat)
    requires n <= |s|
    ensures IsSubsequence(s[..n], s)
  {
    if n > 0 {
      PrefixIsSubsequence(s[1..], n - 1);
      assert s[..n][0] == s[0];
      assert s[..n][1..] == s[1..][..n - 1];
    } else {
      assert s[..n] == [];
    }
  }

  /**
   * `matchingProducts.length > 0 ? matchingProducts : products.slice(0, 3)`:
   * the products shown beside the estimate.
   */
  function DisplayProducts(products: seq<ProductMatch>, recommendedKwp: real): (r: seq<ProductMatch>)
    ensures |r| <= |products|
    ensures (forall i :: 0 <= i < |r| ==> MatchesSize(r[i], recommendedKwp))
         || (r == products[..if |products| < FallbackCount then |products| else FallbackCount])
  {
    var matching := MatchingProducts(products, recommendedKwp);
    if |matching| > 0 then matching
    else products[..if |products| < FallbackCount then |products| else FallbackCount]
  }

  /** When something matches, exactly the matches are shown. */
  lemma DisplayShowsMatches(products: seq<ProductMatch>, recommendedKwp: real, i: nat)
    requires i < |products| && MatchesSize(products[i], recommendedKwp)
    ensures DisplayProducts(products, recommendedKwp) == MatchingProducts(products, recommendedKwp)
  {
    MatchesExistIff(products, recommendedKwp);
  }

  /** When nothing matches, the first min(3, |products|) catalogue products are shown. */
  lemma DisplayFallsBackToFirstThree(products: seq<ProductMatch>, recommendedKwp: real)
    requires forall i :: 0 <= i < |products| ==> !MatchesSize(products[i], recommendedKwp)
    ensures var n := if |products| < 3 then |products| else 3;
      DisplayProducts(products, recommendedKwp) == products[..n]
  {
    MatchesExistIff(products, recommendedKwp);
  }

  /** An empty catalogue shows nothing. */
  lemma EmptyCatalogShowsNothing(recommendedKwp: real)
    ensures DisplayProducts([], recommendedKwp) == []
  {
  }

  /** What is shown is always in catalogue order: a subsequence of the catalogue. */
  lemma DisplayIsSubsequence(products: seq<ProductMatch>, recommendedKwp: real)
    ensures IsSubsequence(DisplayProducts(products, recommendedKwp), products)
  {
    if MatchingProducts(products, recommendedKwp) != [] {
      MatchingIsSubsequence(products, recommendedKwp);
    } else {
      PrefixIsSubsequence(products, if |products| < 3 then |products| else 3);
    }
  }
}
