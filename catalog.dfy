/** The product catalog panel: the search-and-team filter over the fetched
    products, and the list of teams offered as filter chips. */
module ProductCatalog {
  import opened Wrappers
  import opened Text
  import Seqs

  datatype Product = Product(id: string, name: string, team: string)

  /** The selected team starts as the `teamFilter` prop, or '' without one. */
  function InitialTeam(teamFilter: Option<string>): (r: string)
    ensures r == "" <==> !Truthy(teamFilter)
    ensures Truthy(teamFilter) ==> r == teamFilter.value
  {
    if Truthy(teamFilter) then teamFilter.value else ""
  }

  /** The name or the team contains the search, ignoring case. */
  predicate MatchesSearch(p: Product, search: string) {
    Contains(Lower(p.name), Lower(search)) || Contains(Lower(p.team), Lower(search))
  }

  /** No team selected, or the product's team contains it, ignoring case. */
  predicate MatchesTeam(p: Product, selectedTeam: string) {
    selectedTeam == "" || Contains(Lower(p.team), Lower(selectedTeam))
  }

  predicate Keep(p: Product, search: string, selectedTeam: string) {
    MatchesSearch(p, search) && MatchesTeam(p, selectedTeam)
  }

  /** `products.filter(...)`. */
  function FilteredProducts(products: seq<Product>, search: string, selectedTeam: string): seq<Product>
  {
    if products == [] then []
    else
      (if Keep(products[0], search, selectedTeam) then [products[0]] else [])
      + FilteredProducts(products[1..], search, selectedTeam)
  }

  /** The filter keeps the products in their order, dropping some. */
  lemma {:induction false} FilterIsSubsequence(products: seq<Product>, search: string, selectedTeam: string)
    ensures Seqs.IsSubsequence(FilteredProducts(products, search, selectedTeam), products)
  {
    if products != [] {
      var rest := FilteredProducts(products[1..], search, selectedTeam);
      FilterIsSubsequence(products[1..], search, selectedTeam);
      if !Keep(products[0], search, selectedTeam) {
        assert FilteredProducts(products, search, selectedTeam) == rest;
        Seqs.SubsequenceOfTail(rest, products);
      } else {
        assert FilteredProducts(products, search, selectedTeam) == [products[0]] + rest;
        assert ([products[0]] + rest)[1..] == rest;
      }
    }
  }

  /** A product is listed exactly when it is in the catalog and passes both
      tests. */
  lemma {:induction false} FilterKeepsExactly(products: seq<Product>, search: string, selectedTeam: string, p: Product)
    ensures p in FilteredProducts(products, search, selectedTeam) <==> p in products && Keep(p, search, selectedTeam)
  {
    if products != [] {
      FilterKeepsExactly(products[1..], search, selectedTeam, p);
      assert products == [products[0]] + products[1..];
    }
  }

  /** An empty search with no team selected lists the whole catalog. */
  lemma {:induction false} EmptyFilterKeepsAll(products: seq<Product>)
    ensures FilteredProducts(products, "", "") == products
  {
    if products != [] {
      ContainsEmpty(Lower(products[0].name));
      EmptyFilterKeepsAll(products[1..]);
    }
  }

  /** Filtering the filtered list changes nothing. */
  lemma {:induction false} FilterIdempotent(products: seq<Product>, search: string, selectedTeam: string)
    ensures var r := FilteredProducts(products, search, selectedTeam);
            FilteredProducts(r, search, selectedTeam) == r
  {
    if products != [] {
      var rest := FilteredProducts(products[1..], search, selectedTeam);
      FilterIdempotent(products[1..], search, selectedTeam);
      var r := FilteredProducts(products, search, selectedTeam);
      if Keep(products[0], search, selectedTeam) {
        assert r == [products[0]] + rest;
        assert r[0] == products[0] && r[1..] == rest;
        assert FilteredProducts(r, search, selectedTeam) == [r[0]] + FilteredProducts(r[1..], search, selectedTeam);
      } else {
        assert r == rest;
      }
    }
  }

  /** `[...new Set(xs)]`: each value once, in the order it first occurs. */
  function Distinct(xs: seq<string>): seq<string>
  {
    if xs == [] then []
    else
      var r := Distinct(xs[..|xs| - 1]);
      if xs[|xs| - 1] in r then r else r + [xs[|xs| - 1]]
  }

  function Teams(products: seq<Product>): seq<string>
  {
    Distinct(seq(|products|, k requires 0 <= k < |products| => products[k].team))
  }

  /** No team is listed twice, and the listed teams are exactly the catalog's. */
  lemma {:induction false} DistinctIsSet(xs: seq<string>)
    ensures Seqs.NoDuplicates(Distinct(xs))
    ensures forall x :: x in Distinct(xs) <==> x in xs
  {
    if xs != [] {
      var init := xs[..|xs| - 1];
      DistinctIsSet(init);
      assert xs == init + [xs[|xs| - 1]];
    }
  }

  /** Of two listed teams, the earlier one occurs in the catalog before the
      later one first does. */
  lemma {:induction false} DistinctFirstOccurrenceOrder(xs: seq<string>, i: nat, j: nat)
    requires i < j < |Distinct(xs)|
    ensures exists a :: 0 <= a < |xs| && xs[a] == Distinct(xs)[i]
              && forall b :: 0 <= b <= a ==> xs[b] != Distinct(xs)[j]
  {
    var init := xs[..|xs| - 1];
    var r := Distinct(init);
    DistinctIsSet(init);
    if j < |r| {
      DistinctFirstOccurrenceOrder(init, i, j);
      var a :| 0 <= a < |init| && init[a] == r[i] && forall b :: 0 <= b <= a ==> init[b] != r[j];
      assert xs[a] == init[a];
      assert forall b :: 0 <= b <= a ==> xs[b] == init[b];
    } else {
      assert r[i] in init;
      var a :| 0 <= a < |init| && init[a] == r[i];
      assert Distinct(xs)[j] == xs[|xs| - 1] && xs[|xs| - 1] !in init;
      assert forall b :: 0 <= b <= a ==> xs[b] == init[b];
    }
  }

  /** The chips list every team of the catalog once, and nothing else. */
  lemma TeamsAreTheCatalogsTeams(products: seq<Product>)
    ensures Seqs.NoDuplicates(Teams(products))
    ensures forall t :: t in Teams(products) <==> exists k :: 0 <= k < |products| && products[k].team == t
  {
    var teams := seq(|products|, k requires 0 <= k < |products| => products[k].team);
    assert Teams(products) == Distinct(teams);
    DistinctIsSet(teams);
    assert forall k :: 0 <= k < |products| ==> teams[k] == products[k].team;
    forall t | t in teams
      ensures exists k :: 0 <= k < |products| && products[k].team == t
    {
      var k :| 0 <= k < |teams| && teams[k] == t;
    }
  }
}
