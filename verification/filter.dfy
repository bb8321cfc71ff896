/** The filter pipeline: six independent predicates over a listing and a query,
    combined with AND, and the order-preserving filter over a feed. `now` is the
    current time in seconds. */
module Filter {
  import opened Wrappers
  import opened Text
  import opened Models

  /** Inclusive price bounds; an unset bound does not constrain. */
  predicate MatchesPriceFilter(l: Listing, q: Query) {
    if q.minPrice.Some? && l.price < q.minPrice.value then false
    else if q.maxPrice.Some? && l.price > q.maxPrice.value then false
    else true
  }

  /** Every include term, lower-cased, occurs in the lower-cased title. */
  predicate MatchesIncludeTerms(l: Listing, q: Query) {
    if |q.includeTerms| == 0 then true
    else
      var titleLower := Lower(l.title);
      forall t <- q.includeTerms :: IsInfix(Lower(t), titleLower)
  }

  /** No exclude term, lower-cased, occurs in the lower-cased title (the title-based
      check the include filter uses). */
  predicate MatchesExcludeTerms(l: Listing, q: Query) {
    if |q.excludeTerms| == 0 then true
    else
      var titleLower := Lower(l.title);
      !exists t <- q.excludeTerms :: IsInfix(Lower(t), titleLower)
  }

  /** The exclude check as the source writes it: it lower-cases the listing object
      itself, which has no `lower`, so any non-empty exclude list raises. */
  function MatchesExcludeTermsAsWritten(l: Listing, q: Query): (r: Result<bool>)
    ensures r.Failure? <==> |q.excludeTerms| > 0
  {
    if |q.excludeTerms| == 0 then Success(true)
    else Failure("AttributeError: 'Listing' object has no attribute 'lower'")
  }

  /** Free shipping, when required, needs the free-shipping tag. */
  predicate MatchesFreeShipping(l: Listing, q: Query) {
    if !q.freeShipping then true
    else if |l.tags| == 0 then false
    else FreeShippingTag in l.tags
  }

  /** A listing published within the window passes; no window or no publish time passes. */
  predicate MatchesPublishTime(l: Listing, q: Query, now: int) {
    if q.newPublishHours.None? || q.newPublishHours.value <= 0 then true
    else if l.postTime.None? then true
    else l.postTime.value >= now - q.newPublishHours.value * 3600
  }

  /** The region, lower-cased, occurs in the lower-cased location; an empty region or
      location passes. */
  predicate MatchesRegion(l: Listing, q: Query) {
    if q.region.None? || q.region.value == "" || l.location == "" then true
    else IsInfix(Lower(q.region.value), Lower(l.location))
  }

  /** All six predicates. */
  predicate ApplyFilters(l: Listing, q: Query, now: int) {
    && MatchesPriceFilter(l, q)
    && MatchesIncludeTerms(l, q)
    && MatchesExcludeTerms(l, q)
    && MatchesFreeShipping(l, q)
    && MatchesPublishTime(l, q, now)
    && MatchesRegion(l, q)
  }

  /** The source's `and` chain with the exclude check as written: the price and include
      checks run first, and the exclude check only for listings that pass both. */
  function ApplyFiltersAsWritten(l: Listing, q: Query, now: int): (r: Result<bool>)
    ensures r.Failure? <==> MatchesPriceFilter(l, q) && MatchesIncludeTerms(l, q) && |q.excludeTerms| > 0
    ensures |q.excludeTerms| == 0 ==> r == Success(ApplyFilters(l, q, now))
  {
    if !MatchesPriceFilter(l, q) || !MatchesIncludeTerms(l, q) then Success(false)
    else
      var ex :- MatchesExcludeTermsAsWritten(l, q);
      Success(ex && MatchesFreeShipping(l, q) && MatchesPublishTime(l, q, now) && MatchesRegion(l, q))
  }

  /** `xs` is `ys` with some elements left out, order kept. */
  predicate IsSubsequence<T(==)>(xs: seq<T>, ys: seq<T>)
    decreases |ys|
  {
    if |xs| == 0 then true
    else if |ys| == 0 then false
    else if xs[0] == ys[0] then IsSubsequence(xs[1..], ys[1..])
    else IsSubsequence(xs, ys[1..])
  }

  /** Number of listings in `ls` that pass every filter. */
  function CountPassing(ls: seq<Listing>, q: Query, now: int): nat {
    if |ls| == 0 then 0
    else (if ApplyFilters(ls[0], q, now) then 1 else 0) + CountPassing(ls[1..], q, now)
  }

  /** The listings that pass every filter, in feed order. */
  function FilterListings(ls: seq<Listing>, q: Query, now: int): (r: seq<Listing>)
    ensures forall x :: x in r <==> x in ls && ApplyFilters(x, q, now)
    ensures IsSubsequence(r, ls)
    ensures |r| == CountPassing(ls, q, now)
  {
    if |ls| == 0 then []
    else
      var rest := FilterListings(ls[1..], q, now);
      assert forall x :: x in ls <==> x == ls[0] || x in ls[1..];
      if ApplyFilters(ls[0], q, now) then
        assert ([ls[0]] + rest)[1..] == rest;
        [ls[0]] + rest
      else
        rest
  }

  /** The filter as the source runs it: the first listing whose exclude check is reached
      raises, and the whole call raises with it. */
  function FilterListingsAsWritten(ls: seq<Listing>, q: Query, now: int): (r: Result<seq<Listing>>)
    ensures r.Failure? <==> |q.excludeTerms| > 0 && exists x <- ls :: MatchesPriceFilter(x, q) && MatchesIncludeTerms(x, q)
    ensures r.Success? ==> r.value == FilterListings(ls, q, now)
  {
    if |ls| == 0 then Success([])
    else
      assert forall x :: x in ls <==> x == ls[0] || x in ls[1..];
      var keep :- ApplyFiltersAsWritten(ls[0], q, now);
      var rest :- FilterListingsAsWritten(ls[1..], q, now);
      Success(if keep then [ls[0]] + rest else rest)
  }

  // ---------------------------------------------------------------------------
  // Properties
  // ---------------------------------------------------------------------------

  /** Both price bounds are inclusive and an unset bound admits every price. */
  lemma PriceBoundsInclusive(l: Listing, q: Query)
    ensures MatchesPriceFilter(l, q) <==>
      (q.minPrice.None? || q.minPrice.value <= l.price) && (q.maxPrice.None? || l.price <= q.maxPrice.value)
  {
  }

  /** A listing passes exactly when its price lies within the set bounds, every include
      term and no exclude term occurs in its title (ignoring case), it carries the
      free-shipping tag if that is required, it was published within the window if there
      is one and its publish time is known, and its location contains the region if both
      are given. */
  lemma FiltersMeaning(l: Listing, q: Query, now: int)
    ensures ApplyFilters(l, q, now) <==>
      && (q.minPrice.None? || q.minPrice.value <= l.price)
      && (q.maxPrice.None? || l.price <= q.maxPrice.value)
      && (forall t <- q.includeTerms :: IsInfix(Lower(t), Lower(l.title)))
      && (forall t <- q.excludeTerms :: !IsInfix(Lower(t), Lower(l.title)))
      && (q.freeShipping ==> FreeShippingTag in l.tags)
      && (q.newPublishHours.Some? && q.newPublishHours.value > 0 && l.postTime.Some? ==>
            l.postTime.value >= now - q.newPublishHours.value * 3600)
      && (q.region.Some? && q.region.value != "" && l.location != "" ==>
            IsInfix(Lower(q.region.value), Lower(l.location)))
  {
  }

  /** Filtering is idempotent: filtering a filtered feed changes nothing. */
  lemma {:induction false} FilterIdempotent(ls: seq<Listing>, q: Query, now: int)
    ensures FilterListings(FilterListings(ls, q, now), q, now) == FilterListings(ls, q, now)
    decreases |ls|
  {
    if |ls| > 0 {
      FilterIdempotent(ls[1..], q, now);
      var rest := FilterListings(ls[1..], q, now);
      if ApplyFilters(ls[0], q, now) {
        assert ([ls[0]] + rest)[1..] == rest;
      }
    }
  }

  /** Filtering a feed made of pages is filtering each page and concatenating. */
  lemma {:induction false} FilterConcat(a: seq<Listing>, b: seq<Listing>, q: Query, now: int)
    ensures FilterListings(a + b, q, now) == FilterListings(a, q, now) + FilterListings(b, q, now)
    decreases |a|
  {
    if |a| > 0 {
      assert (a + b)[1..] == a[1..] + b;
      FilterConcat(a[1..], b, q, now);
    } else {
      assert a + b == b;
    }
  }

  /** Lower-casing is idempotent, so filters are insensitive to the case of their terms. */
  lemma LowerIdempotent(s: string)
    ensures Lower(Lower(s)) == Lower(s)
  {
  }

  /** Writing the include terms in lower case changes nothing. */
  lemma IncludeCaseInsensitive(l: Listing, q: Query)
    ensures MatchesIncludeTerms(l, q.(includeTerms := seq(|q.includeTerms|, i requires 0 <= i < |q.includeTerms| => Lower(q.includeTerms[i]))))
        == MatchesIncludeTerms(l, q)
  {
    var lowered := seq(|q.includeTerms|, i requires 0 <= i < |q.includeTerms| => Lower(q.includeTerms[i]));
    forall i | 0 <= i < |q.includeTerms|
      ensures Lower(lowered[i]) == Lower(q.includeTerms[i])
    {
      LowerIdempotent(q.includeTerms[i]);
    }
    if |q.includeTerms| > 0 {
      var titleLower := Lower(l.title);
      assert (forall t <- lowered :: IsInfix(Lower(t), titleLower))
        <==> (forall t <- q.includeTerms :: IsInfix(Lower(t), titleLower)) by {
        assert forall t <- lowered :: exists i :: 0 <= i < |q.includeTerms| && t == lowered[i];
        assert forall t <- q.includeTerms :: exists i :: 0 <= i < |q.includeTerms| && t == q.includeTerms[i];
      }
    }
  }

  /** An empty exclude term occurs in every title, so it rejects every listing. */
  lemma EmptyExcludeTermRejectsAll(l: Listing, q: Query, now: int)
    requires "" in q.excludeTerms
    ensures !MatchesExcludeTerms(l, q)
    ensures !ApplyFilters(l, q, now)
  {
    EmptyIsInfix(Lower(l.title));
    assert Lower("") == "";
  }

  /** As written, any listing that reaches the exclude check makes the filter raise;
      the intended check decides by the title instead. */
  lemma {:induction false} AsWrittenFilterRaises(ls: seq<Listing>, q: Query, now: int, i: nat)
    requires i < |ls| && |q.excludeTerms| > 0
    requires MatchesPriceFilter(ls[i], q) && MatchesIncludeTerms(ls[i], q)
    ensures FilterListingsAsWritten(ls, q, now).Failure?
    decreases i
  {
    if i > 0 {
      AsWrittenFilterRaises(ls[1..], q, now, i - 1);
    }
  }

  /** With no exclude terms the filter as written and the intended filter agree. */
  lemma {:induction false} AsWrittenAgreesWithoutExcludeTerms(ls: seq<Listing>, q: Query, now: int)
    requires |q.excludeTerms| == 0
    ensures FilterListingsAsWritten(ls, q, now) == Success(FilterListings(ls, q, now))
    decreases |ls|
  {
    if |ls| > 0 {
      AsWrittenAgreesWithoutExcludeTerms(ls[1..], q, now);
    }
  }

  // ---------------------------------------------------------------------------
  // The scenarios the source's tests check
  // ---------------------------------------------------------------------------

  /** Price 100 passes [50, 150] and fails a maximum of 80. */
  lemma PriceScenario(l: Listing, q: Query)
    requires l.price == 100.0
    ensures MatchesPriceFilter(l, q.(minPrice := Some(50.0), maxPrice := Some(150.0)))
    ensures !MatchesPriceFilter(l, q.(minPrice := Some(50.0), maxPrice := Some(80.0)))
  {
  }

  /** With free shipping required, a listing tagged "包邮" passes and an untagged one fails. */
  lemma FreeShippingScenario(l: Listing, q: Query)
    requires q.freeShipping
    ensures MatchesFreeShipping(l.(tags := [FreeShippingTag]), q)
    ensures !MatchesFreeShipping(l.(tags := []), q)
  {
  }

  /** Region "上海" matches location "上海浦东新区"; region "北京" does not. */
  lemma RegionScenario(l: Listing, q: Query)
    requires l.location == "上海浦东新区"
    ensures MatchesRegion(l, q.(region := Some("上海")))
    ensures !MatchesRegion(l, q.(region := Some("北京")))
  {
    assert Lower("上海") == "上海";
    assert Lower(l.location) == l.location;
    assert InfixAt("上海", l.location, 0);
    assert !IsInfix("北京", l.location) by {
      InfixHasFirstChar("北京", l.location);
    }
    assert Lower("北京") == "北京";
  }

  /** The publish window's edge is inclusive: exactly `hours` old passes, one second more fails. */
  lemma PublishWindowInclusive(l: Listing, q: Query, now: int)
    requires q.newPublishHours.Some? && q.newPublishHours.value > 0 && l.postTime.Some?
    ensures l.postTime.value == now - q.newPublishHours.value * 3600 ==> MatchesPublishTime(l, q, now)
    ensures l.postTime.value == now - q.newPublishHours.value * 3600 - 1 ==> !MatchesPublishTime(l, q, now)
  {
  }
}
