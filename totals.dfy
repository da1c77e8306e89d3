/** main.js: the totals of a saved search response.  Each of the city,
    county and region facets is folded with `reduce((sum, item) => sum +
    item.count, 0)`, and the four printed numbers are those three totals
    and their sum.  JavaScript numbers are modelled as unbounded integers. */
module FacetTotals {
  import opened Api

  /** `buckets.reduce((sum, item) => sum + item.count, acc)`: the fold from
      the left, as `Array.prototype.reduce` runs it. */
  function Reduce(buckets: seq<Bucket>, acc: int): (r: int)
    ensures (forall i :: 0 <= i < |buckets| ==> buckets[i].count >= 0) ==> r >= acc
    decreases |buckets|
  {
    if buckets == [] then acc else Reduce(buckets[1..], acc + buckets[0].count)
  }

  /** The sum of the bucket counts, as a reference definition independent
      of the fold's accumulator. */
  function Sum(buckets: seq<Bucket>): int
  {
    if buckets == [] then 0 else Sum(buckets[..|buckets| - 1]) + buckets[|buckets| - 1].count
  }

  lemma {:induction false} SumConcat(a: seq<Bucket>, b: seq<Bucket>)
    ensures Sum(a + b) == Sum(a) + Sum(b)
    decreases |b|
  {
    if b == [] {
      assert a + b == a;
    } else {
      var ab := a + b;
      assert ab[..|ab| - 1] == a + b[..|b| - 1];
      SumConcat(a, b[..|b| - 1]);
    }
  }

  /** Folding from `acc` adds the sum of the counts to `acc`; in particular
      the fold from 0 is the sum, and the fold of an empty list is 0. */
  lemma {:induction false} ReduceIsSum(buckets: seq<Bucket>, acc: int)
    ensures Reduce(buckets, acc) == acc + Sum(buckets)
    decreases |buckets|
  {
    if buckets != [] {
      ReduceIsSum(buckets[1..], acc + buckets[0].count);
      SumConcat([buckets[0]], buckets[1..]);
      assert [buckets[0]] + buckets[1..] == buckets;
      assert Sum([buckets[0]]) == buckets[0].count by {
        assert [buckets[0]][..0] == [];
      }
    }
  }

  /** The total over two bucket lists joined is the sum of their totals. */
  lemma ReduceConcat(a: seq<Bucket>, b: seq<Bucket>)
    ensures Reduce(a + b, 0) == Reduce(a, 0) + Reduce(b, 0)
  {
    ReduceIsSum(a + b, 0);
    ReduceIsSum(a, 0);
    ReduceIsSum(b, 0);
    SumConcat(a, b);
  }

  /** Buckets whose counts are all non-negative have a non-negative total. */
  lemma {:induction false} ReduceNonNegative(buckets: seq<Bucket>)
    requires forall i :: 0 <= i < |buckets| ==> buckets[i].count >= 0
    ensures Reduce(buckets, 0) >= 0
  {
    ReduceIsSum(buckets, 0);
    SumNonNegative(buckets);
  }

  lemma {:induction false} SumNonNegative(buckets: seq<Bucket>)
    requires forall i :: 0 <= i < |buckets| ==> buckets[i].count >= 0
    ensures Sum(buckets) >= 0
    decreases |buckets|
  {
    if buckets != [] {
      SumNonNegative(buckets[..|buckets| - 1]);
    }
  }

  /** The four numbers `console.log` prints. */
  datatype Totals = Totals(city: int, county: int, region: int, grand: int)

  /** `result.facets[dimension]`, about to have `.reduce` read off it: when
      `facets` is absent, reading `dimension` of undefined throws; when the
      dimension is absent, reading `reduce` of undefined throws. */
  function FacetArray(result: Body, dimension: string): (r: Result<seq<Bucket>>)
    ensures Facet(result, dimension).Ok? ==> r == Facet(result, dimension)
    ensures result.facets.None? ==> r == Fail(ReadOfUndefined(dimension))
    ensures result.facets.Some? && dimension !in result.facets.value ==> r == Fail(ReadOfUndefined("reduce"))
  {
    match result.facets
    case None => Fail(ReadOfUndefined(dimension))
    case Some(facets) =>
      if dimension in facets then Ok(facets[dimension]) else Fail(ReadOfUndefined("reduce"))
  }

  /** The script's computation on the parsed `result.json`.  Reading
      `.reduce` of an absent facet throws; the facets are read city first,
      then county, then region.  Each total is the sum of that facet's
      counts, and the grand total is the sum of the three. */
  function Summarize(result: Body): (r: Result<Totals>)
    ensures r.Ok? <==> Facet(result, "city").Ok? && Facet(result, "county").Ok? && Facet(result, "region").Ok?
    ensures Facet(result, "city").Fail? ==> r == Fail(FacetArray(result, "city").failure)
    ensures Facet(result, "city").Ok? && Facet(result, "county").Fail? ==> r == Fail(FacetArray(result, "county").failure)
    ensures Facet(result, "city").Ok? && Facet(result, "county").Ok? && Facet(result, "region").Fail? ==>
      r == Fail(FacetArray(result, "region").failure)
    ensures r.Ok? ==>
      && r.value.city == Sum(Facet(result, "city").value)
      && r.value.county == Sum(Facet(result, "county").value)
      && r.value.region == Sum(Facet(result, "region").value)
      && r.value.grand == r.value.city + r.value.county + r.value.region
  {
    match FacetArray(result, "city")
    case Fail(e) => Fail(e)
    case Ok(city) =>
      match FacetArray(result, "county")
      case Fail(e) => Fail(e)
      case Ok(county) =>
        match FacetArray(result, "region")
        case Fail(e) => Fail(e)
        case Ok(region) =>
          ReduceIsSum(city, 0);
          ReduceIsSum(county, 0);
          ReduceIsSum(region, 0);
          var cityTotalCount := Reduce(city, 0);
          var countyTotalCount := Reduce(county, 0);
          var regionTotalCount := Reduce(region, 0);
          Ok(Totals(cityTotalCount, countyTotalCount, regionTotalCount,
                    cityTotalCount + countyTotalCount + regionTotalCount))
  }
}
