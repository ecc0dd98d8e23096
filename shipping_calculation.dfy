/**
 * Tiered shipping of src/hooks/useShippingCalculation.ts: the first applicable rate of the
 * country's rates (ordered by ascending `min_items`) and the cost computed from it, in cents.
 */
module ShippingCalculation {
  import opened Wrappers

  /** A `shipping_rates` row; `None` for a null column. */
  datatype Rate = Rate(
    minItems: int,
    maxItems: Option<int>,
    baseRate: int,
    additionalPerItem: Option<int>)

  /** The `find` predicate: `totalItems >= min_items` and (`max_items === null` or `totalItems <= max_items`). */
  predicate Applies(r: Rate, n: int) {
    n >= r.minItems && (r.maxItems.None? || n <= r.maxItems.value)
  }

  /** `rates.find(...)`: the first applicable rate in list order. */
  function FindRate(rates: seq<Rate>, n: int): (r: Option<Rate>)
    ensures r.None? <==> forall i :: 0 <= i < |rates| ==> !Applies(rates[i], n)
    ensures r.Some? ==> r.value in rates && Applies(r.value, n)
  {
    if rates == [] then None
    else if Applies(rates[0], n) then Some(rates[0])
    else FindRate(rates[1..], n)
  }

  /** The rate found sits at the first applicable position: every rate before it does not apply. */
  lemma {:induction false} FindRateIsFirst(rates: seq<Rate>, n: int, i: nat)
    requires i < |rates| && Applies(rates[i], n)
    requires forall j :: 0 <= j < i ==> !Applies(rates[j], n)
    ensures FindRate(rates, n) == Some(rates[i])
  {
    if i > 0 {
      assert !Applies(rates[0], n);
      assert forall j :: 0 <= j < i - 1 ==> rates[1..][j] == rates[j + 1];
      FindRateIsFirst(rates[1..], n, i - 1);
    }
  }

  /** JavaScript truthiness of a nullable number. */
  predicate TruthyNumber(o: Option<int>) {
    o.Some? && o.value != 0
  }

  /** The body of `queryFn` after the fetch: 0 without a rate, else the base rate plus the guarded extra charge. */
  function ShippingCost(rates: seq<Rate>, n: int): int {
    match FindRate(rates, n)
    case None => 0
    case Some(rate) =>
      var cost := rate.baseRate;
      if TruthyNumber(rate.additionalPerItem) && TruthyNumber(rate.maxItems) && n > rate.maxItems.value then
        cost + (n - rate.maxItems.value) * rate.additionalPerItem.value
      else cost
  }

  /**
   * The extra per-item branch is dead: the rate that was found already has `n <= max_items`
   * whenever it has a maximum, so the cost is the found rate's base rate, or 0 without one.
   */
  lemma CostIsBaseRate(rates: seq<Rate>, n: int)
    ensures FindRate(rates, n).None? ==> ShippingCost(rates, n) == 0
    ensures FindRate(rates, n).Some? ==> ShippingCost(rates, n) == FindRate(rates, n).value.baseRate
  {
  }

  /** A rate earlier in the list wins over any later applicable rate. */
  lemma FirstApplicableWins(rates: seq<Rate>, n: int, i: nat)
    requires i < |rates| && Applies(rates[i], n)
    requires forall j :: 0 <= j < i ==> !Applies(rates[j], n)
    ensures ShippingCost(rates, n) == rates[i].baseRate
  {
    FindRateIsFirst(rates, n, i);
  }

  /** The query runs only for a non-empty country and a positive item count (`enabled`). */
  predicate QueryEnabled(country: string, totalItems: int) {
    country != "" && totalItems > 0
  }

  /** The hook's value: no data while the query is disabled, otherwise the computed cost. */
  function ShippingQuery(country: string, totalItems: int, rates: seq<Rate>): (r: Option<int>)
    ensures r.None? <==> country == "" || totalItems <= 0
    ensures r.Some? && FindRate(rates, totalItems).None? ==> r.value == 0
  {
    if QueryEnabled(country, totalItems) then Some(ShippingCost(rates, totalItems)) else None
  }
}
