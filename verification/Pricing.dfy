/** What `walk_book` reports, in u64 and u128 words, and what a trader may conclude from it. */
module Pricing {
  import opened Prelude
  import opened Walk

  datatype WalkResult = WalkResult(avgPrice: u64, filled: u64, unfilled: u64)

  const MAX_U64: int := U64_LIMIT - 1

  ghost predicate Priced(quotes: seq<Quote>) {
    forall i :: 0 <= i < |quotes| ==> 0 <= quotes[i].price <= MAX_U64
  }

  // The accumulators never leave their words, for any prices, sizes and quantity.
  lemma NoOverflow(quotes: seq<Quote>, quantity: u64)
    requires Priced(quotes)
    ensures var fill := Sweep(quotes, quantity);
            && fill.filled <= quantity
            && 0 <= fill.notional <= MAX_U64 * fill.filled < U128_LIMIT
            && (fill.filled > 0 ==> 0 <= fill.notional / fill.filled <= MAX_U64)
  {
    var fill := Sweep(quotes, quantity);
    FilledIsMinimum(quotes, quantity);
    NotionalBounds(quotes, quantity, 0, MAX_U64);
    Scale(fill.filled, MAX_U64, MAX_U64);
    if fill.filled > 0 {
      FloorLow(fill.notional, fill.filled, 0);
      FloorHigh(fill.notional, fill.filled, MAX_U64);
    }
  }

  ghost function Report(quotes: seq<Quote>, quantity: u64): Option<WalkResult>
    requires Priced(quotes)
  {
    NoOverflow(quotes, quantity);
    var fill := Sweep(quotes, quantity);
    if fill.filled == 0 then None
    else Some(WalkResult(fill.notional / fill.filled, fill.filled, quantity - fill.filled))
  }

  lemma {:induction false} NoDepth(quotes: seq<Quote>)
    ensures Depth(quotes) == 0 <==> forall i :: 0 <= i < |quotes| ==> quotes[i].size == 0
  {
    if quotes != [] {
      NoDepth(quotes[1..]);
      assert forall i :: 0 < i < |quotes| ==> quotes[i] == quotes[1..][i - 1];
      if Depth(quotes) == 0 {
        forall i | 0 <= i < |quotes| ensures quotes[i].size == 0 {
          if i > 0 {
            assert quotes[1..][i - 1].size == 0;
          }
        }
      } else if quotes[0].size == 0 {
        var j :| 0 <= j < |quotes[1..]| && quotes[1..][j].size != 0;
        assert quotes[j + 1].size != 0;
      }
    }
  }

  // No result: exactly for a zero order or a side with nothing on it. Otherwise the order is fully
  // accounted for, the fill is as large as the depth allows, and the average is what the greedy
  // allocation costs per unit, rounded down.
  lemma ReportAccounts(quotes: seq<Quote>, quantity: u64)
    requires Priced(quotes)
    ensures var r := Report(quotes, quantity);
            && (r.None? <==> quantity == 0 || forall i :: 0 <= i < |quotes| ==> quotes[i].size == 0)
            && (r.Some? ==> r.value.filled + r.value.unfilled == quantity)
            && (r.Some? ==> r.value.filled == Min(quantity, Depth(quotes)))
            && (r.Some? ==> r.value.avgPrice * r.value.filled <= Cost(quotes, Taken(quotes, quantity))
                          < (r.value.avgPrice + 1) * r.value.filled)
  {
    FilledIsMinimum(quotes, quantity);
    NoDepth(quotes);
    SweepIsAnAllocation(quotes, quantity);
    NoOverflow(quotes, quantity);
    var fill := Sweep(quotes, quantity);
    if fill.filled > 0 {
      Floors(fill.notional, fill.filled);
    }
  }

  lemma Floors(n: int, f: nat)
    requires f > 0
    ensures (n / f) * f <= n < (n / f + 1) * f
  {
  }

  // ----- the report without the loop: the best that any allocation can do

  // The least that `total` units cost, over all ways to take them from the quotes.
  ghost predicate LeastCost(quotes: seq<Quote>, total: nat, cost: int) {
    && (exists taken :: Allocation(quotes, taken) && Total(taken) == total && Cost(quotes, taken) == cost)
    && forall taken :: Allocation(quotes, taken) && Total(taken) == total ==> cost <= Cost(quotes, taken)
  }

  ghost predicate GreatestProceeds(quotes: seq<Quote>, total: nat, proceeds: int) {
    && (exists taken :: Allocation(quotes, taken) && Total(taken) == total && Cost(quotes, taken) == proceeds)
    && forall taken :: Allocation(quotes, taken) && Total(taken) == total ==> Cost(quotes, taken) <= proceeds
  }

  // The order is filled as far as the depth allows, and `amount` per unit, rounded down, is the average.
  ghost predicate Accounts(quotes: seq<Quote>, quantity: u64, r: WalkResult, amount: int) {
    && 0 < r.filled == Min(quantity, Depth(quotes)) && r.unfilled == quantity - r.filled
    && r.avgPrice * r.filled <= amount < (r.avgPrice + 1) * r.filled
  }

  lemma ReportIffAccounts(quotes: seq<Quote>, quantity: u64, r: WalkResult)
    requires Priced(quotes)
    ensures Report(quotes, quantity) == Some(r) <==>
            Accounts(quotes, quantity, r, Sweep(quotes, quantity).notional)
  {
    FilledIsMinimum(quotes, quantity);
    NoOverflow(quotes, quantity);
    var fill := Sweep(quotes, quantity);
    if fill.filled > 0 {
      Floors(fill.notional, fill.filled);
      if Accounts(quotes, quantity, r, fill.notional) {
        FloorIsUnique(fill.notional, fill.filled, r.avgPrice);
      }
    }
  }

  lemma FloorIsUnique(n: int, f: nat, q: int)
    requires f > 0 && q * f <= n < (q + 1) * f
    ensures n / f == q
  {
    FloorLow(n, f, q);
    if n / f > q {
      Scale(q + 1, n / f, f);
    }
  }

  // Buy: a result is reported exactly when it accounts for the least cost any allocation achieves.
  lemma BuyReportIsCheapest(quotes: seq<Quote>, quantity: u64, r: WalkResult)
    requires Priced(quotes) && Cheapest(quotes)
    ensures Report(quotes, quantity) == Some(r) <==>
            exists cost :: LeastCost(quotes, Min(quantity, Depth(quotes)), cost) && Accounts(quotes, quantity, r, cost)
  {
    ReportIffAccounts(quotes, quantity, r);
    FilledIsMinimum(quotes, quantity);
    SweepIsAnAllocation(quotes, quantity);
    var total, best := Min(quantity, Depth(quotes)), Sweep(quotes, quantity).notional;
    hide Accounts, Sweep, Allocation, Total, Cost, Taken;
    forall taken | Allocation(quotes, taken) && Total(taken) == total ensures best <= Cost(quotes, taken) {
      BuyingGreedilyIsCheapest(quotes, quantity, taken);
    }
    assert LeastCost(quotes, total, best);
    assert forall cost :: LeastCost(quotes, total, cost) ==> cost == best;
  }

  // Sell: likewise for the greatest proceeds.
  lemma SellReportEarnsMost(quotes: seq<Quote>, quantity: u64, r: WalkResult)
    requires Priced(quotes) && Dearest(quotes)
    ensures Report(quotes, quantity) == Some(r) <==>
            exists proceeds ::
              && GreatestProceeds(quotes, Min(quantity, Depth(quotes)), proceeds)
              && Accounts(quotes, quantity, r, proceeds)
  {
    ReportIffAccounts(quotes, quantity, r);
    FilledIsMinimum(quotes, quantity);
    SweepIsAnAllocation(quotes, quantity);
    var total, best := Min(quantity, Depth(quotes)), Sweep(quotes, quantity).notional;
    hide Accounts, Sweep, Allocation, Total, Cost, Taken;
    forall taken | Allocation(quotes, taken) && Total(taken) == total ensures Cost(quotes, taken) <= best {
      SellingGreedilyEarnsMost(quotes, quantity, taken);
    }
    assert GreatestProceeds(quotes, total, best);
    assert forall proceeds :: GreatestProceeds(quotes, total, proceeds) ==> proceeds == best;
  }

  // ----- the average lies within the touched prices

  lemma {:induction false} TouchedBounds(quotes: seq<Quote>, quantity: nat, low: int, high: int)
    requires forall i :: 0 <= i < |quotes| && Taken(quotes, quantity)[i] > 0 ==> low <= quotes[i].price <= high
    ensures var fill := Sweep(quotes, quantity);
            low * fill.filled <= fill.notional <= high * fill.filled
  {
    if quotes != [] && quantity != 0 {
      var take := Min(quantity, quotes[0].size);
      var tail, later := quotes[1..], Taken(quotes[1..], quantity - take);
      assert forall i :: 0 <= i < |tail| ==> tail[i] == quotes[i + 1] && later[i] == Taken(quotes, quantity)[i + 1];
      TouchedBounds(tail, quantity - take, low, high);
      MeanBounds(low, quotes[0].price, high, take, Sweep(tail, quantity - take));
    }
  }

  lemma AverageWithinTouched(quotes: seq<Quote>, quantity: u64, low: int, high: int)
    requires Priced(quotes) && Report(quotes, quantity).Some?
    requires forall i :: 0 <= i < |quotes| && Taken(quotes, quantity)[i] > 0 ==> low <= quotes[i].price <= high
    ensures low <= Report(quotes, quantity).value.avgPrice <= high
  {
    TouchedBounds(quotes, quantity, low, high);
    var fill := Sweep(quotes, quantity);
    FloorLow(fill.notional, fill.filled, low);
    FloorHigh(fill.notional, fill.filled, high);
  }

  // ----- price impact

  lemma BuyImpactIsMonotone(quotes: seq<Quote>, q1: u64, q2: u64)
    requires Priced(quotes) && Cheapest(quotes) && q1 <= q2
    requires Report(quotes, q1).Some? && Report(quotes, q2).Some?
    ensures Report(quotes, q1).value.avgPrice <= Report(quotes, q2).value.avgPrice
  {
    ImpactGrows(quotes, q1, q2);
    var a, b := Sweep(quotes, q1), Sweep(quotes, q2);
    FloorFollows(a.notional, a.filled, b.notional, b.filled);
  }

  lemma FlipSigns(a: int, f: int, b: int, g: int)
    requires (-a) * f <= (-b) * g
    ensures b * g <= a * f
  {
  }

  lemma SellImpactIsMonotone(quotes: seq<Quote>, q1: u64, q2: u64)
    requires Priced(quotes) && Dearest(quotes) && q1 <= q2
    requires Report(quotes, q1).Some? && Report(quotes, q2).Some?
    ensures Report(quotes, q1).value.avgPrice >= Report(quotes, q2).value.avgPrice
  {
    MirrorAt(quotes);
    ImpactGrows(Mirror(quotes), q1, q2);
    MirrorSweep(quotes, q1);
    MirrorSweep(quotes, q2);
    var a, b := Sweep(quotes, q1), Sweep(quotes, q2);
    FlipSigns(a.notional, b.filled, b.notional, a.filled);
    FloorFollows(b.notional, b.filled, a.notional, a.filled);
  }

  // ----- crossing the spread

  function SpreadOf(ask: u64, bid: u64): u64 {
    if ask >= bid then ask - bid else 0
  }

  // Buying and selling back costs at least the quoted gap, as a signed difference, on any book; on
  // an uncrossed book that gap is `spread()`.
  lemma CrossingCosts(asks: seq<Quote>, bids: seq<Quote>, q1: u64, q2: u64)
    requires Priced(asks) && Priced(bids) && Cheapest(asks) && Dearest(bids)
    requires Report(asks, q1).Some? && Report(bids, q2).Some?
    ensures |asks| > 0 && |bids| > 0
    ensures var bought, sold := Report(asks, q1).value.avgPrice, Report(bids, q2).value.avgPrice;
            && bought >= asks[0].price && sold <= bids[0].price
            && bought - sold >= asks[0].price - bids[0].price
            && (bids[0].price <= asks[0].price ==> bought - sold >= SpreadOf(asks[0].price, bids[0].price))
  {
    var a, b := Sweep(asks, q1), Sweep(bids, q2);
    NotionalBounds(asks, q1, asks[0].price, MAX_U64);
    NotionalBounds(bids, q2, 0, bids[0].price);
    FloorLow(a.notional, a.filled, asks[0].price);
    FloorHigh(b.notional, b.filled, bids[0].price);
  }

  // Every round trip, buying and selling back, costs at least this much per unit.
  ghost predicate RoundTripsCost(asks: seq<Quote>, bids: seq<Quote>, least: int)
    requires Priced(asks) && Priced(bids)
  {
    forall q1: u64, q2: u64 :: Report(asks, q1).Some? && Report(bids, q2).Some? ==>
      Report(asks, q1).value.avgPrice - Report(bids, q2).value.avgPrice >= least
  }

  // Nobody bids more for something than somebody asks for something.
  ghost predicate Uncrossed(asks: seq<Quote>, bids: seq<Quote>) {
    forall i, j :: 0 <= i < |asks| && 0 <= j < |bids| && asks[i].size > 0 && bids[j].size > 0 ==>
      bids[j].price <= asks[i].price
  }

  // On a crossed book `spread()` saturates at 0 while a round trip can make money. Levels of size zero
  // count for the spread but not for the crossing: it bounds every round trip exactly when no bid of
  // positive size lies above an ask of positive size.
  lemma SpreadBoundIffUncrossed(asks: seq<Quote>, bids: seq<Quote>)
    requires Priced(asks) && Priced(bids) && Cheapest(asks) && Dearest(bids) && |asks| > 0 && |bids| > 0
    ensures RoundTripsCost(asks, bids, SpreadOf(asks[0].price, bids[0].price)) <==> Uncrossed(asks, bids)
  {
    if Depth(asks) > 0 && Depth(bids) > 0 {
      var i := FirstFilled(asks);
      var j := FirstFilled(bids);
      if bids[j].price <= asks[i].price {
        UncrossedFrom(asks, bids, i, j);
        assert asks[0].price <= asks[i].price && bids[j].price <= bids[0].price;
      } else {
        assert !Uncrossed(asks, bids);
      }
      hide RoundTripsCost, Uncrossed;
      RoundTripsCostTheGap(asks, bids, i, j, SpreadOf(asks[0].price, bids[0].price));
    } else {
      NothingToTrade(asks, bids);
    }
  }

  // What every round trip costs at least is the gap between the best levels with something on them, no
  // more and no less; where the best prices have something on them and do not cross, that is `spread()`.
  lemma RoundTripsCostTheGap(asks: seq<Quote>, bids: seq<Quote>, i: nat, j: nat, least: int)
    requires Priced(asks) && Priced(bids) && Cheapest(asks) && Dearest(bids) && i < |asks| && j < |bids|
    requires asks[i].size > 0 && forall k :: 0 <= k < i ==> asks[k].size == 0
    requires bids[j].size > 0 && forall k :: 0 <= k < j ==> bids[k].size == 0
    ensures RoundTripsCost(asks, bids, least) <==> least <= asks[i].price - bids[j].price
    ensures i == 0 && j == 0 && bids[0].price <= asks[0].price ==>
              (RoundTripsCost(asks, bids, least) <==> least <= SpreadOf(asks[0].price, bids[0].price))
  {
    OneUnit(asks, i);
    OneUnit(bids, j);
    AveragesBeyond(asks, bids, i, j);
    hide Report;
  }

  lemma NothingToTrade(asks: seq<Quote>, bids: seq<Quote>)
    requires Priced(asks) && Priced(bids) && (Depth(asks) == 0 || Depth(bids) == 0)
    ensures Uncrossed(asks, bids) && forall least :: RoundTripsCost(asks, bids, least)
  {
    NoDepth(asks);
    NoDepth(bids);
    forall q1: u64, q2: u64 ensures Report(asks, q1).None? || Report(bids, q2).None? {
      ReportAccounts(asks, q1);
      ReportAccounts(bids, q2);
    }
  }

  // The best level with something on it.
  lemma FirstFilled(quotes: seq<Quote>) returns (i: nat)
    requires Depth(quotes) > 0
    ensures i < |quotes| && quotes[i].size > 0 && forall k :: 0 <= k < i ==> quotes[k].size == 0
  {
    NoDepth(quotes);
    i := 0;
    while quotes[i].size == 0
      invariant i < |quotes| && forall k :: 0 <= k < i ==> quotes[k].size == 0
      decreases |quotes| - i
    {
      i := i + 1;
    }
  }

  lemma UncrossedFrom(asks: seq<Quote>, bids: seq<Quote>, i: nat, j: nat)
    requires Cheapest(asks) && Dearest(bids) && i < |asks| && j < |bids| && bids[j].price <= asks[i].price
    requires forall k :: 0 <= k < i ==> asks[k].size == 0
    requires forall k :: 0 <= k < j ==> bids[k].size == 0
    ensures Uncrossed(asks, bids)
  {
    forall m, n | 0 <= m < |asks| && 0 <= n < |bids| && asks[m].size > 0 && bids[n].size > 0
      ensures bids[n].price <= asks[m].price
    {
      assert i <= m && j <= n;
      assert asks[i].price <= asks[m].price && bids[n].price <= bids[j].price;
    }
  }

  // Only levels with something on them are taken from.
  lemma {:induction false} TakenHasSize(quotes: seq<Quote>, quantity: nat, i: nat)
    requires i < |quotes| && Taken(quotes, quantity)[i] > 0
    ensures quotes[i].size > 0
  {
    if i > 0 {
      TakenHasSize(quotes[1..], quantity - Min(quantity, quotes[0].size), i - 1);
    }
  }

  lemma AveragesBeyond(asks: seq<Quote>, bids: seq<Quote>, i: nat, j: nat)
    requires Priced(asks) && Priced(bids) && Cheapest(asks) && Dearest(bids) && i < |asks| && j < |bids|
    requires forall k :: 0 <= k < i ==> asks[k].size == 0
    requires forall k :: 0 <= k < j ==> bids[k].size == 0
    ensures forall q1: u64 :: Report(asks, q1).Some? ==> Report(asks, q1).value.avgPrice >= asks[i].price
    ensures forall q2: u64 :: Report(bids, q2).Some? ==> Report(bids, q2).value.avgPrice <= bids[j].price
  {
    hide Report;
    forall q1: u64 | Report(asks, q1).Some? ensures Report(asks, q1).value.avgPrice >= asks[i].price {
      forall k | 0 <= k < |asks| && Taken(asks, q1)[k] > 0 ensures asks[i].price <= asks[k].price <= MAX_U64 {
        TakenHasSize(asks, q1, k);
      }
      AverageWithinTouched(asks, q1, asks[i].price, MAX_U64);
    }
    forall q2: u64 | Report(bids, q2).Some? ensures Report(bids, q2).value.avgPrice <= bids[j].price {
      forall k | 0 <= k < |bids| && Taken(bids, q2)[k] > 0 ensures 0 <= bids[k].price <= bids[j].price {
        TakenHasSize(bids, q2, k);
      }
      AverageWithinTouched(bids, q2, 0, bids[j].price);
    }
  }

  lemma {:induction false} SweepOne(quotes: seq<Quote>, i: nat)
    requires i < |quotes| && quotes[i].size > 0 && forall k :: 0 <= k < i ==> quotes[k].size == 0
    ensures Sweep(quotes, 1) == Fill(quotes[i].price, 1)
  {
    if i > 0 {
      SweepOne(quotes[1..], i - 1);
    } else {
      assert Sweep(quotes[1..], 0) == Fill(0, 0);
    }
  }

  lemma OneUnit(quotes: seq<Quote>, i: nat)
    requires Priced(quotes) && i < |quotes| && quotes[i].size > 0 && forall k :: 0 <= k < i ==> quotes[k].size == 0
    ensures Report(quotes, 1) == Some(WalkResult(quotes[i].price, 1, 0))
  {
    SweepOne(quotes, i);
  }
}
