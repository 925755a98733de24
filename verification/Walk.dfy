/** The theory of sweeping a sequence of quotes (`Book::walk_book`): what is filled and paid, why the
    greedy order is best, how two orders in a row compose, and how the average moves with size. */
module Walk {
  import opened Prelude

  datatype Quote = Quote(price: int, size: nat)
  datatype Fill = Fill(notional: int, filled: nat)

  // So many units at a price. Kept apart from the arithmetic around it, which is linear.
  function Amount(price: int, units: int): int {
    price * units
  }

  lemma AmountSum(p: int, a: int, b: int)
    ensures Amount(p, a + b) == Amount(p, a) + Amount(p, b)
  {
  }

  lemma AmountOfNone(p: int)
    ensures Amount(p, 0) == 0
  {
  }

  lemma AmountGrows(p: int, q: int, n: nat)
    requires p <= q
    ensures Amount(p, n) <= Amount(q, n)
  {
    Scale(p, q, n);
  }

  lemma AmountNegated(p: int, n: int)
    ensures Amount(-p, n) == -Amount(p, n)
  {
  }

  // Take from the first quote first, then from the rest, until `quantity` is used up.
  function Sweep(quotes: seq<Quote>, quantity: nat): Fill {
    if quotes == [] || quantity == 0 then Fill(0, 0)
    else
      var take := Min(quantity, quotes[0].size);
      var rest := Sweep(quotes[1..], quantity - take);
      Fill(Amount(quotes[0].price, take) + rest.notional, take + rest.filled)
  }

  function Depth(quotes: seq<Quote>): nat {
    if quotes == [] then 0 else quotes[0].size + Depth(quotes[1..])
  }

  ghost predicate Cheapest(quotes: seq<Quote>) {
    forall i, j :: 0 <= i < j < |quotes| ==> quotes[i].price <= quotes[j].price
  }

  ghost predicate Dearest(quotes: seq<Quote>) {
    forall i, j :: 0 <= i < j < |quotes| ==> quotes[i].price >= quotes[j].price
  }

  ghost predicate AtLeast(quotes: seq<Quote>, price: int) {
    forall i :: 0 <= i < |quotes| ==> quotes[i].price >= price
  }

  // Selling into bids is buying from asks at negated prices.
  function Mirror(quotes: seq<Quote>): seq<Quote> {
    if quotes == [] then [] else [Quote(-quotes[0].price, quotes[0].size)] + Mirror(quotes[1..])
  }

  lemma {:induction false} MirrorAt(quotes: seq<Quote>)
    ensures |Mirror(quotes)| == |quotes|
    ensures forall i :: 0 <= i < |quotes| ==> Mirror(quotes)[i] == Quote(-quotes[i].price, quotes[i].size)
  {
    if quotes != [] {
      MirrorAt(quotes[1..]);
    }
  }

  lemma SweepNone(quotes: seq<Quote>)
    ensures Sweep(quotes, 0) == Fill(0, 0)
    ensures forall quantity :: Sweep([], quantity) == Fill(0, 0)
  {
  }

  // One quote, and the rest; whether the order is used up or not.
  lemma SweepHead(quotes: seq<Quote>, quantity: nat)
    requires quotes != []
    ensures var take := Min(quantity, quotes[0].size);
            var rest := Sweep(quotes[1..], quantity - take);
            Sweep(quotes, quantity) == Fill(Amount(quotes[0].price, take) + rest.notional, take + rest.filled)
  {
    if quantity == 0 {
      SweepNone(quotes[1..]);
      AmountOfNone(quotes[0].price);
    }
  }

  lemma {:induction false} MirrorSweep(quotes: seq<Quote>, quantity: nat)
    ensures Sweep(Mirror(quotes), quantity).filled == Sweep(quotes, quantity).filled
    ensures Sweep(Mirror(quotes), quantity).notional == -Sweep(quotes, quantity).notional
  {
    hide Amount, Sweep;
    SweepNone(quotes);
    if quotes != [] {
      SweepHead(quotes, quantity);
      SweepHead(Mirror(quotes), quantity);
      assert Mirror(quotes)[1..] == Mirror(quotes[1..]);
      var take := Min(quantity, quotes[0].size);
      MirrorSweep(quotes[1..], quantity - take);
      AmountNegated(quotes[0].price, take);
    }
  }

  // ----- how much is filled, and within which prices

  lemma {:induction false} FilledIsMinimum(quotes: seq<Quote>, quantity: nat)
    ensures Sweep(quotes, quantity).filled == Min(quantity, Depth(quotes))
  {
    hide Amount;
    if quotes != [] && quantity != 0 {
      FilledIsMinimum(quotes[1..], quantity - Min(quantity, quotes[0].size));
    }
  }

  lemma {:induction false} NotionalBounds(quotes: seq<Quote>, quantity: nat, low: int, high: int)
    requires forall i :: 0 <= i < |quotes| ==> low <= quotes[i].price <= high
    ensures var fill := Sweep(quotes, quantity);
            Amount(low, fill.filled) <= fill.notional <= Amount(high, fill.filled)
  {
    hide Amount, Sweep;
    SweepNone(quotes);
    AmountOfNone(low);
    AmountOfNone(high);
    if quotes != [] && quantity != 0 {
      SweepHead(quotes, quantity);
      var take := Min(quantity, quotes[0].size);
      NotionalBounds(quotes[1..], quantity - take, low, high);
      MeanBounds(low, quotes[0].price, high, take, Sweep(quotes[1..], quantity - take));
    }
  }

  lemma MeanBounds(low: int, price: int, high: int, take: nat, rest: Fill)
    requires take > 0 ==> low <= price <= high
    requires Amount(low, rest.filled) <= rest.notional <= Amount(high, rest.filled)
    ensures Amount(low, take + rest.filled) <= Amount(price, take) + rest.notional <= Amount(high, take + rest.filled)
  {
    hide Amount;
    AmountSum(low, take, rest.filled);
    AmountSum(high, take, rest.filled);
    if take > 0 {
      AmountGrows(low, price, take);
      AmountGrows(price, high, take);
    } else {
      AmountOfNone(low);
      AmountOfNone(price);
      AmountOfNone(high);
    }
  }

  lemma Scale(a: int, b: int, n: nat)
    requires a <= b
    ensures a * n <= b * n
  {
  }

  // ----- two orders in a row

  // The quotes left after an order for `quantity`: used-up quotes go, a part-used one shrinks.
  function Consume(quotes: seq<Quote>, quantity: nat): seq<Quote> {
    if quotes == [] || quantity == 0 then quotes
    else if quotes[0].size <= quantity then Consume(quotes[1..], quantity - quotes[0].size)
    else [Quote(quotes[0].price, quotes[0].size - quantity)] + quotes[1..]
  }

  lemma ConsumeNone(quotes: seq<Quote>)
    ensures Consume(quotes, 0) == quotes && forall quantity :: Consume([], quantity) == []
  {
  }

  lemma ConsumeHead(quotes: seq<Quote>, quantity: nat)
    requires quotes != [] && quantity != 0
    ensures quotes[0].size <= quantity ==> Consume(quotes, quantity) == Consume(quotes[1..], quantity - quotes[0].size)
    ensures quotes[0].size > quantity ==>
              var left := Consume(quotes, quantity);
              left != [] && left[0] == Quote(quotes[0].price, quotes[0].size - quantity) && left[1..] == quotes[1..]
  {
  }

  // An order that the first quote alone fills, and another one after it.
  lemma SplitHead(quotes: seq<Quote>, q1: nat, q2: nat)
    requires quotes != [] && 0 < q1 < quotes[0].size
    ensures var whole, first, second := Sweep(quotes, q1 + q2), Sweep(quotes, q1), Sweep(Consume(quotes, q1), q2);
            whole.notional == first.notional + second.notional && whole.filled == first.filled + second.filled
  {
    hide Amount, Sweep, Consume;
    ConsumeHead(quotes, q1);
    var left := Consume(quotes, q1);
    SweepHead(quotes, q1 + q2);
    SweepHead(quotes, q1);
    SweepHead(left, q2);
    SweepNone(quotes[1..]);
    AmountSum(quotes[0].price, q1, Min(q2, left[0].size));
  }

  // One order for q1 + q2 pays and fills what an order for q1 does plus what an order for q2 does
  // on the book that the first one leaves.
  lemma {:induction false} SplitFills(quotes: seq<Quote>, q1: nat, q2: nat)
    ensures var whole, first, second := Sweep(quotes, q1 + q2), Sweep(quotes, q1), Sweep(Consume(quotes, q1), q2);
            whole.notional == first.notional + second.notional && whole.filled == first.filled + second.filled
  {
    hide Amount, Sweep, Consume;
    SweepNone(quotes);
    ConsumeNone(quotes);
    if quotes != [] && q1 != 0 {
      if q1 < quotes[0].size {
        SplitHead(quotes, q1, q2);
      } else {
        SweepHead(quotes, q1 + q2);
        SweepHead(quotes, q1);
        ConsumeHead(quotes, q1);
        SplitFills(quotes[1..], q1 - quotes[0].size, q2);
      }
    }
  }

  lemma {:induction false} ConsumeDepth(quotes: seq<Quote>, quantity: nat)
    ensures Depth(Consume(quotes, quantity)) == Depth(quotes) - Sweep(quotes, quantity).filled
  {
    if quotes != [] && quantity != 0 {
      if quotes[0].size <= quantity {
        ConsumeDepth(quotes[1..], quantity - quotes[0].size);
      } else {
        assert Consume(quotes, quantity)[1..] == quotes[1..];
        assert Sweep(quotes[1..], 0) == Fill(0, 0);
      }
    }
  }

  // The prices left are the last ones, in the same order.
  lemma {:induction false} ConsumePrices(quotes: seq<Quote>, quantity: nat) returns (gone: nat)
    ensures gone <= |quotes| && |Consume(quotes, quantity)| == |quotes| - gone
    ensures forall i :: 0 <= i < |quotes| - gone ==> Consume(quotes, quantity)[i].price == quotes[gone + i].price
  {
    gone := 0;
    if quotes != [] && quantity != 0 && quotes[0].size <= quantity {
      gone := ConsumePrices(quotes[1..], quantity - quotes[0].size);
      gone := gone + 1;
    }
  }

  // So the book left is a book again, less deep by exactly what was filled.
  lemma ConsumeKeepsBook(quotes: seq<Quote>, quantity: nat)
    ensures Depth(Consume(quotes, quantity)) == Depth(quotes) - Sweep(quotes, quantity).filled
    ensures Cheapest(quotes) ==> Cheapest(Consume(quotes, quantity))
    ensures Dearest(quotes) ==> Dearest(Consume(quotes, quantity))
    ensures forall price :: AtLeast(quotes, price) ==> AtLeast(Consume(quotes, quantity), price)
  {
    ConsumeDepth(quotes, quantity);
    var gone := ConsumePrices(quotes, quantity);
  }

  // What is bought on top of an order costs at least the lowest quote.
  lemma ExtraCost(quotes: seq<Quote>, q1: nat, q2: nat, price: int)
    requires q1 <= q2 && AtLeast(quotes, price)
    ensures var a, b := Sweep(quotes, q1), Sweep(quotes, q2);
            a.filled <= b.filled && Amount(price, b.filled - a.filled) <= b.notional - a.notional
  {
    hide Amount, Sweep, Consume;
    SplitFills(quotes, q1, q2 - q1);
    ConsumeKeepsBook(quotes, q1);
    var left := Consume(quotes, q1);
    var high := Highest(left, price);
    NotionalBounds(left, q2 - q1, price, high);
  }

  lemma {:induction false} Highest(quotes: seq<Quote>, floor: int) returns (high: int)
    ensures high >= floor && forall i :: 0 <= i < |quotes| ==> quotes[i].price <= high
  {
    high := floor;
    if quotes != [] {
      var rest := Highest(quotes[1..], floor);
      high := if rest < quotes[0].price then quotes[0].price else rest;
    }
  }

  // ----- greedy is optimal

  // An allocation takes some amount from each quote, at most its size.
  ghost predicate Allocation(quotes: seq<Quote>, taken: seq<nat>) {
    |taken| == |quotes| && forall i :: 0 <= i < |quotes| ==> taken[i] <= quotes[i].size
  }

  function Total(taken: seq<nat>): nat {
    if taken == [] then 0 else taken[0] + Total(taken[1..])
  }

  function Cost(quotes: seq<Quote>, taken: seq<nat>): int
    requires |taken| == |quotes|
  {
    if taken == [] then 0 else Amount(quotes[0].price, taken[0]) + Cost(quotes[1..], taken[1..])
  }

  lemma {:induction false} TotalWithinDepth(quotes: seq<Quote>, taken: seq<nat>)
    requires Allocation(quotes, taken)
    ensures Total(taken) <= Depth(quotes)
  {
    if taken != [] {
      TotalWithinDepth(quotes[1..], taken[1..]);
    }
  }

  // Moving an allocation onto the cheaper quotes never costs more: by exchange, quote by quote.
  lemma {:induction false} GreedyFor(quotes: seq<Quote>, taken: seq<nat>)
    requires Cheapest(quotes) && Allocation(quotes, taken)
    ensures Sweep(quotes, Total(taken)).notional <= Cost(quotes, taken)
    ensures Sweep(quotes, Total(taken)).filled == Total(taken)
  {
    FilledIsMinimum(quotes, Total(taken));
    TotalWithinDepth(quotes, taken);
    if taken != [] && Total(taken) != 0 {
      GreedyFor(quotes[1..], taken[1..]);
      Exchange(quotes, taken[0], Total(taken[1..])) by {
        TotalWithinDepth(quotes[1..], taken[1..]);
      }
    } else if taken != [] {
      NothingTaken(quotes, taken);
    }
  }

  // Taking less than possible from the cheapest quote, and `others` from the rest, is no gain.
  lemma Exchange(quotes: seq<Quote>, first: nat, others: nat)
    requires Cheapest(quotes) && quotes != []
    requires first <= quotes[0].size && others <= Depth(quotes[1..]) && first + others != 0
    ensures Sweep(quotes, first + others).notional <=
            Amount(quotes[0].price, first) + Sweep(quotes[1..], others).notional
  {
    hide Amount, Sweep;
    SweepHead(quotes, first + others);
    var p, tail := quotes[0].price, quotes[1..];
    var take := Min(first + others, quotes[0].size);
    var left := first + others - take;
    FilledIsMinimum(tail, others);
    FilledIsMinimum(tail, left);
    ExtraCost(tail, left, others, p);
    AmountSum(p, first, take - first);
  }

  lemma {:induction false} NothingTaken(quotes: seq<Quote>, taken: seq<nat>)
    requires |taken| == |quotes| && Total(taken) == 0
    ensures Cost(quotes, taken) == 0
  {
    if taken != [] {
      NothingTaken(quotes[1..], taken[1..]);
    }
  }

  lemma FilledAgain(quotes: seq<Quote>, quantity: nat)
    ensures Sweep(quotes, Sweep(quotes, quantity).filled) == Sweep(quotes, quantity)
  {
    FilledIsMinimum(quotes, quantity);
    if quantity > Depth(quotes) {
      BeyondDepth(quotes, quantity);
    }
  }

  lemma {:induction false} BeyondDepth(quotes: seq<Quote>, quantity: nat)
    requires Depth(quotes) <= quantity
    ensures Sweep(quotes, quantity) == Sweep(quotes, Depth(quotes))
  {
    if quotes != [] {
      var head, tail := quotes[0], quotes[1..];
      BeyondDepth(tail, quantity - head.size);
      if Depth(quotes) == 0 {
        BeyondDepth(tail, quantity);
        if quantity != 0 {
          assert Sweep(tail, quantity) == Fill(0, 0) by { assert Sweep(tail, 0) == Fill(0, 0); }
        }
      } else {
        assert Min(Depth(quotes), head.size) == head.size;
      }
    }
  }

  // Buy: no allocation within the ask sizes that fills the same total costs less.
  lemma BuyingGreedilyIsCheapest(quotes: seq<Quote>, quantity: nat, taken: seq<nat>)
    requires Cheapest(quotes) && Allocation(quotes, taken)
    requires Total(taken) == Sweep(quotes, quantity).filled
    ensures Sweep(quotes, quantity).notional <= Cost(quotes, taken)
  {
    FilledAgain(quotes, quantity);
    GreedyFor(quotes, taken);
  }

  lemma {:induction false} MirrorCost(quotes: seq<Quote>, taken: seq<nat>)
    requires |taken| == |quotes|
    ensures |Mirror(quotes)| == |quotes| && Cost(Mirror(quotes), taken) == -Cost(quotes, taken)
  {
    MirrorAt(quotes);
    if taken != [] {
      MirrorCost(quotes[1..], taken[1..]);
      assert Mirror(quotes)[1..] == Mirror(quotes[1..]);
    }
  }

  // Sell: no allocation within the bid sizes that fills the same total earns more.
  lemma SellingGreedilyEarnsMost(quotes: seq<Quote>, quantity: nat, taken: seq<nat>)
    requires Dearest(quotes) && Allocation(quotes, taken)
    requires Total(taken) == Sweep(quotes, quantity).filled
    ensures Cost(quotes, taken) <= Sweep(quotes, quantity).notional
  {
    MirrorAt(quotes);
    MirrorSweep(quotes, quantity);
    MirrorCost(quotes, taken);
    BuyingGreedilyIsCheapest(Mirror(quotes), quantity, taken);
  }

  // And the sweep is itself such an allocation, so the optimum is attained.
  function Taken(quotes: seq<Quote>, quantity: nat): (taken: seq<nat>)
    ensures |taken| == |quotes|
  {
    if quotes == [] then []
    else var take := Min(quantity, quotes[0].size); [take] + Taken(quotes[1..], quantity - take)
  }

  lemma {:induction false} SweepIsAnAllocation(quotes: seq<Quote>, quantity: nat)
    ensures var taken := Taken(quotes, quantity);
            && Allocation(quotes, taken)
            && Total(taken) == Sweep(quotes, quantity).filled
            && Cost(quotes, taken) == Sweep(quotes, quantity).notional
  {
    if quotes != [] {
      var take := Min(quantity, quotes[0].size);
      SweepIsAnAllocation(quotes[1..], quantity - take);
      assert Taken(quotes, quantity)[1..] == Taken(quotes[1..], quantity - take);
      if quantity == 0 {
        assert Sweep(quotes[1..], 0) == Fill(0, 0);
      }
    }
  }

  // ----- price impact

  // The exact average never falls as a buy order grows (cross-multiplied).
  lemma {:induction false} ImpactGrows(quotes: seq<Quote>, q1: nat, q2: nat)
    requires Cheapest(quotes) && q1 <= q2
    ensures var a, b := Sweep(quotes, q1), Sweep(quotes, q2);
            Amount(a.notional, b.filled) <= Amount(b.notional, a.filled)
  {
    hide Amount, Sweep;
    if quotes != [] && q1 != 0 {
      var p, s, tail := quotes[0].price, quotes[0].size, quotes[1..];
      SweepHead(quotes, q1);
      SweepHead(quotes, q2);
      if q1 <= s {
        SweepNone(tail);
        var b := Sweep(quotes, q2);
        var high := Highest(quotes, p);
        NotionalBounds(quotes, q2, p, high);
        Regrouped(p, q1, b.filled, b.notional);
      } else {
        var c, d := Sweep(tail, q1 - s), Sweep(tail, q2 - s);
        ImpactGrows(tail, q1 - s, q2 - s);
        ExtraCost(tail, q1 - s, q2 - s, p);
        CrossTerms(p, s, c.notional, c.filled, d.notional, d.filled);
      }
    } else {
      ZeroFill(quotes, q1, Sweep(quotes, q2));
    }
  }

  lemma ZeroFill(quotes: seq<Quote>, q: nat, b: Fill)
    requires quotes == [] || q == 0
    ensures Amount(Sweep(quotes, q).notional, b.filled) == 0 == Amount(b.notional, Sweep(quotes, q).filled)
  {
  }

  lemma Regrouped(p: int, q: nat, filled: nat, notional: int)
    requires Amount(p, filled) <= notional
    ensures Amount(Amount(p, q), filled) <= Amount(notional, q)
  {
    Scale(p * filled, notional, q);
    assert (p * q) * filled == (p * filled) * q;
  }

  lemma CrossTerms(p: int, s: nat, n1: int, f1: nat, n2: int, f2: nat)
    requires Amount(n1, f2) <= Amount(n2, f1)
    requires Amount(p, f2 - f1) <= n2 - n1
    ensures Amount(Amount(p, s) + n1, s + f2) <= Amount(Amount(p, s) + n2, s + f1)
  {
    Scale(p * (f2 - f1), n2 - n1, s);
    assert (p * s + n2) * (s + f1) - (p * s + n1) * (s + f2)
        == s * ((n2 - n1) - p * (f2 - f1)) + (n2 * f1 - n1 * f2);
  }

  // Floored averages compare as the exact ones do.
  lemma FloorFollows(n1: int, f1: nat, n2: int, f2: nat)
    requires f1 > 0 && f2 > 0
    requires Amount(n1, f2) <= Amount(n2, f1)
    ensures n1 / f1 <= n2 / f2
  {
    var a := n1 / f1;
    assert a * f1 <= n1;
    Scale(a * f1, n1, f2);
    assert (a * f2) * f1 == (a * f1) * f2;
    assert (a * f2) * f1 <= n2 * f1;
    Cancel(a * f2, n2, f1);
    FloorLow(n2, f2, a);
  }

  lemma Cancel(a: int, b: int, n: nat)
    requires n > 0 && a * n <= b * n
    ensures a <= b
  {
    if b < a {
      Scale(b + 1, a, n);
    }
  }

  lemma FloorLow(n: int, f: nat, low: int)
    requires f > 0 && low * f <= n
    ensures low <= n / f
  {
    var q := n / f;
    assert n < (q + 1) * f;
    if q < low {
      Scale(q + 1, low, f);
    }
  }

  lemma FloorHigh(n: int, f: nat, high: int)
    requires f > 0 && n <= high * f
    ensures n / f <= high
  {
    var q := n / f;
    assert q * f <= n;
    Cancel(q, high, f);
  }
}
