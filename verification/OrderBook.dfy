/** The order book object: two ordered sides edited in place, and the queries on it. */
module OrderBook {
  import opened Prelude
  import opened Levels
  import opened SortedSide
  import opened Walk
  import opened Pricing
  import opened Listings

  ghost function Ahead(quotes: seq<Quote>, i: nat, remaining: nat): Fill
    requires i <= |quotes|
  {
    Sweep(quotes[i..], remaining)
  }

  // Of the fill of an order, `paid` and `filled` are settled and `rest` is still ahead.
  ghost predicate Splits(fill: Fill, paid: int, filled: int, rest: Fill) {
    fill.notional == paid + rest.notional && fill.filled == filled + rest.filled && rest.notional >= 0
  }

  // One level of the sweep: what stays ahead after it, and that nothing paid or filled leaves its word.
  lemma SweepStep(quotes: seq<Quote>, i: nat, remaining: nat, fill: Fill, paid: int, filled: int)
    returns (take: nat, amount: int)
    requires Priced(quotes) && i < |quotes| && remaining > 0
    requires Splits(fill, paid, filled, Ahead(quotes, i, remaining))
    ensures take == Min(remaining, quotes[i].size) && amount == Amount(quotes[i].price, take) >= 0
    ensures Splits(fill, paid + amount, filled + take, Ahead(quotes, i + 1, remaining - take))
    ensures paid + amount <= fill.notional && filled + take <= fill.filled
  {
    take := Min(remaining, quotes[i].size);
    amount := Amount(quotes[i].price, take);
    assert quotes[i..][0] == quotes[i] && quotes[i..][1..] == quotes[i + 1..];
    NotionalBounds(quotes[i + 1..], remaining - take, 0, MAX_U64);
    Scale(0, quotes[i].price, take);
  }

  // A whole order's fill fits its words.
  lemma FillFits(quotes: seq<Quote>, quantity: u64) returns (fill: Fill)
    requires Priced(quotes)
    ensures fill == Sweep(quotes, quantity) == Ahead(quotes, 0, quantity)
    ensures 0 <= fill.notional < U128_LIMIT && fill.filled <= quantity
    ensures Splits(fill, 0, 0, Ahead(quotes, 0, quantity))
  {
    NoOverflow(quotes, quantity);
    fill := Sweep(quotes, quantity);
    assert quotes[0..] == quotes;
  }

  lemma AllSettled(quotes: seq<Quote>, i: nat, remaining: nat, fill: Fill, paid: int, filled: int)
    requires i == |quotes| || (i < |quotes| && remaining == 0)
    requires Splits(fill, paid, filled, Ahead(quotes, i, remaining))
    ensures paid == fill.notional && filled == fill.filled
  {
  }

  class Book {
    var asks: OrderedLevels
    var bids: OrderedLevels
    var changeId: u64

    ghost var Repr: set<object>

    ghost predicate Valid()
      reads this, Repr
      ensures Valid() ==> this in Repr
    {
      && this in Repr && asks in Repr && bids in Repr && asks.data in Repr && bids.data in Repr
      && asks != bids && asks.data != bids.data && asks.Valid() && bids.Valid()
    }

    ghost function State(): BookState
      requires Valid()
      reads this, Repr
    {
      BookState(asks.Contents(), bids.Contents(), changeId)
    }

    // The quotes an order meets, read from the array of the side it meets.
    ghost function Orders(side: OrderSide): (quotes: seq<Quote>)
      requires Valid()
      reads this, Repr
      ensures Priced(quotes) && |quotes| == if side.Buy? then asks.len else bids.len
    {
      InOrder(side, if side.Buy? then asks.Entries() else bids.Entries())
    }

    // They are every level of that side's map, once, with its size, best price first.
    lemma OrdersList(side: OrderSide)
      requires Valid()
      ensures Lists(Orders(side), Opposite(State(), side)) && BestFirst(side, Orders(side))
      ensures if side.Buy? then Cheapest(Orders(side)) else Dearest(Orders(side))
    {
      hide View, Ascending, Lists, BestFirst, Cheapest, Dearest, InOrder;
      InOrderLists(side, if side.Buy? then asks.Entries() else bids.Entries());
    }

    constructor ()
      ensures Valid() && State() == EMPTY_BOOK && fresh(Repr)
    {
      var a := new OrderedLevels();
      var b := new OrderedLevels();
      asks, bids, changeId := a, b, 0;
      Repr := {this, a, b, a.data, b.data};
    }

    constructor FromSnapshot(askLevels: seq<BookLevel>, bidLevels: seq<BookLevel>, id: u64)
      ensures Valid() && fresh(Repr)
      ensures State() == BookState(FromListing(askLevels), FromListing(bidLevels), id)
    {
      var a := Collect(askLevels);
      var b := Collect(bidLevels);
      asks, bids, changeId := a, b, id;
      Repr := {this, a, b, a.data, b.data};
    }

    // `clone()`: the book as a value.
    method Snapshot() returns (copy: BookState)
      requires Valid()
      ensures copy == State()
    {
      var a := asks.ToMap();
      var b := bids.ToMap();
      return BookState(a, b, changeId);
    }

    // Edits the book by a change: the new id, then its levels first to last.
    method ApplyChange(id: u64, askLevels: seq<BookLevel>, bidLevels: seq<BookLevel>)
      requires Valid()
      modifies Repr
      ensures Valid() && fresh(Repr - old(Repr))
      ensures State() == BookState(ApplyBatch(old(State()).asks, askLevels),
                                   ApplyBatch(old(State()).bids, bidLevels), id)
    {
      changeId := id;
      ApplyTo(asks, askLevels);
      ApplyTo(bids, bidLevels);
      Repr := Repr + {asks.data, bids.data};
    }

    // The i-th level met by an order, read from the side's array.
    function LevelAt(side: OrderSide, i: nat): (level: Entry)
      requires Valid() && i < if side.Buy? then asks.len else bids.len
      reads this, Repr
      ensures Orders(side)[i] == Quote(level.price, level.size)
    {
      if side.Buy? then asks.data[i] else bids.data[bids.len - 1 - i]
    }

    // The loop of `walk_book`: what an order pays, fills and leaves, in machine words.
    method SweepLevels(side: OrderSide, quantity: u64) returns (notional: u128, filled: u64, remaining: u64)
      requires Valid()
      ensures Sweep(Orders(side), quantity) == Fill(notional, filled)
      ensures filled + remaining == quantity
    {
      hide Sweep, Ahead, Splits, Amount, Orders, Priced, Lists, BestFirst;
      ghost var quotes := Orders(side);
      ghost var fill := FillFits(quotes, quantity);
      var count := if side.Buy? then asks.len else bids.len;
      remaining, notional, filled := quantity, 0, 0;
      var i := 0;
      while i < count && remaining != 0
        invariant 0 <= i <= count == |quotes|
        invariant filled + remaining == quantity
        invariant Splits(fill, notional, filled, Ahead(quotes, i, remaining))
      {
        var level := LevelAt(side, i);
        ghost var share, amount := SweepStep(quotes, i, remaining, fill, notional, filled);
        var take := Min(remaining, level.size);
        notional := notional + Amount(level.price, take);
        filled := filled + take;
        remaining := remaining - take;
        i := i + 1;
      }
      AllSettled(quotes, i, remaining, fill, notional, filled);
    }

    method WalkBook(side: OrderSide, quantity: u64) returns (r: Option<WalkResult>)
      requires Valid()
      ensures r == Report(Orders(side), quantity)
      ensures forall quotes :: Lists(quotes, Opposite(State(), side)) && BestFirst(side, quotes) ==>
                r == Report(quotes, quantity)
    {
      hide Sweep, Orders, Lists, BestFirst, View, Ascending;
      OrdersList(side);
      forall quotes | Lists(quotes, Opposite(State(), side)) && BestFirst(side, quotes) ensures quotes == Orders(side) {
        OneListing(side, quotes, Orders(side), Opposite(State(), side));
      }
      var notional, filled, remaining := SweepLevels(side, quantity);
      if filled == 0 {
        return None;
      }
      NoOverflow(Orders(side), quantity);
      return Some(WalkResult(notional / filled, filled, remaining));
    }

    method BestAsk() returns (r: Option<u64>)
      requires Valid()
      ensures r.None? <==> State().asks == map[]
      ensures r.Some? ==> r.value in State().asks && forall p :: p in State().asks ==> r.value <= p
      ensures r.Some? ==> |Orders(Buy)| > 0 && r.value == Orders(Buy)[0].price
    {
      r := asks.First();
    }

    method BestBid() returns (r: Option<u64>)
      requires Valid()
      ensures r.None? <==> State().bids == map[]
      ensures r.Some? ==> r.value in State().bids && forall p :: p in State().bids ==> p <= r.value
      ensures r.Some? ==> |Orders(Sell)| > 0 && r.value == Orders(Sell)[0].price
    {
      r := bids.Last();
    }

    // A bound on what buying and selling back costs per unit, exactly if no bid of positive size lies
    // above an ask of positive size.
    method Spread() returns (r: Option<u64>)
      requires Valid()
      ensures r.None? <==> State().asks == map[] || State().bids == map[]
      ensures r.Some? ==> |Orders(Buy)| > 0 && |Orders(Sell)| > 0
      ensures r.Some? ==> r.value == SpreadOf(Orders(Buy)[0].price, Orders(Sell)[0].price)
      ensures r.Some? ==>
                exists a, b ::
                  && a in State().asks && (forall p :: p in State().asks ==> a <= p)
                  && b in State().bids && (forall p :: p in State().bids ==> p <= b)
                  && r.value == if b <= a then a - b else 0
      ensures r.Some? ==>
                (RoundTripsCost(Orders(Buy), Orders(Sell), r.value) <==> Uncrossed(Orders(Buy), Orders(Sell)))
    {
      hide RoundTripsCost, Uncrossed, Orders, Lists, BestFirst, View, Ascending;
      var ask := BestAsk();
      var bid := BestBid();
      if ask.None? || bid.None? {
        return None;
      }
      OrdersList(Buy);
      OrdersList(Sell);
      SpreadBoundIffUncrossed(Orders(Buy), Orders(Sell));
      return Some(if ask.value >= bid.value then ask.value - bid.value else 0);
    }

    // The middle lies between the best prices, whichever way round they are, and fits the word.
    method MidPrice() returns (r: Option<u64>)
      requires Valid()
      ensures r.None? <==> State().asks == map[] || State().bids == map[]
      ensures r.Some? ==> |Orders(Buy)| > 0 && |Orders(Sell)| > 0
      ensures r.Some? ==>
                var ask: int, bid: int := Orders(Buy)[0].price, Orders(Sell)[0].price;
                && Min(ask, bid) <= r.value <= ask + bid - Min(ask, bid)
                && 0 <= (ask + bid) - 2 * r.value <= 1
    {
      hide Orders, Lists, BestFirst, View, Ascending;
      var ask := BestAsk();
      var bid := BestBid();
      if ask.None? || bid.None? {
        return None;
      }
      var a: u128, b: u128 := ask.value, bid.value;
      return Some((a + b) / 2);
    }
  }

  method ApplyTo(side: OrderedLevels, levels: seq<BookLevel>)
    requires side.Valid()
    modifies side, side.data
    ensures side.Valid() && side.Contents() == ApplyBatch(old(side.Contents()), levels)
    ensures side.data == old(side.data) || fresh(side.data)
  {
    for i := 0 to |levels|
      invariant side.Valid() && side.Contents() == ApplyBatch(old(side.Contents()), levels[..i])
      invariant side.data == old(side.data) || fresh(side.data)
    {
      side.Apply(levels[i]);
      assert levels[..i + 1][..i] == levels[..i];
    }
    assert levels[..|levels|] == levels;
  }

  // `iter().map().collect()`: a repeated price keeps its last size.
  method Collect(levels: seq<BookLevel>) returns (side: OrderedLevels)
    ensures side.Valid() && fresh(side) && fresh(side.data) && side.Contents() == FromListing(levels)
  {
    side := new OrderedLevels();
    for i := 0 to |levels|
      invariant side.Valid() && fresh(side) && fresh(side.data)
      invariant side.Contents() == FromListing(levels[..i])
    {
      side.Insert(levels[i].price, levels[i].size);
      assert levels[..i + 1][..i] == levels[..i];
    }
    assert levels[..|levels|] == levels;
  }
}
