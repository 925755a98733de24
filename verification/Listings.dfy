/** The quotes of a side as an order meets them: which sequences list the side's map best price first,
    and that there is only one. */
module Listings {
  import opened Prelude
  import opened Levels
  import opened SortedSide
  import opened Walk
  import opened Pricing

  datatype OrderSide = Buy | Sell

  // Every level of the map stands in the sequence once, with its size, and nothing else does.
  ghost predicate Lists(quotes: seq<Quote>, levels: Side) {
    && Priced(quotes)
    && (forall i :: 0 <= i < |quotes| ==> Lookup(levels, quotes[i].price) == Some(quotes[i].size))
    && (forall i, j :: 0 <= i < j < |quotes| ==> quotes[i].price != quotes[j].price)
    && (forall p :: p in levels ==> exists i :: 0 <= i < |quotes| && quotes[i].price == p)
  }

  // Asks from the cheapest up for a Buy, bids from the dearest down for a Sell.
  ghost predicate BestFirst(side: OrderSide, quotes: seq<Quote>) {
    forall i, j :: 0 <= i < j < |quotes| ==>
      if side.Buy? then quotes[i].price < quotes[j].price else quotes[i].price > quotes[j].price
  }

  // The side of the book that an order of this side meets.
  function Opposite(book: BookState, side: OrderSide): Side {
    if side.Buy? then book.asks else book.bids
  }

  ghost function Quotes(entries: seq<Entry>): (quotes: seq<Quote>)
    ensures |quotes| == |entries|
    ensures forall i :: 0 <= i < |entries| ==> quotes[i] == Quote(entries[i].price, entries[i].size)
    ensures Priced(quotes)
  {
    seq(|entries|, i requires 0 <= i < |entries| => Quote(entries[i].price, entries[i].size))
  }

  ghost function Backwards(quotes: seq<Quote>): (back: seq<Quote>)
    ensures |back| == |quotes|
    ensures forall i :: 0 <= i < |quotes| ==> back[i] == quotes[|quotes| - 1 - i]
  {
    seq(|quotes|, i requires 0 <= i < |quotes| => quotes[|quotes| - 1 - i])
  }

  // A sorted array lists the map it stands for.
  lemma EntriesList(entries: seq<Entry>)
    requires Ascending(entries)
    ensures Lists(Quotes(entries), View(entries)) && BestFirst(Buy, Quotes(entries))
  {
    hide View;
    var quotes := Quotes(entries);
    forall i | 0 <= i < |quotes| ensures Lookup(View(entries), quotes[i].price) == Some(quotes[i].size) {
      ViewAt(entries, i);
    }
    forall p | p in View(entries) ensures exists i :: 0 <= i < |quotes| && quotes[i].price == p {
      ViewKeys(entries, p);
      var i :| 0 <= i < |entries| && entries[i].price == p;
      assert quotes[i].price == p;
    }
  }

  lemma BackwardsLists(quotes: seq<Quote>, levels: Side)
    requires Lists(quotes, levels)
    ensures Lists(Backwards(quotes), levels)
  {
    var n, back := |quotes| - 1, Backwards(quotes);
    assert forall i :: 0 <= i < |back| ==> back[i] == quotes[n - i];
    forall p | p in levels ensures exists i :: 0 <= i < |back| && back[i].price == p {
      var i :| 0 <= i < |quotes| && quotes[i].price == p;
      assert back[n - i].price == p;
    }
  }

  lemma BackwardsTurns(quotes: seq<Quote>)
    ensures BestFirst(Buy, quotes) ==> BestFirst(Sell, Backwards(quotes))
    ensures BestFirst(Sell, quotes) ==> BestFirst(Buy, Backwards(quotes))
  {
  }

  lemma BestFirstIsSorted(quotes: seq<Quote>)
    ensures BestFirst(Buy, quotes) ==> Cheapest(quotes)
    ensures BestFirst(Sell, quotes) ==> Dearest(quotes)
  {
  }

  // A sorted array as an order of this side walks it.
  ghost function InOrder(side: OrderSide, entries: seq<Entry>): (quotes: seq<Quote>)
    ensures |quotes| == |entries| && Priced(quotes)
    ensures forall i :: 0 <= i < |quotes| ==>
              var e := entries[if side.Buy? then i else |entries| - 1 - i];
              quotes[i] == Quote(e.price, e.size)
  {
    if side.Buy? then Quotes(entries) else Backwards(Quotes(entries))
  }

  lemma InOrderLists(side: OrderSide, entries: seq<Entry>)
    requires Ascending(entries)
    ensures Lists(InOrder(side, entries), View(entries)) && BestFirst(side, InOrder(side, entries))
    ensures if side.Buy? then Cheapest(InOrder(side, entries)) else Dearest(InOrder(side, entries))
  {
    hide View, Ascending, Lists, BestFirst, Cheapest, Dearest;
    EntriesList(entries);
    BackwardsLists(Quotes(entries), View(entries));
    BackwardsTurns(Quotes(entries));
    BestFirstIsSorted(InOrder(side, entries));
  }

  ghost function EntriesOf(quotes: seq<Quote>): (entries: seq<Entry>)
    requires Priced(quotes) && forall i :: 0 <= i < |quotes| ==> quotes[i].size <= MAX_U64
    ensures |entries| == |quotes|
    ensures forall i :: 0 <= i < |quotes| ==> entries[i] == Entry(quotes[i].price, quotes[i].size)
  {
    seq(|quotes|, i requires 0 <= i < |quotes| => Entry(quotes[i].price, quotes[i].size))
  }

  // A listing from the cheapest up is a sorted array of the map.
  lemma ListingIsSorted(quotes: seq<Quote>, levels: Side) returns (entries: seq<Entry>)
    requires Lists(quotes, levels) && BestFirst(Buy, quotes)
    ensures Ascending(entries) && View(entries) == levels && Quotes(entries) == quotes
  {
    hide View;
    assert forall i :: 0 <= i < |quotes| ==> levels[quotes[i].price] == quotes[i].size;
    entries := EntriesOf(quotes);
    forall p: u64 ensures Lookup(View(entries), p) == Lookup(levels, p) {
      ViewKeys(entries, p);
      if i :| 0 <= i < |entries| && entries[i].price == p {
        ViewAt(entries, i);
      }
      if p in levels {
        var i :| 0 <= i < |quotes| && quotes[i].price == p;
        assert entries[i].price == p;
      }
    }
    SidesEqual(View(entries), levels);
  }

  // There is only one listing of a side, best price first.
  lemma OneListing(side: OrderSide, a: seq<Quote>, b: seq<Quote>, levels: Side)
    requires Lists(a, levels) && Lists(b, levels) && BestFirst(side, a) && BestFirst(side, b)
    ensures a == b
    decreases if side.Sell? then 1 else 0
  {
    hide Lists, BestFirst, View;
    if side.Buy? {
      var x := ListingIsSorted(a, levels);
      var y := ListingIsSorted(b, levels);
      OrderIsDetermined(x, y);
    } else {
      BackwardsLists(a, levels);
      BackwardsTurns(a);
      BackwardsLists(b, levels);
      BackwardsTurns(b);
      OneListing(Buy, Backwards(a), Backwards(b), levels);
      assert Backwards(Backwards(a)) == a && Backwards(Backwards(b)) == b;
    }
  }
}
