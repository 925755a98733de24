/** One side of an order book as a map from raw price to raw size, and what a batch of level
    updates does to it (`apply_level`, `Book::from_snapshot`). */
module Levels {
  import opened Prelude

  type Side = map<u64, u64>

  // The whole book as a value: both sides and the exchange's id of the state they show.
  datatype BookState = BookState(asks: Side, bids: Side, changeId: u64)

  const EMPTY_BOOK: BookState := BookState(map[], map[], 0)

  datatype BookLevel = BookLevel(action: string, price: u64, size: u64)

  predicate Sets(level: BookLevel) {
    level.action == "new" || level.action == "change"
  }

  predicate Deletes(level: BookLevel) {
    level.action == "delete"
  }

  function ApplyLevel(side: Side, level: BookLevel): Side {
    if Sets(level) then side[level.price := level.size]
    else if Deletes(level) then side - {level.price}
    else side
  }

  // The levels of one update, applied first to last.
  function ApplyBatch(side: Side, levels: seq<BookLevel>): Side {
    if levels == [] then side
    else ApplyLevel(ApplyBatch(side, levels[..|levels| - 1]), levels[|levels| - 1])
  }

  // The levels of a snapshot, collected into a map: the action is not looked at.
  function FromListing(levels: seq<BookLevel>): Side {
    if levels == [] then map[]
    else var last := levels[|levels| - 1]; FromListing(levels[..|levels| - 1])[last.price := last.size]
  }

  // ----- what a batch means, price by price

  predicate Speaks(level: BookLevel, price: u64) {
    level.price == price && (Sets(level) || Deletes(level))
  }

  ghost predicate Decides(levels: seq<BookLevel>, i: int, price: u64) {
    && 0 <= i < |levels|
    && Speaks(levels[i], price)
    && forall j :: i < j < |levels| ==> !Speaks(levels[j], price)
  }

  ghost predicate Silent(levels: seq<BookLevel>, price: u64) {
    forall j :: 0 <= j < |levels| ==> !Speaks(levels[j], price)
  }

  lemma LevelMeaning(side: Side, level: BookLevel, price: u64)
    ensures Lookup(ApplyLevel(side, level), price) ==
            if !Speaks(level, price) then Lookup(side, price)
            else if Sets(level) then Some(level.size) else None
  {
  }

  // The actions by name: "new" and "change" set, "delete" removes, and any other changes nothing.
  lemma ActionsByName(side: Side, price: u64, size: u64, other: string)
    requires other != "new" && other != "change" && other != "delete"
    ensures ApplyLevel(side, BookLevel("new", price, size)) == side[price := size]
    ensures ApplyLevel(side, BookLevel("change", price, size)) == side[price := size]
    ensures ApplyLevel(side, BookLevel("delete", price, size)) == side - {price}
    ensures ApplyLevel(side, BookLevel(other, price, size)) == side
  {
    assert "new"[0] == 'n' && "change"[0] == 'c' && "delete"[0] == 'd';
  }

  // After a batch each price holds what the last recognised action on it says, or its old value.
  lemma {:induction false} BatchMeaning(side: Side, levels: seq<BookLevel>, price: u64)
    ensures forall i :: Decides(levels, i, price) ==>
              Lookup(ApplyBatch(side, levels), price) ==
              if Sets(levels[i]) then Some(levels[i].size) else None
    ensures Silent(levels, price) ==> Lookup(ApplyBatch(side, levels), price) == Lookup(side, price)
  {
    hide ApplyLevel, Speaks, Sets;
    if levels != [] {
      var n := |levels| - 1;
      hide Decides, Silent;
      LevelMeaning(ApplyBatch(side, levels[..n]), levels[n], price);
      LastDecides(levels, price);
      BatchMeaning(side, levels[..n], price);
    }
  }

  // The last level decides if it speaks; otherwise the others do.
  lemma LastDecides(levels: seq<BookLevel>, price: u64)
    requires levels != []
    ensures var n := |levels| - 1;
            && (Speaks(levels[n], price) ==>
                  !Silent(levels, price) && forall i :: Decides(levels, i, price) ==> i == n)
            && (!Speaks(levels[n], price) ==>
                  && (Silent(levels, price) ==> Silent(levels[..n], price))
                  && forall i :: Decides(levels, i, price) ==>
                       0 <= i < n && Decides(levels[..n], i, price) && levels[..n][i] == levels[i])
  {
    hide Speaks;
    var n := |levels| - 1;
    forall i | Decides(levels, i, price) && i != n ensures !Speaks(levels[n], price) && Decides(levels[..n], i, price) {
      assert i < n < |levels|;
    }
  }

  lemma {:induction false} DecidedOrSilent(levels: seq<BookLevel>, price: u64)
    ensures Silent(levels, price) || exists i :: Decides(levels, i, price)
  {
    if levels != [] {
      var front, last := levels[..|levels| - 1], levels[|levels| - 1];
      if Speaks(last, price) {
        assert Decides(levels, |levels| - 1, price);
      } else {
        DecidedOrSilent(front, price);
        if i :| Decides(front, i, price) {
          assert Decides(levels, i, price);
        }
      }
    }
  }

  lemma SidesEqual(a: Side, b: Side)
    requires forall p: u64 :: Lookup(a, p) == Lookup(b, p)
    ensures a == b
  {
    forall p: u64
      ensures p in a <==> p in b
      ensures p in a ==> a[p] == b[p]
    {
      assert Lookup(a, p) == Lookup(b, p);
    }
  }

  // Applying the same batch twice changes nothing more: a repeated delta is harmless.
  lemma BatchIdempotent(side: Side, levels: seq<BookLevel>)
    ensures ApplyBatch(ApplyBatch(side, levels), levels) == ApplyBatch(side, levels)
  {
    var once := ApplyBatch(side, levels);
    forall p: u64 ensures Lookup(ApplyBatch(once, levels), p) == Lookup(once, p) {
      BatchMeaning(side, levels, p);
      BatchMeaning(once, levels, p);
      DecidedOrSilent(levels, p);
    }
    SidesEqual(ApplyBatch(once, levels), once);
  }

  // The two sides hold the same wherever the batch has nothing to say.
  ghost predicate AgreeOutside(a: Side, b: Side, levels: seq<BookLevel>) {
    forall p: u64 :: Silent(levels, p) ==> Lookup(a, p) == Lookup(b, p)
  }

  // A batch brings two sides together exactly if they already agree outside it.
  lemma BatchesMeet(a: Side, b: Side, levels: seq<BookLevel>)
    ensures ApplyBatch(a, levels) == ApplyBatch(b, levels) <==> AgreeOutside(a, b, levels)
  {
    hide ApplyBatch, Decides, Silent;
    forall p: u64
      ensures Lookup(ApplyBatch(a, levels), p) == Lookup(ApplyBatch(b, levels), p) <==>
              (Silent(levels, p) ==> Lookup(a, p) == Lookup(b, p))
    {
      BatchMeaning(a, levels, p);
      BatchMeaning(b, levels, p);
      DecidedOrSilent(levels, p);
    }
    if AgreeOutside(a, b, levels) {
      SidesEqual(ApplyBatch(a, levels), ApplyBatch(b, levels));
    }
  }

  function AsNew(levels: seq<BookLevel>): seq<BookLevel> {
    seq(|levels|, i requires 0 <= i < |levels| => levels[i].(action := "new"))
  }

  // A snapshot is the batch that adds each of its levels to an empty side.
  lemma {:induction false} ListingIsBatchOfNew(levels: seq<BookLevel>)
    ensures FromListing(levels) == ApplyBatch(map[], AsNew(levels))
  {
    if levels != [] {
      var front := levels[..|levels| - 1];
      ListingIsBatchOfNew(front);
      assert AsNew(levels)[..|levels| - 1] == AsNew(front);
    }
  }
}
