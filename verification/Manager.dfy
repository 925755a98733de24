/** The manager of one instrument's book: it takes in a stream of updates, edits its book in place,
    announces each changed book, and resubscribes when a stream ends. */
module Manager {
  import opened Prelude
  import opened Levels
  import opened Feed
  import opened SortedSide
  import opened OrderBook

  class BookManager {
    var book: Book
    var ready: bool
    var announced: seq<BookState>

    ghost var Repr: set<object>

    ghost predicate Valid()
      reads this, Repr
      ensures Valid() ==> this in Repr
    {
      this in Repr && book in Repr && book.Repr <= Repr && this !in book.Repr && book.Valid()
    }

    ghost function State(): Local
      requires Valid()
      reads this, Repr
    {
      Local(book.State(), ready, announced)
    }

    constructor ()
      ensures Valid() && fresh(Repr) && State() == NEW_LOCAL
    {
      var b := new Book();
      book, ready, announced := b, false, [];
      Repr := {this} + b.Repr;
    }

    // Handles the items of one stream until one of them ends it; `exit` is None when they run out.
    method HandleBookStream(items: seq<StreamItem>) returns (exit: Option<Exit>, handled: nat)
      requires Valid()
      modifies Repr
      ensures Valid() && fresh(Repr - old(Repr))
      ensures Progress(State(), exit, handled) == HandleAll(Progress(old(State()), None, 0), items)
    {
      hide TakeUpdate, Gap, HandleAll, ApplyBatch, FromListing, View, Ascending;
      ghost var start := Progress(State(), None, 0);
      exit, handled := None, 0;
      assert HandleAll(start, items[..0]) == start by { HandleNone(start, items); }
      while handled < |items| && exit.None?
        invariant Valid() && fresh(Repr - old(Repr))
        invariant handled <= |items|
        invariant Progress(State(), exit, handled) == HandleAll(start, items[..handled])
      {
        HandleNext(start, items, handled);
        match items[handled] {
          case Lagged => exit := Some(StreamEnded);
          case Elapsed => exit := Some(StreamEnded);
          case Closed => exit := Some(Shutdown);
          case Received(ConnectionLost, _) => exit := Some(StreamEnded);
          case Received(Data(u), listening) =>
            var gap := Take(u, listening);
            exit := if gap then Some(StreamEnded) else None;
        }
        handled := handled + 1;
      }
      Rest(start, items, handled);
    }

    // Nothing beyond the item that ended the stream counts.
    lemma Rest(start: Progress, items: seq<StreamItem>, handled: nat)
      requires handled <= |items|
      requires handled == |items| || HandleAll(start, items[..handled]).exit.Some?
      ensures HandleAll(start, items[..handled]) == HandleAll(start, items)
    {
      assert items == items[..handled] + items[handled..];
      if handled == |items| {
        assert items[..handled] == items;
      } else {
        HandleConcat(start, items[..handled], items[handled..]);
        ExitIsFinal(HandleAll(start, items[..handled]), items[handled..]);
      }
    }

    // One update: a snapshot replaces the book, a change edits it unless its predecessor is not the
    // book's own state.
    method Take(u: Update, listening: bool) returns (gap: bool)
      requires Valid()
      modifies Repr
      ensures Valid() && fresh(Repr - old(Repr))
      ensures gap == Gap(old(State()).book.changeId, u)
      ensures State() == TakeUpdate(old(State()), u, listening)
    {
      gap := false;
      if u.kind.Snapshot? {
        book := new Book.FromSnapshot(u.asks, u.bids, u.changeId);
        ready := true;
        Repr := {this} + book.Repr;
      } else {
        if u.prevId.Some? && u.prevId.value != book.changeId {
          return true;
        }
        book.ApplyChange(u.changeId, u.asks, u.bids);
        Repr := Repr + book.Repr;
        if listening {
          var copy := book.Snapshot();
          announced := announced + [copy];
        }
      }
    }

    // The outer loop: subscribe, handle the stream, and go round again unless it was a shutdown.
    method MaintainBookState(sessions: seq<Session>)
      requires Valid()
      modifies Repr
      ensures Valid() && fresh(Repr - old(Repr))
      ensures State() == Maintain(old(State()), sessions)
    {
      hide HandleAll, TakeUpdate, Gap, ApplyBatch, FromListing, View, Ascending;
      ghost var start := State();
      var i, going := 0, true;
      assert sessions[0..] == sessions;
      while i < |sessions| && going
        invariant Valid() && fresh(Repr - old(Repr))
        invariant i <= |sessions|
        invariant (if going then Maintain(State(), sessions[i..]) else State()) == Maintain(start, sessions)
        decreases |sessions| - i
      {
        assert sessions[i..][0] == sessions[i] && sessions[i..][1..] == sessions[i + 1..];
        if sessions[i].Stream? {
          var exit, handled := HandleBookStream(sessions[i].items);
          going := exit == Some(StreamEnded);
        }
        i := i + 1;
      }
    }
  }
}
