/** The order book feed as values: the messages, what an honest exchange sends, and what handling a
    stream of them does to the local book (`handle_book_stream`, `maintain_book_state`). */
module Feed {
  import opened Prelude
  import opened Levels

  datatype UpdateKind = Snapshot | Change

  datatype Update = Update(instrument: string, kind: UpdateKind, changeId: u64, prevId: Option<u64>,
                           asks: seq<BookLevel>, bids: seq<BookLevel>)

  datatype Message = Data(update: Update) | ConnectionLost

  // What one wait on the stream yields. `listening`: someone is subscribed to the manager's books.
  datatype StreamItem =
    | Received(message: Message, listening: bool)
    | Lagged
    | Elapsed
    | Closed

  datatype Exit = StreamEnded | Shutdown

  // What the manager holds: its book, whether a snapshot has come, and the books it has announced.
  datatype Local = Local(book: BookState, ready: bool, announced: seq<BookState>)

  const NEW_LOCAL: Local := Local(EMPTY_BOOK, false, [])

  datatype Progress = Progress(local: Local, exit: Option<Exit>, handled: nat)

  function Install(u: Update): BookState {
    BookState(FromListing(u.asks), FromListing(u.bids), u.changeId)
  }

  function Advance(book: BookState, u: Update): BookState {
    BookState(ApplyBatch(book.asks, u.asks), ApplyBatch(book.bids, u.bids), u.changeId)
  }

  // A change that names a predecessor other than the book's own state.
  predicate Gap(bookId: u64, u: Update) {
    u.kind.Change? && u.prevId.Some? && u.prevId.value != bookId
  }

  function TakeUpdate(l: Local, u: Update, listening: bool): Local {
    if u.kind.Snapshot? then l.(book := Install(u), ready := true)
    else if Gap(l.book.changeId, u) then l
    else
      var book := Advance(l.book, u);
      l.(book := book, announced := if listening then l.announced + [book] else l.announced)
  }

  function Handle(p: Progress, item: StreamItem): Progress {
    if p.exit.Some? then p
    else
      var q := p.(handled := p.handled + 1);
      match item
      case Lagged => q.(exit := Some(StreamEnded))
      case Elapsed => q.(exit := Some(StreamEnded))
      case Closed => q.(exit := Some(Shutdown))
      case Received(ConnectionLost, _) => q.(exit := Some(StreamEnded))
      case Received(Data(u), listening) =>
        q.(local := TakeUpdate(p.local, u, listening),
           exit := if Gap(p.local.book.changeId, u) then Some(StreamEnded) else None)
  }

  function HandleAll(p: Progress, items: seq<StreamItem>): Progress {
    if items == [] then p else Handle(HandleAll(p, items[..|items| - 1]), items[|items| - 1])
  }

  lemma HandleNone(p: Progress, items: seq<StreamItem>)
    ensures HandleAll(p, items[..0]) == p
  {
  }

  lemma HandleNext(p: Progress, items: seq<StreamItem>, k: nat)
    requires k < |items|
    ensures HandleAll(p, items[..k + 1]) == Handle(HandleAll(p, items[..k]), items[k])
  {
    assert items[..k + 1][..k] == items[..k];
  }

  lemma {:induction false} HandleConcat(p: Progress, a: seq<StreamItem>, b: seq<StreamItem>)
    ensures HandleAll(p, a + b) == HandleAll(HandleAll(p, a), b)
  {
    hide Handle;
    if b == [] {
      assert a + b == a;
    } else {
      HandleConcat(p, a, b[..|b| - 1]);
      assert (a + b)[..|a + b| - 1] == a + b[..|b| - 1];
    }
  }

  // After the exit nothing more is handled.
  lemma {:induction false} ExitIsFinal(p: Progress, items: seq<StreamItem>)
    requires p.exit.Some?
    ensures HandleAll(p, items) == p
  {
    if items != [] {
      ExitIsFinal(p, items[..|items| - 1]);
    }
  }

  // Items that end a stream whatever the book.
  predicate Ends(item: StreamItem) {
    item.Lagged? || item.Elapsed? || item.Closed? || (item.Received? && item.message.ConnectionLost?)
  }

  // A stream is handled up to the first item that ends it, and the reason is that item's: shutdown for
  // a closed feed, resubscription for a lag, a timeout, a loss marker or a change that does not follow.
  lemma {:induction false} ExitNamesItsItem(p: Progress, items: seq<StreamItem>)
    requires p.exit.None?
    ensures var end := HandleAll(p, items);
            && p.handled <= end.handled <= p.handled + |items|
            && (end.exit.None? ==>
                  end.handled == p.handled + |items| && forall i :: 0 <= i < |items| ==> !Ends(items[i]))
            && (end.exit.Some? ==>
                  && end.handled > p.handled
                  && var n := end.handled - p.handled - 1;
                  && (forall i :: 0 <= i < n ==> !Ends(items[i]))
                  && (end.exit.value.Shutdown? <==> items[n].Closed?)
                  && (Ends(items[n]) || (items[n].Received? && Gap(end.local.book.changeId, items[n].message.update))))
  {
    if items != [] {
      ExitNamesItsItem(p, items[..|items| - 1]);
    }
  }

  // ----- gap detection over whole streams

  // `listening(i)`: whether someone listens to the manager's books when update i comes.
  function Updates(us: seq<Update>, listening: nat -> bool): seq<StreamItem> {
    seq(|us|, i requires 0 <= i < |us| => Received(Data(us[i]), listening(i)))
  }

  // The book that the updates describe when every one is taken at its word.
  function Replay(book: BookState, us: seq<Update>): BookState {
    if us == [] then book
    else
      var before, u := Replay(book, us[..|us| - 1]), us[|us| - 1];
      if u.kind.Snapshot? then Install(u) else Advance(before, u)
  }

  // The books that listeners hear of: the replayed book after each change that comes while they listen.
  function Heard(book: BookState, us: seq<Update>, listening: nat -> bool): seq<BookState> {
    if us == [] then []
    else
      var n := |us| - 1;
      var before := Heard(book, us[..n], listening);
      if us[n].kind.Change? && listening(n) then before + [Replay(book, us)] else before
  }

  // Read off the ids alone: update i does not follow on from the one before it.
  predicate GapAt(bookId: u64, us: seq<Update>, i: nat)
    requires i < |us|
  {
    Gap(if i == 0 then bookId else us[i - 1].changeId, us[i])
  }

  predicate Contiguous(bookId: u64, us: seq<Update>) {
    forall i :: 0 <= i < |us| ==> !GapAt(bookId, us, i)
  }

  lemma {:induction false} ContiguousIsConsumed(p: Progress, us: seq<Update>, listening: nat -> bool)
    requires p.exit.None? && Contiguous(p.local.book.changeId, us)
    ensures var end := HandleAll(p, Updates(us, listening));
            && end.exit.None? && end.handled == p.handled + |us|
            && end.local.book == Replay(p.local.book, us)
            && end.local.announced == p.local.announced + Heard(p.local.book, us, listening)
            && end.local.book.changeId == (if us == [] then p.local.book.changeId else us[|us| - 1].changeId)
  {
    if us != [] {
      var n := |us| - 1;
      assert forall i :: 0 <= i < n ==> GapAt(p.local.book.changeId, us[..n], i) == GapAt(p.local.book.changeId, us, i);
      ContiguousIsConsumed(p, us[..n], listening);
      assert Updates(us, listening)[..n] == Updates(us[..n], listening);
      assert !GapAt(p.local.book.changeId, us, n);
    }
  }

  lemma StopsAtFirstGap(p: Progress, us: seq<Update>, listening: nat -> bool, k: nat)
    requires p.exit.None? && k < |us| && GapAt(p.local.book.changeId, us, k)
    requires forall i :: 0 <= i < k ==> !GapAt(p.local.book.changeId, us, i)
    ensures var end := HandleAll(p, Updates(us, listening));
            && end.exit == Some(StreamEnded) && end.handled == p.handled + k + 1
            && end.local.book == Replay(p.local.book, us[..k])
            && end.local.announced == p.local.announced + Heard(p.local.book, us[..k], listening)
  {
    hide HandleAll, Replay, Heard, Handle, Updates;
    FirstPartContiguous(p.local.book.changeId, us, k);
    ContiguousIsConsumed(p, us[..k], listening);
    var items := Updates(us, listening);
    UpTo(us, listening, k);
    HandleNext(p, items, k);
    GapEnds(HandleAll(p, items[..k]), us[k], listening(k));
    assert items == items[..k + 1] + items[k + 1..];
    HandleConcat(p, items[..k + 1], items[k + 1..]);
    ExitIsFinal(HandleAll(p, items[..k + 1]), items[k + 1..]);
  }

  lemma FirstPartContiguous(bookId: u64, us: seq<Update>, k: nat)
    requires k < |us| && GapAt(bookId, us, k) && forall i :: 0 <= i < k ==> !GapAt(bookId, us, i)
    ensures Contiguous(bookId, us[..k]) && Gap(if k == 0 then bookId else us[..k][k - 1].changeId, us[k])
  {
    assert forall i :: 0 <= i < k ==> GapAt(bookId, us[..k], i) == GapAt(bookId, us, i);
  }

  lemma UpTo(us: seq<Update>, listening: nat -> bool, k: nat)
    requires k < |us|
    ensures |Updates(us, listening)| == |us| && Updates(us, listening)[..k] == Updates(us[..k], listening)
    ensures Updates(us, listening)[k] == Received(Data(us[k]), listening(k))
  {
  }

  lemma GapEnds(p: Progress, u: Update, listening: bool)
    requires p.exit.None? && Gap(p.local.book.changeId, u)
    ensures Handle(p, Received(Data(u), listening)) == p.(handled := p.handled + 1, exit := Some(StreamEnded))
  {
  }

  lemma FirstGap(bookId: u64, us: seq<Update>) returns (k: nat)
    requires !Contiguous(bookId, us)
    ensures k < |us| && GapAt(bookId, us, k) && forall i :: 0 <= i < k ==> !GapAt(bookId, us, i)
  {
    k := 0;
    while !GapAt(bookId, us, k)
      invariant k < |us|
      decreases |us| - k
      invariant exists i :: k <= i < |us| && GapAt(bookId, us, i)
      invariant forall i :: 0 <= i < k ==> !GapAt(bookId, us, i)
    {
      k := k + 1;
    }
  }

  // Gap detection is exact: the whole stream is taken in if and only if it has no gap, and the book
  // is then the replayed one; otherwise everything before the first gap is taken in and nothing after.
  // What is taken in is announced change by change, as it stands after each.
  lemma GapDetectionIsExact(p: Progress, us: seq<Update>, listening: nat -> bool)
    requires p.exit.None?
    ensures var end := HandleAll(p, Updates(us, listening));
            && (end.exit.None? <==> Contiguous(p.local.book.changeId, us))
            && (end.exit.None? ==>
                  && end.handled == p.handled + |us| && end.local.book == Replay(p.local.book, us)
                  && end.local.announced == p.local.announced + Heard(p.local.book, us, listening))
            && (end.exit.Some? ==>
                  && end.exit.value.StreamEnded?
                  && exists k: nat :: k < |us| && GapAt(p.local.book.changeId, us, k)
                      && end.handled == p.handled + k + 1 && end.local.book == Replay(p.local.book, us[..k])
                      && end.local.announced == p.local.announced + Heard(p.local.book, us[..k], listening)
                      && forall i :: 0 <= i < k ==> !GapAt(p.local.book.changeId, us, i))
  {
    if Contiguous(p.local.book.changeId, us) {
      ContiguousIsConsumed(p, us, listening);
    } else {
      var k := FirstGap(p.local.book.changeId, us);
      StopsAtFirstGap(p, us, listening, k);
    }
  }

  // ----- against an honest exchange

  datatype Sides = Sides(asks: Side, bids: Side)

  // The states of one instrument's book that the exchange has been in, by id.
  type History = map<u64, Sides>

  const FIRST_HISTORY: History := map[0 := Sides(map[], map[])]

  // A snapshot lists the state it names; a change names its predecessor and leads from it to its own.
  predicate Honest(h: History, u: Update) {
    && u.changeId in h
    && match u.kind
       case Snapshot => h[u.changeId] == Sides(FromListing(u.asks), FromListing(u.bids))
       case Change =>
         && u.prevId.Some? && u.prevId.value in h
         && h[u.changeId] ==
            Sides(ApplyBatch(h[u.prevId.value].asks, u.asks), ApplyBatch(h[u.prevId.value].bids, u.bids))
  }

  // The local book is the exchange's book at the id it shows.
  predicate Faithful(h: History, book: BookState) {
    book.changeId in h && h[book.changeId] == Sides(book.asks, book.bids)
  }

  lemma {:induction false} ReplayIsFaithful(h: History, book: BookState, us: seq<Update>)
    requires forall i :: 0 <= i < |us| ==> Honest(h, us[i])
    requires Contiguous(book.changeId, us)
    requires Faithful(h, book) || (us != [] && us[0].kind.Snapshot?)
    ensures Faithful(h, Replay(book, us))
    ensures Replay(book, us).changeId == if us == [] then book.changeId else us[|us| - 1].changeId
  {
    if us != [] {
      var n := |us| - 1;
      if us[n].kind.Change? {
        assert forall i :: 0 <= i < n ==> GapAt(book.changeId, us[..n], i) == GapAt(book.changeId, us, i);
        ReplayIsFaithful(h, book, us[..n]);
        assert !GapAt(book.changeId, us, n);
      }
    }
  }

  // A snapshot and then contiguous changes leave the state the last of them names.
  lemma SnapshotThenChangesReachLatest(h: History, p: Progress, us: seq<Update>, listening: nat -> bool)
    requires forall i :: 0 <= i < |us| ==> Honest(h, us[i])
    requires p.exit.None? && us != [] && us[0].kind.Snapshot? && Contiguous(p.local.book.changeId, us)
    ensures var end := HandleAll(p, Updates(us, listening));
            && end.exit.None? && end.local.ready && end.handled == p.handled + |us|
            && var last := us[|us| - 1].changeId;
               last in h && end.local.book == BookState(h[last].asks, h[last].bids, last)
  {
    ContiguousIsConsumed(p, us, listening);
    ReplayIsFaithful(h, p.local.book, us);
    var items := Updates(us, listening);
    assert items == items[..1] + items[1..];
    assert items[..1][..0] == [];
    HandleConcat(p, items[..1], items[1..]);
    assert HandleAll(p, []) == p;
    assert HandleAll(p, items[..1]) == Handle(p, items[0]);
    ReadyStays(HandleAll(p, items[..1]), items[1..]);
  }

  lemma {:induction false} ReadyStays(p: Progress, items: seq<StreamItem>)
    requires p.local.ready
    ensures HandleAll(p, items).local.ready
  {
    if items != [] {
      ReadyStays(p, items[..|items| - 1]);
    }
  }

  predicate IsSnapshot(item: StreamItem) {
    item.Received? && item.message.Data? && item.message.update.kind.Snapshot?
  }

  lemma ReadyStep(p: Progress, item: StreamItem)
    ensures p.exit.Some? ==> Handle(p, item) == p
    ensures p.exit.None? ==>
              && Handle(p, item).handled == p.handled + 1
              && (Handle(p, item).local.ready <==> p.local.ready || IsSnapshot(item))
  {
  }

  // Ready exactly if a snapshot was handled, now or before: no timeout, lag or change makes it so.
  lemma {:induction false} ReadyIffSnapshotHandled(p: Progress, items: seq<StreamItem>)
    requires p.exit.None?
    ensures var end := HandleAll(p, items);
            && p.handled <= end.handled <= p.handled + |items|
            && (end.exit.None? ==> end.handled == p.handled + |items|)
            && (end.local.ready <==>
                  p.local.ready || exists i :: 0 <= i < end.handled - p.handled && IsSnapshot(items[i]))
  {
    hide Handle, IsSnapshot;
    if items != [] {
      var n := |items| - 1;
      ReadyIffSnapshotHandled(p, items[..n]);
      ReadyStep(HandleAll(p, items[..n]), items[n]);
      assert forall i :: 0 <= i < n ==> items[..n][i] == items[i];
    }
  }

  predicate AllFaithful(h: History, books: seq<BookState>) {
    forall i :: 0 <= i < |books| ==> Faithful(h, books[i])
  }

  predicate HonestItem(h: History, item: StreamItem) {
    item.Received? && item.message.Data? ==> Honest(h, item.message.update)
  }

  lemma HandleKeepsFaithful(h: History, p: Progress, item: StreamItem)
    requires HonestItem(h, item) && Faithful(h, p.local.book) && AllFaithful(h, p.local.announced)
    ensures Faithful(h, Handle(p, item).local.book) && AllFaithful(h, Handle(p, item).local.announced)
  {
  }

  // Whatever arrives, in whatever order, with timeouts and lag errors in between.
  lemma {:induction false} StreamKeepsFaithful(h: History, p: Progress, items: seq<StreamItem>)
    requires forall i :: 0 <= i < |items| ==> HonestItem(h, items[i])
    requires Faithful(h, p.local.book) && AllFaithful(h, p.local.announced)
    ensures Faithful(h, HandleAll(p, items).local.book) && AllFaithful(h, HandleAll(p, items).local.announced)
  {
    if items != [] {
      StreamKeepsFaithful(h, p, items[..|items| - 1]);
      HandleKeepsFaithful(h, HandleAll(p, items[..|items| - 1]), items[|items| - 1]);
    }
  }

  // The named predecessor is what makes this work: a change without one is applied unchecked. If it
  // leads from state `prev` to its own, it leaves the book faithful exactly when the book agreed with
  // that state at every price which the change does not speak of.
  lemma UncheckedChangeIsFaithfulIff(h: History, l: Local, u: Update, prev: u64, listening: bool)
    requires u.kind.Change? && u.prevId.None? && Honest(h, u.(prevId := Some(prev)))
    ensures Faithful(h, TakeUpdate(l, u, listening).book) <==>
            AgreeOutside(l.book.asks, h[prev].asks, u.asks) && AgreeOutside(l.book.bids, h[prev].bids, u.bids)
  {
    BatchesMeet(l.book.asks, h[prev].asks, u.asks);
    BatchesMeet(l.book.bids, h[prev].bids, u.bids);
    hide ApplyBatch, AgreeOutside;
  }

  // And it can go wrong.
  lemma ChangeWithoutPredecessorCanCorrupt()
    ensures exists h: History, book: BookState, u: Update ::
              && Faithful(h, book) && u.kind.Change? && u.prevId.None? && u.changeId in h
              && (exists prev :: prev in h && Honest(h, u.(prevId := Some(prev))))
              && !Gap(book.changeId, u) && !Faithful(h, Advance(book, u))
  {
    var first := BookLevel("new", 10, 1);
    var second := BookLevel("new", 20, 2);
    var h: History := map[0 := Sides(map[], map[]), 5 := Sides(map[10 := 1], map[]),
                          6 := Sides(map[10 := 1, 20 := 2], map[])];
    var u := Update("X", Change, 6, None, [second], []);
    assert [second][..0] == [];
    assert ApplyBatch(map[10 := 1], [second]) == map[10 := 1, 20 := 2];
    assert ApplyBatch(map[], [second]) == map[20 := 2];
    assert Honest(h, u.(prevId := Some(5)));
    assert Faithful(h, EMPTY_BOOK);
    assert 10 !in Advance(EMPTY_BOOK, u).asks && 10 in h[6].asks;
    assert !Faithful(h, Advance(EMPTY_BOOK, u));
  }

  // ----- resubscription

  // What one turn of the outer loop meets: a refused subscription, or a stream of items.
  datatype Session = Refused | Stream(items: seq<StreamItem>)

  // Turn by turn; stops for good on Shutdown, or where a stream's items run out unfinished.
  function Maintain(l: Local, sessions: seq<Session>): Local
    decreases |sessions|
  {
    if sessions == [] then l
    else match sessions[0]
      case Refused => Maintain(l, sessions[1..])
      case Stream(items) =>
        var end := HandleAll(Progress(l, None, 0), items);
        if end.exit == Some(StreamEnded) then Maintain(end.local, sessions[1..]) else end.local
  }

  // A refused subscription is followed by the next as if it had never been tried.
  lemma {:induction false} RefusalIsSkipped(l: Local, before: seq<Session>, rest: seq<Session>)
    ensures Maintain(l, before + [Refused] + rest) == Maintain(l, before + rest)
    decreases |before|
  {
    if before == [] {
      assert ([Refused] + rest)[1..] == rest && before + [Refused] + rest == [Refused] + rest && before + rest == rest;
    } else {
      assert (before + [Refused] + rest)[1..] == before[1..] + [Refused] + rest;
      assert (before + rest)[1..] == before[1..] + rest;
      if before[0].Stream? {
        RefusalIsSkipped(HandleAll(Progress(l, None, 0), before[0].items).local, before[1..], rest);
      } else {
        RefusalIsSkipped(l, before[1..], rest);
      }
    }
  }

  // A stream that ended is followed by the next session, from where it left off; a shutdown by none.
  lemma EndedGoesOnShutdownDoesNot(l: Local, items: seq<StreamItem>, rest: seq<Session>)
    ensures var end := HandleAll(Progress(l, None, 0), items);
            && (end.exit == Some(StreamEnded) ==> Maintain(l, [Stream(items)] + rest) == Maintain(end.local, rest))
            && (end.exit == Some(Shutdown) ==> Maintain(l, [Stream(items)] + rest) == end.local)
  {
    assert ([Stream(items)] + rest)[1..] == rest;
  }

  lemma {:induction false} MaintainKeepsFaithful(h: History, l: Local, sessions: seq<Session>)
    requires forall s, i :: 0 <= s < |sessions| && sessions[s].Stream? && 0 <= i < |sessions[s].items| ==>
               HonestItem(h, sessions[s].items[i])
    requires Faithful(h, l.book) && AllFaithful(h, l.announced)
    ensures Faithful(h, Maintain(l, sessions).book) && AllFaithful(h, Maintain(l, sessions).announced)
    ensures l.ready ==> Maintain(l, sessions).ready
    decreases |sessions|
  {
    if sessions != [] {
      match sessions[0]
      case Refused =>
        MaintainKeepsFaithful(h, l, sessions[1..]);
      case Stream(items) =>
        var start := Progress(l, None, 0);
        StreamKeepsFaithful(h, start, items);
        if l.ready {
          ReadyStays(start, items);
        }
        MaintainKeepsFaithful(h, HandleAll(start, items).local, sessions[1..]);
    }
  }
}
