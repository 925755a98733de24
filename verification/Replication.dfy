/** The replication protocol as a system of interleaved atomic steps: the exchange publishes, the
    network loses, repeats and reorders, a bounded broadcast ring carries every instrument's messages,
    one manager writes its book level by level under a read-write lock, and readers copy it field by
    field. The book is the exchange's own whenever the write lock is free. */
module Replication {
  import opened Prelude
  import opened Levels
  import opened Feed
  import Broadcast

  const RING_CAPACITY: nat := 128

  // The exchange: every instrument's past states by id, its present id, and all it has published.
  datatype Exchange = Exchange(histories: map<string, History>, current: map<string, u64>, log: seq<Update>)

  // What the manager's task is doing. `pos` is its stream's position in the ring.
  datatype Phase =
    | Detached                           // no stream: about to subscribe
    | Polling(pos: nat)                  // waiting on the stream
    | Holding(pos: nat, u: Update)       // has an update, wants the write lock
    | Replacing(pos: nat, u: Update)     // write lock held, snapshot not yet in
    | Replaced(pos: nat, u: Update)      // write lock held, snapshot in
    | Signalling(pos: nat)               // lock released, readiness not yet signalled
    | Checking(pos: nat, u: Update)      // write lock held, predecessor not yet compared
    | Asks(pos: nat, u: Update, n: nat)  // write lock held, id and n asks written
    | Bids(pos: nat, u: Update, n: nat)  // write lock held, id, asks and n bids written
    | Announcing(pos: nat, u: Update)    // lock released, book not yet broadcast
    | Stopped

  // A reader holding the read lock, and the fields it has cloned so far.
  datatype Copy = Entered | GotAsks(asks: Side) | GotSides(asks: Side, bids: Side)

  // The snapshot a book descends from, and the changes applied to it since.
  datatype Lineage = NoSnapshot | Since(snapshot: u64, changes: seq<Update>)

  datatype World = World(
    ex: Exchange,
    cursor: nat,               // where in the log the last delivered update stands
    ring: seq<Message>,        // everything broadcast so far; the last RING_CAPACITY are retained
    instrument: string,
    phase: Phase,
    book: BookState,
    ready: bool,
    readers: map<nat, Copy>,
    answers: seq<BookState>,   // every completed `get_book`, in order
    announced: seq<BookState>, // every broadcast book, in order
    lineage: Lineage)

  datatype Step =
    | PublishSnapshot(instrument: string, asks: seq<BookLevel>, bids: seq<BookLevel>)
    | PublishChange(instrument: string, id: u64, asks: seq<BookLevel>, bids: seq<BookLevel>)
    | Deliver(k: nat)
    | DeliverLost
    | Subscribe
    | RefuseSubscribe
    | TimeOut
    | CloseFeed
    | Abort
    | Poll
    | Lock
    | Work
    | Announce(listening: bool)
    | ReadLock(r: nat)
    | ReadStep(r: nat)

  function HistoryOf(ex: Exchange, instrument: string): History {
    if instrument in ex.histories then ex.histories[instrument] else FIRST_HISTORY
  }

  function CurrentOf(ex: Exchange, instrument: string): u64 {
    if instrument in ex.current then ex.current[instrument] else 0
  }

  ghost function Truth(w: World): History {
    HistoryOf(w.ex, w.instrument)
  }

  predicate Writing(phase: Phase) {
    phase.Replacing? || phase.Replaced? || phase.Checking? || phase.Asks? || phase.Bids?
  }

  ghost predicate Enabled(w: World, step: Step) {
    match step
    case PublishSnapshot(i, asks, bids) =>
      var h, now := HistoryOf(w.ex, i), CurrentOf(w.ex, i);
      now in h && h[now] == Sides(FromListing(asks), FromListing(bids))
    case PublishChange(i, id, asks, bids) =>
      CurrentOf(w.ex, i) in HistoryOf(w.ex, i) && id !in HistoryOf(w.ex, i)
    case Deliver(k) => k < |w.ex.log|
    case DeliverLost => true
    case Subscribe => w.phase.Detached?
    case RefuseSubscribe => w.phase.Detached?
    case TimeOut => w.phase.Polling?
    case CloseFeed => w.phase.Polling? && w.phase.pos == |w.ring|
    case Abort => !Writing(w.phase)  // at an await, never inside a locked section
    case Poll => w.phase.Polling? && w.phase.pos < |w.ring|
    case Lock => w.phase.Holding? && w.readers == map[]
    case Work => Writing(w.phase) || w.phase.Signalling?
    case Announce(_) => w.phase.Announcing?
    case ReadLock(r) => !Writing(w.phase) && r !in w.readers
    case ReadStep(r) => r in w.readers
  }

  ghost function Do(w: World, step: Step): World
    requires Enabled(w, step)
  {
    match step
    case PublishSnapshot(i, asks, bids) =>
      w.(ex := w.ex.(log := w.ex.log + [Update(i, Snapshot, CurrentOf(w.ex, i), None, asks, bids)]))
    case PublishChange(i, id, asks, bids) =>
      w.(ex := PublishedChange(w.ex, i, id, asks, bids))
    case Deliver(k) => w.(cursor := k, ring := w.ring + [Data(w.ex.log[k])])
    case DeliverLost => w.(ring := w.ring + [ConnectionLost])
    case Subscribe => w.(phase := Polling(|w.ring|))
    case RefuseSubscribe => w
    case TimeOut => w.(phase := Detached)
    case CloseFeed => w.(phase := Stopped)
    case Abort => w.(phase := Stopped)
    case Poll => w.(phase := Polled(w))
    case Lock =>
      var u := w.phase.u;
      w.(phase := if u.kind.Snapshot? then Replacing(w.phase.pos, u) else Checking(w.phase.pos, u))
    case Work => Worked(w)
    case Announce(listening) =>
      w.(phase := Polling(w.phase.pos), announced := if listening then w.announced + [w.book] else w.announced)
    case ReadLock(r) => w.(readers := w.readers[r := Entered])
    case ReadStep(r) =>
      match w.readers[r]
      case Entered => w.(readers := w.readers[r := GotAsks(w.book.asks)])
      case GotAsks(asks) => w.(readers := w.readers[r := GotSides(asks, w.book.bids)])
      case GotSides(asks, bids) =>
        w.(readers := w.readers - {r}, answers := w.answers + [BookState(asks, bids, w.book.changeId)])
  }

  ghost function PublishedChange(ex: Exchange, i: string, id: u64, asks: seq<BookLevel>, bids: seq<BookLevel>): Exchange
    requires CurrentOf(ex, i) in HistoryOf(ex, i)
  {
    var h, prev := HistoryOf(ex, i), CurrentOf(ex, i);
    var next := Sides(ApplyBatch(h[prev].asks, asks), ApplyBatch(h[prev].bids, bids));
    Exchange(ex.histories[i := h[id := next]], ex.current[i := id],
             ex.log + [Update(i, Change, id, Some(prev), asks, bids)])
  }

  // One receive: a lag error ends the stream, another instrument's message or a marker is passed over.
  ghost function Polled(w: World): Phase
    requires w.phase.Polling? && w.phase.pos < |w.ring|
  {
    var pos := w.phase.pos;
    match Broadcast.ReceiveAt(w.ring, RING_CAPACITY, pos)
    case Missed(_) => Detached
    case Item(m) => if Own(w, m) then Holding(pos + 1, m.update) else Polling(pos + 1)
    case Empty => w.phase
  }

  // What the client's filter lets through to this manager.
  predicate Own(w: World, m: Message) {
    Broadcast.OwnData(w.instrument)(m)
  }

  // One write under the lock, or its release, or the readiness signal after a snapshot.
  ghost function Worked(w: World): World
    requires Writing(w.phase) || w.phase.Signalling?
  {
    match w.phase
    case Replacing(pos, u) => w.(book := Install(u), phase := Replaced(pos, u))
    case Replaced(pos, u) => w.(phase := Signalling(pos), lineage := Since(u.changeId, []))
    case Signalling(pos) => w.(ready := true, phase := Polling(pos))
    case Checking(pos, u) =>
      if Gap(w.book.changeId, u) then w.(phase := Detached)
      else w.(book := w.book.(changeId := u.changeId), phase := Asks(pos, u, 0))
    case Asks(pos, u, n) =>
      if n < |u.asks| then w.(book := w.book.(asks := ApplyLevel(w.book.asks, u.asks[n])), phase := Asks(pos, u, n + 1))
      else w.(phase := Bids(pos, u, 0))
    case Bids(pos, u, n) =>
      if n < |u.bids| then w.(book := w.book.(bids := ApplyLevel(w.book.bids, u.bids[n])), phase := Bids(pos, u, n + 1))
      else w.(phase := Announcing(pos, u),
              lineage := if w.lineage.Since? then w.lineage.(changes := w.lineage.changes + [u]) else NoSnapshot)
  }

  ghost predicate Init(w: World) {
    && w.ex == Exchange(map[], map[], []) && w.cursor == 0 && w.ring == []
    && w.phase == Detached && w.book == EMPTY_BOOK && !w.ready && w.readers == map[]
    && w.answers == [] && w.announced == [] && w.lineage == NoSnapshot
  }

  // A run: worlds and the steps between them, every step enabled where it is taken.
  ghost predicate Run(ws: seq<World>, steps: seq<Step>) {
    && |ws| == |steps| + 1 && Init(ws[0])
    && forall i :: 0 <= i < |steps| ==> Enabled(ws[i], steps[i]) && ws[i + 1] == Do(ws[i], steps[i])
  }

  // ----- the invariant

  ghost predicate ExchangeOk(ex: Exchange) {
    && (forall i :: CurrentOf(ex, i) in HistoryOf(ex, i))
    && (forall i :: 0 in HistoryOf(ex, i) && HistoryOf(ex, i)[0] == Sides(map[], map[]))
    && (forall k :: 0 <= k < |ex.log| ==> Honest(HistoryOf(ex, ex.log[k].instrument), ex.log[k]))
  }

  ghost predicate RingOk(w: World) {
    forall j :: 0 <= j < |w.ring| && w.ring[j].Data? ==>
      Honest(HistoryOf(w.ex, w.ring[j].update.instrument), w.ring[j].update)
  }

  // The update in hand is an honest one of this instrument, and of the kind being handled.
  ghost predicate InHand(w: World) {
    match w.phase
    case Holding(_, u) => u.instrument == w.instrument && Honest(Truth(w), u)
    case Replacing(_, u) => Honest(Truth(w), u) && u.kind.Snapshot?
    case Replaced(_, u) => Honest(Truth(w), u) && u.kind.Snapshot? && w.book == Install(u)
    case Checking(_, u) => Honest(Truth(w), u) && u.kind.Change?
    case Asks(_, u, n) => Honest(Truth(w), u) && u.kind.Change? && n <= |u.asks|
    case Bids(_, u, n) => Honest(Truth(w), u) && u.kind.Change? && n <= |u.bids|
    case Announcing(_, u) => Honest(Truth(w), u) && w.book.changeId == u.changeId
    case _ => true
  }

  // The whole exchange state the book is at, or is on its way from.
  ghost function Base(w: World): BookState
    requires InHand(w)
  {
    if w.phase.Asks? || w.phase.Bids? then
      var prev := w.phase.u.prevId.value;
      BookState(Truth(w)[prev].asks, Truth(w)[prev].bids, prev)
    else w.book
  }

  ghost predicate BookOk(w: World)
    requires InHand(w)
  {
    var base := Base(w);
    && Faithful(Truth(w), base)
    && match w.phase
       case Asks(_, u, n) => w.book == BookState(ApplyBatch(base.asks, u.asks[..n]), base.bids, u.changeId)
       case Bids(_, u, n) =>
         w.book == BookState(ApplyBatch(base.asks, u.asks), ApplyBatch(base.bids, u.bids[..n]), u.changeId)
       case _ => true
  }

  ghost predicate ReadersOk(w: World) {
    && (w.readers != map[] ==> !Writing(w.phase))
    && forall r :: r in w.readers ==>
         match w.readers[r]
         case Entered => true
         case GotAsks(asks) => asks == w.book.asks
         case GotSides(asks, bids) => asks == w.book.asks && bids == w.book.bids
  }

  // The book is a snapshot of the exchange with published changes applied, each following on.
  ghost predicate Descends(h: History, snapshot: u64, changes: seq<Update>, book: BookState) {
    && snapshot in h
    && (forall i :: 0 <= i < |changes| ==> changes[i].kind.Change? && Honest(h, changes[i]))
    && Contiguous(snapshot, changes)
    && book == Replay(BookState(h[snapshot].asks, h[snapshot].bids, snapshot), changes)
  }

  ghost predicate LineageOk(w: World)
    requires InHand(w)
  {
    && (w.ready || w.phase.Signalling? ==> w.lineage.Since?)
    && (w.lineage.Since? && !w.phase.Replaced? ==> Descends(Truth(w), w.lineage.snapshot, w.lineage.changes, Base(w)))
  }

  ghost predicate Inv(w: World) {
    && ExchangeOk(w.ex) && RingOk(w) && InHand(w) && BookOk(w) && ReadersOk(w) && LineageOk(w)
    && AllFaithful(Truth(w), w.answers) && AllFaithful(Truth(w), w.announced)
  }

  // ----- the exchange's past never changes

  ghost predicate Extends(h: History, more: History) {
    forall id :: id in h ==> id in more && more[id] == h[id]
  }

  lemma PublishExtends(ex: Exchange, i: string, id: u64, asks: seq<BookLevel>, bids: seq<BookLevel>)
    requires ExchangeOk(ex) && id !in HistoryOf(ex, i)
    ensures var later := PublishedChange(ex, i, id, asks, bids);
            && ExchangeOk(later)
            && forall j :: Extends(HistoryOf(ex, j), HistoryOf(later, j))
  {
    var later := PublishedChange(ex, i, id, asks, bids);
    assert HistoryOf(later, i) == HistoryOf(ex, i)[id := HistoryOf(later, i)[id]];
    assert forall j :: j != i ==> HistoryOf(later, j) == HistoryOf(ex, j) && CurrentOf(later, j) == CurrentOf(ex, j);
    forall k | 0 <= k < |later.log| ensures Honest(HistoryOf(later, later.log[k].instrument), later.log[k]) {
      if k < |ex.log| {
        assert later.log[k] == ex.log[k];
        HonestStays(HistoryOf(ex, ex.log[k].instrument), HistoryOf(later, ex.log[k].instrument), ex.log[k]);
      }
    }
  }

  lemma HonestStays(h: History, more: History, u: Update)
    requires Extends(h, more) && Honest(h, u)
    ensures Honest(more, u)
  {
  }

  lemma PublishKeeps(w: World, step: Step)
    requires Inv(w) && Enabled(w, step) && step.PublishChange?
    ensures Inv(Do(w, step))
  {
    PublishExtends(w.ex, step.instrument, step.id, step.asks, step.bids);
    var v := Do(w, step);
    forall j | 0 <= j < |v.ring| && v.ring[j].Data?
      ensures Honest(HistoryOf(v.ex, v.ring[j].update.instrument), v.ring[j].update)
    {
      var u := v.ring[j].update;
      HonestStays(HistoryOf(w.ex, u.instrument), HistoryOf(v.ex, u.instrument), u);
    }
    assert Extends(Truth(w), Truth(v));
    if w.lineage.Since? {
      forall i | 0 <= i < |w.lineage.changes| && Honest(Truth(w), w.lineage.changes[i])
        ensures Honest(Truth(v), w.lineage.changes[i])
      {
        HonestStays(Truth(w), Truth(v), w.lineage.changes[i]);
      }
    }
  }

  lemma SnapshotKeeps(w: World, step: Step)
    requires Inv(w) && Enabled(w, step) && step.PublishSnapshot?
    ensures Inv(Do(w, step))
  {
    var v := Do(w, step);
    assert forall i :: HistoryOf(v.ex, i) == HistoryOf(w.ex, i) && CurrentOf(v.ex, i) == CurrentOf(w.ex, i);
  }

  lemma DeliverKeeps(w: World, step: Step)
    requires Inv(w) && Enabled(w, step) && (step.Deliver? || step.DeliverLost?)
    ensures Inv(Do(w, step))
  {
  }

  lemma ReaderKeeps(w: World, step: Step)
    requires Inv(w) && Enabled(w, step) && (step.ReadLock? || step.ReadStep?)
    ensures Inv(Do(w, step))
  {
    hide Honest, Faithful, Descends;
    var v := Do(w, step);
    assert v == w.(readers := v.readers, answers := v.answers);
    assert Truth(v) == Truth(w) && Base(v) == Base(w);
    assert AllFaithful(Truth(v), v.answers) by {
      if step.ReadStep? && w.readers[step.r].GotSides? {
        assert !Writing(w.phase) && v.answers == w.answers + [w.book];
      }
    }
  }

  lemma StreamKeeps(w: World, step: Step)
    requires Inv(w) && Enabled(w, step)
    requires step.Subscribe? || step.RefuseSubscribe? || step.TimeOut? || step.CloseFeed? || step.Abort?
          || step.Poll? || step.Lock? || step.Announce?
    ensures Inv(Do(w, step))
  {
    var v := Do(w, step);
    assert Truth(v) == Truth(w) && Base(v) == Base(w);
  }

  // Work touches the book, so it may only be done while no reader is inside.
  lemma WorkKeeps(w: World)
    requires Inv(w) && Enabled(w, Work)
    ensures Inv(Do(w, Work))
  {
    hide Honest, Faithful, Descends, Install, ApplyLevel, ApplyBatch, Gap;
    var v := Do(w, Work);
    assert Truth(v) == Truth(w) && v.ex == w.ex && v.ring == w.ring && v.readers == w.readers;
    assert ReadersOk(v) by {
      assert Writing(w.phase) ==> w.readers == map[];
    }
    match w.phase
    case Replacing(_, _) => SnapshotWork(w);
    case Replaced(_, _) => SnapshotWork(w);
    case Signalling(_) => SnapshotWork(w);
    case Checking(_, _) => CheckWork(w);
    case Asks(_, _, _) => AskWork(w);
    case Bids(_, _, _) => BidWork(w);
  }

  lemma SnapshotWork(w: World)
    requires Inv(w) && (w.phase.Replacing? || w.phase.Replaced? || w.phase.Signalling?)
    ensures var v := Worked(w); InHand(v) && BookOk(v) && LineageOk(v)
  {
  }

  lemma CheckWork(w: World)
    requires Inv(w) && w.phase.Checking?
    ensures var v := Worked(w); InHand(v) && BookOk(v) && LineageOk(v)
  {
    var u := w.phase.u;
    assert u.asks[..0] == [];
    assert !Gap(w.book.changeId, u) ==> Base(Worked(w)) == w.book;
  }

  lemma AskWork(w: World)
    requires Inv(w) && w.phase.Asks?
    ensures var v := Worked(w); InHand(v) && BookOk(v) && LineageOk(v)
  {
    hide Honest, Descends, ApplyLevel;
    var u, n := w.phase.u, w.phase.n;
    assert Base(Worked(w)) == Base(w);
    if n < |u.asks| {
      assert u.asks[..n + 1][..n] == u.asks[..n];
    } else {
      assert u.asks[..n] == u.asks && u.bids[..0] == [];
    }
  }

  lemma BidWork(w: World)
    requires Inv(w) && w.phase.Bids?
    ensures var v := Worked(w); InHand(v) && BookOk(v) && LineageOk(v)
  {
    hide ApplyLevel;
    var u, n, v := w.phase.u, w.phase.n, Worked(w);
    if n < |u.bids| {
      assert u.bids[..n + 1][..n] == u.bids[..n];
      assert Base(v) == Base(w);
    } else {
      assert u.bids[..n] == u.bids;
      assert v.book == Advance(Base(w), u);
      if w.lineage.Since? {
        DescendsOn(Truth(w), w.lineage.snapshot, w.lineage.changes, Base(w), u);
      }
    }
  }

  lemma DescendsOn(h: History, snapshot: u64, changes: seq<Update>, book: BookState, u: Update)
    requires Descends(h, snapshot, changes, book)
    requires u.kind.Change? && Honest(h, u) && !Gap(book.changeId, u)
    ensures Descends(h, snapshot, changes + [u], Advance(book, u))
  {
    var longer := changes + [u];
    var root := BookState(h[snapshot].asks, h[snapshot].bids, snapshot);
    assert longer[..|longer| - 1] == changes;
    ReplayIsFaithful(h, root, changes);
    forall i | 0 <= i < |longer| ensures !GapAt(snapshot, longer, i) {
      if i < |changes| {
        assert !GapAt(snapshot, changes, i);
      }
    }
  }

  lemma StepKeeps(w: World, step: Step)
    requires Inv(w) && Enabled(w, step)
    ensures Inv(Do(w, step))
  {
    hide Inv, Do;
    match step
    case PublishSnapshot(_, _, _) => SnapshotKeeps(w, step);
    case PublishChange(_, _, _, _) => PublishKeeps(w, step);
    case Deliver(_) => DeliverKeeps(w, step);
    case DeliverLost => DeliverKeeps(w, step);
    case ReadLock(_) => ReaderKeeps(w, step);
    case ReadStep(_) => ReaderKeeps(w, step);
    case Work => WorkKeeps(w);
    case _ => StreamKeeps(w, step);
  }

  lemma {:induction false} RunKeeps(ws: seq<World>, steps: seq<Step>, n: nat)
    requires Run(ws, steps) && n < |ws|
    ensures Inv(ws[n])
  {
    if n > 0 {
      RunKeeps(ws, steps, n - 1);
      StepKeeps(ws[n - 1], steps[n - 1]);
    }
  }

  // The refinement theorem, over all runs: whenever the write lock is free the manager's book is the
  // exchange's book at the manager's change id; every book a reader got and every book announced was a
  // whole exchange state; and a ready book descends from a snapshot.
  lemma ReplicaIsFaithful(ws: seq<World>, steps: seq<Step>, n: nat)
    requires Run(ws, steps) && n < |ws|
    ensures !Writing(ws[n].phase) ==> Faithful(Truth(ws[n]), ws[n].book)
    ensures AllFaithful(Truth(ws[n]), ws[n].answers) && AllFaithful(Truth(ws[n]), ws[n].announced)
    ensures ws[n].ready && !Writing(ws[n].phase) ==>
              ws[n].lineage.Since? && Descends(Truth(ws[n]), ws[n].lineage.snapshot, ws[n].lineage.changes, ws[n].book)
  {
    RunKeeps(ws, steps, n);
  }

  // ----- what readers and listeners get

  // A reader gets the manager's book as it was when it got the read lock, which is as it still is.
  lemma ReadReturnsTheBook(ws: seq<World>, steps: seq<Step>, m: nat, n: nat, r: nat)
    requires Run(ws, steps) && m < n < |steps| && steps[m] == ReadLock(r) && steps[n] == ReadStep(r)
    requires forall k :: m < k <= n ==> r in ws[k].readers
    requires r !in ws[n + 1].readers
    ensures ws[n + 1].answers == ws[n].answers + [ws[m].book] && ws[m].book == ws[n].book
  {
    RunKeeps(ws, steps, n);
    BookRests(ws, steps, m, n, r);
    hide Inv;
    assert ws[n].readers[r].GotSides?;
  }

  lemma {:induction false} BookRests(ws: seq<World>, steps: seq<Step>, m: nat, n: nat, r: nat)
    requires Run(ws, steps) && m < n < |ws| && steps[m] == ReadLock(r)
    requires forall k :: m < k <= n ==> r in ws[k].readers
    ensures ws[n].book == ws[m].book
  {
    if m + 1 < n {
      BookRests(ws, steps, m, n - 1, r);
      RunKeeps(ws, steps, n - 1);
      RestStep(ws[n - 1], steps[n - 1], r);
    }
  }

  lemma RestStep(w: World, step: Step, r: nat)
    requires Inv(w) && Enabled(w, step) && r in w.readers
    ensures Do(w, step).book == w.book
  {
    assert w.readers != map[];
    assert !Writing(w.phase);
  }

  // The ids of the changes that came to be announced with someone listening, in order.
  ghost function HeardIds(ws: seq<World>, steps: seq<Step>, n: nat): seq<u64>
    requires |ws| == |steps| + 1 && n <= |steps|
  {
    if n == 0 then []
    else
      var before := HeardIds(ws, steps, n - 1);
      if steps[n - 1] == Announce(true) && ws[n - 1].phase.Announcing? then before + [ws[n - 1].phase.u.changeId]
      else before
  }

  ghost predicate Announces(h: History, announced: seq<BookState>, ids: seq<u64>) {
    && |announced| == |ids|
    && forall i :: 0 <= i < |ids| ==> ids[i] in h && announced[i] == BookState(h[ids[i]].asks, h[ids[i]].bids, ids[i])
  }

  // Listeners get, in the order of the changes, the exchange's book as it is after each change that the
  // manager has just taken in: none from before it, and none but once.
  lemma {:induction false} ListenersHearEachChange(ws: seq<World>, steps: seq<Step>, n: nat)
    requires Run(ws, steps) && n < |ws|
    ensures Announces(Truth(ws[n]), ws[n].announced, HeardIds(ws, steps, n))
  {
    if n > 0 {
      ListenersHearEachChange(ws, steps, n - 1);
      RunKeeps(ws, steps, n - 1);
      AnnounceStep(ws[n - 1], steps[n - 1], HeardIds(ws, steps, n - 1));
    }
  }

  lemma AnnounceStep(w: World, step: Step, ids: seq<u64>)
    requires Inv(w) && Enabled(w, step) && Announces(Truth(w), w.announced, ids)
    ensures Announces(Truth(Do(w, step)), Do(w, step).announced,
                      if step == Announce(true) then ids + [w.phase.u.changeId] else ids)
  {
    hide RingOk, ReadersOk, LineageOk, AllFaithful;
    TruthExtends(w, step);
    if !step.Announce? {
      assert Do(w, step).announced == w.announced;
    }
    hide Do, ExchangeOk;
  }

  lemma TruthExtends(w: World, step: Step)
    requires Inv(w) && Enabled(w, step)
    ensures Extends(Truth(w), Truth(Do(w, step)))
    ensures step.Announce? ==> Truth(Do(w, step)) == Truth(w)
  {
    if step.PublishChange? {
      PublishExtends(w.ex, step.instrument, step.id, step.asks, step.bids);
    }
  }

  // ----- no own message within reach is passed over

  // A look at the ring takes an own message in hand, passes any other over, and gives up past the edge.
  lemma OwnMessageIsTaken(w: World)
    requires Enabled(w, Poll)
    ensures var pos, m := w.phase.pos, w.ring[w.phase.pos];
            Do(w, Poll) == w.(phase :=
              if |w.ring| - pos > RING_CAPACITY then Detached
              else if m.Data? && m.update.instrument == w.instrument then Holding(pos + 1, m.update)
              else Polling(pos + 1))
  {
    Broadcast.ReceiveIsExact(w.ring, RING_CAPACITY, w.phase.pos);
  }

  // The updates taken in hand after step m and up to step n.
  ghost function TakenInHand(ws: seq<World>, steps: seq<Step>, m: nat, n: nat): seq<Message>
    requires |ws| == |steps| + 1 && m <= n <= |steps|
    decreases n
  {
    if m == n then []
    else
      var before := TakenInHand(ws, steps, m, n - 1);
      if steps[n - 1].Poll? && ws[n].phase.Holding? then before + [Data(ws[n].phase.u)] else before
  }

  predicate OnStream(phase: Phase) {
    !phase.Detached? && !phase.Stopped?
  }

  // From a subscription on, for as long as the stream lasts, the manager takes in hand every message of
  // its instrument that was sent since, up to where it stands, in order and once each.
  lemma {:induction false} EveryOwnMessageIsTaken(ws: seq<World>, steps: seq<Step>, m: nat, n: nat)
    requires Run(ws, steps) && m < n < |ws| && steps[m].Subscribe?
    requires OnStream(ws[n].phase) && forall k :: m < k < n ==> OnStream(ws[k].phase)
    ensures |ws[m].ring| <= ws[n].phase.pos <= |ws[n].ring|
    ensures TakenInHand(ws, steps, m + 1, n) ==
            Broadcast.Matching(ws[n].ring[|ws[m].ring|..ws[n].phase.pos], Broadcast.OwnData(ws[n].instrument))
  {
    hide Enabled, Do, Init, Broadcast.Matching;
    if n == m + 1 {
      StreamBegins(ws[m], steps[m]);
    } else {
      EveryOwnMessageIsTaken(ws, steps, m, n - 1);
      StreamStep(ws[n - 1], steps[n - 1], |ws[m].ring|);
    }
  }

  lemma StreamBegins(w: World, step: Step)
    requires Enabled(w, step) && step.Subscribe?
    ensures var v := Do(w, step);
            && v.phase == Polling(|w.ring|) && v.ring == w.ring
            && Broadcast.Matching(v.ring[|w.ring|..|w.ring|], Broadcast.OwnData(v.instrument)) == []
  {
    assert w.ring[|w.ring|..|w.ring|] == [];
  }

  lemma StreamStep(w: World, step: Step, start: nat)
    requires Enabled(w, step) && OnStream(w.phase) && OnStream(Do(w, step).phase)
    requires start <= w.phase.pos <= |w.ring|
    ensures var v := Do(w, step);
            && start <= v.phase.pos <= |v.ring| && v.instrument == w.instrument
            && Broadcast.Matching(v.ring[start..v.phase.pos], Broadcast.OwnData(w.instrument)) ==
               Broadcast.Matching(w.ring[start..w.phase.pos], Broadcast.OwnData(w.instrument)) +
               if step.Poll? && v.phase.Holding? then [Data(v.phase.u)] else []
  {
    var v, keep := Do(w, step), Broadcast.OwnData(w.instrument);
    if step.Poll? {
      OwnMessageIsTaken(w);
      Broadcast.MatchingOneMore(w.ring, start, w.phase.pos, keep);
    } else {
      KeepsPlace(w, step);
      assert v.ring[start..v.phase.pos] == w.ring[start..w.phase.pos];
    }
  }

  lemma KeepsPlace(w: World, step: Step)
    requires Enabled(w, step) && OnStream(w.phase) && OnStream(Do(w, step).phase) && !step.Poll?
    ensures var v := Do(w, step);
            && v.phase.pos == w.phase.pos && v.instrument == w.instrument
            && |w.ring| <= |v.ring| && v.ring[..|w.ring|] == w.ring
  {
  }

  // ----- readiness, and streams that have ended

  lemma ReadinessNeverReverts(ws: seq<World>, steps: seq<Step>, m: nat, n: nat)
    requires Run(ws, steps) && m <= n < |ws| && ws[m].ready
    ensures ws[n].ready
    decreases n - m
  {
    if m < n {
      ReadinessNeverReverts(ws, steps, m, n - 1);
    }
  }

  lemma StopStep(w: World, step: Step)
    requires Enabled(w, step)
    ensures Do(w, step).phase.Stopped? <==> w.phase.Stopped? || step.CloseFeed? || step.Abort?
  {
  }

  // The manager has stopped exactly if its feed was closed or it was aborted, and then for good.
  lemma {:induction false} StoppedIffShutDown(ws: seq<World>, steps: seq<Step>, n: nat)
    requires Run(ws, steps) && n < |ws|
    ensures ws[n].phase.Stopped? <==> exists k :: 0 <= k < n && (steps[k].CloseFeed? || steps[k].Abort?)
  {
    hide Enabled, Do;
    if n > 0 {
      StoppedIffShutDown(ws, steps, n - 1);
      StopStep(ws[n - 1], steps[n - 1]);
    }
  }

  // The stream is given up: for a lag error, a gap or a timeout.
  ghost predicate GivesUp(w: World, step: Step) {
    && Enabled(w, step)
    && match step
       case TimeOut => true
       case Poll => Broadcast.ReceiveAt(w.ring, RING_CAPACITY, w.phase.pos).Missed?
       case Work => w.phase.Checking? && Gap(w.book.changeId, w.phase.u)
       case _ => false
  }

  lemma IdleStep(w: World, step: Step)
    requires Enabled(w, step) && !step.Subscribe? && (w.phase.Detached? || w.phase.Stopped?)
    ensures var v := Do(w, step);
            && (v.phase.Detached? || v.phase.Stopped?)
            && v.book == w.book && v.ready == w.ready && v.announced == w.announced
  {
  }

  lemma GivingUpDetaches(w: World, step: Step)
    requires GivesUp(w, step)
    ensures Do(w, step) == w.(phase := Detached)
  {
  }

  // After a lag error, a gap or a timeout the manager leaves its book alone, and announces nothing, until
  // it has subscribed anew.
  lemma {:induction false} OnlyASubscriptionMovesOn(ws: seq<World>, steps: seq<Step>, m: nat, n: nat)
    requires Run(ws, steps) && m < n < |ws| && GivesUp(ws[m], steps[m])
    requires forall i :: m < i < n ==> !steps[i].Subscribe?
    ensures ws[n].phase.Detached? || ws[n].phase.Stopped?
    ensures ws[n].book == ws[m].book && ws[n].ready == ws[m].ready && ws[n].announced == ws[m].announced
    decreases n - m
  {
    if m < n - 1 {
      OnlyASubscriptionMovesOn(ws, steps, m, n - 1);
      hide Enabled, Do, Init, GivesUp;
      IdleStep(ws[n - 1], steps[n - 1]);
    } else {
      GivingUpDetaches(ws[m], steps[m]);
    }
  }

  // ----- the locked section as one step

  function Effort(phase: Phase): nat {
    match phase
    case Replacing(_, _) => 3
    case Replaced(_, _) => 2
    case Signalling(_) => 1
    case Checking(_, u) => |u.asks| + |u.bids| + 3
    case Asks(_, u, n) => (if n < |u.asks| then |u.asks| - n else 0) + |u.bids| + 2
    case Bids(_, u, n) => (if n < |u.bids| then |u.bids| - n else 0) + 1
    case _ => 0
  }

  // The manager's own writes, one after the other, until the update in hand is dealt with.
  ghost function Finish(w: World): World
    decreases Effort(w.phase)
  {
    if Effort(w.phase) == 0 then w else Finish(Worked(w))
  }

  lemma {:induction false} FinishBids(w: World, bids: Side)
    requires w.phase.Bids? && w.phase.n <= |w.phase.u.bids|
    requires w.book.bids == ApplyBatch(bids, w.phase.u.bids[..w.phase.n])
    ensures Finish(w).book == w.book.(bids := ApplyBatch(bids, w.phase.u.bids))
    ensures Finish(w).phase == Announcing(w.phase.pos, w.phase.u) && Finish(w).ready == w.ready
    decreases Effort(w.phase)
  {
    var u, n := w.phase.u, w.phase.n;
    if n < |u.bids| {
      assert u.bids[..n + 1][..n] == u.bids[..n];
      FinishBids(Worked(w), bids);
    } else {
      assert u.bids[..n] == u.bids;
    }
  }

  lemma {:induction false} FinishAsks(w: World, asks: Side)
    requires w.phase.Asks? && w.phase.n <= |w.phase.u.asks|
    requires w.book.asks == ApplyBatch(asks, w.phase.u.asks[..w.phase.n])
    ensures Finish(w).book ==
            w.book.(asks := ApplyBatch(asks, w.phase.u.asks), bids := ApplyBatch(w.book.bids, w.phase.u.bids))
    ensures Finish(w).phase == Announcing(w.phase.pos, w.phase.u) && Finish(w).ready == w.ready
    decreases Effort(w.phase)
  {
    var u, n := w.phase.u, w.phase.n;
    if n < |u.asks| {
      assert u.asks[..n + 1][..n] == u.asks[..n];
      FinishAsks(Worked(w), asks);
    } else {
      assert u.asks[..n] == u.asks && u.bids[..0] == [];
      FinishBids(Worked(w), w.book.bids);
    }
  }

  // Taken together, the writes under one lock are the update handled in one go, and a gap is the only
  // reason not to go on.
  lemma LockedSectionTakesUpdate(w: World)
    requires w.phase.Holding? && w.readers == map[]
    ensures var u, end := w.phase.u, Finish(Do(w, Lock));
            var after := TakeUpdate(Local(w.book, w.ready, w.announced), u, false);
            && end.book == after.book && end.ready == after.ready
            && (end.phase.Detached? <==> Gap(w.book.changeId, u))
            && (end.phase.Announcing? <==> u.kind.Change? && !Gap(w.book.changeId, u))
            && (end.phase.Announcing? ==> end.phase.u == u)
            && (end.phase.Polling? <==> u.kind.Snapshot?)
  {
    var u, locked := w.phase.u, Do(w, Lock);
    if u.kind.Snapshot? {
      var replaced := Worked(locked);
      var signalling := Worked(replaced);
      var polling := Worked(signalling);
      assert Finish(polling) == polling;
      assert Finish(signalling) == polling;
      assert Finish(replaced) == polling;
    } else if !Gap(w.book.changeId, u) {
      assert u.asks[..0] == [];
      FinishAsks(Worked(locked), w.book.asks);
    }
  }

  // ----- in-order delivery

  // The network loses and repeats but does not reorder, and the exchange's ids grow.
  ghost predicate Orderly(w: World, step: Step) {
    match step
    case Deliver(k) => w.cursor <= k
    case PublishChange(i, id, _, _) => CurrentOf(w.ex, i) < id
    case _ => true
  }

  // Nothing with a smaller id is still to come from ring position `from` on.
  ghost predicate Passed(w: World, id: u64, from: nat) {
    && (forall j :: from <= j < |w.ring| && Own(w, w.ring[j]) ==> id <= w.ring[j].update.changeId)
    && (forall k :: w.cursor <= k < |w.ex.log| && w.ex.log[k].instrument == w.instrument ==> id <= w.ex.log[k].changeId)
    && id <= CurrentOf(w.ex, w.instrument)
  }

  ghost predicate LogSorted(w: World) {
    && (forall j, k :: 0 <= j < k < |w.ex.log| && w.ex.log[j].instrument == w.instrument == w.ex.log[k].instrument ==>
          w.ex.log[j].changeId <= w.ex.log[k].changeId)
    && (forall k :: 0 <= k < |w.ex.log| && w.ex.log[k].instrument == w.instrument ==>
          w.ex.log[k].changeId <= CurrentOf(w.ex, w.instrument))
  }

  ghost predicate RingSorted(w: World) {
    forall j :: 0 <= j < |w.ring| && Own(w, w.ring[j]) ==> Passed(w, w.ring[j].update.changeId, j)
  }

  ghost predicate HandPassed(w: World) {
    match w.phase
    case Holding(pos, u) => Passed(w, u.changeId, pos) && w.book.changeId <= u.changeId
    case Replacing(pos, u) => Passed(w, u.changeId, pos) && w.book.changeId <= u.changeId
    case Checking(pos, u) => Passed(w, u.changeId, pos) && w.book.changeId <= u.changeId
    case Detached => Passed(w, w.book.changeId, |w.ring|)
    case Stopped => true
    case _ => Passed(w, w.book.changeId, w.phase.pos)
  }

  ghost predicate NonDecreasing(books: seq<BookState>) {
    forall i, j :: 0 <= i < j < |books| ==> books[i].changeId <= books[j].changeId
  }

  ghost predicate NoneAfter(books: seq<BookState>, id: u64) {
    forall i :: 0 <= i < |books| ==> books[i].changeId <= id
  }

  ghost predicate OrderInv(w: World) {
    && LogSorted(w) && RingSorted(w) && HandPassed(w)
    && (!w.phase.Detached? && !w.phase.Stopped? ==> w.phase.pos <= |w.ring|)
    && NonDecreasing(w.answers) && NoneAfter(w.answers, w.book.changeId)
    && NonDecreasing(w.announced) && NoneAfter(w.announced, w.book.changeId)
  }

  lemma OrderlyPublish(w: World, step: Step)
    requires Inv(w) && OrderInv(w) && Enabled(w, step) && Orderly(w, step)
    requires step.PublishSnapshot? || step.PublishChange?
    ensures OrderInv(Do(w, step))
  {
    hide Honest, Faithful, ExchangeOk, RingOk, InHand, BookOk, LineageOk, ReadersOk, ApplyBatch, FromListing;
    var v := Do(w, step);
    assert CurrentOf(w.ex, w.instrument) <= CurrentOf(v.ex, w.instrument);
    assert v.ex.log[..|w.ex.log|] == w.ex.log && |v.ex.log| == |w.ex.log| + 1;
    var u := v.ex.log[|w.ex.log|];
    assert u.instrument == w.instrument ==>
        CurrentOf(w.ex, w.instrument) <= u.changeId <= CurrentOf(v.ex, w.instrument);
    assert forall id, from: nat :: Passed(w, id, from) ==> Passed(v, id, from);
    HandStays(w, v);
  }

  lemma HandStays(w: World, v: World)
    requires HandPassed(w) && v.phase == w.phase && v.book == w.book && |w.ring| <= |v.ring|
    requires forall id, from: nat :: from <= |w.ring| && Passed(w, id, from) ==> Passed(v, id, from)
    requires w.phase.Detached? && Passed(w, w.book.changeId, |w.ring|) ==> Passed(v, w.book.changeId, |v.ring|)
    requires !w.phase.Detached? && !w.phase.Stopped? ==> w.phase.pos <= |w.ring|
    ensures HandPassed(v)
  {
  }

  lemma OrderlyDeliver(w: World, step: Step)
    requires Inv(w) && OrderInv(w) && Enabled(w, step) && Orderly(w, step)
    requires step.Deliver? || step.DeliverLost?
    ensures OrderInv(Do(w, step))
  {
    hide Honest, Faithful, ExchangeOk, RingOk, InHand, BookOk, LineageOk, ReadersOk;
    var v := Do(w, step);
    assert v.ring[..|w.ring|] == w.ring;
    assert forall id, from: nat :: Passed(w, id, from) ==> Passed(v, id, from);
    HandStays(w, v);
  }

  lemma SameTraffic(w: World, v: World)
    requires v.ex == w.ex && v.cursor == w.cursor && v.ring == w.ring && v.instrument == w.instrument
    ensures forall id, from: nat :: Passed(v, id, from) <==> Passed(w, id, from)
    ensures LogSorted(v) <==> LogSorted(w)
    ensures RingSorted(v) <==> RingSorted(w)
  {
  }

  lemma PassedOn(w: World, id: u64, from: nat)
    requires Passed(w, id, from) && from <= |w.ring|
    ensures Passed(w, id, |w.ring|)
    ensures from < |w.ring| ==> Passed(w, id, from + 1)
    ensures from < |w.ring| && Own(w, w.ring[from]) && RingSorted(w) ==>
              id <= w.ring[from].update.changeId && Passed(w, w.ring[from].update.changeId, from + 1)
  {
  }

  lemma OrderlyStream(w: World, step: Step)
    requires Inv(w) && OrderInv(w) && Enabled(w, step)
    requires step.Subscribe? || step.RefuseSubscribe? || step.TimeOut? || step.CloseFeed? || step.Abort?
          || step.Poll? || step.Lock? || step.Announce?
    ensures OrderInv(Do(w, step))
  {
    hide Inv, Passed, LogSorted, RingSorted;
    SameTraffic(w, Do(w, step));
    if w.phase.Polling? {
      PassedOn(w, w.book.changeId, w.phase.pos);
    }
  }

  lemma OrderlyReader(w: World, step: Step)
    requires Inv(w) && OrderInv(w) && Enabled(w, step)
    requires step.ReadLock? || step.ReadStep?
    ensures OrderInv(Do(w, step))
  {
    hide Inv, Passed, LogSorted, RingSorted;
    var v := Do(w, step);
    SameTraffic(w, v);
    assert HandPassed(v);
    assert v.answers == w.answers || (|v.answers| == |w.answers| + 1 && v.answers[..|w.answers|] == w.answers
                                      && v.answers[|w.answers|].changeId == w.book.changeId);
  }

  lemma OrderlyWork(w: World)
    requires Inv(w) && OrderInv(w) && Enabled(w, Work)
    ensures OrderInv(Do(w, Work))
  {
    hide Passed, LogSorted, RingSorted, Honest, Faithful, ExchangeOk, RingOk, LineageOk, ReadersOk, ApplyLevel,
      ApplyBatch, FromListing;
    SameTraffic(w, Do(w, Work));
    if w.phase.Checking? {
      PassedOn(w, w.book.changeId, w.phase.pos) by { CheckingPassed(w); }
    }
  }

  // The book's own id is passed as well while a later update is in hand.
  lemma CheckingPassed(w: World)
    requires OrderInv(w) && w.phase.Checking?
    ensures Passed(w, w.book.changeId, w.phase.pos)
  {
  }

  lemma OrderlyStepKeeps(w: World, step: Step)
    requires Inv(w) && OrderInv(w) && Enabled(w, step) && Orderly(w, step)
    ensures OrderInv(Do(w, step))
  {
    hide Inv, OrderInv, Do;
    match step
    case PublishSnapshot(_, _, _) => OrderlyPublish(w, step);
    case PublishChange(_, _, _, _) => OrderlyPublish(w, step);
    case Deliver(_) => OrderlyDeliver(w, step);
    case DeliverLost => OrderlyDeliver(w, step);
    case ReadLock(_) => OrderlyReader(w, step);
    case ReadStep(_) => OrderlyReader(w, step);
    case Work => OrderlyWork(w);
    case _ => OrderlyStream(w, step);
  }

  lemma {:induction false} OrderlyRunKeeps(ws: seq<World>, steps: seq<Step>, n: nat)
    requires Run(ws, steps) && n < |ws|
    requires forall i :: 0 <= i < |steps| ==> Orderly(ws[i], steps[i])
    ensures OrderInv(ws[n])
  {
    if n > 0 {
      OrderlyRunKeeps(ws, steps, n - 1);
      RunKeeps(ws, steps, n - 1);
      OrderlyStepKeeps(ws[n - 1], steps[n - 1]);
    }
  }

  // Under in-order lossy delivery neither successive reads nor announcements ever go back.
  lemma ReadsNeverGoBack(ws: seq<World>, steps: seq<Step>, n: nat)
    requires Run(ws, steps) && n < |ws|
    requires forall i :: 0 <= i < |steps| ==> Orderly(ws[i], steps[i])
    ensures NonDecreasing(ws[n].answers) && NonDecreasing(ws[n].announced)
  {
    OrderlyRunKeeps(ws, steps, n);
  }
}
