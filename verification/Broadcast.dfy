/** The bounded broadcast ring and the filtered stream over it (`SubscriptionStream`): what a slow
    receiver misses is reported, and what it is given between reports has no holes. */
module Broadcast {
  import opened Prelude
  import opened Feed

  // ----- one receive

  datatype Reception<T> = Missed(count: nat) | Item(value: T) | Empty

  // The first position still held by a ring of `capacity` after `sent` sends.
  function Oldest(sent: nat, capacity: nat): nat {
    if sent <= capacity then 0 else sent - capacity
  }

  function ReceiveAt<T>(sends: seq<T>, capacity: nat, pos: nat): Reception<T> {
    var oldest := Oldest(|sends|, capacity);
    if pos < oldest then Missed(oldest - pos)
    else if pos < |sends| then Item(sends[pos])
    else Empty
  }

  // A receiver no more than the capacity behind is given its item, and one further behind the exact number
  // it has missed.
  lemma ReceiveIsExact<T>(sends: seq<T>, capacity: nat, pos: nat)
    requires pos <= |sends|
    ensures ReceiveAt(sends, capacity, pos) ==
            if pos == |sends| then Empty
            else if |sends| - pos <= capacity then Item(sends[pos])
            else Missed(|sends| - pos - capacity)
  {
  }

  lemma SlotsDiffer(i: nat, j: nat, capacity: nat)
    requires 0 < capacity && i < j < i + capacity
    ensures i % capacity != j % capacity
  {
    var turns := j / capacity - i / capacity;
    assert i % capacity == j % capacity ==> j - i == turns * capacity;
    assert turns >= 1 ==> turns * capacity >= capacity;
  }

  class Ring<T(0)> {
    const capacity: nat
    const slots: array<T>
    var sent: nat
    ghost var sends: seq<T>

    ghost predicate Valid()
      reads this, slots
    {
      && capacity > 0 && slots.Length == capacity && sent == |sends|
      && forall i :: Oldest(sent, capacity) <= i < sent ==> slots[i % capacity] == sends[i]
    }

    constructor (capacity: nat)
      requires capacity > 0
      ensures Valid() && sends == [] && this.capacity == capacity && fresh(slots)
    {
      this.capacity := capacity;
      slots := new T[capacity];
      sent, sends := 0, [];
    }

    // Overwrites the oldest slot when the ring is full.
    method Send(x: T)
      requires Valid()
      modifies this, slots
      ensures Valid() && sends == old(sends) + [x]
    {
      forall i | Oldest(sent + 1, capacity) <= i < sent ensures i % capacity != sent % capacity {
        SlotsDiffer(i, sent, capacity);
      }
      slots[sent % capacity] := x;
      sent := sent + 1;
      sends := sends + [x];
    }

    method Receive(pos: nat) returns (r: Reception<T>, next: nat)
      requires Valid()
      ensures r == ReceiveAt(sends, capacity, pos)
      ensures pos < sent <= pos + capacity ==> r == Item(sends[pos])
      ensures next == match r case Missed(n) => pos + n case Item(_) => pos + 1 case Empty => pos
    {
      var oldest := Oldest(sent, capacity);
      if pos < oldest {
        return Missed(oldest - pos), oldest;
      }
      if pos < sent {
        return Item(slots[pos % capacity]), pos + 1;
      }
      return Empty, pos;
    }
  }

  // ----- the filtered stream

  datatype Yield<T> = Got(item: T) | LagError(missed: nat)

  // What the stream yields next, and where that leaves it: items that do not match are passed over,
  // a lag is yielded as an error.
  function Next<T>(sends: seq<T>, capacity: nat, keep: T -> bool, pos: nat): (Option<Yield<T>>, nat)
    decreases if pos < |sends| then |sends| - pos else 0
  {
    match ReceiveAt(sends, capacity, pos)
    case Missed(n) => (Some(LagError(n)), pos + n)
    case Empty => (None, pos)
    case Item(x) => if keep(x) then (Some(Got(x)), pos + 1) else Next(sends, capacity, keep, pos + 1)
  }

  class SubscriptionStream<T(0)> {
    const ring: Ring<T>
    const keep: T -> bool
    var pos: nat

    // A new stream starts at the present end of the ring.
    constructor (ring: Ring<T>, keep: T -> bool)
      ensures this.ring == ring && this.keep == keep && pos == ring.sent
    {
      this.ring, this.keep, pos := ring, keep, ring.sent;
    }

    method PollNext() returns (r: Option<Yield<T>>)
      requires ring.Valid()
      modifies this
      ensures (r, pos) == Next(ring.sends, ring.capacity, keep, old(pos))
    {
      while true
        modifies this
        invariant Next(ring.sends, ring.capacity, keep, pos) == Next(ring.sends, ring.capacity, keep, old(pos))
        decreases if pos < ring.sent then ring.sent - pos else 0
      {
        var got, next := ring.Receive(pos);
        pos := next;
        match got {
          case Missed(n) => return Some(LagError(n));
          case Empty => return None;
          case Item(x) =>
            if keep(x) {
              return Some(Got(x));
            }
        }
      }
    }
  }

  function Matching<T>(items: seq<T>, keep: T -> bool): seq<T> {
    if items == [] then []
    else
      var front, last := Matching(items[..|items| - 1], keep), items[|items| - 1];
      if keep(last) then front + [last] else front
  }

  lemma {:induction false} MatchingConcat<T>(a: seq<T>, b: seq<T>, keep: T -> bool)
    ensures Matching(a + b, keep) == Matching(a, keep) + Matching(b, keep)
  {
    if b == [] {
      assert a + b == a;
    } else {
      MatchingConcat(a, b[..|b| - 1], keep);
      assert (a + b)[..|a + b| - 1] == a + b[..|b| - 1];
    }
  }

  // One poll on its own: everything passed over was not wanted, or is counted as missed.
  lemma {:induction false} NextSkipsOnlyTheUnwanted<T>(sends: seq<T>, capacity: nat, keep: T -> bool, pos: nat)
    requires pos <= |sends|
    ensures var (r, next) := Next(sends, capacity, keep, pos);
            && pos <= next <= |sends|
            && (r.None? ==> next == |sends| && Matching(sends[pos..next], keep) == [])
            && (r.Some? && r.value.Got? ==> Matching(sends[pos..next], keep) == [r.value.item])
            && (r.Some? && r.value.LagError? ==>
                  next == Oldest(|sends|, capacity) && next == pos + r.value.missed > pos)
    decreases |sends| - pos
  {
    if ReceiveAt(sends, capacity, pos).Item? {
      assert sends[pos..pos + 1] == [sends[pos]];
      assert [sends[pos]][..0] == [];
      if !keep(sends[pos]) {
        NextSkipsOnlyTheUnwanted(sends, capacity, keep, pos + 1);
        var next := Next(sends, capacity, keep, pos).1;
        assert sends[pos..next] == sends[pos..pos + 1] + sends[pos + 1..next];
        MatchingConcat(sends[pos..pos + 1], sends[pos + 1..next], keep);
      }
    } else if ReceiveAt(sends, capacity, pos).Empty? {
      assert sends[pos..pos] == [];
    }
  }

  // ----- no silent loss, over any history of sends and receives

  // A stretch of the stream between two lag errors, and how many sends the error after it reported.
  datatype Stretch<T> = Stretch(from: nat, to: nat, items: seq<T>, missed: nat)

  datatype Tap<T> = Tap(sends: seq<T>, pos: nat, from: nat, items: seq<T>, past: seq<Stretch<T>>)

  datatype Event<T> = Send(x: T) | Receive

  function TapStep<T>(t: Tap<T>, e: Event<T>, capacity: nat, keep: T -> bool): Tap<T> {
    match e
    case Send(x) => t.(sends := t.sends + [x])
    case Receive =>
      match ReceiveAt(t.sends, capacity, t.pos)
      case Empty => t
      case Item(x) => t.(pos := t.pos + 1, items := if keep(x) then t.items + [x] else t.items)
      case Missed(n) => Tap(t.sends, t.pos + n, t.pos + n, [], t.past + [Stretch(t.from, t.pos, t.items, n)])
  }

  function Tapped<T>(t: Tap<T>, events: seq<Event<T>>, capacity: nat, keep: T -> bool): Tap<T> {
    if events == [] then t
    else TapStep(Tapped(t, events[..|events| - 1], capacity, keep), events[|events| - 1], capacity, keep)
  }

  // A receiver made after `sends` has been sent.
  function NewTap<T>(sends: seq<T>): Tap<T> {
    Tap(sends, |sends|, |sends|, [], [])
  }

  // Where stretch k + 1 begins: the stretch after it in the past, or the one under way.
  function BeginsAfter<T>(t: Tap<T>, k: nat): nat
    requires k < |t.past|
  {
    if k + 1 < |t.past| then t.past[k + 1].from else t.from
  }

  ghost predicate Exact<T>(sends: seq<T>, from: nat, to: nat, items: seq<T>, keep: T -> bool) {
    from <= to <= |sends| && items == Matching(sends[from..to], keep)
  }

  // Every stretch is exactly the matching items of one contiguous slice of the sends, the slices
  // follow one another, and each error counts exactly the sends between two of them.
  ghost predicate Unbroken<T>(t: Tap<T>, start: nat, keep: T -> bool) {
    && start <= t.from && Exact(t.sends, t.from, t.pos, t.items, keep)
    && (forall k :: 0 <= k < |t.past| ==>
          && Exact(t.sends, t.past[k].from, t.past[k].to, t.past[k].items, keep)
          && t.past[k].missed > 0 && BeginsAfter(t, k) == t.past[k].to + t.past[k].missed)
    && (if t.past == [] then t.from else t.past[0].from) == start
  }

  lemma ExactStays<T>(sends: seq<T>, x: T, from: nat, to: nat, items: seq<T>, keep: T -> bool)
    requires Exact(sends, from, to, items, keep)
    ensures Exact(sends + [x], from, to, items, keep)
  {
    assert (sends + [x])[from..to] == sends[from..to];
  }

  lemma ExactGrows<T>(sends: seq<T>, from: nat, to: nat, items: seq<T>, keep: T -> bool)
    requires Exact(sends, from, to, items, keep) && to < |sends|
    ensures from <= to
    ensures Exact(sends, from, to + 1, if keep(sends[to]) then items + [sends[to]] else items, keep)
  {
    assert sends[from..to + 1][..to - from] == sends[from..to];
  }

  lemma SendKeepsUnbroken<T>(t: Tap<T>, start: nat, x: T, keep: T -> bool)
    requires Unbroken(t, start, keep)
    ensures Unbroken(t.(sends := t.sends + [x]), start, keep)
  {
    hide Exact;
    var v := t.(sends := t.sends + [x]);
    ExactStays(t.sends, x, t.from, t.pos, t.items, keep);
    forall k | 0 <= k < |v.past|
      ensures && Exact(v.sends, v.past[k].from, v.past[k].to, v.past[k].items, keep)
              && v.past[k].missed > 0 && BeginsAfter(v, k) == v.past[k].to + v.past[k].missed
    {
      ExactStays(t.sends, x, t.past[k].from, t.past[k].to, t.past[k].items, keep);
      assert BeginsAfter(v, k) == BeginsAfter(t, k);
    }
  }

  lemma ItemKeepsUnbroken<T>(t: Tap<T>, start: nat, items: seq<T>, keep: T -> bool)
    requires Unbroken(t, start, keep) && t.pos < |t.sends|
    requires items == if keep(t.sends[t.pos]) then t.items + [t.sends[t.pos]] else t.items
    ensures Unbroken(t.(pos := t.pos + 1, items := items), start, keep)
  {
    hide Exact;
    var v := t.(pos := t.pos + 1, items := items);
    ExactGrows(t.sends, t.from, t.pos, t.items, keep);
    assert forall k :: 0 <= k < |t.past| ==> BeginsAfter(v, k) == BeginsAfter(t, k);
  }

  lemma MissKeepsUnbroken<T>(t: Tap<T>, start: nat, n: nat, keep: T -> bool)
    requires Unbroken(t, start, keep) && n > 0 && t.pos + n <= |t.sends|
    ensures Unbroken(Tap(t.sends, t.pos + n, t.pos + n, [], t.past + [Stretch(t.from, t.pos, t.items, n)]), start, keep)
  {
  }

  lemma PositionWithin<T>(t: Tap<T>, start: nat, keep: T -> bool)
    requires Unbroken(t, start, keep)
    ensures t.pos <= |t.sends|
  {
  }

  lemma ReceiveKeepsUnbroken<T>(t: Tap<T>, start: nat, capacity: nat, keep: T -> bool)
    requires Unbroken(t, start, keep)
    ensures Unbroken(TapStep(t, Receive, capacity, keep), start, keep)
  {
    hide Unbroken;
    PositionWithin(t, start, keep);
    var v, r := TapStep(t, Receive, capacity, keep), ReceiveAt(t.sends, capacity, t.pos);
    if r.Item? {
      ItemKeepsUnbroken(t, start, v.items, keep);
    } else if r.Missed? {
      MissKeepsUnbroken(t, start, r.count, keep);
    }
  }

  lemma UnbrokenStep<T>(t: Tap<T>, start: nat, e: Event<T>, capacity: nat, keep: T -> bool)
    requires Unbroken(t, start, keep)
    ensures Unbroken(TapStep(t, e, capacity, keep), start, keep)
  {
    hide Unbroken;
    if e.Send? {
      SendKeepsUnbroken(t, start, e.x, keep);
    } else {
      ReceiveKeepsUnbroken(t, start, capacity, keep);
    }
  }

  lemma {:induction false} NoSilentLoss<T>(before: seq<T>, events: seq<Event<T>>, capacity: nat, keep: T -> bool)
    ensures Unbroken(Tapped(NewTap(before), events, capacity, keep), |before|, keep)
  {
    if events == [] {
      assert before[|before|..|before|] == [];
    } else {
      var front := events[..|events| - 1];
      NoSilentLoss(before, front, capacity, keep);
      UnbrokenStep(Tapped(NewTap(before), front, capacity, keep), |before|, events[|events| - 1], capacity, keep);
    }
  }

  // ----- a poll of the stream as receives

  function Receives<T>(n: nat): seq<Event<T>> {
    seq(n, _ => Receive)
  }

  lemma {:induction false} TappedFirst<T>(t: Tap<T>, e: Event<T>, events: seq<Event<T>>, capacity: nat, keep: T -> bool)
    ensures Tapped(t, [e] + events, capacity, keep) == Tapped(TapStep(t, e, capacity, keep), events, capacity, keep)
  {
    if events == [] {
      assert [e] + events == [e] && [e][..0] == [];
      assert Tapped(t, [], capacity, keep) == t;
    } else {
      var front := events[..|events| - 1];
      TappedFirst(t, e, front, capacity, keep);
      assert ([e] + events)[..|events|] == [e] + front;
    }
  }

  // What a poll does to the stream: it adds the item it yields, or closes the stretch with its error.
  function Polled<T>(t: Tap<T>, r: Option<Yield<T>>, next: nat): Tap<T> {
    match r
    case None => t.(pos := next)
    case Some(Got(x)) => t.(pos := next, items := t.items + [x])
    case Some(LagError(n)) => Tap(t.sends, next, next, [], t.past + [Stretch(t.from, t.pos, t.items, n)])
  }

  lemma OneReceive<T>(t: Tap<T>, capacity: nat, keep: T -> bool)
    ensures Tapped(t, Receives(1), capacity, keep) == TapStep(t, Receive, capacity, keep)
  {
  }

  lemma ReceiveFirst<T>(t: Tap<T>, n: nat, capacity: nat, keep: T -> bool)
    ensures Tapped(t, Receives(1 + n), capacity, keep)
         == Tapped(TapStep(t, Receive, capacity, keep), Receives(n), capacity, keep)
  {
    assert Receives<T>(1 + n) == [Receive] + Receives<T>(n);
    TappedFirst(t, Receive, Receives<T>(n), capacity, keep);
  }

  // Passing over an unwanted item leaves the outcome of the poll open.
  lemma PassingOver<T>(t: Tap<T>, capacity: nat, keep: T -> bool)
    requires t.pos <= |t.sends| && ReceiveAt(t.sends, capacity, t.pos).Item? && !keep(t.sends[t.pos])
    ensures var v := TapStep(t, Receive, capacity, keep);
            var (r, next) := Next(t.sends, capacity, keep, t.pos);
            && v == t.(pos := t.pos + 1)
            && Next(v.sends, capacity, keep, v.pos) == (r, next)
            && Polled(v, r, next) == Polled(t, r, next)
  {
    hide Matching;
    NextSkipsOnlyTheUnwanted(t.sends, capacity, keep, t.pos + 1);  // so no lag further on
  }

  // A poll is a number of receives, so what holds of every history of sends and receives holds of every
  // history of sends and polls.
  lemma {:induction false} PollIsReceives<T>(t: Tap<T>, capacity: nat, keep: T -> bool) returns (n: nat)
    requires t.pos <= |t.sends|
    ensures var (r, next) := Next(t.sends, capacity, keep, t.pos);
            Tapped(t, Receives(n), capacity, keep) == Polled(t, r, next)
    decreases |t.sends| - t.pos
  {
    if ReceiveAt(t.sends, capacity, t.pos).Item? && !keep(t.sends[t.pos]) {
      PassingOver(t, capacity, keep);
      var rest := PollIsReceives(t.(pos := t.pos + 1), capacity, keep);
      n := 1 + rest;
      hide Tapped, Receives, Next, Polled, TapStep;
      ReceiveFirst(t, rest, capacity, keep);
    } else {
      n := 1;
      OneReceive(t, capacity, keep);
    }
  }

  // ----- instrument isolation

  // The client's filter: this instrument's data, and never the connection marker.
  function OwnData(instrument: string): Message -> bool {
    (m: Message) => m.Data? && m.update.instrument == instrument
  }

  // A manager driven from its stream: the ring's sends, the stream's position, the items the manager has
  // handled so far, and its progress.
  datatype Drive = Drive(sends: seq<Message>, pos: nat, taken: seq<StreamItem>, progress: Progress)

  // A message is broadcast; the manager looks at its stream, with or without listeners of its own; or it
  // has waited too long.
  datatype DriveEvent = Arrives(m: Message) | Looks(listening: bool) | GivesUp

  function Taking(d: Drive, item: StreamItem): Drive {
    d.(taken := d.taken + [item], progress := Handle(d.progress, item))
  }

  function DriveStep(d: Drive, e: DriveEvent, capacity: nat, instrument: string): Drive {
    if e.Arrives? then d.(sends := d.sends + [e.m])
    else if d.progress.exit.Some? then d
    else if e.GivesUp? then Taking(d, Elapsed)
    else match ReceiveAt(d.sends, capacity, d.pos)
      case Empty => d
      case Missed(n) => Taking(d.(pos := d.pos + n), Lagged)
      case Item(m) =>
        var next := d.(pos := d.pos + 1);
        if OwnData(instrument)(m) then Taking(next, Received(m, e.listening)) else next
  }

  function Driven(d: Drive, events: seq<DriveEvent>, capacity: nat, instrument: string): Drive {
    if events == [] then d
    else DriveStep(Driven(d, events[..|events| - 1], capacity, instrument), events[|events| - 1], capacity, instrument)
  }

  // At no point does the receiver fall more than the ring's capacity behind.
  ghost predicate NeverLags(d: Drive, events: seq<DriveEvent>, capacity: nat, instrument: string) {
    forall n :: 0 <= n <= |events| ==>
      var at := Driven(d, events[..n], capacity, instrument);
      Oldest(|at.sends|, capacity) <= at.pos
  }

  // A manager that keeps up gets on: a look takes it past one message, and to its own ones.
  lemma LooksMoveOn(d: Drive, listening: bool, capacity: nat, instrument: string)
    requires d.progress.exit.None? && d.pos < |d.sends| <= d.pos + capacity
    ensures var v, m := DriveStep(d, Looks(listening), capacity, instrument), d.sends[d.pos];
            && v.pos == d.pos + 1 && v.sends == d.sends
            && v.taken == if m.Data? && m.update.instrument == instrument then d.taken + [Received(m, listening)]
                          else d.taken
  {
    ReceiveIsExact(d.sends, capacity, d.pos);
  }

  // One that has waited too long, or has fallen further behind than the ring holds, ends its stream.
  lemma TimeoutsAndLagsEnd(d: Drive, e: DriveEvent, capacity: nat, instrument: string)
    requires d.progress.exit.None? && d.pos <= |d.sends|
    requires e.GivesUp? || (e.Looks? && |d.sends| - d.pos > capacity)
    ensures DriveStep(d, e, capacity, instrument).progress.exit == Some(StreamEnded)
    ensures DriveStep(d, e, capacity, instrument).progress.local == d.progress.local
  {
    ReceiveIsExact(d.sends, capacity, d.pos);
  }

  // A stream that begins after `before` was sent, and a manager that has progressed to `p`.
  function Start(before: seq<Message>, p: Progress): Drive {
    Drive(before, |before|, [], p)
  }

  function AsItems(ms: seq<Message>): seq<StreamItem> {
    seq(|ms|, i requires 0 <= i < |ms| => Received(ms[i], false))
  }

  function Unlistened(item: StreamItem): StreamItem {
    if item.Received? then item.(listening := false) else item
  }

  function AllUnlistened(items: seq<StreamItem>): seq<StreamItem> {
    seq(|items|, i requires 0 <= i < |items| => Unlistened(items[i]))
  }

  predicate TimedOut(d: Drive) {
    d.taken != [] && d.taken[|d.taken| - 1].Elapsed?
  }

  // The manager has handled exactly its own messages among those its stream has gone past, and then a
  // timeout if there was one.
  ghost predicate Tracks(d: Drive, start: nat, p: Progress, instrument: string) {
    && start <= d.pos <= |d.sends| && d.progress == HandleAll(p, d.taken)
    && (TimedOut(d) ==> d.progress.exit.Some?)
    && AllUnlistened(d.taken) == Then(AsItems(Matching(d.sends[start..d.pos], OwnData(instrument))), TimedOut(d))
  }

  function Then(items: seq<StreamItem>, timedOut: bool): seq<StreamItem> {
    if timedOut then items + [Elapsed] else items
  }

  lemma HandleOneMore(p: Progress, items: seq<StreamItem>, item: StreamItem)
    ensures HandleAll(p, items + [item]) == Handle(HandleAll(p, items), item)
  {
    hide Handle;
    assert (items + [item])[..|items|] == items;
  }

  lemma OneMoreUnlistened(items: seq<StreamItem>, item: StreamItem)
    ensures AllUnlistened(items + [item]) == AllUnlistened(items) + [Unlistened(item)]
  {
  }

  lemma OneMoreItem(ms: seq<Message>, m: Message)
    ensures AsItems(ms + [m]) == AsItems(ms) + [Received(m, false)]
  {
  }

  lemma TakingOne(d: Drive, p: Progress, item: StreamItem)
    requires d.progress == HandleAll(p, d.taken)
    ensures Taking(d, item).progress == HandleAll(p, Taking(d, item).taken)
    ensures AllUnlistened(Taking(d, item).taken) == AllUnlistened(d.taken) + [Unlistened(item)]
  {
    hide Handle, HandleAll, AllUnlistened;
    HandleOneMore(p, d.taken, item);
    OneMoreUnlistened(d.taken, item);
  }

  lemma MatchingOneMore(sends: seq<Message>, from: nat, to: nat, keep: Message -> bool)
    requires from <= to < |sends|
    ensures Matching(sends[from..to + 1], keep) ==
            if keep(sends[to]) then Matching(sends[from..to], keep) + [sends[to]] else Matching(sends[from..to], keep)
  {
    assert sends[from..to + 1][..to - from] == sends[from..to];
  }

  lemma ArrivalTracks(d: Drive, m: Message, start: nat, p: Progress, instrument: string)
    requires Tracks(d, start, p, instrument)
    ensures Tracks(d.(sends := d.sends + [m]), start, p, instrument)
  {
    assert (d.sends + [m])[start..d.pos] == d.sends[start..d.pos];
  }

  lemma ElapsedEnds(p: Progress)
    ensures Handle(p, Elapsed).exit.Some?
  {
  }

  lemma GivingUpTracks(d: Drive, start: nat, p: Progress, instrument: string)
    requires Tracks(d, start, p, instrument) && d.progress.exit.None?
    ensures Tracks(Taking(d, Elapsed), start, p, instrument)
  {
    hide HandleAll, Handle, AllUnlistened, AsItems, Matching;
    TakingOne(d, p, Elapsed);
    ElapsedEnds(d.progress);
  }

  lemma LookTracks(d: Drive, listening: bool, start: nat, p: Progress, instrument: string)
    requires Tracks(d, start, p, instrument) && d.progress.exit.None? && d.pos < |d.sends|
    ensures var next := d.(pos := d.pos + 1);
            var m := d.sends[d.pos];
            Tracks(if OwnData(instrument)(m) then Taking(next, Received(m, listening)) else next, start, p, instrument)
  {
    hide Handle, HandleAll, AllUnlistened, AsItems, Matching;
    var m, keep := d.sends[d.pos], OwnData(instrument);
    MatchingOneMore(d.sends, start, d.pos, keep);
    if keep(m) {
      TakingOne(d.(pos := d.pos + 1), p, Received(m, listening));
      OneMoreItem(Matching(d.sends[start..d.pos], keep), m);
    }
  }

  lemma DriveStepTracks(d: Drive, e: DriveEvent, start: nat, p: Progress, capacity: nat, instrument: string)
    requires Tracks(d, start, p, instrument) && Oldest(|d.sends|, capacity) <= d.pos
    ensures Tracks(DriveStep(d, e, capacity, instrument), start, p, instrument)
  {
    hide Tracks;
    if e.Arrives? {
      ArrivalTracks(d, e.m, start, p, instrument);
    } else if d.progress.exit.None? {
      if e.GivesUp? {
        GivingUpTracks(d, start, p, instrument);
      } else if d.pos < |d.sends| {
        LookTracks(d, e.listening, start, p, instrument);
      }
    }
  }

  lemma {:induction false} DrivenIsHandled(
    before: seq<Message>, p: Progress, events: seq<DriveEvent>, capacity: nat, instrument: string)
    requires NeverLags(Start(before, p), events, capacity, instrument)
    ensures Tracks(Driven(Start(before, p), events, capacity, instrument), |before|, p, instrument)
  {
    var start := Start(before, p);
    if events == [] {
      assert before[|before|..|before|] == [];
    } else {
      var front := events[..|events| - 1];
      assert forall n :: 0 <= n <= |front| ==> front[..n] == events[..n];
      DrivenIsHandled(before, p, front, capacity, instrument);
      assert front == events[..|front|];
      hide Tracks, DriveStep;
      DriveStepTracks(Driven(start, front, capacity, instrument), events[|events| - 1], |before|, p, capacity,
                      instrument);
    }
  }

  // ----- listeners change what is announced, and nothing else

  function Unannounced(p: Progress): Progress {
    p.(local := p.local.(announced := []))
  }

  lemma {:induction false} ListenersOnlyHear(p: Progress, items: seq<StreamItem>)
    ensures Unannounced(HandleAll(p, items)) == Unannounced(HandleAll(p, AllUnlistened(items)))
  {
    if items != [] {
      var front := items[..|items| - 1];
      ListenersOnlyHear(p, front);
      assert AllUnlistened(items)[..|front|] == AllUnlistened(front);
      hide HandleAll;
      OneHeard(HandleAll(p, front), HandleAll(p, AllUnlistened(front)), items[|front|]);
    }
  }

  lemma OneHeard(p: Progress, q: Progress, item: StreamItem)
    requires Unannounced(p) == Unannounced(q)
    ensures Unannounced(Handle(p, item)) == Unannounced(Handle(q, Unlistened(item)))
  {
    hide Install, Advance;
  }

  // Everything sent on the ring since the stream began, as far as this instrument is concerned.
  function OwnTraffic(d: Drive, start: nat, instrument: string): seq<Message>
    requires start <= |d.sends|
  {
    Matching(d.sends[start..], OwnData(instrument))
  }

  // How many messages had been handled when the manager gave up waiting, if it did.
  function GaveUpAfter(d: Drive): Option<nat> {
    if TimedOut(d) then Some(|d.taken| - 1) else None
  }

  // The manager has finished: its stream has ended, or it has taken in all there is.
  predicate Finished(d: Drive) {
    d.progress.exit.Some? || d.pos == |d.sends|
  }

  // What a finished manager has made of its own traffic.
  function Outcome(p: Progress, traffic: seq<Message>, gaveUpAfter: Option<nat>): Progress {
    match gaveUpAfter
    case None => HandleAll(p, AsItems(traffic))
    case Some(k) => HandleAll(p, (if k <= |traffic| then AsItems(traffic[..k]) else []) + [Elapsed])
  }

  lemma WholeTraffic(d: Drive, start: nat, p: Progress, instrument: string)
    requires Tracks(d, start, p, instrument) && Finished(d)
    ensures Unannounced(d.progress) ==
            Unannounced(Outcome(p, OwnTraffic(d, start, instrument), GaveUpAfter(d)))
  {
    hide Handle, HandleAll, AsItems, AllUnlistened, Matching, Unannounced;
    var seen, rest := d.sends[start..d.pos], d.sends[d.pos..];
    assert d.sends[start..] == seen + rest;
    MatchingConcat(seen, rest, OwnData(instrument));
    var a, b := Matching(seen, OwnData(instrument)), Matching(rest, OwnData(instrument));
    ListenersOnlyHear(p, d.taken);
    if TimedOut(d) {
      UnlistenedSize(d.taken, a);
      assert (a + b)[..|a|] == a;
    } else {
      if d.progress.exit.None? {
        MatchingNone(rest, OwnData(instrument));
      }
      RestIsIdle(p, a, b, d);
    }
  }

  lemma UnlistenedSize(items: seq<StreamItem>, ms: seq<Message>)
    requires AllUnlistened(items) == AsItems(ms) + [Elapsed]
    ensures |items| == |ms| + 1
  {
  }

  lemma MatchingNone<T>(items: seq<T>, keep: T -> bool)
    ensures items == [] ==> Matching(items, keep) == []
  {
  }

  // What comes after the end of a stream, or after everything, is nothing to the manager.
  lemma RestIsIdle(p: Progress, a: seq<Message>, b: seq<Message>, d: Drive)
    requires Unannounced(d.progress) == Unannounced(HandleAll(p, AsItems(a)))
    requires d.progress.exit.Some? || b == []
    ensures HandleAll(p, AsItems(a + b)) == HandleAll(p, AsItems(a))
  {
    hide Handle, HandleAll;
    assert AsItems(a + b) == AsItems(a) + AsItems(b);
    HandleConcat(p, AsItems(a), AsItems(b));
    if d.progress.exit.Some? {
      ExitIsFinal(HandleAll(p, AsItems(a)), AsItems(b));
    } else {
      assert a + b == a;
    }
  }

  // Two broadcast histories that agree on one instrument's messages, however they are interleaved with
  // the manager's looks at its stream and with other traffic, and whoever listens to it, drive its manager
  // to the same book and the same exit, if it gave up waiting at the same point in both, or in neither.
  lemma InstrumentIsolation(
    before1: seq<Message>, events1: seq<DriveEvent>, before2: seq<Message>, events2: seq<DriveEvent>,
    p: Progress, capacity: nat, instrument: string)
    requires NeverLags(Start(before1, p), events1, capacity, instrument)
    requires NeverLags(Start(before2, p), events2, capacity, instrument)
    requires var end1, end2 := Driven(Start(before1, p), events1, capacity, instrument),
                               Driven(Start(before2, p), events2, capacity, instrument);
             && Finished(end1) && Finished(end2) && GaveUpAfter(end1) == GaveUpAfter(end2)
             && |before1| <= |end1.sends| && |before2| <= |end2.sends|
             && OwnTraffic(end1, |before1|, instrument) == OwnTraffic(end2, |before2|, instrument)
    ensures var end1, end2 := Driven(Start(before1, p), events1, capacity, instrument).progress,
                              Driven(Start(before2, p), events2, capacity, instrument).progress;
            && end1.local.book == end2.local.book && end1.local.ready == end2.local.ready
            && end1.exit == end2.exit && end1.handled == end2.handled
  {
    DrivenIsHandled(before1, p, events1, capacity, instrument);
    DrivenIsHandled(before2, p, events2, capacity, instrument);
    hide NeverLags, Driven, Tracks, Outcome;
    WholeTraffic(Driven(Start(before1, p), events1, capacity, instrument), |before1|, p, instrument);
    WholeTraffic(Driven(Start(before2, p), events2, capacity, instrument), |before2|, p, instrument);
  }
}
