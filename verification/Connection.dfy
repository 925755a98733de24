/** The reconnect loop (`ConnectionRunner`): the states it publishes and the order of what it hands to
    the dispatch loop, for every sequence of network events. */
module Connection {
  import Feed
  import Requests

  type Inbound = Requests.Inbound

  datatype ConnectionState = Stopped | Connecting | Connected | Failed

  // What is put on the inbound queue. Data is tagged with the connection that it came over.
  datatype Delivery = Data(connection: nat, m: Inbound) | Lost

  // What the loops wait for: the connection attempt, the heartbeat set-up, frames and errors from the
  // socket, requests to write, and the dispatch loop dropping its end of the queue.
  datatype Event =
    | ConnectFails
    | Connects
    | SetUpWritten
    | SetUpFails
    | Text(m: Inbound)
    | Ping
    | OtherFrame
    | CloseFrame
    | ReadError
    | ReadTimeout
    | EndOfStream
    | Written
    | WriteError
    | OutboundClosed
    | ReceiverDropped

  datatype Where = AtConnect | AtSetUp | Serving | Done

  datatype State =
    State(at: Where, connections: nat, published: seq<ConnectionState>, inbound: seq<Delivery>, open: bool)

  // The loop has published that it is connecting and waits for the outcome.
  const INITIAL: State := State(AtConnect, 0, [Connecting], [], true)

  predicate Breaks(e: Event) {
    e.CloseFrame? || e.ReadError? || e.ReadTimeout? || e.EndOfStream? || e.WriteError?
  }

  // Publish the failure, report it on the queue if anyone still listens, and go round to connect again.
  function Fail(s: State): State {
    s.(at := AtConnect, published := s.published + [Failed, Connecting],
       inbound := if s.open then s.inbound + [Lost] else s.inbound)
  }

  function Stop(s: State): State {
    s.(at := Done, published := s.published + [Stopped])
  }

  // Events that nothing waits for where the loop stands have no effect.
  function Do(s: State, e: Event): State {
    if s.at.Done? then s
    else if e.ReceiverDropped? then s.(open := false)
    else match s.at
      case AtConnect =>
        if e.ConnectFails? then Fail(s)
        else if e.Connects? then
          s.(at := AtSetUp, connections := s.connections + 1, published := s.published + [Connected])
        else s
      case AtSetUp =>
        if e.SetUpFails? then Fail(s)
        else if e.SetUpWritten? then s.(at := Serving)
        else s
      case Serving =>
        if e.Text? then
          (if s.open then s.(inbound := s.inbound + [Data(s.connections, e.m)]) else Stop(s))
        else if Breaks(e) then Fail(s)
        else if e.OutboundClosed? then Stop(s)
        else s
  }

  function Exec(s: State, events: seq<Event>): State {
    if events == [] then s else Do(Exec(s, events[..|events| - 1]), events[|events| - 1])
  }

  // ----- what is published

  // One failed round: a failed attempt, or a connection made and lost.
  predicate Round(states: seq<ConnectionState>) {
    states == [Connecting, Failed] || states == [Connecting, Connected, Failed]
  }

  // Zero or more failed rounds.
  predicate Rounds(states: seq<ConnectionState>) {
    || states == []
    || (|states| >= 2 && Round(states[..2]) && Rounds(states[2..]))
    || (|states| >= 3 && Round(states[..3]) && Rounds(states[3..]))
  }

  // A whole life of the loop: failed rounds, then one connection that is shut down.
  ghost predicate Life(states: seq<ConnectionState>) {
    exists rounds :: Rounds(rounds) && states == rounds + [Connecting, Connected, Stopped]
  }

  lemma {:induction false} RoundsExtend(rounds: seq<ConnectionState>, round: seq<ConnectionState>)
    requires Rounds(rounds) && Round(round)
    ensures Rounds(rounds + round)
    decreases |rounds|
  {
    var longer := rounds + round;
    if rounds == [] {
      assert longer == round;
      assert round[..|round|] == round && round[|round|..] == [];
    } else if |rounds| >= 2 && Round(rounds[..2]) && Rounds(rounds[2..]) {
      RoundsExtend(rounds[2..], round);
      assert longer[..2] == rounds[..2] && longer[2..] == rounds[2..] + round;
    } else {
      RoundsExtend(rounds[3..], round);
      assert longer[..3] == rounds[..3] && longer[3..] == rounds[3..] + round;
    }
  }

  // What has been published on top of some failed rounds.
  function Tail(at: Where): seq<ConnectionState> {
    match at
    case AtConnect => [Connecting]
    case AtSetUp => [Connecting, Connected]
    case Serving => [Connecting, Connected]
    case Done => [Connecting, Connected, Stopped]
  }

  ghost predicate PublishedOk(s: State) {
    exists rounds :: Rounds(rounds) && s.published == rounds + Tail(s.at)
  }

  lemma FailRound(s: State, rounds: seq<ConnectionState>)
    requires !s.at.Done? && Rounds(rounds) && s.published == rounds + Tail(s.at)
    ensures PublishedOk(Fail(s))
  {
    var round := Tail(s.at) + [Failed];
    RoundsExtend(rounds, round);
    assert Fail(s).published == (rounds + round) + [Connecting];
  }

  lemma PublishStep(s: State, e: Event)
    requires PublishedOk(s)
    ensures PublishedOk(Do(s, e))
  {
    var v := Do(s, e);
    var rounds :| Rounds(rounds) && s.published == rounds + Tail(s.at);
    if !s.at.Done? && v == Fail(s) {
      FailRound(s, rounds);
    } else {
      assert v.published == rounds + Tail(v.at);
    }
  }

  // In every run the published states are a prefix of a whole life, and all of one once it has stopped.
  lemma {:induction false} PublishedStatesAreALife(events: seq<Event>)
    ensures PublishedOk(Exec(INITIAL, events))
    ensures exists rest :: Life(Exec(INITIAL, events).published + rest)
    ensures Exec(INITIAL, events).at.Done? ==> Life(Exec(INITIAL, events).published)
  {
    var s := Exec(INITIAL, events);
    if events == [] {
      assert INITIAL.published == [] + Tail(AtConnect);
    } else {
      PublishedStatesAreALife(events[..|events| - 1]);
      PublishStep(Exec(INITIAL, events[..|events| - 1]), events[|events| - 1]);
    }
    var rounds :| Rounds(rounds) && s.published == rounds + Tail(s.at);
    var rest := [Connecting, Connected, Stopped][|Tail(s.at)|..];
    assert s.published + rest == rounds + [Connecting, Connected, Stopped];
    assert Life(s.published + rest);
    if s.at.Done? {
      assert rest == [] && s.published + rest == s.published;
    }
  }

  // ----- the order of the inbound queue

  // Data of two different connections has a loss report in between, and connections come in order.
  ghost predicate Separated(inbound: seq<Delivery>) {
    forall i, j :: 0 <= i < j < |inbound| && inbound[i].Data? && inbound[j].Data? ==>
      && inbound[i].connection <= inbound[j].connection
      && (inbound[i].connection != inbound[j].connection ==> LostBetween(inbound, i, j))
  }

  ghost predicate LostBetween(inbound: seq<Delivery>, i: int, j: int) {
    exists k :: 0 <= i < k < j <= |inbound| && inbound[k].Lost?
  }

  ghost predicate InboundOk(s: State) {
    && Separated(s.inbound)
    && (forall i :: 0 <= i < |s.inbound| && s.inbound[i].Data? ==>
          && s.inbound[i].connection <= s.connections
          && (s.open && (s.at.AtConnect? || s.inbound[i].connection < s.connections) ==>
                LostBetween(s.inbound, i, |s.inbound|)))
  }

  lemma LostStays(inbound: seq<Delivery>, longer: seq<Delivery>)
    requires |longer| == |inbound| + 1 && longer[..|inbound|] == inbound
    ensures forall i, j :: LostBetween(inbound, i, j) ==> LostBetween(longer, i, j)
    ensures forall i :: LostBetween(inbound, i, |inbound|) ==> LostBetween(longer, i, |longer|)
    ensures longer[|inbound|].Lost? ==> forall i :: 0 <= i < |inbound| ==> LostBetween(longer, i, |longer|)
  {
  }

  lemma InboundStep(s: State, e: Event)
    requires InboundOk(s)
    ensures InboundOk(Do(s, e))
  {
    hide LostBetween;
    var v := Do(s, e);
    if |v.inbound| > |s.inbound| {
      assert v.inbound[..|s.inbound|] == s.inbound;
      LostStays(s.inbound, v.inbound);
    }
  }

  lemma {:induction false} ConnectionsAreSeparated(events: seq<Event>)
    ensures InboundOk(Exec(INITIAL, events))
  {
    if events != [] {
      ConnectionsAreSeparated(events[..|events| - 1]);
      InboundStep(Exec(INITIAL, events[..|events| - 1]), events[|events| - 1]);
    }
  }

  function Losses(inbound: seq<Delivery>): nat {
    if inbound == [] then 0
    else Losses(inbound[..|inbound| - 1]) + (if inbound[|inbound| - 1].Lost? then 1 else 0)
  }

  function Failures(published: seq<ConnectionState>): nat {
    if published == [] then 0
    else Failures(published[..|published| - 1]) + (if published[|published| - 1].Failed? then 1 else 0)
  }

  ghost predicate Reported(s: State) {
    Losses(s.inbound) <= Failures(s.published) && (s.open ==> Losses(s.inbound) == Failures(s.published))
  }

  lemma OneMorePublished(published: seq<ConnectionState>, p: ConnectionState)
    ensures Failures(published + [p]) == Failures(published) + (if p.Failed? then 1 else 0)
  {
  }

  lemma OneMoreDelivered(inbound: seq<Delivery>, d: Delivery)
    ensures Losses(inbound + [d]) == Losses(inbound) + (if d.Lost? then 1 else 0)
  {
  }

  lemma ReportedStep(s: State, e: Event)
    requires Reported(s)
    ensures Reported(Do(s, e))
  {
    hide Losses, Failures;
    forall p { OneMorePublished(s.published, p); }
    OneMorePublished(s.published + [Failed], Connecting);
    assert s.published + [Failed, Connecting] == (s.published + [Failed]) + [Connecting];
    forall d { OneMoreDelivered(s.inbound, d); }
  }

  // While anyone listens, every published failure is reported on the queue, once.
  lemma {:induction false} EveryFailureIsReported(events: seq<Event>)
    ensures var s := Exec(INITIAL, events);
            Losses(s.inbound) <= Failures(s.published) && (s.open ==> Losses(s.inbound) == Failures(s.published))
  {
    if events == [] {
      assert [Connecting][..0] == [];
    } else {
      EveryFailureIsReported(events[..|events| - 1]);
      ReportedStep(Exec(INITIAL, events[..|events| - 1]), events[|events| - 1]);
    }
  }

  // ----- what arrives, read off the events alone

  // The connection as the events make it: none, made but not set up, up, or shut down for good.
  datatype Link = Down | Made | Up | Shut

  predicate Gone(events: seq<Event>) {
    exists i :: 0 <= i < |events| && events[i].ReceiverDropped?
  }

  // A close frame, a read error or timeout, the end of the stream, or a failed write.
  predicate EndsLink(e: Event) {
    e in {CloseFrame, ReadError, ReadTimeout, EndOfStream, WriteError}
  }

  function LinkAfter(events: seq<Event>): Link {
    if events == [] then Down
    else
      var front, e := events[..|events| - 1], events[|events| - 1];
      match LinkAfter(front)
      case Down => if e.Connects? then Made else Down
      case Made => if e.SetUpWritten? then Up else if e.SetUpFails? then Down else Made
      case Up =>
        if EndsLink(e) then Down
        else if e.OutboundClosed? || (e.Text? && Gone(front)) then Shut
        else Up
      case Shut => Shut
  }

  // How many connections were made.
  function ConnectionsMade(events: seq<Event>): nat {
    if events == [] then 0
    else
      var front, e := events[..|events| - 1], events[|events| - 1];
      ConnectionsMade(front) + if e.Connects? && LinkAfter(front).Down? then 1 else 0
  }

  // The text frames that come while the connection is up and somebody listens, each with the number of
  // its connection.
  function TextFrames(events: seq<Event>): seq<Delivery> {
    if events == [] then []
    else
      var front, e := events[..|events| - 1], events[|events| - 1];
      if e.Text? && LinkAfter(front).Up? && !Gone(front) then TextFrames(front) + [Data(ConnectionsMade(front), e.m)]
      else TextFrames(front)
  }

  // How often an attempt, a set-up or a connection failed.
  function Breakdowns(events: seq<Event>): nat {
    if events == [] then 0
    else
      var front, e := events[..|events| - 1], events[|events| - 1];
      var link := LinkAfter(front);
      Breakdowns(front) +
      if (link.Down? && e.ConnectFails?) || (link.Made? && e.SetUpFails?) || (link.Up? && EndsLink(e)) then 1 else 0
  }

  function DataOf(inbound: seq<Delivery>): seq<Delivery> {
    if inbound == [] then []
    else
      var front, last := DataOf(inbound[..|inbound| - 1]), inbound[|inbound| - 1];
      if last.Data? then front + [last] else front
  }

  lemma DataOfOneMore(inbound: seq<Delivery>, d: Delivery)
    ensures DataOf(inbound + [d]) == if d.Data? then DataOf(inbound) + [d] else DataOf(inbound)
  {
    assert (inbound + [d])[..|inbound|] == inbound;
  }

  function LinkOf(at: Where): Link {
    match at
    case AtConnect => Down
    case AtSetUp => Made
    case Serving => Up
    case Done => Shut
  }

  ghost predicate ScanOk(s: State, events: seq<Event>) {
    && LinkAfter(events) == LinkOf(s.at) && (!s.at.Done? ==> s.open == !Gone(events))
    && s.connections == ConnectionsMade(events) && DataOf(s.inbound) == TextFrames(events)
    && Failures(s.published) == Breakdowns(events)
  }

  lemma GoneStays(events: seq<Event>, e: Event)
    ensures Gone(events + [e]) <==> Gone(events) || e.ReceiverDropped?
  {
    assert (events + [e])[|events|] == e;
    assert forall i :: 0 <= i < |events| ==> (events + [e])[i] == events[i];
  }

  // What an event does to the scan.
  lemma ScanOneMore(events: seq<Event>, e: Event)
    ensures var link, now := LinkAfter(events), events + [e];
            && ConnectionsMade(now) == ConnectionsMade(events) + (if e.Connects? && link.Down? then 1 else 0)
            && TextFrames(now) ==
               (if e.Text? && link.Up? && !Gone(events) then TextFrames(events) + [Data(ConnectionsMade(events), e.m)]
                else TextFrames(events))
            && Breakdowns(now) == Breakdowns(events) +
                 (if (link.Down? && e.ConnectFails?) || (link.Made? && e.SetUpFails?) || (link.Up? && EndsLink(e))
                  then 1 else 0)
            && LinkAfter(now) ==
                 match link
                 case Down => if e.Connects? then Made else Down
                 case Made => if e.SetUpWritten? then Up else if e.SetUpFails? then Down else Made
                 case Up =>
                   if EndsLink(e) then Down
                   else if e.OutboundClosed? || (e.Text? && Gone(events)) then Shut
                   else Up
                 case Shut => Shut
  {
    hide Gone;
    assert (events + [e])[..|events|] == events;
  }

  lemma ScanStep(s: State, events: seq<Event>, e: Event)
    requires ScanOk(s, events)
    ensures ScanOk(Do(s, e), events + [e])
  {
    hide Gone, LinkAfter, ConnectionsMade, TextFrames, Breakdowns, DataOf, Failures;
    ScanOneMore(events, e);
    GoneStays(events, e);
    forall d { DataOfOneMore(s.inbound, d); }
    forall p { OneMorePublished(s.published, p); }
    OneMorePublished(s.published + [Failed], Connecting);
    assert s.published + [Failed, Connecting] == (s.published + [Failed]) + [Connecting];
  }

  // Exactly the text frames that come while a connection is up and somebody listens are put on the
  // queue, in order, once each, with the number of their connection; and every breakdown is published.
  lemma {:induction false} EveryFrameArrives(events: seq<Event>)
    ensures DataOf(Exec(INITIAL, events).inbound) == TextFrames(events)
    ensures Exec(INITIAL, events).connections == ConnectionsMade(events)
    ensures Failures(Exec(INITIAL, events).published) == Breakdowns(events)
    ensures Exec(INITIAL, events).at.Done? <==> LinkAfter(events).Shut?
    ensures ScanOk(Exec(INITIAL, events), events)
  {
    if events == [] {
      assert [Connecting][..0] == [];
    } else {
      var front, e := events[..|events| - 1], events[|events| - 1];
      EveryFrameArrives(front);
      assert events == front + [e];
      hide ScanOk;
      ScanStep(Exec(INITIAL, front), front, e);
    }
  }

  // ----- and of what the dispatch loop broadcasts

  function Handled(inbound: seq<Delivery>): seq<Inbound> {
    seq(|inbound|, i requires 0 <= i < |inbound| => if inbound[i].Lost? then Requests.Dropped else inbound[i].m)
  }

  lemma {:induction false} BooksGrow(ms: seq<Inbound>, i: nat, j: nat)
    requires i <= j <= |ms|
    ensures Requests.AllBooks(ms[..i]) <= Requests.AllBooks(ms[..j])
  {
    if i < j {
      BooksGrow(ms, i, j - 1);
      assert ms[..j][..j - 1] == ms[..j - 1];
    }
  }

  // Book updates of two connections are separated by a loss marker on the broadcast as well: after
  // everything up to the first and before anything from the second on.
  lemma BroadcastIsSeparated(events: seq<Event>, i: nat, j: nat)
    requires var inbound := Exec(INITIAL, events).inbound;
             && i < j < |inbound| && inbound[i].Data? && inbound[j].Data?
             && inbound[i].connection != inbound[j].connection
    ensures var ms := Handled(Exec(INITIAL, events).inbound);
            exists p :: |Requests.AllBooks(ms[..i + 1])| <= p < |Requests.AllBooks(ms[..j])|
                        && Requests.AllBooks(ms[..j])[p] == Feed.ConnectionLost
  {
    hide Exec, Requests.AllBooks;
    var inbound := Exec(INITIAL, events).inbound;
    var ms := Handled(inbound);
    ConnectionsAreSeparated(events);
    assert LostBetween(inbound, i, j);
    var k :| i < k < j && inbound[k].Lost?;
    LostIsBroadcast(ms, k);
    BooksGrow(ms, i + 1, k);
    BooksGrow(ms, k + 1, j);
    var p := |Requests.AllBooks(ms[..k])|;
    assert Requests.AllBooks(ms[..j])[p] == Requests.AllBooks(ms[..k + 1])[p];
  }

  lemma LostIsBroadcast(ms: seq<Inbound>, k: nat)
    requires k < |ms| && ms[k].Dropped?
    ensures Requests.AllBooks(ms[..k + 1]) == Requests.AllBooks(ms[..k]) + [Feed.ConnectionLost]
  {
    assert ms[..k + 1][..k] == ms[..k];
  }

  // ----- the loops

  class ConnectionRunner {
    var connections: nat
    var published: seq<ConnectionState>
    var inbound: seq<Delivery>
    var open: bool

    ghost function View(at: Where): State
      reads this
    {
      State(at, connections, published, inbound, open)
    }

    constructor ()
      ensures View(AtConnect) == INITIAL
    {
      connections, published, inbound, open := 0, [Connecting], [], true;
    }

    method LoseConnection(ghost at: Where)
      modifies this
      ensures View(AtConnect) == Fail(old(View(at)))
    {
      published := published + [Failed];
      if open {
        inbound := inbound + [Lost];
      }
      published := published + [Connecting];
    }

    // Serves one connection from event `i` on, until it breaks, is shut down, or the events run out.
    method HandleConnection(events: seq<Event>, i: nat, ghost start: State) returns (at: Where, next: nat)
      requires i <= |events| && View(AtSetUp) == Exec(start, events[..i])
      modifies this
      ensures i <= next <= |events| && View(at) == Exec(start, events[..next])
      ensures next == |events| || at.AtConnect? || at.Done?
    {
      at, next := AtSetUp, i;
      while next < |events| && (at.AtSetUp? || at.Serving?)
        invariant i <= next <= |events| && View(at) == Exec(start, events[..next])
      {
        var e := events[next];
        assert events[..next + 1][..next] == events[..next];
        next := next + 1;
        if e.ReceiverDropped? {
          open := false;
        } else if at.AtSetUp? {
          if e.SetUpFails? {
            LoseConnection(at);
            at := AtConnect;
          } else if e.SetUpWritten? {
            at := Serving;
          }
        } else {
          if e.Text? {
            if open {
              inbound := inbound + [Data(connections, e.m)];
            } else {
              published := published + [Stopped];
              at := Done;
            }
          } else if Breaks(e) {
            LoseConnection(at);
            at := AtConnect;
          } else if e.OutboundClosed? {
            published := published + [Stopped];
            at := Done;
          }
        }
      }
    }

    method MaintainConnection(events: seq<Event>) returns (at: Where)
      requires View(AtConnect) == INITIAL
      modifies this
      ensures View(at) == Exec(INITIAL, events)
      ensures DataOf(inbound) == TextFrames(events) && (at.Done? <==> LinkAfter(events).Shut?)
    {
      hide LinkAfter, TextFrames, ConnectionsMade, Breakdowns, DataOf, Failures, ScanOk;
      EveryFrameArrives(events);
      at := AtConnect;
      var i := 0;
      while i < |events| && at.AtConnect?
        invariant i <= |events| && View(at) == Exec(INITIAL, events[..i])
        invariant i == |events| || at.AtConnect? || at.Done?
        decreases |events| - i
      {
        var e := events[i];
        assert events[..i + 1][..i] == events[..i];
        i := i + 1;
        match e {
          case ReceiverDropped => open := false;
          case ConnectFails => LoseConnection(at);
          case Connects =>
            published := published + [Connected];
            connections := connections + 1;
            at, i := HandleConnection(events, i, INITIAL);
          case _ =>
        }
      }
      assert events[..|events|] == events;
      DoneStays(INITIAL, events, i);
    }

    lemma DoneStays(s: State, events: seq<Event>, i: nat)
      requires i <= |events| && (i == |events| || Exec(s, events[..i]).at.Done?)
      ensures Exec(s, events) == Exec(s, events[..i])
    {
      if i == |events| {
        assert events[..i] == events;
      } else {
        DoneStays(s, events[..|events| - 1], i) by {
          assert events[..|events| - 1][..i] == events[..i];
        }
        assert events[..|events| - 1][..i] == events[..i];
      }
    }
  }
}
