/** The two bounded queues between the connection loop and the dispatch loop. Each loop drains one queue
    and fills the other, and waits for room in the one it fills: when that can go on for ever. */
module Backpressure {
  import Requests

  type Inbound = Requests.Inbound

  const CAPACITY: nat := 32

  // The connection loop waits for a frame or an outbound message, or for room to pass a message on (a
  // frame, or the report of a lost connection), or is busy with the network.
  datatype Reader = Selecting | Passing(m: Inbound) | Busy

  // The dispatch loop waits for an inbound message, or for room to answer a heartbeat test.
  datatype Dispatcher = Receiving | Ponging

  datatype State = State(reader: Reader, dispatcher: Dispatcher, inbound: seq<Inbound>, outbound: nat)

  const IDLE: State := State(Selecting, Receiving, [], 0)

  datatype Step =
    | Frame(m: Inbound)   // a text frame arrives, or the connection breaks
    | PassOn
    | TakeOutbound        // and write it to the socket
    | Resume              // the network has done its part
    | DispatchNext
    | SendPong
    | CallerSends

  predicate Enabled(s: State, step: Step) {
    match step
    case Frame(_) => s.reader.Selecting?
    case PassOn => s.reader.Passing? && |s.inbound| < CAPACITY
    case TakeOutbound => s.reader.Selecting? && s.outbound > 0
    case Resume => s.reader.Busy?
    case DispatchNext => s.dispatcher.Receiving? && s.inbound != []
    case SendPong => s.dispatcher.Ponging? && s.outbound < CAPACITY
    case CallerSends => s.outbound < CAPACITY
  }

  function Do(s: State, step: Step): State
    requires Enabled(s, step)
  {
    match step
    case Frame(m) => s.(reader := Passing(m))
    case PassOn => s.(reader := Selecting, inbound := s.inbound + [s.reader.m])
    case TakeOutbound => s.(reader := Busy, outbound := s.outbound - 1)
    case Resume => s.(reader := Selecting)
    case DispatchNext =>
      s.(dispatcher := if s.inbound[0].TestRequest? then Ponging else Receiving, inbound := s.inbound[1..])
    case SendPong => s.(dispatcher := Receiving, outbound := s.outbound + 1)
    case CallerSends => s.(outbound := s.outbound + 1)
  }

  // A step that cannot be taken has no effect.
  function Exec(s: State, steps: seq<Step>): State
    decreases |steps|
  {
    if steps == [] then s
    else
      var v := if Enabled(s, steps[0]) then Do(s, steps[0]) else s;
      Exec(v, steps[1..])
  }

  predicate Within(s: State) {
    |s.inbound| <= CAPACITY && s.outbound <= CAPACITY
  }

  // Each loop waits for the other to make room.
  predicate Blocked(s: State) {
    s.reader.Passing? && |s.inbound| == CAPACITY && s.dispatcher.Ponging? && s.outbound == CAPACITY
  }

  // Whatever the network and the callers do, the loop stays where it is.
  ghost predicate ReaderStuck(s: State) {
    forall steps :: Exec(s, steps).reader == s.reader
  }

  ghost predicate DispatcherStuck(s: State) {
    forall steps :: Exec(s, steps).dispatcher == s.dispatcher
  }

  lemma {:induction false} BlockedStays(s: State, steps: seq<Step>)
    requires Blocked(s)
    ensures Exec(s, steps) == s
  {
    if steps != [] {
      BlockedStays(s, steps[1..]);
    }
  }

  lemma ExecFirst(s: State, step: Step, rest: seq<Step>)
    ensures Exec(s, [step] + rest) == Exec(if Enabled(s, step) then Do(s, step) else s, rest)
  {
    assert ([step] + rest)[1..] == rest;
  }

  function Awayness(reader: Reader): nat {
    match reader
    case Selecting => 0
    case Busy => 1
    case Passing(_) => 2
  }

  // The reader's next own step, when it is not selecting.
  function Forward(reader: Reader): Step {
    if reader.Busy? then Resume else PassOn
  }

  // While the dispatcher waits for room and the reader does not wait for it, room can be made.
  lemma {:induction false} RoomIsMade(s: State) returns (steps: seq<Step>)
    requires Within(s) && !Blocked(s) && s.dispatcher.Ponging?
    ensures Exec(s, steps).dispatcher.Receiving?
    decreases Awayness(s.reader)
  {
    if s.outbound < CAPACITY {
      steps := [SendPong] + [];
      ExecFirst(s, SendPong, []);
    } else {
      var step := if s.reader.Selecting? then TakeOutbound else Forward(s.reader);
      var v := Do(s, step);
      var rest;
      if s.reader.Selecting? {
        rest := [SendPong] + [];
        ExecFirst(v, SendPong, []);
      } else {
        rest := RoomIsMade(v);
      }
      steps := [step] + rest;
      ExecFirst(s, step, rest);
    }
  }

  // While the dispatcher receives, it can be brought to a heartbeat test.
  lemma {:induction false} TestIsMet(s: State) returns (steps: seq<Step>)
    requires Within(s) && s.dispatcher.Receiving?
    ensures Exec(s, steps).dispatcher.Ponging?
    decreases |s.inbound| + Awayness(s.reader)
  {
    var step := if s.inbound != [] then DispatchNext
                else if s.reader.Selecting? then Frame(Requests.TestRequest) else Forward(s.reader);
    var v := Do(s, step);
    var rest;
    if v.dispatcher.Ponging? {
      rest := [];
    } else if step.Frame? {
      rest := [PassOn] + ([DispatchNext] + []);
      ExecFirst(v, PassOn, [DispatchNext] + []);
      ExecFirst(Do(v, PassOn), DispatchNext, []);
    } else {
      rest := TestIsMet(v);
    }
    steps := [step] + rest;
    ExecFirst(s, step, rest);
  }

  lemma DispatcherMoves(s: State) returns (steps: seq<Step>)
    requires Within(s) && !Blocked(s)
    ensures Exec(s, steps).dispatcher != s.dispatcher
  {
    if s.dispatcher.Ponging? {
      steps := RoomIsMade(s);
    } else {
      steps := TestIsMet(s);
    }
  }

  lemma ReaderMoves(s: State) returns (steps: seq<Step>)
    requires Within(s) && !Blocked(s)
    ensures Exec(s, steps).reader != s.reader
  {
    var step := if s.reader.Selecting? then Frame(Requests.Ignored) else Forward(s.reader);
    if Enabled(s, step) {
      steps := [step] + [];
      ExecFirst(s, step, []);
    } else {
      var receiving := if s.dispatcher.Ponging? then Do(s, SendPong) else s;
      var roomy := Do(receiving, DispatchNext);
      steps := [SendPong] + ([DispatchNext] + ([PassOn] + []));
      ExecFirst(s, SendPong, [DispatchNext] + ([PassOn] + []));
      ExecFirst(receiving, DispatchNext, [PassOn] + []);
      ExecFirst(roomy, PassOn, []);
    }
  }

  // Either loop is stuck for good exactly when both queues are full, the connection loop waits to pass a
  // message on, and the dispatch loop waits to answer a heartbeat test; so neither is ever stuck alone.
  lemma StuckIffBlocked(s: State)
    requires Within(s)
    ensures ReaderStuck(s) <==> Blocked(s)
    ensures DispatcherStuck(s) <==> Blocked(s)
  {
    if Blocked(s) {
      forall steps ensures Exec(s, steps) == s {
        BlockedStays(s, steps);
      }
    } else {
      var a := ReaderMoves(s);
      var b := DispatcherMoves(s);
      assert Exec(s, a).reader != s.reader && Exec(s, b).dispatcher != s.dispatcher;
    }
  }

  // ----- and it can come to that

  lemma {:induction false} ExecConcat(s: State, a: seq<Step>, b: seq<Step>)
    ensures Exec(s, a + b) == Exec(Exec(s, a), b)
    decreases |a|
  {
    if a == [] {
      assert a + b == b;
    } else {
      var v := if Enabled(s, a[0]) then Do(s, a[0]) else s;
      ExecConcat(v, a[1..], b);
      assert (a + b)[1..] == a[1..] + b;
    }
  }

  lemma {:induction false} OutboundFills(s: State) returns (steps: seq<Step>)
    requires Within(s)
    ensures Exec(s, steps) == s.(outbound := CAPACITY)
    decreases CAPACITY - s.outbound
  {
    steps := [];
    if s.outbound < CAPACITY {
      var rest := OutboundFills(Do(s, CallerSends));
      steps := [CallerSends] + rest;
      ExecFirst(s, CallerSends, rest);
    }
  }

  lemma {:induction false} InboundFills(s: State) returns (steps: seq<Step>)
    requires Within(s) && s.reader.Selecting?
    ensures var v := Exec(s, steps);
            && v.reader.Passing? && |v.inbound| == CAPACITY
            && v.dispatcher == s.dispatcher && v.outbound == s.outbound
    decreases CAPACITY - |s.inbound|
  {
    var a := Do(s, Frame(Requests.Ignored));
    if |s.inbound| < CAPACITY {
      var b := Do(a, PassOn);
      var rest := InboundFills(b);
      steps := [Frame(Requests.Ignored)] + ([PassOn] + rest);
      ExecFirst(s, Frame(Requests.Ignored), [PassOn] + rest);
      ExecFirst(a, PassOn, rest);
    } else {
      steps := [Frame(Requests.Ignored)] + [];
      ExecFirst(s, Frame(Requests.Ignored), []);
    }
  }

  // A heartbeat test that is dispatched while callers have filled the outbound queue, and as many frames
  // more as the inbound queue holds and one.
  lemma BlockedIsReachable() returns (steps: seq<Step>)
    ensures Blocked(Exec(IDLE, steps))
  {
    var test := [Frame(Requests.TestRequest)] + ([PassOn] + ([DispatchNext] + []));
    var a := Do(IDLE, Frame(Requests.TestRequest));
    var b := Do(a, PassOn);
    var c := Do(b, DispatchNext);
    ExecFirst(IDLE, Frame(Requests.TestRequest), [PassOn] + ([DispatchNext] + []));
    ExecFirst(a, PassOn, [DispatchNext] + []);
    ExecFirst(b, DispatchNext, []);
    var sends := OutboundFills(c);
    var frames := InboundFills(Exec(c, sends));
    ExecConcat(IDLE, test, sends);
    ExecConcat(IDLE, test + sends, frames);
    steps := test + sends + frames;
  }
}
