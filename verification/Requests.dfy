/** The client's request table and dispatch loop (`DeribitClient`), as interleaved atomic steps of many
    callers and one dispatcher: who may receive which reply, and what is forwarded to whom.
    The id counter is taken not to reach 2^64. */
module Requests {
  import opened Prelude
  import opened Feed
  import Channel

  type Id = nat
  type Caller = nat

  // What a push carries, once parsed: the payload its channel's kind calls for, or something else.
  datatype Payload = BookPayload(update: Update) | TickerPayload(instrument: string) | OtherPayload

  datatype Inbound =
    | Response(id: Id, body: string)
    | Push(channel: string, payload: Payload)
    | TestRequest
    | Ignored                 // a heartbeat, an unknown method, or text that does not parse
    | Dropped                 // the connection manager's `ConnectionLost`

  // Index, among the inbound messages handled so far, of the one a caller was given.
  datatype Outcome = Got(at: nat) | Failed

  // A call to `request`: its id is taken, then its table entry made, then its message enqueued; it
  // leaves with an outcome and removes its entry, if still there, on the way out.
  datatype Call =
    | Allocated(id: Id)
    | Entered(id: Id, since: nat)
    | Waiting(id: Id, since: nat)
    | Leaving(id: Id, since: nat, outcome: Outcome)
    | Finished(id: Id, since: nat, outcome: Outcome)

  datatype State = State(
    nextId: Id,
    pending: map<Id, Caller>,      // `pending_requests`: whose one-shot sender is stored under the id
    boxes: map<Caller, nat>,       // one-shot channels holding a reply not yet taken
    calls: map<Caller, Call>,
    pongs: set<Id>,                // ids used to answer heartbeats
    handled: seq<Inbound>,         // everything the dispatch loop has handled, in order
    answered: seq<Id>,             // ids whose entry a reply has used up, in order
    books: seq<Message>,           // everything sent on the book broadcast
    tickers: seq<string>)          // everything sent on the ticker broadcast

  const INITIAL: State := State(1, map[], map[], map[], {}, [], [], [], [])

  datatype Step =
    | Allocate(c: Caller)
    | Unencodable(c: Caller)   // the request does not serialize
    | Enter(c: Caller)
    | Enqueue(c: Caller)
    | GiveUp(c: Caller)        // closed queue, timeout or cancellation
    | Take(c: Caller)          // the caller finds its reply
    | Leave(c: Caller)         // the scope guard removes the entry
    | Dispatch(m: Inbound)

  predicate Listening(call: Call) {
    call.Entered? || call.Waiting?
  }

  // Between making its entry and removing it.
  predicate Open(call: Call) {
    Listening(call) || call.Leaving?
  }

  predicate Enabled(s: State, step: Step) {
    match step
    case Allocate(c) => c !in s.calls
    case Unencodable(c) => c in s.calls && s.calls[c].Allocated?
    case Enter(c) => c in s.calls && s.calls[c].Allocated?
    case Enqueue(c) => c in s.calls && s.calls[c].Entered?
    case GiveUp(c) => c in s.calls && Listening(s.calls[c])
    case Take(c) => c in s.calls && s.calls[c].Waiting? && c in s.boxes
    case Leave(c) => c in s.calls && s.calls[c].Leaving?
    case Dispatch(_) => true
  }

  function Do(s: State, step: Step): State
    requires Enabled(s, step)
  {
    match step
    case Allocate(c) => s.(nextId := s.nextId + 1, calls := s.calls[c := Allocated(s.nextId)])
    case Unencodable(c) => s.(calls := s.calls[c := Finished(s.calls[c].id, |s.handled|, Failed)])
    case Enter(c) =>
      var id := s.calls[c].id;
      s.(pending := s.pending[id := c], calls := s.calls[c := Entered(id, |s.handled|)])
    case Enqueue(c) => s.(calls := s.calls[c := Waiting(s.calls[c].id, s.calls[c].since)])
    case GiveUp(c) =>
      s.(boxes := s.boxes - {c}, calls := s.calls[c := Leaving(s.calls[c].id, s.calls[c].since, Failed)])
    case Take(c) =>
      s.(boxes := s.boxes - {c}, calls := s.calls[c := Leaving(s.calls[c].id, s.calls[c].since, Got(s.boxes[c]))])
    case Leave(c) =>
      s.(pending := s.pending - {s.calls[c].id},
         calls := s.calls[c := Finished(s.calls[c].id, s.calls[c].since, s.calls[c].outcome)])
    case Dispatch(m) =>
      Dispatched(s, m).(handled := s.handled + [m], books := s.books + BooksOf(m), tickers := s.tickers + TickersOf(m))
  }

  // A response uses up the entry of its id and wakes the caller if it still listens; a heartbeat test
  // takes an id of its own; nothing else touches the table.
  function Dispatched(s: State, m: Inbound): State {
    match m
    case Response(id, _) =>
      if id !in s.pending then s
      else
        var c := s.pending[id];
        s.(pending := s.pending - {id}, answered := s.answered + [id],
           boxes := if c in s.calls && Listening(s.calls[c]) then s.boxes[c := |s.handled|] else s.boxes)
    case TestRequest => s.(nextId := s.nextId + 1, pongs := s.pongs + {s.nextId})
    case _ => s
  }

  // What one message sends on the book broadcast.
  function BooksOf(m: Inbound): seq<Message> {
    match m
    case Push(channel, BookPayload(u)) => if Channel.FirstPart(channel) == "book" then [Data(u)] else []
    case Dropped => [ConnectionLost]
    case _ => []
  }

  function TickersOf(m: Inbound): seq<string> {
    match m
    case Push(channel, TickerPayload(name)) => if Channel.FirstPart(channel) == "ticker" then [name] else []
    case _ => []
  }

  ghost predicate Run(states: seq<State>, steps: seq<Step>) {
    && |states| == |steps| + 1 && states[0] == INITIAL
    && forall i :: 0 <= i < |steps| ==> Enabled(states[i], steps[i]) && states[i + 1] == Do(states[i], steps[i])
  }

  // ----- the invariant

  ghost predicate IdsOk(s: State) {
    && s.nextId >= 1
    && (forall c :: c in s.calls ==> 1 <= s.calls[c].id < s.nextId && s.calls[c].id !in s.pongs)
    && (forall c, d :: c in s.calls && d in s.calls && c != d ==> s.calls[c].id != s.calls[d].id)
    && (forall id :: id in s.pongs ==> 1 <= id < s.nextId)
  }

  // A request entered, not yet left, and not yet answered.
  predicate Outstanding(s: State, c: Caller) {
    c in s.calls && Open(s.calls[c]) && s.calls[c].id !in s.answered
  }

  // The table holds exactly the outstanding requests.
  ghost predicate PendingOk(s: State) {
    && (forall id :: id in s.pending ==> Outstanding(s, s.pending[id]) && s.calls[s.pending[id]].id == id)
    && (forall c :: Outstanding(s, c) ==> s.calls[c].id in s.pending && s.pending[s.calls[c].id] == c)
  }

  ghost predicate AnsweredOk(s: State) {
    && (forall id :: id in s.answered ==> 1 <= id < s.nextId)
    && (forall i, j :: 0 <= i < j < |s.answered| ==> s.answered[i] != s.answered[j])
  }

  predicate Bears(m: Inbound, id: Id) {
    m.Response? && m.id == id
  }

  // The first reply bearing `id` from message `since` on stands at `at`.
  ghost predicate First(handled: seq<Inbound>, id: Id, since: nat, at: nat) {
    since <= at < |handled| && Bears(handled[at], id) && forall j :: since <= j < at ==> !Bears(handled[j], id)
  }

  ghost predicate NoneSince(handled: seq<Inbound>, id: Id, since: nat) {
    since <= |handled| && forall j :: since <= j < |handled| ==> !Bears(handled[j], id)
  }

  ghost predicate CallOk(s: State, c: Caller)
    requires c in s.calls
  {
    match s.calls[c]
    case Allocated(id) => id !in s.answered && c !in s.boxes
    case Entered(id, since) => ReplyOk(s, c, id, since)
    case Waiting(id, since) => ReplyOk(s, c, id, since)
    case Leaving(id, since, outcome) => c !in s.boxes && OutcomeOk(s, id, since, outcome)
    case Finished(id, since, outcome) => c !in s.boxes && OutcomeOk(s, id, since, outcome)
  }

  ghost predicate OutcomeOk(s: State, id: Id, since: nat, outcome: Outcome) {
    since <= |s.handled| && (outcome.Got? ==> id in s.answered && First(s.handled, id, since, outcome.at))
  }

  // While a caller listens, either no reply has come since it entered, or the first one is in its box.
  ghost predicate ReplyOk(s: State, c: Caller, id: Id, since: nat) {
    && since <= |s.handled|
    && (id in s.answered <==> c in s.boxes)
    && (c in s.boxes ==> First(s.handled, id, since, s.boxes[c]))
    && (c !in s.boxes ==> NoneSince(s.handled, id, since))
  }

  ghost predicate Inv(s: State) {
    && IdsOk(s) && PendingOk(s) && AnsweredOk(s)
    && (forall c :: c in s.boxes ==> c in s.calls)
    && (forall c :: c in s.calls ==> CallOk(s, c))
  }

  // A caller's step changes its own call alone, and the call keeps its id.
  lemma OnlyOwnCallMoves(s: State, step: Step)
    requires Enabled(s, step) && !step.Dispatch?
    ensures var v := Do(s, step);
            && v.calls.Keys == s.calls.Keys + {step.c} && v.handled == s.handled
            && v.answered == s.answered && v.pongs == s.pongs
            && (forall d :: d in s.calls && d != step.c ==>
                  v.calls[d] == s.calls[d] && (d in v.boxes <==> d in s.boxes))
            && (forall d :: d in v.boxes ==> d in s.boxes && v.boxes[d] == s.boxes[d])
            && (if step.Allocate? then v.nextId == s.nextId + 1 && v.calls[step.c].id == s.nextId
                else v.nextId == s.nextId && v.calls[step.c].id == s.calls[step.c].id)
  {
  }

  lemma CallerStepKeepsTable(s: State, step: Step)
    requires Inv(s) && Enabled(s, step) && !step.Dispatch?
    ensures IdsOk(Do(s, step)) && AnsweredOk(Do(s, step))
  {
    OnlyOwnCallMoves(s, step);
    hide CallOk, PendingOk, IdsOk, Do;
    IdsKept(s, Do(s, step), step.c);
  }

  lemma IdsKept(s: State, v: State, c: Caller)
    requires IdsOk(s) && v.calls.Keys == s.calls.Keys + {c} && v.pongs == s.pongs
    requires forall d :: d in s.calls && d != c ==> v.calls[d] == s.calls[d]
    requires if c in s.calls then v.nextId == s.nextId && v.calls[c].id == s.calls[c].id
             else v.nextId == s.nextId + 1 && v.calls[c].id == s.nextId
    ensures IdsOk(v)
  {
    assert forall d :: d in v.calls && d != c ==> d in s.calls;
  }

  lemma EnterKeepsPending(s: State, c: Caller)
    requires Inv(s) && Enabled(s, Enter(c))
    ensures PendingOk(Do(s, Enter(c)))
  {
    assert s.calls[c].id !in s.answered by { assert CallOk(s, c); }
    hide CallOk, AnsweredOk;
  }

  lemma LeaveKeepsPending(s: State, c: Caller)
    requires Inv(s) && Enabled(s, Leave(c))
    ensures PendingOk(Do(s, Leave(c)))
  {
  }

  lemma OtherKeepsPending(s: State, step: Step)
    requires Inv(s) && Enabled(s, step) && !step.Dispatch? && !step.Enter? && !step.Leave?
    ensures PendingOk(Do(s, step))
  {
    hide CallOk, AnsweredOk, IdsOk;
    var v := Do(s, step);
    assert v.pending == s.pending;
    assert forall d :: Outstanding(v, d) <==> Outstanding(s, d);
    assert forall d :: Outstanding(s, d) ==> v.calls[d].id == s.calls[d].id;
  }

  lemma CallerStepKeepsPending(s: State, step: Step)
    requires Inv(s) && Enabled(s, step) && !step.Dispatch?
    ensures PendingOk(Do(s, step))
  {
    hide Inv, PendingOk;
    match step
    case Enter(c) => EnterKeepsPending(s, c);
    case Leave(c) => LeaveKeepsPending(s, c);
    case _ => OtherKeepsPending(s, step);
  }

  lemma CallerStepKeepsCalls(s: State, step: Step, d: Caller)
    requires Inv(s) && Enabled(s, step) && !step.Dispatch? && d in Do(s, step).calls
    ensures CallOk(Do(s, step), d)
  {
    hide CallOk, Do, Enabled, IdsOk, PendingOk, AnsweredOk;
    OnlyOwnCallMoves(s, step);
    if d == step.c {
      OwnCallKept(s, step);
    } else {
      OtherCallKept(s, Do(s, step), d);
    }
  }

  lemma OtherCallKept(s: State, v: State, d: Caller)
    requires d in s.calls && d in v.calls && v.calls[d] == s.calls[d] && CallOk(s, d)
    requires v.answered == s.answered && v.handled == s.handled
    requires (d in v.boxes <==> d in s.boxes) && (d in v.boxes ==> v.boxes[d] == s.boxes[d])
    ensures CallOk(v, d)
  {
  }

  lemma OwnCallKept(s: State, step: Step)
    requires Inv(s) && Enabled(s, step) && !step.Dispatch?
    ensures CallOk(Do(s, step), step.c)
  {
    assert !step.Allocate? ==> CallOk(s, step.c);
    hide First, NoneSince, PendingOk;
    if step.Enter? {
      Fresh(s.handled, s.calls[step.c].id);
    }
  }

  lemma Fresh(handled: seq<Inbound>, id: Id)
    ensures NoneSince(handled, id, |handled|)
  {
  }

  lemma CallerStepKeeps(s: State, step: Step)
    requires Inv(s) && Enabled(s, step) && !step.Dispatch?
    ensures Inv(Do(s, step))
  {
    CallerStepKeepsTable(s, step);
    CallerStepKeepsPending(s, step);
    forall d | d in Do(s, step).calls ensures CallOk(Do(s, step), d) {
      CallerStepKeepsCalls(s, step, d);
    }
    hide CallOk, IdsOk, PendingOk, AnsweredOk;
  }

  lemma DispatchKeepsTable(s: State, m: Inbound)
    requires Inv(s)
    ensures IdsOk(Do(s, Dispatch(m))) && AnsweredOk(Do(s, Dispatch(m)))
  {
    hide CallOk, PendingOk, BooksOf, TickersOf;
    if m.Response? && m.id in s.pending {
      AnsweredOnce(s, m.id);
    }
  }

  lemma AnsweredOnce(s: State, id: Id)
    requires Inv(s) && id in s.pending
    ensures id !in s.answered && 1 <= id < s.nextId
  {
    hide CallOk, AnsweredOk;
    assert Outstanding(s, s.pending[id]);
  }

  lemma DispatchKeepsPending(s: State, m: Inbound)
    requires Inv(s)
    ensures PendingOk(Do(s, Dispatch(m)))
  {
  }

  lemma OneMore(handled: seq<Inbound>, m: Inbound, id: Id, since: nat)
    ensures forall at :: First(handled, id, since, at) ==> First(handled + [m], id, since, at)
    ensures NoneSince(handled, id, since) && !Bears(m, id) ==> NoneSince(handled + [m], id, since)
    ensures NoneSince(handled, id, since) && Bears(m, id) ==> First(handled + [m], id, since, |handled|)
  {
  }

  // The reply a listening caller waits for.
  lemma HitKeepsCall(s: State, m: Inbound, d: Caller)
    requires Inv(s) && m.Response? && m.id in s.pending && s.pending[m.id] == d
    ensures CallOk(Do(s, Dispatch(m)), d)
  {
  }

  lemma MissKeepsCall(s: State, m: Inbound, d: Caller)
    requires Inv(s) && d in s.calls && !(m.Response? && m.id in s.pending && s.pending[m.id] == d)
    ensures CallOk(Do(s, Dispatch(m)), d)
  {
    var v, id := Do(s, Dispatch(m)), s.calls[d].id;
    assert CallOk(s, d);
    assert m.Response? && m.id in s.pending ==> m.id != id;
    assert id in v.answered <==> id in s.answered;
    assert Listening(s.calls[d]) && Bears(m, id) ==> Outstanding(s, d) || d in s.boxes;
    if !s.calls[d].Allocated? {
      OneMore(s.handled, m, id, s.calls[d].since);
    }
    hide First, NoneSince, BooksOf, TickersOf, IdsOk, AnsweredOk;
  }

  lemma DispatchKeepsCalls(s: State, m: Inbound, d: Caller)
    requires Inv(s) && d in s.calls
    ensures CallOk(Do(s, Dispatch(m)), d)
  {
    hide Do, CallOk, Inv;
    if m.Response? && m.id in s.pending && s.pending[m.id] == d {
      HitKeepsCall(s, m, d);
    } else {
      MissKeepsCall(s, m, d);
    }
  }

  lemma DispatchKeeps(s: State, m: Inbound)
    requires Inv(s)
    ensures Inv(Do(s, Dispatch(m)))
  {
    hide CallOk, IdsOk, PendingOk, AnsweredOk, BooksOf, TickersOf;
    DispatchKeepsTable(s, m);
    DispatchKeepsPending(s, m);
    forall d | d in s.calls ensures CallOk(Do(s, Dispatch(m)), d) {
      DispatchKeepsCalls(s, m, d);
    }
  }

  lemma {:induction false} RunKeeps(states: seq<State>, steps: seq<Step>, n: nat)
    requires Run(states, steps) && n < |states|
    ensures Inv(states[n])
  {
    if n > 0 {
      RunKeeps(states, steps, n - 1);
      StepKeeps(states[n - 1], steps[n - 1]);
    }
  }

  // ----- what every run guarantees

  // Whatever the inbound messages and however callers and dispatcher interleave:
  //  - the table holds exactly the requests entered, not yet left and not yet answered;
  //  - a caller that leaves with a reply was given the first message bearing its own id to come after
  //    it made its entry, and while it listens that message, once come, is in its box;
  //  - no id is answered twice.
  lemma RequestsMatchReplies(states: seq<State>, steps: seq<Step>, n: nat)
    requires Run(states, steps) && n < |states|
    ensures forall id, c :: id in states[n].pending && states[n].pending[id] == c <==>
              Outstanding(states[n], c) && states[n].calls[c].id == id
    ensures forall c :: c in states[n].calls ==>
              match states[n].calls[c]
              case Finished(id, since, Got(at)) => First(states[n].handled, id, since, at)
              case Waiting(id, since) =>
                if c in states[n].boxes then First(states[n].handled, id, since, states[n].boxes[c])
                else NoneSince(states[n].handled, id, since) && id in states[n].pending
              case _ => true
    ensures forall i, j :: 0 <= i < j < |states[n].answered| ==> states[n].answered[i] != states[n].answered[j]
  {
    RunKeeps(states, steps, n);
    var s := states[n];
    forall c | c in s.calls
      ensures match s.calls[c]
              case Finished(id, since, Got(at)) => First(s.handled, id, since, at)
              case Waiting(id, since) =>
                if c in s.boxes then First(s.handled, id, since, s.boxes[c])
                else NoneSince(s.handled, id, since) && id in s.pending
              case _ => true
    {
      assert CallOk(s, c);
      assert s.calls[c].Waiting? && c !in s.boxes ==> Outstanding(s, c);
    }
    hide CallOk, First, NoneSince;
  }

  // A reply that comes while its caller listens unanswered finds the entry and reaches that caller.
  lemma ReplyReachesItsCaller(states: seq<State>, steps: seq<Step>, n: nat, c: Caller, body: string)
    requires Run(states, steps) && n < |states|
    requires c in states[n].calls && Listening(states[n].calls[c]) && c !in states[n].boxes
    ensures var id := states[n].calls[c].id;
            var v := Do(states[n], Dispatch(Response(id, body)));
            id in states[n].pending && id !in v.pending && v.boxes == states[n].boxes[c := |states[n].handled|]
  {
    RunKeeps(states, steps, n);
    assert CallOk(states[n], c);
    assert Outstanding(states[n], c);
  }

  // Replies to id 0 (the heartbeat set-up) and to pongs, and second replies, reach nobody.
  lemma StrayRepliesReachNobody(states: seq<State>, steps: seq<Step>, n: nat, id: Id, body: string)
    requires Run(states, steps) && n < |states|
    requires id == 0 || id in states[n].pongs || id in states[n].answered
    ensures var s, m := states[n], Response(id, body);
            Do(s, Dispatch(m)) == s.(handled := s.handled + [m])
  {
    RunKeeps(states, steps, n);
    var s := states[n];
    assert id !in s.pending;
    assert s.books + [] == s.books && s.tickers + [] == s.tickers;
  }

  function Tests(ms: seq<Inbound>): nat {
    if ms == [] then 0 else Tests(ms[..|ms| - 1]) + if ms[|ms| - 1].TestRequest? then 1 else 0
  }

  lemma OneMoreTest(ms: seq<Inbound>, m: Inbound)
    ensures Tests(ms + [m]) == Tests(ms) + if m.TestRequest? then 1 else 0
  {
    assert (ms + [m])[..|ms|] == ms;
  }

  // Every heartbeat test takes an id for its pong, and ids go nowhere else but to callers and pongs.
  lemma {:induction false} EveryTestTakesAnId(states: seq<State>, steps: seq<Step>, n: nat)
    requires Run(states, steps) && n < |states|
    ensures |states[n].pongs| == Tests(states[n].handled)
    ensures states[n].nextId == 1 + |states[n].calls| + |states[n].pongs|
  {
    if n > 0 {
      EveryTestTakesAnId(states, steps, n - 1);
      RunKeeps(states, steps, n - 1);
      hide Inv;
      TestStep(states[n - 1], steps[n - 1]);
    }
  }

  lemma TestStep(s: State, step: Step)
    requires Inv(s) && Enabled(s, step)
    requires |s.pongs| == Tests(s.handled) && s.nextId == 1 + |s.calls| + |s.pongs|
    ensures |Do(s, step).pongs| == Tests(Do(s, step).handled)
    ensures Do(s, step).nextId == 1 + |Do(s, step).calls| + |Do(s, step).pongs|
  {
    hide PendingOk, AnsweredOk, CallOk, BooksOf, TickersOf, Tests;
    assert s.nextId !in s.pongs;
    if step.Dispatch? {
      OneMoreTest(s.handled, step.m);
    } else {
      SameCallers(s, step);
    }
  }

  lemma SameCallers(s: State, step: Step)
    requires Enabled(s, step) && !step.Dispatch?
    ensures |Do(s, step).calls| == |s.calls| + if step.Allocate? then 1 else 0
  {
    OnlyOwnCallMoves(s, step);
    hide Do;
    assert |Do(s, step).calls| == |Do(s, step).calls.Keys| && |s.calls| == |s.calls.Keys|;
    if step.Allocate? {
      assert step.c !in s.calls.Keys;
    } else {
      assert s.calls.Keys + {step.c} == s.calls.Keys;
    }
  }

  function AllBooks(ms: seq<Inbound>): seq<Message> {
    if ms == [] then [] else AllBooks(ms[..|ms| - 1]) + BooksOf(ms[|ms| - 1])
  }

  function AllTickers(ms: seq<Inbound>): seq<string> {
    if ms == [] then [] else AllTickers(ms[..|ms| - 1]) + TickersOf(ms[|ms| - 1])
  }

  // The broadcasts are the inbound book and ticker messages, all of them, in their order of arrival.
  lemma {:induction false} BroadcastsFollowArrival(states: seq<State>, steps: seq<Step>, n: nat)
    requires Run(states, steps) && n < |states|
    ensures states[n].books == AllBooks(states[n].handled) && states[n].tickers == AllTickers(states[n].handled)
  {
    if n > 0 {
      BroadcastsFollowArrival(states, steps, n - 1);
      BroadcastsStep(states[n - 1], steps[n - 1]);
    }
  }

  lemma BroadcastsStep(s: State, step: Step)
    requires Enabled(s, step)
    requires s.books == AllBooks(s.handled) && s.tickers == AllTickers(s.handled)
    ensures var v := Do(s, step); v.books == AllBooks(v.handled) && v.tickers == AllTickers(v.handled)
  {
  }

  // A push on a printed channel is broadcast by the channel's kind and goes nowhere else.
  lemma PushesGoByKind(instrument: string, kind: string, interval: string, payload: Payload)
    requires '.' !in kind
    ensures var m := Push(Channel.New(instrument, kind, interval).full, payload);
            && (BooksOf(m) != [] <==> kind == "book" && payload.BookPayload?)
            && (BooksOf(m) != [] ==> BooksOf(m) == [Data(payload.update)])
            && (TickersOf(m) != [] <==> kind == "ticker" && payload.TickerPayload?)
            && (TickersOf(m) != [] ==> TickersOf(m) == [payload.instrument])
  {
    Channel.PushesAreRoutedByKind(instrument, kind, interval);
  }

  lemma StepKeeps(s: State, step: Step)
    requires Inv(s) && Enabled(s, step)
    ensures Inv(Do(s, step))
  {
    if step.Dispatch? {
      DispatchKeeps(s, step.m);
    } else {
      CallerStepKeeps(s, step);
    }
  }

  // A step that cannot be taken has no effect.
  function Exec(s: State, steps: seq<Step>): State {
    if steps == [] then s
    else
      var before, last := Exec(s, steps[..|steps| - 1]), steps[|steps| - 1];
      if Enabled(before, last) then Do(before, last) else before
  }

  // The messages that steps dispatch, in order.
  function Messages(steps: seq<Step>): seq<Inbound> {
    if steps == [] then []
    else
      var before, last := Messages(steps[..|steps| - 1]), steps[|steps| - 1];
      if last.Dispatch? then before + [last.m] else before
  }

  lemma {:induction false} ExecHandles(s: State, steps: seq<Step>)
    ensures Exec(s, steps).handled == s.handled + Messages(steps)
  {
    if steps != [] {
      ExecHandles(s, steps[..|steps| - 1]);
      HandledStep(Exec(s, steps[..|steps| - 1]), steps[|steps| - 1]);
    }
  }

  lemma HandledStep(s: State, step: Step)
    ensures step.Dispatch? ==> Enabled(s, step) && Do(s, step).handled == s.handled + [step.m]
    ensures !step.Dispatch? && Enabled(s, step) ==> Do(s, step).handled == s.handled
  {
  }

  lemma StepKeepsTaking(s: State, c: Caller)
    requires Inv(s)
    ensures Enabled(s, Take(c)) ==> Inv(Do(s, Take(c)))
  {
    if Enabled(s, Take(c)) {
      StepKeeps(s, Take(c));
    }
  }

  // None of the steps is the caller's own.
  predicate ByOthers(steps: seq<Step>, c: Caller) {
    forall i :: 0 <= i < |steps| ==> steps[i].Dispatch? || steps[i].c != c
  }

  lemma OthersLeaveCall(s: State, step: Step, c: Caller)
    requires Enabled(s, step) && c in s.calls && (step.Dispatch? || step.c != c)
    ensures c in Do(s, step).calls && Do(s, step).calls[c] == s.calls[c]
  {
  }

  lemma NotPending(s: State, c: Caller)
    requires Inv(s) && c in s.calls && s.calls[c].Finished?
    ensures s.calls[c].id !in s.pending
  {
    assert !Outstanding(s, c);
  }

  lemma BoxHoldsFirst(s: State, c: Caller)
    requires Inv(s) && c in s.calls && s.calls[c].Waiting?
    ensures var id, since := s.calls[c].id, s.calls[c].since;
            if c in s.boxes then First(s.handled, id, since, s.boxes[c]) && !NoneSince(s.handled, id, since)
            else NoneSince(s.handled, id, since)
  {
    assert CallOk(s, c);
  }

  // ----- the client's own fields, edited in place

  class RequestTable {
    var requestId: Id
    var pendingRequests: map<Id, Caller>
    var boxes: map<Caller, nat>
    var handled: seq<Inbound>
    var bookChanges: seq<Message>
    var tickers: seq<string>
    var calls: map<Caller, Call>
    ghost var pongs: set<Id>
    ghost var answered: seq<Id>

    ghost function View(): State
      reads this
    {
      State(requestId, pendingRequests, boxes, calls, pongs, handled, answered, bookChanges, tickers)
    }

    constructor ()
      ensures View() == INITIAL
    {
      requestId, pendingRequests, boxes, handled, bookChanges, tickers := 1, map[], map[], [], [], [];
      calls, pongs, answered := map[], {}, [];
    }

    method NextId(c: Caller) returns (id: Id)
      requires Enabled(View(), Allocate(c))
      modifies this
      ensures View() == Do(old(View()), Allocate(c)) && calls[c] == Allocated(id)
    {
      id := requestId;
      requestId := requestId + 1;
      calls := calls[c := Allocated(id)];
    }

    method InsertPending(c: Caller, id: Id)
      requires Enabled(View(), Enter(c)) && calls[c].id == id
      modifies this
      ensures View() == Do(old(View()), Enter(c))
    {
      pendingRequests := pendingRequests[id := c];
      calls := calls[c := Entered(id, |handled|)];
    }

    // The caller's end of the one-shot channel: its reply, if it has come.
    method TakeReply(c: Caller) returns (reply: Option<Inbound>)
      requires Inv(View()) && c in calls && calls[c].Waiting?
      modifies this
      ensures reply.None? <==> !old(Enabled(View(), Take(c)))
      ensures reply.None? ==> View() == old(View())
      ensures reply.Some? ==> View() == Do(old(View()), Take(c)) && Bears(reply.value, old(calls[c].id))
      ensures reply.Some? ==> c in old(boxes) && reply == Some(handled[old(boxes[c])])
    {
      if c !in boxes {
        return None;
      }
      assert CallOk(View(), c);
      reply := Some(handled[boxes[c]]);
      calls := calls[c := Leaving(calls[c].id, calls[c].since, Got(boxes[c]))];
      boxes := boxes - {c};
    }

    // A closed queue, a timeout or a cancellation: the caller drops its end.
    method DropReceiver(c: Caller)
      requires Enabled(View(), GiveUp(c))
      modifies this
      ensures View() == Do(old(View()), GiveUp(c))
    {
      boxes := boxes - {c};
      calls := calls[c := Leaving(calls[c].id, calls[c].since, Failed)];
    }

    // The scope guard.
    method Cleanup(c: Caller, id: Id)
      requires Enabled(View(), Leave(c)) && calls[c].id == id
      modifies this
      ensures View() == Do(old(View()), Leave(c))
    {
      pendingRequests := pendingRequests - {id};
      calls := calls[c := Finished(id, calls[c].since, calls[c].outcome)];
    }

    method FailToEncode(c: Caller)
      requires Enabled(View(), Unencodable(c))
      modifies this
      ensures View() == Do(old(View()), Unencodable(c))
    {
      calls := calls[c := Finished(calls[c].id, |handled|, Failed)];
    }

    method SendMessage(c: Caller)
      requires Enabled(View(), Enqueue(c))
      modifies this
      ensures View() == Do(old(View()), Enqueue(c))
    {
      calls := calls[c := Waiting(calls[c].id, calls[c].since)];
    }

    // Whether a step can be taken does not depend on the bookkeeping.
    predicate Possible(step: Step)
      reads this
      ensures Possible(step) == Enabled(View(), step)
    {
      Enabled(State(requestId, pendingRequests, boxes, calls, {}, handled, [], bookChanges, tickers), step)
    }

    method Perform(step: Step)
      requires Inv(View()) && Enabled(View(), step)
      modifies this
      ensures View() == Do(old(View()), step)
    {
      match step {
        case Allocate(c) => var id := NextId(c);
        case Unencodable(c) => FailToEncode(c);
        case Enter(c) => InsertPending(c, calls[c].id);
        case Enqueue(c) => SendMessage(c);
        case GiveUp(c) => DropReceiver(c);
        case Take(c) => var reply := TakeReply(c);
        case Leave(c) => Cleanup(c, calls[c].id);
        case Dispatch(m) => DispatchOne(m);
      }
    }

    // What other callers and the dispatcher do while caller `c` waits; impossible steps are passed over.
    method Wait(steps: seq<Step>, c: Caller)
      requires Inv(View()) && c in calls && ByOthers(steps, c)
      modifies this
      ensures Inv(View()) && c in calls && calls[c] == old(calls[c])
      ensures View() == Exec(old(View()), steps) && handled == old(handled) + Messages(steps)
    {
      hide Inv, Do, Enabled, Possible, Messages;
      ExecHandles(View(), steps);
      assert Exec(View(), []) == View() && steps[..0] == [];
      for i := 0 to |steps|
        invariant Inv(View()) && c in calls && calls[c] == old(calls[c])
        invariant View() == Exec(old(View()), steps[..i])
      {
        assert steps[..i + 1][..i] == steps[..i];
        if Possible(steps[i]) {
          StepKeeps(View(), steps[i]);
          OthersLeaveCall(View(), steps[i], c);
          Perform(steps[i]);
        }
      }
      assert steps[..|steps|] == steps;
    }

    // A whole `request`: an id, an entry, the message, then the wait for the reply, and the entry is gone
    // in the end whatever happened. It returns the first message bearing its id to come after the entry
    // was made, if the message was sent and there was one; otherwise it fails. Everything dispatched
    // meanwhile is handled.
    method Request(c: Caller, encodes: bool, queued: bool, whileQueueing: seq<Step>, whileWaiting: seq<Step>)
      returns (reply: Option<Inbound>)
      requires Inv(View()) && c !in calls && ByOthers(whileQueueing, c) && ByOthers(whileWaiting, c)
      modifies this
      ensures Inv(View()) && c in calls && calls[c].Finished?
      ensures calls[c].id == old(requestId) && calls[c].id !in pendingRequests
      ensures encodes ==> calls[c].since == |old(handled)|
      ensures handled == old(handled) + if !encodes then [] else
                Messages(whileQueueing) + if queued then Messages(whileWaiting) else []
      ensures reply.Some? <==> encodes && queued && !NoneSince(handled, calls[c].id, calls[c].since)
      ensures reply.Some? ==>
                && calls[c].outcome.Got? && First(handled, calls[c].id, calls[c].since, calls[c].outcome.at)
                && reply == Some(handled[calls[c].outcome.at])
    {
      hide Inv, First, NoneSince, Messages;
      StepKeeps(View(), Allocate(c));
      var id := NextId(c);
      if !encodes {
        StepKeeps(View(), Unencodable(c));
        FailToEncode(c);
        NotPending(View(), c);
        return None;
      }
      StepKeeps(View(), Enter(c));
      InsertPending(c, id);
      Wait(whileQueueing, c);
      reply := None;
      if queued {
        reply := Await(c, whileWaiting);
      }
      Close(c, id);
    }

    // Send and wait: the reply that is in the caller's box in the end, if any.
    method Await(c: Caller, whileWaiting: seq<Step>) returns (reply: Option<Inbound>)
      requires Inv(View()) && c in calls && calls[c].Entered? && ByOthers(whileWaiting, c)
      modifies this
      ensures Inv(View()) && c in calls && (calls[c].Waiting? || calls[c].Leaving?)
      ensures calls[c].id == old(calls[c].id) && calls[c].since == old(calls[c].since)
      ensures handled == old(handled) + Messages(whileWaiting)
      ensures reply.Some? <==> !NoneSince(handled, calls[c].id, calls[c].since)
      ensures reply.None? ==> calls[c].Waiting?
      ensures reply.Some? ==>
                && calls[c].Leaving? && calls[c].outcome.Got?
                && First(handled, calls[c].id, calls[c].since, calls[c].outcome.at)
                && reply == Some(handled[calls[c].outcome.at])
    {
      hide Inv, First, NoneSince, Messages;
      StepKeeps(View(), Enqueue(c));
      SendMessage(c);
      Wait(whileWaiting, c);
      BoxHoldsFirst(View(), c);
      StepKeepsTaking(View(), c);
      reply := TakeReply(c);
    }

    // On the way out, with a reply or without one.
    method Close(c: Caller, id: Id)
      requires Inv(View()) && c in calls && Open(calls[c]) && calls[c].id == id
      modifies this
      ensures Inv(View()) && c in calls && id !in pendingRequests && handled == old(handled)
      ensures calls[c] == Finished(id, old(calls[c].since),
                                   if old(calls[c].Leaving?) then old(calls[c]).outcome else Failed)
    {
      hide Inv;
      if Listening(calls[c]) {
        StepKeeps(View(), GiveUp(c));
        DropReceiver(c);
      }
      StepKeeps(View(), Leave(c));
      Cleanup(c, id);
      NotPending(View(), c);
    }

    // One turn of the dispatch loop.
    method DispatchOne(m: Inbound)
      modifies this
      ensures View() == Do(old(View()), Dispatch(m))
    {
      match m {
        case Response(id, _) =>
          if id in pendingRequests {
            var c := pendingRequests[id];
            pendingRequests := pendingRequests - {id};
            answered := answered + [id];
            if c in calls && Listening(calls[c]) {
              boxes := boxes[c := |handled|];
            }
          }
        case TestRequest =>
          pongs := pongs + {requestId};
          requestId := requestId + 1;
        case Push(channel, payload) =>
          var kind := Channel.FirstPart(channel);
          if kind == "ticker" && payload.TickerPayload? {
            tickers := tickers + [payload.instrument];
          } else if kind == "book" && payload.BookPayload? {
            bookChanges := bookChanges + [Data(payload.update)];
          }
        case Dropped => bookChanges := bookChanges + [ConnectionLost];
        case Ignored =>
      }
      handled := handled + [m];
      assert old(bookChanges) + [] == old(bookChanges) && old(tickers) + [] == old(tickers);
    }

    // The dispatch loop over a stretch of the inbound queue, first to last.
    method DispatchLoop(queue: seq<Inbound>)
      modifies this
      ensures View() == DispatchAll(old(View()), queue)
    {
      for i := 0 to |queue|
        invariant View() == DispatchAll(old(View()), queue[..i])
      {
        DispatchOne(queue[i]);
        assert queue[..i + 1][..i] == queue[..i];
      }
      assert queue[..|queue|] == queue;
    }
  }

  function DispatchAll(s: State, queue: seq<Inbound>): State {
    if queue == [] then s else Do(DispatchAll(s, queue[..|queue| - 1]), Dispatch(queue[|queue| - 1]))
  }
}
