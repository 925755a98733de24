/** The client's ref-counted subscriptions (`subscribe`, `unsubscribe`) as interleaved atomic steps:
    table lookup, per-channel lock, RPC enqueue, RPC reply or failure, count update, unlock; and what
    the exchange makes of the commands, across reconnects. The counts are taken not to reach 2^32. */
module Subscriptions {
  import opened Prelude

  type Channel = string
  type Ref = nat
  type Task = nat

  // A shared counter behind a lock (`Arc<Mutex<u32>>`). Tasks may hold on to it after the table drops it.
  datatype Entry = Entry(channel: Channel, count: nat, owner: Option<Task>)

  datatype Command = Sub(channel: Channel) | Unsub(channel: Channel)

  // One consumer's life: subscribe, hold a stream, drop it and unsubscribe.
  datatype Phase =
    | SubWaits(ref: Ref)                // has the entry, waits for its lock
    | SubLocked(ref: Ref)               // holds the lock, count not yet looked at
    | SubAwaits(ref: Ref, sent: nat)    // holds the lock, its subscribe command is number `sent`
    | SubGranted(ref: Ref)              // holds the lock, about to count itself
    | SubFailed
    | Held                              // subscribed, not yet released
    | UnsubWaits(ref: Ref)
    | UnsubLocked(ref: Ref)
    | UnsubSends                        // last one out: entry removed, lock released, command not sent
    | UnsubAwaits
    | Gone

  datatype Consumer = Consumer(channel: Channel, phase: Phase)

  datatype State = State(
    table: map<Channel, Ref>,
    entries: map<Ref, Entry>,
    nextRef: Ref,
    tasks: map<Task, Consumer>,
    commands: seq<Command>,     // everything enqueued on the connection, in order
    processed: nat,             // how many of them the exchange has carried out
    since: nat)                 // how many of those on connections since lost

  const INITIAL: State := State(map[], map[], 0, map[], [], 0, 0)

  datatype Step =
    | SubLookup(t: Task, c: Channel)
    | SubLock(t: Task)
    | SubDecide(t: Task)
    | SubReply(t: Task)
    | SubFail(t: Task)       // closed queue, error reply, timeout or cancellation
    | SubFinish(t: Task)
    | UnsubLookup(t: Task)
    | UnsubLock(t: Task)
    | UnsubDecide(t: Task)
    | UnsubSend(t: Task)
    | UnsubSendFail(t: Task)
    | UnsubDone(t: Task)     // reply, error or timeout
    | Process                // the exchange carries out the next command
    | Reconnect              // and forgets what it was told over the connection before

  function PhaseOf(s: State, t: Task): Phase
    requires t in s.tasks
  {
    s.tasks[t].phase
  }

  // The phases that name an entry, and the ones of them that hold its lock.
  predicate HasRef(p: Phase) {
    p.SubWaits? || p.SubLocked? || p.SubAwaits? || p.SubGranted? || p.UnsubWaits? || p.UnsubLocked?
  }

  predicate Locks(p: Phase) {
    p.SubLocked? || p.SubAwaits? || p.SubGranted? || p.UnsubLocked?
  }

  predicate Enabled(s: State, step: Step) {
    match step
    case SubLookup(t, _) => t !in s.tasks
    case SubLock(t) =>
      && t in s.tasks && PhaseOf(s, t).SubWaits?
      && PhaseOf(s, t).ref in s.entries && s.entries[PhaseOf(s, t).ref].owner.None?
    case SubDecide(t) => t in s.tasks && PhaseOf(s, t).SubLocked? && PhaseOf(s, t).ref in s.entries
    case SubReply(t) => t in s.tasks && PhaseOf(s, t).SubAwaits? && PhaseOf(s, t).sent < s.processed
    case SubFail(t) =>
      && t in s.tasks
      && (PhaseOf(s, t).SubWaits? || PhaseOf(s, t).SubLocked? || PhaseOf(s, t).SubAwaits?)
      && PhaseOf(s, t).ref in s.entries
    case SubFinish(t) => t in s.tasks && PhaseOf(s, t).SubGranted? && PhaseOf(s, t).ref in s.entries
    case UnsubLookup(t) => t in s.tasks && PhaseOf(s, t).Held?
    case UnsubLock(t) =>
      && t in s.tasks && PhaseOf(s, t).UnsubWaits?
      && PhaseOf(s, t).ref in s.entries && s.entries[PhaseOf(s, t).ref].owner.None?
    case UnsubDecide(t) => t in s.tasks && PhaseOf(s, t).UnsubLocked? && PhaseOf(s, t).ref in s.entries
    case UnsubSend(t) => t in s.tasks && PhaseOf(s, t).UnsubSends?
    case UnsubSendFail(t) => t in s.tasks && PhaseOf(s, t).UnsubSends?
    case UnsubDone(t) => t in s.tasks && PhaseOf(s, t).UnsubAwaits?
    case Process => s.processed < |s.commands|
    case Reconnect => true
  }

  function Goes(s: State, t: Task, p: Phase): map<Task, Consumer>
    requires t in s.tasks
  {
    s.tasks[t := s.tasks[t].(phase := p)]
  }

  function Do(s: State, step: Step): State
    requires Enabled(s, step)
  {
    match step
    case SubLookup(t, c) =>
      if c in s.table then s.(tasks := s.tasks[t := Consumer(c, SubWaits(s.table[c]))])
      else s.(table := s.table[c := s.nextRef], entries := s.entries[s.nextRef := Entry(c, 0, None)],
              nextRef := s.nextRef + 1, tasks := s.tasks[t := Consumer(c, SubWaits(s.nextRef))])
    case SubLock(t) =>
      var r := PhaseOf(s, t).ref;
      s.(entries := s.entries[r := s.entries[r].(owner := Some(t))], tasks := Goes(s, t, SubLocked(r)))
    case SubDecide(t) =>
      var r := PhaseOf(s, t).ref;
      if s.entries[r].count == 0
      then s.(commands := s.commands + [Sub(s.tasks[t].channel)], tasks := Goes(s, t, SubAwaits(r, |s.commands|)))
      else s.(tasks := Goes(s, t, SubGranted(r)))
    case SubReply(t) => s.(tasks := Goes(s, t, SubGranted(PhaseOf(s, t).ref)))
    case SubFail(t) =>
      var r := PhaseOf(s, t).ref;
      s.(entries := if Locks(PhaseOf(s, t)) then s.entries[r := s.entries[r].(owner := None)] else s.entries,
         tasks := Goes(s, t, SubFailed))
    case SubFinish(t) =>
      var r := PhaseOf(s, t).ref;
      s.(entries := s.entries[r := s.entries[r].(count := s.entries[r].count + 1, owner := None)],
         tasks := Goes(s, t, Held))
    case UnsubLookup(t) =>
      var c := s.tasks[t].channel;
      s.(tasks := Goes(s, t, if c in s.table then UnsubWaits(s.table[c]) else Gone))
    case UnsubLock(t) =>
      var r := PhaseOf(s, t).ref;
      s.(entries := s.entries[r := s.entries[r].(owner := Some(t))], tasks := Goes(s, t, UnsubLocked(r)))
    case UnsubDecide(t) =>
      var r := PhaseOf(s, t).ref;
      if s.entries[r].count <= 1
      then s.(entries := s.entries[r := s.entries[r].(count := 0, owner := None)],
              table := s.table - {s.tasks[t].channel}, tasks := Goes(s, t, UnsubSends))
      else s.(entries := s.entries[r := s.entries[r].(count := s.entries[r].count - 1, owner := None)],
              tasks := Goes(s, t, Gone))
    case UnsubSend(t) => s.(commands := s.commands + [Unsub(s.tasks[t].channel)], tasks := Goes(s, t, UnsubAwaits))
    case UnsubSendFail(t) => s.(tasks := Goes(s, t, Gone))
    case UnsubDone(t) => s.(tasks := Goes(s, t, Gone))
    case Process => s.(processed := s.processed + 1)
    case Reconnect => s.(since := s.processed)
  }

  ghost predicate Run(states: seq<State>, steps: seq<Step>) {
    && |states| == |steps| + 1 && states[0] == INITIAL
    && forall i :: 0 <= i < |steps| ==> Enabled(states[i], steps[i]) && states[i + 1] == Do(states[i], steps[i])
  }

  // ----- what is to be kept

  function CountOf(s: State, c: Channel): nat {
    if c in s.table && s.table[c] in s.entries then s.entries[s.table[c]].count else 0
  }

  predicate On(s: State, t: Task, c: Channel) {
    t in s.tasks && s.tasks[t].channel == c
  }

  predicate Holds(s: State, t: Task, c: Channel) {
    On(s, t, c) && (PhaseOf(s, t).Held? || PhaseOf(s, t).UnsubWaits? || PhaseOf(s, t).UnsubLocked?)
  }

  // The successful subscribes on a channel that have not yet been released.
  function Holders(s: State, c: Channel): set<Task> {
    set t | t in s.tasks && Holds(s, t, c)
  }

  // Whether the exchange, having carried out these commands, publishes the channel.
  function Subscribed(commands: seq<Command>, c: Channel): bool {
    if commands == [] then false
    else
      var last := commands[|commands| - 1];
      if last.channel == c then last.Sub? else Subscribed(commands[..|commands| - 1], c)
  }

  // What the exchange was last told about the channel, over whichever connection.
  predicate Told(s: State, c: Channel) {
    s.processed <= |s.commands| && Subscribed(s.commands[..s.processed], c)
  }

  // Whether it publishes the channel over the present connection.
  predicate Published(s: State, c: Channel) {
    s.since <= s.processed <= |s.commands| && Subscribed(s.commands[s.since..s.processed], c)
  }

  // A task's entry is the one the table lists.
  predicate Listed(s: State, t: Task)
    requires t in s.tasks && HasRef(PhaseOf(s, t))
  {
    s.tasks[t].channel in s.table && s.table[s.tasks[t].channel] == PhaseOf(s, t).ref
  }

  // ----- the two checks that decide whether the counts are right

  // A subscriber that counts itself in finds that its entry is still the listed one.
  predicate CountsListed(s: State, step: Step, c: Channel) {
    step.SubFinish? && On(s, step.t, c) && HasRef(PhaseOf(s, step.t)) ==> Listed(s, step.t)
  }

  // Nobody holds the channel, and no one's subscribe command is out or granted.
  ghost predicate Unneeded(s: State, c: Channel) {
    forall t :: On(s, t, c) ==> !(PhaseOf(s, t).SubAwaits? || PhaseOf(s, t).SubGranted? || Holds(s, t, c))
  }

  // An unsubscribe command is sent only for a channel that is unneeded at that moment.
  ghost predicate SendsUnneeded(s: State, step: Step, c: Channel) {
    step.UnsubSend? && On(s, step.t, c) ==> Unneeded(s, c)
  }

  ghost predicate Guarded(s: State, step: Step, c: Channel) {
    CountsListed(s, step, c) && SendsUnneeded(s, step, c)
  }

  // ----- the invariant that holds of every run

  ghost predicate HeapOk(s: State) {
    EntriesOk(s) && RefsOk(s)
  }

  // A lock has at most one holder, and knows it; a subscribe command awaited is the one that was sent.
  ghost predicate LockOk(s: State, t: Task)
    requires t in s.tasks
  {
    Locks(PhaseOf(s, t)) ==>
      && PhaseOf(s, t).ref in s.entries && s.entries[PhaseOf(s, t).ref].owner == Some(t)
      && (PhaseOf(s, t).SubAwaits? ==>
            PhaseOf(s, t).sent < |s.commands| && s.commands[PhaseOf(s, t).sent] == Sub(s.tasks[t].channel))
  }

  ghost predicate LocksOk(s: State) {
    forall t :: t in s.tasks ==> LockOk(s, t)
  }

  // And a lock that is held is held by a task that is at work under it.
  ghost predicate OwnersOk(s: State) {
    forall r, t :: r in s.entries && s.entries[r].owner == Some(t) ==>
      t in s.tasks && Locks(PhaseOf(s, t)) && PhaseOf(s, t).ref == r
  }

  ghost predicate Base(s: State) {
    HeapOk(s) && LocksOk(s) && OwnersOk(s)
  }

  ghost predicate EntriesOk(s: State) {
    && (forall r :: r in s.entries ==> r < s.nextRef)
    && (forall c :: c in s.table ==> s.table[c] in s.entries && s.entries[s.table[c]].channel == c)
    && s.since <= s.processed <= |s.commands|
  }

  ghost predicate RefsOk(s: State) {
    forall t :: t in s.tasks && HasRef(PhaseOf(s, t)) ==>
      PhaseOf(s, t).ref in s.entries && s.entries[PhaseOf(s, t).ref].channel == s.tasks[t].channel
  }

  lemma EntriesStay(s: State, step: Step)
    requires HeapOk(s) && Enabled(s, step)
    ensures EntriesOk(Do(s, step))
    ensures forall r :: r in s.entries ==>
              r in Do(s, step).entries && Do(s, step).entries[r].channel == s.entries[r].channel
  {
  }

  lemma RefsStay(s: State, step: Step)
    requires HeapOk(s) && Enabled(s, step)
    ensures RefsOk(Do(s, step))
  {
    EntriesStay(s, step);
  }

  lemma HeapStays(s: State, step: Step)
    requires HeapOk(s) && Enabled(s, step)
    ensures HeapOk(Do(s, step))
  {
    EntriesStay(s, step);
    RefsStay(s, step);
    hide Do;
  }

  // A task's step moves that task alone, and touches no entry but the one it names.
  lemma OneTaskMoves(s: State, step: Step)
    requires EntriesOk(s) && Enabled(s, step) && !step.Process? && !step.Reconnect?
    ensures var v := Do(s, step);
            && v.tasks.Keys == s.tasks.Keys + {step.t}
            && (forall t :: t in s.tasks && t != step.t ==> v.tasks[t] == s.tasks[t])
            && v.tasks[step.t].channel == (if step.SubLookup? then step.c else s.tasks[step.t].channel)
            && (v.commands == s.commands ||
                (|v.commands| == |s.commands| + 1 && v.commands[..|s.commands|] == s.commands))
  {
  }

  lemma OneEntryMoves(s: State, step: Step)
    requires EntriesOk(s) && Enabled(s, step) && !step.Process? && !step.Reconnect?
    ensures var v := Do(s, step);
            && (forall r :: r in v.entries && r !in s.entries ==> step.SubLookup? && v.entries[r].channel == step.c)
            && (forall r :: r in s.entries ==>
                  && r in v.entries && v.entries[r].channel == s.entries[r].channel
                  && (v.entries[r] == s.entries[r] ||
                      (step.t in s.tasks && HasRef(PhaseOf(s, step.t)) && PhaseOf(s, step.t).ref == r)))
  {
  }

  lemma OwnLockStays(s: State, step: Step)
    requires LocksOk(s) && Enabled(s, step) && !step.Process? && !step.Reconnect?
    ensures step.t in Do(s, step).tasks && LockOk(Do(s, step), step.t)
  {
    assert step.t in s.tasks ==> LockOk(s, step.t);
  }

  // A step that touches an entry's owner is taken by a task that has it, or finds the lock free.
  lemma OwnersStay(s: State, step: Step, r: Ref, t: Task)
    requires EntriesOk(s) && LocksOk(s) && Enabled(s, step) && !step.Process? && !step.Reconnect? && t != step.t
    requires r in s.entries && s.entries[r].owner == Some(t)
    ensures r in Do(s, step).entries && Do(s, step).entries[r].owner == Some(t)
  {
    assert step.t in s.tasks ==> LockOk(s, step.t);
  }

  lemma LocksStay(s: State, step: Step)
    requires HeapOk(s) && LocksOk(s) && Enabled(s, step)
    ensures LocksOk(Do(s, step))
  {
    if !step.Process? && !step.Reconnect? {
      hide Do, Enabled, EntriesOk, RefsOk;
      var v := Do(s, step);
      OneTaskMoves(s, step);
      forall t | t in v.tasks ensures LockOk(v, t) {
        if t == step.t {
          OwnLockStays(s, step);
        } else if Locks(PhaseOf(s, t)) {
          assert LockOk(s, t);
          OwnersStay(s, step, PhaseOf(s, t).ref, t);
        }
      }
    }
  }

  // A step that takes its task out of the locked section, on whichever path, lets go of the lock.
  lemma OwnOwnerStays(s: State, step: Step, r: Ref)
    requires EntriesOk(s) && LocksOk(s) && OwnersOk(s) && Enabled(s, step) && !step.Process? && !step.Reconnect?
    requires r in Do(s, step).entries && Do(s, step).entries[r].owner == Some(step.t)
    ensures step.t in Do(s, step).tasks && Locks(PhaseOf(Do(s, step), step.t)) && PhaseOf(Do(s, step), step.t).ref == r
  {
    assert step.t in s.tasks ==> LockOk(s, step.t);
  }

  lemma OtherOwnerStays(s: State, step: Step, r: Ref, t: Task)
    requires EntriesOk(s) && Enabled(s, step) && !step.Process? && !step.Reconnect? && t != step.t
    requires r in Do(s, step).entries && Do(s, step).entries[r].owner == Some(t)
    ensures r in s.entries && s.entries[r].owner == Some(t)
  {
  }

  lemma OwnersStayLockers(s: State, step: Step)
    requires HeapOk(s) && LocksOk(s) && OwnersOk(s) && Enabled(s, step)
    ensures OwnersOk(Do(s, step))
  {
    if !step.Process? && !step.Reconnect? {
      var v := Do(s, step);
      OneTaskMoves(s, step);
      forall r, t | r in v.entries && v.entries[r].owner == Some(t)
        ensures t in v.tasks && Locks(PhaseOf(v, t)) && PhaseOf(v, t).ref == r
      {
        hide Do, Enabled, EntriesOk, RefsOk, LocksOk;
        if t == step.t {
          OwnOwnerStays(s, step, r);
        } else {
          OtherOwnerStays(s, step, r, t);
        }
      }
    }
  }

  lemma BaseStays(s: State, step: Step)
    requires Base(s) && Enabled(s, step)
    ensures Base(Do(s, step))
  {
    hide Do, Enabled, HeapOk, LocksOk, OwnersOk;
    HeapStays(s, step);
    LocksStay(s, step);
    OwnersStayLockers(s, step);
  }

  // ----- the count

  // The listed count is the number of holders, holders on their way out have the listed entry, and
  // entries no longer listed count nobody.
  ghost predicate CountOk(s: State, c: Channel) {
    && CountOf(s, c) == |Holders(s, c)|
    && (c !in s.table ==> Holders(s, c) == {})
    && (forall t :: On(s, t, c) && (PhaseOf(s, t).UnsubWaits? || PhaseOf(s, t).UnsubLocked?) ==> Listed(s, t))
    && (forall r :: r in s.entries && s.entries[r].channel == c && !(c in s.table && s.table[c] == r) ==>
          s.entries[r].count == 0)
  }

  predicate Own(s: State, step: Step, c: Channel) {
    match step
    case Process => false
    case Reconnect => false
    case SubLookup(_, d) => c == d
    case _ => On(s, step.t, c)
  }

  lemma SameHolders(s: State, v: State, c: Channel)
    requires forall t :: Holds(s, t, c) <==> Holds(v, t, c)
    ensures Holders(v, c) == Holders(s, c)
  {
  }

  lemma OneMoreHolder(s: State, v: State, c: Channel, t: Task)
    requires forall u :: Holds(v, u, c) <==> Holds(s, u, c) || u == t
    requires !Holds(s, t, c)
    ensures Holders(v, c) == Holders(s, c) + {t} && |Holders(v, c)| == |Holders(s, c)| + 1
  {
    assert Holders(v, c) == Holders(s, c) + {t};
  }

  lemma OneLessHolder(s: State, v: State, c: Channel, t: Task)
    requires forall u :: Holds(v, u, c) <==> Holds(s, u, c) && u != t
    requires Holds(s, t, c)
    ensures Holders(v, c) == Holders(s, c) - {t} && |Holders(v, c)| == |Holders(s, c)| - 1
  {
    assert Holders(v, c) == Holders(s, c) - {t};
  }

  // Steps of other channels' tasks touch neither this channel's tasks nor its entries' counts.
  lemma Elsewhere(s: State, step: Step, c: Channel)
    requires HeapOk(s) && Enabled(s, step) && !Own(s, step, c)
    ensures var v := Do(s, step);
            && (forall t :: On(v, t, c) <==> On(s, t, c)) && (forall t :: On(s, t, c) ==> v.tasks[t] == s.tasks[t])
            && (c in v.table <==> c in s.table) && (c in s.table ==> v.table[c] == s.table[c])
            && (forall r :: r in v.entries && v.entries[r].channel == c ==> r in s.entries && s.entries[r].channel == c)
            && (forall r :: r in s.entries && s.entries[r].channel == c ==>
                  r in v.entries && v.entries[r] == s.entries[r])
  {
    hide Do, EntriesOk;
    ElsewhereTable(s, step, c);
    if !step.Process? && !step.Reconnect? {
      OneTaskMoves(s, step);
      OneEntryMoves(s, step);
    }
  }

  lemma ElsewhereTable(s: State, step: Step, c: Channel)
    requires Enabled(s, step) && !Own(s, step, c)
    ensures var v := Do(s, step);
            && (c in v.table <==> c in s.table) && (c in s.table ==> v.table[c] == s.table[c])
            && (step.Process? || step.Reconnect? ==> v.tasks == s.tasks && v.entries == s.entries)
  {
  }

  // And send nothing about it.
  lemma ElsewhereSends(s: State, step: Step, c: Channel)
    requires Enabled(s, step) && !Own(s, step, c)
    ensures GrewElsewhere(s.commands, Do(s, step).commands, c)
  {
  }

  // More commands were sent, none of them about the channel.
  ghost predicate GrewElsewhere(before: seq<Command>, after: seq<Command>, c: Channel) {
    && |before| <= |after| && after[..|before|] == before
    && forall i :: |before| <= i < |after| ==> after[i].channel != c
  }

  lemma GrewOn(a: seq<Command>, b: seq<Command>, d: seq<Command>, c: Channel)
    requires GrewElsewhere(a, b, c) && GrewElsewhere(b, d, c)
    ensures GrewElsewhere(a, d, c)
  {
    assert d[..|a|] == d[..|b|][..|a|];
    assert forall i :: |a| <= i < |b| ==> d[i] == d[..|b|][i];
  }

  lemma ElsewhereCounts(s: State, step: Step, c: Channel)
    requires HeapOk(s) && CountOk(s, c) && Enabled(s, step) && !Own(s, step, c)
    ensures CountOk(Do(s, step), c)
  {
    Elsewhere(s, step, c);
    hide Do;
    SameHolders(s, Do(s, step), c);
  }

  // Steps before the count is touched, and after it no longer matters.
  lemma QuietCounts(s: State, step: Step, c: Channel)
    requires HeapOk(s) && CountOk(s, c) && Enabled(s, step) && Own(s, step, c)
    requires !step.SubLookup? && !step.SubFinish? && !step.UnsubDecide?
    ensures CountOk(Do(s, step), c)
  {
    assert step.UnsubLookup? ==> step.t in Holders(s, c);
    QuietTable(s, step);
    QuietTask(s, step, c);
    QuietLeaves(s, step, c);
    hide Do, Enabled, EntriesOk;
    SameHolders(s, Do(s, step), c);
  }

  // Such a step leaves the table and the counts alone.
  lemma QuietTable(s: State, step: Step)
    requires EntriesOk(s) && Enabled(s, step) && !step.Process? && !step.Reconnect?
    requires !step.SubLookup? && !step.SubFinish? && !step.UnsubDecide?
    ensures var v := Do(s, step);
            && v.table == s.table && v.entries.Keys == s.entries.Keys
            && (forall r :: r in s.entries ==>
                  v.entries[r].channel == s.entries[r].channel && v.entries[r].count == s.entries[r].count)
  {
  }

  // Its task stays among the holders, or among the others.
  lemma QuietTask(s: State, step: Step, c: Channel)
    requires RefsOk(s) && Enabled(s, step) && Own(s, step, c)
    requires !step.SubLookup? && !step.SubFinish? && !step.UnsubDecide?
    requires step.UnsubLookup? ==> c in s.table
    ensures step.t in Do(s, step).tasks
    ensures var v, p, q := Do(s, step), PhaseOf(s, step.t), PhaseOf(Do(s, step), step.t);
            && (Holds(v, step.t, c) <==> Holds(s, step.t, c))
            && (HasRef(q) ==> if step.UnsubLookup? then q.ref == s.table[c] else HasRef(p) && q.ref == p.ref)
            && (q.UnsubLocked? ==> p.UnsubWaits?) && (q.UnsubWaits? ==> step.UnsubLookup?) && !q.UnsubSends?
  {
  }

  lemma QuietLeaves(s: State, step: Step, c: Channel)
    requires HeapOk(s) && Enabled(s, step) && Own(s, step, c)
    requires !step.SubLookup? && !step.SubFinish? && !step.UnsubDecide?
    requires step.UnsubLookup? ==> c in s.table
    ensures var v := Do(s, step);
            && (forall t :: On(v, t, c) <==> On(s, t, c))
            && (forall t :: On(s, t, c) && t != step.t ==> v.tasks[t] == s.tasks[t])
            && (forall t :: Holds(v, t, c) <==> Holds(s, t, c))
  {
    OneTaskMoves(s, step);
    QuietTask(s, step, c);
    hide Do, Enabled, EntriesOk, RefsOk;
  }

  lemma LookupCounts(s: State, t: Task, c: Channel)
    requires HeapOk(s) && CountOk(s, c) && Enabled(s, SubLookup(t, c))
    ensures CountOk(Do(s, SubLookup(t, c)), c)
  {
    SameHolders(s, Do(s, SubLookup(t, c)), c);
  }

  lemma ReleaseCounts(s: State, t: Task, c: Channel)
    requires HeapOk(s) && CountOk(s, c) && Enabled(s, UnsubDecide(t)) && On(s, t, c)
    ensures CountOk(Do(s, UnsubDecide(t)), c)
  {
    var v := Do(s, UnsubDecide(t));
    OneLessHolder(s, v, c, t);
    if s.entries[s.table[c]].count <= 1 {
      assert forall u :: Holds(v, u, c) ==> u in Holders(v, c);
      assert forall u :: On(v, u, c) ==> !PhaseOf(v, u).UnsubWaits? && !PhaseOf(v, u).UnsubLocked? by {
        assert forall u :: On(v, u, c) ==> !Holds(v, u, c);
      }
    }
  }

  lemma FinishCounts(s: State, t: Task, c: Channel)
    requires HeapOk(s) && CountOk(s, c) && Enabled(s, SubFinish(t)) && On(s, t, c)
    ensures Listed(s, t) ==> CountOk(Do(s, SubFinish(t)), c)
    ensures !Listed(s, t) ==> CountOf(Do(s, SubFinish(t)), c) != |Holders(Do(s, SubFinish(t)), c)|
  {
    OneMoreHolder(s, Do(s, SubFinish(t)), c, t);
  }

  // One step keeps the count right exactly if it does not count a subscriber into an unlisted entry.
  lemma CountStep(s: State, step: Step, c: Channel)
    requires HeapOk(s) && CountOk(s, c) && Enabled(s, step)
    ensures CountsListed(s, step, c) ==> CountOk(Do(s, step), c)
    ensures !CountsListed(s, step, c) ==> CountOf(Do(s, step), c) != |Holders(Do(s, step), c)|
  {
    hide HeapOk, CountOk, Do;
    if !Own(s, step, c) {
      ElsewhereCounts(s, step, c);
    } else if step.SubFinish? {
      FinishCounts(s, step.t, c);
    } else if step.UnsubDecide? {
      ReleaseCounts(s, step.t, c);
    } else if step.SubLookup? {
      LookupCounts(s, step.t, c);
    } else {
      QuietCounts(s, step, c);
    }
  }

  lemma {:induction false} RunBase(states: seq<State>, steps: seq<Step>, n: nat)
    requires Run(states, steps) && n < |states|
    ensures Base(states[n])
  {
    if n > 0 {
      RunBase(states, steps, n - 1);
      BaseStays(states[n - 1], steps[n - 1]);
    }
  }

  lemma InitialCounts(c: Channel)
    ensures CountOk(INITIAL, c)
  {
    assert Holders(INITIAL, c) == {};
  }

  lemma {:induction false} RunCounts(states: seq<State>, steps: seq<Step>, n: nat, c: Channel)
    requires Run(states, steps) && n < |states|
    requires forall i :: 0 <= i < n ==> CountsListed(states[i], steps[i], c)
    ensures CountOk(states[n], c)
  {
    if n == 0 {
      InitialCounts(c);
    } else {
      RunCounts(states, steps, n - 1, c);
      RunBase(states, steps, n - 1);
      hide HeapOk, CountOk, CountsListed;
      CountStep(states[n - 1], steps[n - 1], c);
    }
  }

  lemma {:induction false} RightSoFar(states: seq<State>, steps: seq<Step>, n: nat, c: Channel)
    requires Run(states, steps) && n < |states|
    requires forall i :: 0 <= i <= n ==> CountOf(states[i], c) == |Holders(states[i], c)|
    ensures CountOk(states[n], c) && forall i :: 0 <= i < n ==> CountsListed(states[i], steps[i], c)
  {
    if n == 0 {
      InitialCounts(c);
    } else {
      RightSoFar(states, steps, n - 1, c);
      RunBase(states, steps, n - 1);
      hide HeapOk, CountOk, CountsListed;
      CountStep(states[n - 1], steps[n - 1], c);
    }
  }

  // Along every run a lock is held exactly by the task that is at work under it: who fails, finishes or
  // leaves has let go.
  lemma LocksAreHeldByLockers(states: seq<State>, steps: seq<Step>, n: nat, r: Ref, t: Task)
    requires Run(states, steps) && n < |states|
    ensures var s := states[n];
            r in s.entries && s.entries[r].owner == Some(t) <==>
            t in s.tasks && Locks(PhaseOf(s, t)) && PhaseOf(s, t).ref == r
  {
    RunBase(states, steps, n);
    assert t in states[n].tasks ==> LockOk(states[n], t);
  }

  // Whatever the tasks do and whichever RPCs fail, the count is the number of unreleased subscribes all
  // along a run if and only if every subscriber that counts itself in finds its entry still listed: a
  // check the code could make under the lock it holds.
  lemma CountIsRightIffListed(states: seq<State>, steps: seq<Step>, c: Channel)
    requires Run(states, steps)
    ensures (forall n :: 0 <= n < |states| ==> CountOf(states[n], c) == |Holders(states[n], c)|)
       <==> (forall i :: 0 <= i < |steps| ==> CountsListed(states[i], steps[i], c))
  {
    if forall n :: 0 <= n < |states| ==> CountOf(states[n], c) == |Holders(states[n], c)| {
      RightSoFar(states, steps, |steps|, c);
    }
    if forall i :: 0 <= i < |steps| ==> CountsListed(states[i], steps[i], c) {
      forall n | 0 <= n < |states| ensures CountOf(states[n], c) == |Holders(states[n], c)| {
        RunCounts(states, steps, n, c);
      }
    }
  }

  // ----- the exchange

  ghost predicate NoUnsubFrom(s: State, c: Channel, from: nat) {
    forall i :: from <= i < |s.commands| ==> s.commands[i] != Unsub(c)
  }

  // The exchange has been told to publish the channel, and nothing on its way there says otherwise.
  ghost predicate Live(s: State, c: Channel) {
    Told(s, c) && NoUnsubFrom(s, c, s.processed)
  }

  ghost predicate TaskServed(s: State, c: Channel, t: Task)
    requires t in s.tasks
  {
    var p := PhaseOf(s, t);
    (p.SubAwaits? ==> NoUnsubFrom(s, c, p.sent)) && (p.SubGranted? ==> Live(s, c))
  }

  ghost predicate ServedOk(s: State, c: Channel) {
    && (Holders(s, c) != {} ==> Live(s, c))
    && forall t :: On(s, t, c) ==> TaskServed(s, c, t)
  }

  // Commands that do not stop the channel leave it live.
  lemma StillLive(s: State, v: State, c: Channel)
    requires v.processed == s.processed
    requires v.commands == s.commands || exists cmd :: cmd != Unsub(c) && v.commands == s.commands + [cmd]
    ensures Live(s, c) ==> Live(v, c)
    ensures forall from :: NoUnsubFrom(s, c, from) ==> NoUnsubFrom(v, c, from)
  {
    assert s.processed <= |s.commands| ==> v.commands[..s.processed] == s.commands[..s.processed];
  }

  lemma OthersServed(s: State, v: State, c: Channel, t: Task)
    requires t in s.tasks && t in v.tasks && v.tasks[t] == s.tasks[t] && TaskServed(s, c, t)
    requires Live(s, c) ==> Live(v, c)
    requires forall from :: NoUnsubFrom(s, c, from) ==> NoUnsubFrom(v, c, from)
    ensures TaskServed(v, c, t)
  {
  }

  lemma {:induction false} ProcessedOne(commands: seq<Command>, n: nat, c: Channel)
    requires n < |commands|
    ensures Subscribed(commands[..n + 1], c) ==
            if commands[n].channel == c then commands[n].Sub? else Subscribed(commands[..n], c)
  {
    assert commands[..n + 1][..n] == commands[..n];
  }

  lemma ExchangeServes(s: State, step: Step, c: Channel)
    requires Base(s) && ServedOk(s, c) && Enabled(s, step) && (step.Process? || step.Reconnect?)
    ensures ServedOk(Do(s, step), c)
  {
    var v := Do(s, step);
    SameHolders(s, v, c);
    if step.Process? {
      ProcessedOne(s.commands, s.processed, c);
      assert Live(s, c) ==> s.commands[s.processed] != Unsub(c);
    }
    assert Live(s, c) ==> Live(v, c);
    assert forall from :: NoUnsubFrom(s, c, from) ==> NoUnsubFrom(v, c, from);
    forall u | On(v, u, c) ensures TaskServed(v, c, u) {
      OthersServed(s, v, c, u);
    }
  }

  lemma {:induction false} SubscribedSince(commands: seq<Command>, sent: nat, processed: nat, c: Channel)
    requires sent < processed <= |commands| && commands[sent] == Sub(c)
    requires forall i :: sent <= i < |commands| ==> commands[i] != Unsub(c)
    ensures Subscribed(commands[..processed], c)
  {
    ProcessedOne(commands, processed - 1, c);
    if sent < processed - 1 {
      SubscribedSince(commands, sent, processed - 1, c);
    }
  }

  // The exchange replies only once it has carried the command out, and nothing sent since undoes it.
  lemma ReplyServes(s: State, t: Task, c: Channel)
    requires Base(s) && ServedOk(s, c) && Enabled(s, SubReply(t)) && On(s, t, c)
    ensures ServedOk(Do(s, SubReply(t)), c)
  {
    var v := Do(s, SubReply(t));
    SameHolders(s, v, c);
    assert TaskServed(s, c, t);
    SubscribedSince(s.commands, PhaseOf(s, t).sent, s.processed, c);
    assert Live(s, c);
    StillLive(s, v, c);
    forall u | On(v, u, c) ensures TaskServed(v, c, u) {
      if u != t {
        OthersServed(s, v, c, u);
      }
    }
  }

  // A subscriber that finds others counted relies on them.
  lemma DecideServes(s: State, t: Task, c: Channel)
    requires Base(s) && CountOk(s, c) && ServedOk(s, c) && Enabled(s, SubDecide(t)) && On(s, t, c)
    ensures ServedOk(Do(s, SubDecide(t)), c)
  {
    var v := Do(s, SubDecide(t));
    SameHolders(s, v, c);
    StillLive(s, v, c);
    if s.entries[PhaseOf(s, t).ref].count > 0 {
      assert Listed(s, t) && Holders(s, c) != {};
    }
    forall u | On(v, u, c) ensures TaskServed(v, c, u) {
      if u != t {
        OthersServed(s, v, c, u);
      }
    }
  }

  lemma UnsubscribeServes(s: State, t: Task, c: Channel)
    requires Base(s) && ServedOk(s, c) && Enabled(s, UnsubSend(t)) && On(s, t, c) && Unneeded(s, c)
    ensures ServedOk(Do(s, UnsubSend(t)), c)
  {
    var v := Do(s, UnsubSend(t));
    SameHolders(s, v, c);
    assert Holders(s, c) == {};
  }

  lemma ElsewhereServes(s: State, step: Step, c: Channel)
    requires Base(s) && ServedOk(s, c) && Enabled(s, step) && !step.Process? && !step.Reconnect? && !Own(s, step, c)
    ensures ServedOk(Do(s, step), c)
  {
    var v := Do(s, step);
    assert v.processed == s.processed;
    assert v.commands == s.commands || exists cmd :: cmd != Unsub(c) && v.commands == s.commands + [cmd];
    Elsewhere(s, step, c);
    StillLive(s, v, c);
    SameHolders(s, v, c);
    hide Do, HeapOk, LocksOk, OwnersOk, Live, NoUnsubFrom;
    forall u | On(v, u, c) ensures TaskServed(v, c, u) {
      OthersServed(s, v, c, u);
    }
  }

  // The other steps on the channel send nothing; a subscriber done waiting was granted the channel.
  lemma RestServes(s: State, step: Step, c: Channel)
    requires Base(s) && ServedOk(s, c) && Enabled(s, step) && Own(s, step, c)
    requires !step.SubReply? && !step.SubDecide? && !step.UnsubSend?
    ensures ServedOk(Do(s, step), c)
  {
    var v := Do(s, step);
    StillLive(s, v, c);
    assert step.SubFinish? ==> TaskServed(s, c, step.t);
    assert Holders(v, c) != {} ==> Live(s, c) by {
      assert forall u :: Holds(v, u, c) ==> Holds(s, u, c) || (step.SubFinish? && u == step.t);
      assert forall u :: Holds(s, u, c) ==> u in Holders(s, c);
    }
    hide Live, NoUnsubFrom, HeapOk, LocksOk, OwnersOk;
    forall u | On(v, u, c) && u != step.t ensures TaskServed(v, c, u) {
      OthersServed(s, v, c, u);
    }
  }

  lemma ServedStep(s: State, step: Step, c: Channel)
    requires Base(s) && CountOk(s, c) && ServedOk(s, c) && Enabled(s, step) && SendsUnneeded(s, step, c)
    ensures ServedOk(Do(s, step), c)
  {
    hide Base, CountOk, ServedOk, Do, Unneeded;
    if step.Process? || step.Reconnect? {
      ExchangeServes(s, step, c);
    } else if step.SubReply? && On(s, step.t, c) {
      ReplyServes(s, step.t, c);
    } else if step.SubDecide? && On(s, step.t, c) {
      DecideServes(s, step.t, c);
    } else if step.UnsubSend? && On(s, step.t, c) {
      UnsubscribeServes(s, step.t, c);
    } else if Own(s, step, c) {
      RestServes(s, step, c);
    } else {
      ElsewhereServes(s, step, c);
    }
  }

  // ----- both together, over runs

  ghost predicate Good(s: State, c: Channel) {
    Base(s) && CountOk(s, c) && ServedOk(s, c)
  }

  lemma StepKeeps(s: State, step: Step, c: Channel)
    requires Good(s, c) && Enabled(s, step) && Guarded(s, step, c)
    ensures Good(Do(s, step), c)
  {
    hide HeapOk, LocksOk, OwnersOk, CountOk, ServedOk, CountsListed, SendsUnneeded, Do;
    BaseStays(s, step);
    CountStep(s, step, c);
    ServedStep(s, step, c);
  }

  lemma {:induction false} RunKeeps(states: seq<State>, steps: seq<Step>, n: nat, c: Channel)
    requires Run(states, steps) && n < |states|
    requires forall i :: 0 <= i < n ==> Guarded(states[i], steps[i], c)
    ensures Good(states[n], c)
  {
    if n == 0 {
      InitialCounts(c);
      assert Holders(INITIAL, c) == {};
    } else {
      RunKeeps(states, steps, n - 1, c);
      hide Good, Guarded;
      StepKeeps(states[n - 1], steps[n - 1], c);
    }
  }

  // A step that cannot be taken has no effect.
  function Exec(s: State, steps: seq<Step>): State {
    if steps == [] then s
    else
      var before, last := Exec(s, steps[..|steps| - 1]), steps[|steps| - 1];
      if Enabled(before, last) then Do(before, last) else before
  }

  lemma {:induction false} ExecConcat(s: State, a: seq<Step>, b: seq<Step>)
    ensures Exec(s, a + b) == Exec(Exec(s, a), b)
  {
    if b == [] {
      assert a + b == a;
    } else {
      ExecConcat(s, a, b[..|b| - 1]);
      assert (a + b)[..|a + b| - 1] == a + b[..|b| - 1];
    }
  }

  lemma ExecOneMore(s: State, steps: seq<Step>, step: Step)
    ensures Exec(s, steps + [step]) ==
            if Enabled(Exec(s, steps), step) then Do(Exec(s, steps), step) else Exec(s, steps)
  {
    assert (steps + [step])[..|steps|] == steps;
  }

  ghost predicate GuardedAlong(s: State, steps: seq<Step>, c: Channel) {
    forall n :: 0 <= n < |steps| ==> Guarded(Exec(s, steps[..n]), steps[n], c)
  }

  lemma {:induction false} ExecKeeps(s: State, steps: seq<Step>, c: Channel)
    requires Good(s, c) && GuardedAlong(s, steps, c)
    ensures Good(Exec(s, steps), c)
  {
    if steps != [] {
      var front := steps[..|steps| - 1];
      assert forall n :: 0 <= n < |front| ==> front[..n] == steps[..n];
      ExecKeeps(s, front, c);
      hide Good, Guarded, Do;
      if Enabled(Exec(s, front), steps[|front|]) {
        StepKeeps(Exec(s, front), steps[|front|], c);
      }
    }
  }

  // What may still happen when no task starts anything new.
  predicate Settling(steps: seq<Step>) {
    forall i :: 0 <= i < |steps| ==> steps[i].Process? || steps[i].SubReply? || steps[i].SubFinish?
  }

  // However what is under way settles, a held channel is one the exchange was told to publish.
  ghost predicate Settles(s: State, c: Channel) {
    forall steps :: Settling(steps) && Holders(Exec(s, steps), c) != {} ==> Told(Exec(s, steps), c)
  }

  lemma {:induction false} SettlingServes(s: State, steps: seq<Step>, c: Channel)
    requires Base(s) && ServedOk(s, c) && Settling(steps)
    ensures Base(Exec(s, steps)) && ServedOk(Exec(s, steps), c)
  {
    hide HeapOk, LocksOk, OwnersOk, ServedOk, Do;
    if steps != [] {
      var before, last := Exec(s, steps[..|steps| - 1]), steps[|steps| - 1];
      SettlingServes(s, steps[..|steps| - 1], c);
      if Enabled(before, last) {
        BaseStays(before, last);
        if last.Process? {
          ExchangeServes(before, last, c);
        } else if last.SubReply? && On(before, last.t, c) {
          ReplyServes(before, last.t, c);
        } else if On(before, last.t, c) {
          RestServes(before, last, c);
        } else {
          ElsewhereServes(before, last, c);
        }
      }
    }
  }

  function Processes(n: nat): seq<Step> {
    seq(n, _ => Process)
  }

  lemma {:induction false} AllProcessed(s: State, n: nat)
    requires s.processed + n <= |s.commands|
    ensures Exec(s, Processes(n)) == s.(processed := s.processed + n)
  {
    if n > 0 {
      AllProcessed(s, n - 1);
      assert Processes(n)[..n - 1] == Processes(n - 1);
    }
  }

  lemma ExecOne(s: State, a: Step)
    ensures Exec(s, [a]) == if Enabled(s, a) then Do(s, a) else s
  {
    assert [a][..0] == [];
  }

  lemma ExecTwo(s: State, steps: seq<Step>, a: Step, b: Step)
    ensures Exec(s, steps + [a, b]) == Exec(Exec(Exec(s, steps), [a]), [b])
  {
    var all := steps + [a, b];
    assert all[..|all| - 1] == steps + [a] && (steps + [a])[..|steps|] == steps;
    assert [a][..0] == [] && [b][..0] == [];
  }

  // The last command under way takes the channel away from a task that has, or may yet get, a hold on it.
  ghost predicate Unserved(w: State, u: Task, c: Channel) {
    && HeapOk(w) && On(w, u, c) && w.commands != [] && w.commands[|w.commands| - 1] == Unsub(c)
    && (PhaseOf(w, u).SubAwaits? || PhaseOf(w, u).SubGranted? || Holds(w, u, c))
    && (PhaseOf(w, u).SubAwaits? ==> PhaseOf(w, u).sent < |w.commands|)
  }

  lemma NeededIsUnserved(s: State, t: Task, u: Task, c: Channel)
    requires Base(s) && Enabled(s, UnsubSend(t)) && On(s, t, c) && On(s, u, c)
    requires PhaseOf(s, u).SubAwaits? || PhaseOf(s, u).SubGranted? || Holds(s, u, c)
    ensures Unserved(Do(s, UnsubSend(t)), u, c)
  {
    HeapStays(s, UnsubSend(t));
    hide HeapOk;
  }

  lemma UnservedWhenProcessed(v: State, u: Task, c: Channel)
    requires Unserved(v, u, c)
    ensures v.processed <= |v.commands| && Unserved(v.(processed := |v.commands|), u, c)
  {
  }

  lemma UnservedDoesNotSettle(v: State, u: Task, c: Channel)
    requires Unserved(v, u, c)
    ensures !Settles(v, c)
  {
    hide Exec, Holders, Told, Unserved, HeapOk, Settling;
    UnservedWhenProcessed(v, u, c);
    var n := |v.commands| - v.processed;
    AllProcessed(v, n);
    ExecTwo(v, Processes(n), SubReply(u), SubFinish(u));
    FinishesUnserved(v.(processed := |v.commands|), u, c);
    StepsSettle(n, u);
  }

  lemma StepsSettle(n: nat, u: Task)
    ensures Settling(Processes(n) + [SubReply(u), SubFinish(u)])
  {
  }

  lemma FinishesUnserved(w: State, u: Task, c: Channel)
    requires Unserved(w, u, c) && w.processed == |w.commands|
    ensures var end := Exec(Exec(w, [SubReply(u)]), [SubFinish(u)]);
            u in Holders(end, c) && !Told(end, c)
  {
    var mid := Exec(w, [SubReply(u)]);
    var end := Exec(mid, [SubFinish(u)]);
    ExecOne(w, SubReply(u));
    ExecOne(mid, SubFinish(u));
    hide Exec;
    assert PhaseOf(mid, u).SubGranted? || Holds(mid, u, c);
    assert end.commands == w.commands && end.processed == w.processed;
    assert w.commands[..|w.commands|] == w.commands;
  }

  lemma SoundSoFar(states: seq<State>, steps: seq<Step>, i: nat, c: Channel)
    requires Run(states, steps) && i < |steps| && Settles(states[i + 1], c)
    ensures SendsUnneeded(states[i], steps[i], c)
  {
    hide Settles;
    RunBase(states, steps, i);
    if steps[i].UnsubSend? && On(states[i], steps[i].t, c) && !Unneeded(states[i], c) {
      var s := states[i];
      var u :| On(s, u, c) && (PhaseOf(s, u).SubAwaits? || PhaseOf(s, u).SubGranted? || Holds(s, u, c));
      NeededIsUnserved(s, steps[i].t, u, c);
      UnservedDoesNotSettle(states[i + 1], u, c);
    }
  }

  // The counts are right all along a run, and holders are served however it settles from any of its
  // states, if and only if each step passes its check: a subscriber counts itself into a listed entry,
  // an unsubscribe command is sent only for a channel that nobody needs at that moment.
  lemma RefCountIsSafeIffGuarded(states: seq<State>, steps: seq<Step>, c: Channel)
    requires Run(states, steps)
    ensures (forall n :: 0 <= n < |states| ==>
               CountOf(states[n], c) == |Holders(states[n], c)| && Settles(states[n], c))
       <==> (forall i :: 0 <= i < |steps| ==> Guarded(states[i], steps[i], c))
  {
    hide Settles, CountsListed, SendsUnneeded;
    CountIsRightIffListed(states, steps, c);
    if forall n :: 0 <= n < |states| ==> CountOf(states[n], c) == |Holders(states[n], c)| && Settles(states[n], c) {
      forall i | 0 <= i < |steps| ensures SendsUnneeded(states[i], steps[i], c) {
        SoundSoFar(states, steps, i, c);
      }
    }
    if forall i :: 0 <= i < |steps| ==> Guarded(states[i], steps[i], c) {
      forall n | 0 <= n < |states| ensures Settles(states[n], c) {
        RunKeeps(states, steps, n, c);
        GoodSettles(states[n], c);
      }
    }
  }

  lemma GoodSettles(s: State, c: Channel)
    requires Good(s, c)
    ensures Settles(s, c)
  {
    forall steps | Settling(steps) && Holders(Exec(s, steps), c) != {} ensures Told(Exec(s, steps), c) {
      SettlingServes(s, steps, c);
    }
  }

  // ----- what a holder gets, across reconnects

  lemma {:induction false} WindowSubscribed(commands: seq<Command>, from: nat, to: nat, c: Channel)
    requires from <= to <= |commands| && Subscribed(commands[..to], c)
    ensures Subscribed(commands[from..to], c) <==> exists i :: from <= i < to && commands[i] == Sub(c)
  {
    if from < to {
      assert commands[..to][..to - 1] == commands[..to - 1];
      assert commands[from..to][..to - from - 1] == commands[from..to - 1];
      assert commands[to - 1] == commands[from..to][to - from - 1];
      if commands[to - 1].channel != c {
        WindowSubscribed(commands, from, to - 1, c);
      } else {
        assert commands[to - 1] == Sub(c);
      }
    }
  }

  // A held channel is published exactly if a subscribe command on it was carried out over the present
  // connection; the one that its holders once sent may have gone with an earlier connection.
  lemma HeldIsPublishedIffResubscribed(states: seq<State>, steps: seq<Step>, n: nat, c: Channel)
    requires Run(states, steps) && n < |states| && Holders(states[n], c) != {}
    requires forall i :: 0 <= i < n ==> Guarded(states[i], steps[i], c)
    ensures var s := states[n];
            && s.since <= s.processed <= |s.commands|
            && (Published(s, c) <==> exists i :: s.since <= i < s.processed && s.commands[i] == Sub(c))
            && (s.since == 0 ==> Published(s, c))
  {
    RunKeeps(states, steps, n, c);
    var s := states[n];
    WindowSubscribed(s.commands, s.since, s.processed, c);
    assert s.commands[0..s.processed] == s.commands[..s.processed];
  }

  // ----- a discipline that passes the checks

  predicate Subscribing(p: Phase) {
    p.SubWaits? || p.SubLocked? || p.SubAwaits? || p.SubGranted?
  }

  // On the way out, up to the moment the command is sent.
  predicate Unsubscribing(p: Phase) {
    p.UnsubWaits? || p.UnsubLocked? || p.UnsubSends?
  }

  // No subscribe on the channel is under way together with an unsubscribe on it that has not sent its
  // command. Subscribes may overlap one another, and so may unsubscribes.
  ghost predicate NoOverlap(s: State, c: Channel) {
    forall t, u :: On(s, t, c) && On(s, u, c) ==> !(Subscribing(PhaseOf(s, t)) && Unsubscribing(PhaseOf(s, u)))
  }

  // Every entry in use on the channel is the listed one, and the last one out leaves it empty.
  ghost predicate AllListed(s: State, c: Channel) {
    forall t :: On(s, t, c) ==>
      && (HasRef(PhaseOf(s, t)) ==> Listed(s, t))
      && (PhaseOf(s, t).UnsubSends? ==> Holders(s, c) == {})
  }

  lemma DisciplineIsGuarded(s: State, step: Step, c: Channel)
    requires AllListed(s, c) && NoOverlap(s, c) && Enabled(s, step)
    ensures Guarded(s, step, c)
  {
    if step.UnsubSend? && On(s, step.t, c) {
      assert Holders(s, c) == {};
      assert forall u :: Holds(s, u, c) ==> u in Holders(s, c);
    }
  }

  lemma ReleaseLists(s: State, t: Task, c: Channel)
    requires Good(s, c) && AllListed(s, c) && NoOverlap(s, c) && Enabled(s, UnsubDecide(t)) && On(s, t, c)
    ensures AllListed(Do(s, UnsubDecide(t)), c)
  {
    hide ServedOk, LocksOk, OwnersOk, HeapOk;
    var v := Do(s, UnsubDecide(t));
    OneLessHolder(s, v, c, t);
    assert t in Holders(s, c);
    if s.entries[PhaseOf(s, t).ref].count <= 1 {
      assert Holders(v, c) == {};
      forall u | On(v, u, c) ensures !HasRef(PhaseOf(v, u)) {
        assert On(s, u, c) && On(s, t, c);
        assert Holds(v, u, c) ==> u in Holders(v, c);
      }
    } else {
      assert forall u :: On(s, u, c) ==> !PhaseOf(s, u).UnsubSends?;
      assert forall u :: On(v, u, c) ==> On(s, u, c);
    }
  }

  lemma FinishLists(s: State, t: Task, c: Channel)
    requires Good(s, c) && AllListed(s, c) && NoOverlap(s, c) && Enabled(s, SubFinish(t)) && On(s, t, c)
    ensures AllListed(Do(s, SubFinish(t)), c)
  {
    hide ServedOk, LocksOk, OwnersOk, HeapOk, CountOk;
    var v := Do(s, SubFinish(t));
    assert forall u :: On(s, u, c) && On(s, t, c) ==> !PhaseOf(s, u).UnsubSends?;
    assert forall u :: On(v, u, c) ==> On(s, u, c);
  }

  lemma QuietLists(s: State, step: Step, c: Channel)
    requires Good(s, c) && AllListed(s, c) && Enabled(s, step) && Own(s, step, c)
    requires !step.SubFinish? && !step.UnsubDecide?
    ensures AllListed(Do(s, step), c)
  {
    hide ServedOk, LocksOk, OwnersOk;
    var v := Do(s, step);
    assert step.UnsubLookup? ==> step.t in Holders(s, c);
    if step.SubLookup? {
      SameHolders(s, v, c);
      hide Holders, CountOk;
    } else {
      QuietTable(s, step);
      QuietTask(s, step, c);
      QuietLeaves(s, step, c);
      hide Do, Enabled, EntriesOk;
      SameHolders(s, v, c);
      hide Holders, CountOk;
    }
  }

  lemma ElsewhereLists(s: State, step: Step, c: Channel)
    requires Good(s, c) && AllListed(s, c) && Enabled(s, step) && !Own(s, step, c)
    ensures AllListed(Do(s, step), c)
  {
    hide ServedOk, LocksOk, OwnersOk, CountOk, Do;
    Elsewhere(s, step, c);
    SameHolders(s, Do(s, step), c);
    hide Holders;
  }

  lemma AllListedStays(s: State, step: Step, c: Channel)
    requires Good(s, c) && AllListed(s, c) && NoOverlap(s, c) && Enabled(s, step)
    ensures AllListed(Do(s, step), c)
  {
    hide Good, AllListed, NoOverlap, Do;
    if !Own(s, step, c) {
      ElsewhereLists(s, step, c);
    } else if step.UnsubDecide? {
      ReleaseLists(s, step.t, c);
    } else if step.SubFinish? {
      FinishLists(s, step.t, c);
    } else {
      QuietLists(s, step, c);
    }
  }

  lemma {:induction false} RunListed(states: seq<State>, steps: seq<Step>, n: nat, c: Channel)
    requires Run(states, steps) && n < |states|
    requires forall i :: 0 <= i < n ==> NoOverlap(states[i], c)
    ensures Good(states[n], c) && AllListed(states[n], c)
    ensures forall i :: 0 <= i < n ==> Guarded(states[i], steps[i], c)
  {
    if n == 0 {
      RunKeeps(states, steps, 0, c);
    } else {
      RunListed(states, steps, n - 1, c);
      hide Good, Guarded, AllListed, NoOverlap;
      DisciplineIsGuarded(states[n - 1], steps[n - 1], c);
      StepKeeps(states[n - 1], steps[n - 1], c);
      AllListedStays(states[n - 1], steps[n - 1], c);
    }
  }

  // Along every run in which subscribes on a channel do not overlap unsubscribes on it, whatever the
  // other channels do and whichever RPCs fail: the count is the number of unreleased subscribes, while
  // there is one the exchange was told to publish the channel, and at most one caller awaits a
  // subscribe RPC.
  lemma RefCountIsSafe(states: seq<State>, steps: seq<Step>, n: nat, c: Channel)
    requires Run(states, steps) && n < |states|
    requires forall i :: 0 <= i < n ==> NoOverlap(states[i], c)
    ensures CountOf(states[n], c) == |Holders(states[n], c)|
    ensures Holders(states[n], c) != {} ==>
              Told(states[n], c) && (states[n].since == 0 ==> Published(states[n], c))
    ensures forall t, u :: Awaits(states[n], t, c) && Awaits(states[n], u, c) ==> t == u
  {
    RunListed(states, steps, n, c);
    if Holders(states[n], c) != {} {
      HeldIsPublishedIffResubscribed(states, steps, n, c);
    }
  }

  predicate Awaits(s: State, t: Task, c: Channel) {
    On(s, t, c) && PhaseOf(s, t).SubAwaits?
  }

  ghost predicate NoSubFrom(s: State, c: Channel, from: nat) {
    forall i :: from <= i < |s.commands| ==> s.commands[i] != Sub(c)
  }

  lemma NoSubKept(s: State, step: Step, c: Channel)
    requires Good(s, c) && AllListed(s, c) && Holders(s, c) != {} && Enabled(s, step)
    requires NoSubFrom(s, c, if step.Reconnect? then s.processed else s.since)
    ensures NoSubFrom(Do(s, step), c, Do(s, step).since)
  {
    hide ServedOk, LocksOk, OwnersOk;
  }

  lemma {:induction false} NoSubSince(states: seq<State>, steps: seq<Step>, m: nat, n: nat, c: Channel)
    requires Run(states, steps) && m < n < |states| && steps[m].Reconnect?
    requires forall i :: 0 <= i < n ==> NoOverlap(states[i], c)
    requires forall k :: m <= k < n ==> Holders(states[k], c) != {}
    requires NoSubFrom(states[m], c, states[m].processed)
    ensures NoSubFrom(states[n], c, states[n].since)
    decreases n
  {
    RunListed(states, steps, n - 1, c);
    if n - 1 > m {
      NoSubSince(states, steps, m, n - 1, c);
      NoSubLater(states[n - 1], c);
    }
    hide Good, AllListed, NoOverlap, Holders, NoSubFrom;
    NoSubKept(states[n - 1], steps[n - 1], c);
  }

  lemma NoSubLater(s: State, c: Channel)
    requires NoSubFrom(s, c, s.since)
    ensures s.since <= s.processed ==> NoSubFrom(s, c, s.processed)
  {
  }

  // A channel that stays held across a reconnect, with no subscribe command on it still queued, is not
  // published again for as long as it stays held: a count above zero keeps anyone from asking.
  lemma HeldAcrossReconnectGoesDark(states: seq<State>, steps: seq<Step>, m: nat, n: nat, c: Channel)
    requires Run(states, steps) && m < n < |states| && steps[m].Reconnect?
    requires forall i :: 0 <= i < n ==> NoOverlap(states[i], c)
    requires forall k :: m <= k < n ==> Holders(states[k], c) != {}
    requires NoSubFrom(states[m], c, states[m].processed)
    ensures !Published(states[n], c)
  {
    NoSubSince(states, steps, m, n, c);
    var v := states[n];
    if Published(v, c) {
      NeverSubscribed(v.commands[v.since..v.processed], c);
    }
  }

  lemma {:induction false} NeverSubscribed(commands: seq<Command>, c: Channel)
    requires forall i :: 0 <= i < |commands| ==> commands[i] != Sub(c)
    ensures !Subscribed(commands, c)
  {
    if commands != [] {
      NeverSubscribed(commands[..|commands| - 1], c);
    }
  }

  // ----- nothing is left subscribed behind

  // A subscribe command that failed after it was sent, or an unsubscribe that was never sent.
  predicate Loses(s: State, step: Step) {
    || (step.SubFail? && step.t in s.tasks && PhaseOf(s, step.t).SubAwaits?)
    || step.UnsubSendFail?
  }

  predicate Concerned(s: State, t: Task, c: Channel) {
    && On(s, t, c)
    && var p := PhaseOf(s, t); p.SubAwaits? || p.SubGranted? || p.UnsubSends? || Holds(s, t, c)
  }

  // Some task answers for every channel the exchange has been told to publish.
  ghost predicate Accounted(s: State, c: Channel) {
    Subscribed(s.commands, c) ==> exists t :: Concerned(s, t, c)
  }

  // A task stays concerned with its channel, or hands it on.
  lemma ConcernStays(s: State, step: Step, c: Channel, t: Task) returns (u: Task)
    requires Good(s, c) && Enabled(s, step) && !Loses(s, step) && Concerned(s, t, c)
    requires !(step.UnsubSend? && step.t == t)
    ensures Concerned(Do(s, step), u, c)
  {
    hide ServedOk, LocksOk, OwnersOk;
    u := t;
    if step.UnsubDecide? && step.t == t {
      assert t in Holders(s, c);
      if s.entries[s.table[c]].count > 1 {
        u := Another(Holders(s, c), t);
      }
    } else {
      assert step.UnsubLookup? && step.t == t ==> t in Holders(s, c);
    }
  }

  // What was last sent about the channel stays so, unless a task now sends something about it.
  lemma SentStays(s: State, step: Step, c: Channel)
    requires Enabled(s, step)
    ensures step.UnsubSend? && On(s, step.t, c) ==> !Subscribed(Do(s, step).commands, c)
    ensures Subscribed(Do(s, step).commands, c) && !Subscribed(s.commands, c) ==>
              step.SubDecide? && Concerned(Do(s, step), step.t, c)
  {
    var v := Do(s, step);
    if |v.commands| > |s.commands| {
      assert v.commands[..|v.commands| - 1] == s.commands;
    }
  }

  lemma AccountedStays(s: State, step: Step, c: Channel)
    requires Good(s, c) && Enabled(s, step) && Accounted(s, c) && !Loses(s, step)
    ensures Accounted(Do(s, step), c)
  {
    hide Base, CountOk, ServedOk, Do, Enabled, Subscribed;
    SentStays(s, step, c);
    if Subscribed(Do(s, step).commands, c) && Subscribed(s.commands, c) {
      var t :| Concerned(s, t, c);
      var u := ConcernStays(s, step, c, t);
    }
  }

  lemma Another(ts: set<Task>, t: Task) returns (u: Task)
    requires t in ts && |ts| > 1
    ensures u in ts && u != t
  {
    assert |ts - {t}| == |ts| - 1;
    u :| u in ts - {t};
  }

  lemma {:induction false} RunAccounts(states: seq<State>, steps: seq<Step>, n: nat, c: Channel)
    requires Run(states, steps) && n < |states|
    requires forall i :: 0 <= i < n ==> Guarded(states[i], steps[i], c) && !Loses(states[i], steps[i])
    ensures Accounted(states[n], c)
  {
    if n > 0 {
      RunAccounts(states, steps, n - 1, c);
      RunKeeps(states, steps, n - 1, c);
      AccountedStays(states[n - 1], steps[n - 1], c);
    }
  }

  // When no command was lost, none is out or about to be sent on the channel and the exchange has
  // caught up, it was last told to publish the channel exactly if somebody holds it.
  lemma SubscribedExactlyWhileHeld(states: seq<State>, steps: seq<Step>, n: nat, c: Channel)
    requires Run(states, steps) && n < |states|
    requires forall i :: 0 <= i < n ==> Guarded(states[i], steps[i], c) && !Loses(states[i], steps[i])
    requires forall t :: On(states[n], t, c) ==>
               var p := PhaseOf(states[n], t); !p.SubAwaits? && !p.SubGranted? && !p.UnsubSends?
    requires states[n].processed == |states[n].commands|
    ensures Told(states[n], c) <==> Holders(states[n], c) != {}
  {
    RunKeeps(states, steps, n, c);
    RunAccounts(states, steps, n, c);
    var s := states[n];
    assert s.commands[..s.processed] == s.commands;
    if Told(s, c) {
      var t :| Concerned(s, t, c);
      assert t in Holders(s, c);
    }
  }
}
