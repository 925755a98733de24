/** The client's subscription table as it stands in memory, and whole calls of `subscribe` and
    `unsubscribe` on it, with what other tasks and the exchange do while a call waits. */
module SharedChannels {
  import opened Prelude
  import opened Subscriptions

  // A step that task t takes itself.
  predicate Moves(step: Step, t: Task) {
    match step
    case Process => false
    case Reconnect => false
    case _ => step.t == t
  }

  predicate ByOthers(steps: seq<Step>, t: Task) {
    forall i :: 0 <= i < |steps| ==> !Moves(steps[i], t)
  }

  // The others' part in a stretch of steps.
  function OthersPart(steps: seq<Step>, t: Task): seq<Step> {
    if steps == [] then []
    else
      var before, last := OthersPart(steps[..|steps| - 1], t), steps[|steps| - 1];
      if Moves(last, t) then before else before + [last]
  }

  lemma {:induction false} OthersPartGrows(a: seq<Step>, b: seq<Step>, t: Task)
    requires ByOthers(b, t)
    ensures OthersPart(a + b, t) == OthersPart(a, t) + b
  {
    if b == [] {
      assert a + b == a;
    } else {
      OthersPartGrows(a, b[..|b| - 1], t);
      assert (a + b)[..|a + b| - 1] == a + b[..|b| - 1];
    }
  }

  lemma OwnPartIsLeftOut(a: seq<Step>, step: Step, t: Task)
    requires Moves(step, t)
    ensures OthersPart(a + [step], t) == OthersPart(a, t)
  {
    assert (a + [step])[..|a|] == a;
  }

  // Along these steps nobody but the task does anything on the channel.
  ghost predicate Alone(s: State, steps: seq<Step>, t: Task, c: Channel) {
    forall n :: 0 <= n < |steps| ==> Own(Exec(s, steps[..n]), steps[n], c) ==> Moves(steps[n], t)
  }

  lemma {:induction false} OthersLeave(s: State, steps: seq<Step>, t: Task)
    requires Base(s) && t in s.tasks && ByOthers(steps, t)
    ensures var v := Exec(s, steps); Base(v) && t in v.tasks && v.tasks[t] == s.tasks[t]
  {
    if steps != [] {
      var front, last := steps[..|steps| - 1], steps[|steps| - 1];
      OthersLeave(s, front, t);
      hide HeapOk, LocksOk, OwnersOk;
      if Enabled(Exec(s, front), last) {
        BaseStays(Exec(s, front), last);
      }
    }
  }

  // The channel's entry as it is listed, with its count and its lock.
  ghost function ListedEntry(s: State, c: Channel): Option<Entry> {
    if c in s.table && s.table[c] in s.entries then Some(s.entries[s.table[c]]) else None
  }

  ghost predicate Unlocked(s: State, c: Channel) {
    ListedEntry(s, c).Some? ==> ListedEntry(s, c).value.owner.None?
  }

  lemma SameEntry(s: State, step: Step, c: Channel)
    requires HeapOk(s) && Enabled(s, step) && !Own(s, step, c)
    ensures ListedEntry(Do(s, step), c) == ListedEntry(s, c)
  {
    hide Do;
    Elsewhere(s, step, c);
  }

  lemma NothingGrew(commands: seq<Command>, c: Channel)
    ensures GrewElsewhere(commands, commands, c)
  {
  }

  lemma {:induction false} AloneLeaves(s: State, before: seq<Step>, steps: seq<Step>, t: Task, c: Channel)
    requires Base(s) && Base(Exec(s, before)) && ByOthers(steps, t) && Alone(s, before + steps, t, c)
    ensures var u, v := Exec(s, before), Exec(s, before + steps);
            && Base(v) && (c in v.table <==> c in u.table) && (c in u.table ==> v.table[c] == u.table[c])
            && ListedEntry(v, c) == ListedEntry(u, c) && GrewElsewhere(u.commands, v.commands, c)
  {
    hide Do, Enabled, HeapOk, LocksOk, OwnersOk, GrewElsewhere;
    if steps == [] {
      assert before + steps == before;
      NothingGrew(Exec(s, before).commands, c);
    } else {
      var front, last := steps[..|steps| - 1], steps[|steps| - 1];
      assert before + steps == (before + front) + [last];
      AlonePrefix(s, before + front, [last], t, c);
      AloneLeaves(s, before, front, t, c);
      ExecOneMore(s, before + front, last);
      var mid := Exec(s, before + front);
      assert (before + steps)[..|before + front|] == before + front;
      assert (before + steps)[|before + front|] == last;
      assert !Own(mid, last, c);
      if Enabled(mid, last) {
        BaseStays(mid, last);
        Elsewhere(mid, last, c);
        SameEntry(mid, last, c);
        ElsewhereSends(mid, last, c);
        GrewOn(Exec(s, before).commands, mid.commands, Do(mid, last).commands, c);
      }
    }
  }

  lemma AlonePrefix(s: State, a: seq<Step>, b: seq<Step>, t: Task, c: Channel)
    requires Alone(s, a + b, t, c)
    ensures Alone(s, a, t, c)
  {
    forall n | 0 <= n < |a| && Own(Exec(s, a[..n]), a[n], c) ensures Moves(a[n], t) {
      assert (a + b)[..n] == a[..n] && (a + b)[n] == a[n];
    }
  }

  class SubscriptionTable {
    var subscribedChannels: map<Channel, Ref>
    var entries: map<Ref, Entry>
    var nextRef: Ref
    var tasks: map<Task, Consumer>
    var outbound: seq<Command>
    var processed: nat
    var since: nat

    function View(): State
      reads this
    {
      State(subscribedChannels, entries, nextRef, tasks, outbound, processed, since)
    }

    constructor ()
      ensures View() == INITIAL
    {
      subscribedChannels, entries, nextRef, tasks, outbound, processed, since := map[], map[], 0, map[], [], 0, 0;
    }

    // `entry(..).or_insert_with(..).clone()`
    method Lookup(t: Task, c: Channel) returns (r: Ref)
      requires Enabled(View(), SubLookup(t, c))
      modifies this
      ensures View() == Do(old(View()), SubLookup(t, c))
      ensures c in subscribedChannels && r == subscribedChannels[c]
    {
      if c !in subscribedChannels {
        subscribedChannels := subscribedChannels[c := nextRef];
        entries := entries[nextRef := Entry(c, 0, None)];
        nextRef := nextRef + 1;
      }
      r := subscribedChannels[c];
      tasks := tasks[t := Consumer(c, SubWaits(r))];
    }

    // The lock is granted; the same for a subscribe and an unsubscribe.
    method Acquire(t: Task)
      requires Enabled(View(), SubLock(t)) || Enabled(View(), UnsubLock(t))
      modifies this
      ensures View() == Do(old(View()), if old(PhaseOf(View(), t)).SubWaits? then SubLock(t) else UnsubLock(t))
    {
      var r := tasks[t].phase.ref;
      entries := entries[r := entries[r].(owner := Some(t))];
      tasks := tasks[t := tasks[t].(phase := if tasks[t].phase.SubWaits? then SubLocked(r) else UnsubLocked(r))];
    }

    // Only the first subscriber sends; the lock stays held either way.
    method FirstSends(t: Task) returns (sent: bool)
      requires Enabled(View(), SubDecide(t))
      modifies this
      ensures View() == Do(old(View()), SubDecide(t))
      ensures sent <==> old(entries)[old(tasks)[t].phase.ref].count == 0
    {
      var r := tasks[t].phase.ref;
      sent := entries[r].count == 0;
      if sent {
        tasks := tasks[t := tasks[t].(phase := SubAwaits(r, |outbound|))];
        outbound := outbound + [Sub(tasks[t].channel)];
      } else {
        tasks := tasks[t := tasks[t].(phase := SubGranted(r))];
      }
    }

    method Granted(t: Task)
      requires Enabled(View(), SubReply(t))
      modifies this
      ensures View() == Do(old(View()), SubReply(t))
    {
      tasks := tasks[t := tasks[t].(phase := SubGranted(tasks[t].phase.ref))];
    }

    // An error return: the guard drops the lock, the count is left alone.
    method Fail(t: Task)
      requires Enabled(View(), SubFail(t))
      modifies this
      ensures View() == Do(old(View()), SubFail(t))
    {
      var p := tasks[t].phase;
      if Locks(p) {
        entries := entries[p.ref := entries[p.ref].(owner := None)];
      }
      tasks := tasks[t := tasks[t].(phase := SubFailed)];
    }

    method CountIn(t: Task)
      requires Enabled(View(), SubFinish(t))
      modifies this
      ensures View() == Do(old(View()), SubFinish(t))
    {
      var r := tasks[t].phase.ref;
      entries := entries[r := entries[r].(count := entries[r].count + 1, owner := None)];
      tasks := tasks[t := tasks[t].(phase := Held)];
    }

    // `get(..)` on the way out: nothing to do when the channel is not listed.
    method Find(t: Task)
      requires Enabled(View(), UnsubLookup(t))
      modifies this
      ensures View() == Do(old(View()), UnsubLookup(t))
    {
      var c := tasks[t].channel;
      if c in subscribedChannels {
        tasks := tasks[t := tasks[t].(phase := UnsubWaits(subscribedChannels[c]))];
      } else {
        tasks := tasks[t := tasks[t].(phase := Gone)];
      }
    }

    // The last one out removes the entry and lets go of the lock before its command is sent.
    method CountOut(t: Task) returns (last: bool)
      requires Enabled(View(), UnsubDecide(t))
      modifies this
      ensures View() == Do(old(View()), UnsubDecide(t))
      ensures last <==> tasks[t].phase.UnsubSends?
    {
      var r, c := tasks[t].phase.ref, tasks[t].channel;
      last := entries[r].count <= 1;
      if last {
        entries := entries[r := entries[r].(count := 0, owner := None)];
        subscribedChannels := subscribedChannels - {c};
        tasks := tasks[t := tasks[t].(phase := UnsubSends)];
      } else {
        entries := entries[r := entries[r].(count := entries[r].count - 1, owner := None)];
        tasks := tasks[t := tasks[t].(phase := Gone)];
      }
    }

    method SendUnsubscribe(t: Task)
      requires Enabled(View(), UnsubSend(t))
      modifies this
      ensures View() == Do(old(View()), UnsubSend(t))
    {
      outbound := outbound + [Unsub(tasks[t].channel)];
      tasks := tasks[t := tasks[t].(phase := UnsubAwaits)];
    }

    // A command that never made it into the queue.
    method DropUnsubscribe(t: Task)
      requires Enabled(View(), UnsubSendFail(t))
      modifies this
      ensures View() == Do(old(View()), UnsubSendFail(t))
    {
      tasks := tasks[t := tasks[t].(phase := Gone)];
    }

    // A reply, an error or a timeout: all the same to a task on its way out.
    method EndUnsubscribe(t: Task)
      requires Enabled(View(), UnsubDone(t))
      modifies this
      ensures View() == Do(old(View()), UnsubDone(t))
    {
      tasks := tasks[t := tasks[t].(phase := Gone)];
    }

    method Perform(step: Step)
      requires Enabled(View(), step)
      modifies this
      ensures View() == Do(old(View()), step)
    {
      match step {
        case SubLookup(t, c) => var r := Lookup(t, c);
        case SubLock(t) => Acquire(t);
        case SubDecide(t) => var sent := FirstSends(t);
        case SubReply(t) => Granted(t);
        case SubFail(t) => Fail(t);
        case SubFinish(t) => CountIn(t);
        case UnsubLookup(t) => Find(t);
        case UnsubLock(t) => Acquire(t);
        case UnsubDecide(t) => var last := CountOut(t);
        case UnsubSend(t) => SendUnsubscribe(t);
        case UnsubSendFail(t) => DropUnsubscribe(t);
        case UnsubDone(t) => EndUnsubscribe(t);
        case Process => processed := processed + 1;
        case Reconnect => since := processed;
      }
    }

    // What others do while the task waits; a step that cannot be taken is passed over.
    method Wait(steps: seq<Step>)
      modifies this
      ensures View() == Exec(old(View()), steps)
    {
      for i := 0 to |steps|
        invariant View() == Exec(old(View()), steps[..i])
      {
        assert steps[..i + 1][..i] == steps[..i];
        if Enabled(View(), steps[i]) {
          Perform(steps[i]);
        }
      }
      assert steps[..|steps|] == steps;
    }

    // The part of `subscribe` up to the lock.
    method Enter(t: Task, c: Channel, whileLocking: seq<Step>) returns (r: Ref, ghost trace: seq<Step>)
      requires Base(View()) && t !in tasks && ByOthers(whileLocking, t)
      modifies this
      ensures Base(View()) && View() == Exec(old(View()), trace)
      ensures t in tasks && tasks[t] == Consumer(c, SubWaits(r)) && r in entries
      ensures Alone(old(View()), trace, t, c) ==>
                && c in subscribedChannels && subscribedChannels[c] == r
                && CountOf(View(), c) == old(CountOf(View(), c))
                && (entries[r].owner.None? <==> old(Unlocked(View(), c)))
                && GrewElsewhere(old(outbound), outbound, c)
      ensures OthersPart(trace, t) == whileLocking
    {
      hide EntriesOk, RefsOk, LocksOk, OwnersOk, Exec, Alone, ByOthers, OthersPart;
      ghost var s := View();
      EmptyTrace(s, t);
      NothingGrew(s.commands, c);
      hide GrewElsewhere;
      r := Lookup(t, c);
      trace := Moved(s, [], SubLookup(t, c), c);
      trace := Waited(s, trace, whileLocking, t, c);
      Wait(whileLocking);
    }

    // The part of `subscribe` that holds the lock.
    method UnderLock(t: Task, c: Channel, whileWaiting: seq<Step>, accepted: bool, ghost s: State,
                     ghost before: seq<Step>)
      returns (ok: bool, ghost trace: seq<Step>)
      requires Base(s) && Base(View()) && View() == Exec(s, before) && ByOthers(whileWaiting, t)
      requires t in tasks && tasks[t].channel == c && tasks[t].phase.SubLocked? && tasks[t].phase.ref in entries
      modifies this
      ensures Base(View()) && View() == Exec(s, trace)
      ensures t in tasks && tasks[t] == Consumer(c, if ok then Held else SubFailed)
      ensures Alone(s, trace, t, c) ==>
                && Alone(s, before, t, c)
                && (old(Listed(View(), t)) ==> CountOf(View(), c) == old(CountOf(View(), c)) + if ok then 1 else 0)
                && (old(Listed(View(), t)) ==> Unlocked(View(), c))
      ensures old(entries)[old(tasks)[t].phase.ref].count > 0 ==> ok && outbound == old(outbound)
      ensures old(entries)[old(tasks)[t].phase.ref].count == 0 ==>
                && (ok <==> accepted && |old(outbound)| < processed)
                && (Alone(s, trace, t, c) ==> GrewElsewhere(old(outbound) + [Sub(c)], outbound, c))
      ensures OthersPart(trace, t) == OthersPart(before, t) +
                if old(entries)[old(tasks)[t].phase.ref].count == 0 then whileWaiting else []
    {
      hide LocksOk, OwnersOk, Exec, Alone, ByOthers, GrewElsewhere, OthersPart;
      hide EntriesOk, RefsOk;
      var first := FirstSends(t);
      trace := Moved(s, before, SubDecide(t), c);
      if first {
        trace := Waited(s, trace, whileWaiting, t, c);
        Wait(whileWaiting);
      }
      ok := !first || (accepted && tasks[t].phase.sent < processed);
      if !ok {
        Fail(t);
        trace := Moved(s, trace, SubFail(t), c);
      } else {
        trace := Award(t, c, s, trace);
      }
    }

    // The reply is in, or none was needed: the subscriber is counted and lets go of the lock.
    method Award(t: Task, c: Channel, ghost s: State, ghost before: seq<Step>) returns (ghost trace: seq<Step>)
      requires Base(View()) && View() == Exec(s, before)
      requires t in tasks && tasks[t].channel == c
      requires tasks[t].phase.SubGranted? || (tasks[t].phase.SubAwaits? && tasks[t].phase.sent < processed)
      requires tasks[t].phase.ref in entries
      modifies this
      ensures Base(View()) && View() == Exec(s, trace)
      ensures var r := old(tasks)[t].phase.ref;
              View() == old(View()).(
                tasks := old(tasks)[t := Consumer(c, Held)],
                entries := old(entries)[r := old(entries)[r].(count := old(entries)[r].count + 1, owner := None)])
      ensures Alone(s, trace, t, c) ==> Alone(s, before, t, c)
      ensures OthersPart(trace, t) == OthersPart(before, t)
    {
      hide EntriesOk, RefsOk, LocksOk, OwnersOk, Exec, Alone, OthersPart;
      trace := before;
      if tasks[t].phase.SubAwaits? {
        Granted(t);
        trace := Moved(s, trace, SubReply(t), c);
      }
      CountIn(t);
      trace := Moved(s, trace, SubFinish(t), c);
    }

    // A whole `subscribe`: others may act while it waits for the lock and for its reply. A caller still
    // waiting when its time is up, or refused, has failed. Success makes it a holder; where every step
    // passed its check the counts are right, and when nobody else touched the channel the count has
    // grown by this one holder.
    method Subscribe(t: Task, c: Channel, whileLocking: seq<Step>, whileWaiting: seq<Step>, accepted: bool)
      returns (ok: bool, ghost trace: seq<Step>)
      requires Base(View()) && t !in tasks && ByOthers(whileLocking, t) && ByOthers(whileWaiting, t)
      modifies this
      ensures Base(View()) && View() == Exec(old(View()), trace)
      ensures t in tasks && tasks[t] == Consumer(c, if ok then Held else SubFailed)
      ensures forall d :: old(Good(View(), d)) && GuardedAlong(old(View()), trace, d) ==> Good(View(), d)
      ensures Alone(old(View()), trace, t, c) ==>
                && CountOf(View(), c) == old(CountOf(View(), c)) + (if ok then 1 else 0)
                && (Unlocked(View(), c) <==> old(Unlocked(View(), c)))
                && (ok <==>
                      && old(Unlocked(View(), c))
                      && (old(CountOf(View(), c)) == 0 ==>
                            && accepted
                            && exists i :: |old(outbound)| <= i < |outbound| && i < processed && outbound[i] == Sub(c)))
      ensures forall r :: r in entries ==> entries[r].owner != Some(t)
      ensures OthersPart(trace, t) == whileLocking || OthersPart(trace, t) == whileLocking + whileWaiting
    {
      ghost var s := View();
      hide EntriesOk, RefsOk, LocksOk, OwnersOk, Exec, Alone, Good, GuardedAlong, GrewElsewhere, OthersPart;
      var r;
      r, trace := Enter(t, c, whileLocking);
      if entries[r].owner.Some? {
        Fail(t);
        trace := Moved(s, trace, SubFail(t), c);
        ok := false;
      } else {
        Acquire(t);
        trace := Moved(s, trace, SubLock(t), c);
        ghost var mid := outbound;
        ok, trace := UnderLock(t, c, whileWaiting, accepted, s, trace);
        OneCommand(s.commands, mid, outbound, c, processed);
      }
      StillGood(s, trace);
      LetsGo(View(), t);
    }

    // A whole `unsubscribe`; a task still waiting for the lock at the end goes on holding the channel.
    // The last one out sends its command, when the queue takes it.
    method Unsubscribe(t: Task, whileLocking: seq<Step>, whileSending: seq<Step>, queued: bool)
      returns (done: bool, last: bool, ghost trace: seq<Step>)
      requires Base(View()) && t in tasks && tasks[t].phase.Held?
      requires ByOthers(whileLocking, t) && ByOthers(whileSending, t)
      modifies this
      ensures Base(View()) && View() == Exec(old(View()), trace)
      ensures t in tasks && tasks[t].channel == old(tasks)[t].channel
      ensures if done then tasks[t].phase == Gone else tasks[t].phase.UnsubWaits?
      ensures forall d :: old(Good(View(), d)) && GuardedAlong(old(View()), trace, d) ==> Good(View(), d)
      ensures last && queued ==> outbound != [] && outbound[|outbound| - 1] == Unsub(tasks[t].channel)
      ensures var c := old(tasks)[t].channel;
              Alone(old(View()), trace, t, c) ==>
                && (done <==> old(Unlocked(View(), c))) && (Unlocked(View(), c) <==> old(Unlocked(View(), c)))
                && (last <==> done && c in old(subscribedChannels) && old(CountOf(View(), c)) <= 1)
                && CountOf(View(), c) == (if !done then old(CountOf(View(), c))
                                          else if old(CountOf(View(), c)) == 0 then 0 else old(CountOf(View(), c)) - 1)
      ensures forall r :: r in entries ==> entries[r].owner != Some(t)
      ensures OthersPart(trace, t) == []
           || OthersPart(trace, t) == whileLocking || OthersPart(trace, t) == whileLocking + whileSending
    {
      hide EntriesOk, RefsOk, LocksOk, OwnersOk, Exec, Alone, Good, GuardedAlong, ByOthers, OthersPart;
      ghost var s := View();
      var c := tasks[t].channel;
      trace := Approach(t, whileLocking);
      done, last := true, false;
      if tasks[t].phase.UnsubWaits? {
        done := entries[tasks[t].phase.ref].owner.None?;
        if done {
          Acquire(t);
          trace := Moved(s, trace, UnsubLock(t), c);
          last, trace := LetGo(t, c, whileSending, queued, s, trace);
        }
      }
      StillGood(s, trace);
      LetsGo(View(), t);
    }

    // The part of `unsubscribe` up to the lock; without an entry there is nothing to do.
    method Approach(t: Task, whileLocking: seq<Step>) returns (ghost trace: seq<Step>)
      requires Base(View()) && t in tasks && tasks[t].phase.Held? && ByOthers(whileLocking, t)
      modifies this
      ensures Base(View()) && View() == Exec(old(View()), trace)
      ensures t in tasks && tasks[t].channel == old(tasks)[t].channel
      ensures if tasks[t].channel in old(subscribedChannels)
              then tasks[t].phase.UnsubWaits? && tasks[t].phase.ref in entries else tasks[t].phase.Gone?
      ensures var c := tasks[t].channel;
              Alone(old(View()), trace, t, c) ==>
                && CountOf(View(), c) == old(CountOf(View(), c))
                && (tasks[t].phase.UnsubWaits? ==>
                      && Listed(View(), t)
                      && (entries[tasks[t].phase.ref].owner.None? <==> old(Unlocked(View(), tasks[t].channel))))
                && (tasks[t].phase.Gone? ==> old(Unlocked(View(), tasks[t].channel)) && Unlocked(View(), c))
                && (Unlocked(View(), c) <==> old(Unlocked(View(), tasks[t].channel)))
      ensures OthersPart(trace, t) == if tasks[t].phase.UnsubWaits? then whileLocking else []
    {
      hide EntriesOk, RefsOk, LocksOk, OwnersOk, Exec, Alone, ByOthers, GrewElsewhere, OthersPart;
      ghost var s := View();
      var c := tasks[t].channel;
      EmptyTrace(s, t);
      Find(t);
      trace := Moved(s, [], UnsubLookup(t), c);
      if tasks[t].phase.UnsubWaits? {
        trace := Waited(s, trace, whileLocking, t, c);
        Wait(whileLocking);
      }
    }

    // The part of `unsubscribe` from the lock on.
    method LetGo(t: Task, c: Channel, whileSending: seq<Step>, queued: bool, ghost s: State, ghost before: seq<Step>)
      returns (last: bool, ghost trace: seq<Step>)
      requires Base(s) && Base(View()) && View() == Exec(s, before) && ByOthers(whileSending, t)
      requires t in tasks && tasks[t].channel == c && tasks[t].phase.UnsubLocked? && tasks[t].phase.ref in entries
      modifies this
      ensures Base(View()) && View() == Exec(s, trace)
      ensures t in tasks && tasks[t] == Consumer(c, Gone)
      ensures last <==> old(entries)[old(tasks)[t].phase.ref].count <= 1
      ensures last && queued ==> outbound != [] && outbound[|outbound| - 1] == Unsub(c)
      ensures Alone(s, trace, t, c) ==>
                && Alone(s, before, t, c)
                && (old(Listed(View(), t)) ==>
                      Unlocked(View(), c) && CountOf(View(), c) == if last then 0 else old(CountOf(View(), c)) - 1)
      ensures OthersPart(trace, t) == OthersPart(before, t) + if last then whileSending else []
    {
      hide EntriesOk, RefsOk, LocksOk, OwnersOk, Exec, Alone, ByOthers, GrewElsewhere, OthersPart;
      last := CountOut(t);
      trace := Moved(s, before, UnsubDecide(t), c);
      if last {
        trace := Waited(s, trace, whileSending, t, c);
        Wait(whileSending);
        trace := TellExchange(t, c, queued, s, trace);
      }
    }

    method TellExchange(t: Task, c: Channel, queued: bool, ghost s: State, ghost before: seq<Step>)
      returns (ghost trace: seq<Step>)
      requires Base(View()) && View() == Exec(s, before)
      requires t in tasks && tasks[t] == Consumer(c, UnsubSends)
      modifies this
      ensures Base(View()) && View() == Exec(s, trace)
      ensures View() == old(View()).(tasks := tasks, commands := outbound)
      ensures t in tasks && tasks[t] == Consumer(c, Gone)
      ensures queued ==> outbound != [] && outbound[|outbound| - 1] == Unsub(c)
      ensures Alone(s, trace, t, c) ==> Alone(s, before, t, c)
      ensures OthersPart(trace, t) == OthersPart(before, t)
    {
      hide EntriesOk, RefsOk, LocksOk, OwnersOk, Exec, Alone, OthersPart;
      if queued {
        SendUnsubscribe(t);
        trace := Moved(s, before, UnsubSend(t), c);
        EndUnsubscribe(t);
        trace := Moved(s, trace, UnsubDone(t), c);
      } else {
        DropUnsubscribe(t);
        trace := Moved(s, before, UnsubSendFail(t), c);
      }
    }
  }

  lemma StillGood(s: State, trace: seq<Step>)
    ensures forall d :: Good(s, d) && GuardedAlong(s, trace, d) ==> Good(Exec(s, trace), d)
  {
    forall d | Good(s, d) && GuardedAlong(s, trace, d) ensures Good(Exec(s, trace), d) {
      ExecKeeps(s, trace, d);
    }
  }

  // The one command about the channel stands where it was sent.
  lemma OneCommand(a: seq<Command>, b: seq<Command>, d: seq<Command>, c: Channel, processed: nat)
    ensures GrewElsewhere(a, b, c) && GrewElsewhere(b + [Sub(c)], d, c) ==>
              (|b| < processed <==> exists i :: |a| <= i < |d| && i < processed && d[i] == Sub(c))
  {
    if GrewElsewhere(a, b, c) && GrewElsewhere(b + [Sub(c)], d, c) {
      assert d[..|b| + 1][|b|] == d[|b|] == Sub(c);
      forall i | |a| <= i < |b| ensures d[i].channel != c {
        assert d[i] == d[..|b| + 1][i] == b[i];
      }
    }
  }

  // A task that is not at work under a lock holds none.
  lemma LetsGo(s: State, t: Task)
    requires Base(s)
    ensures !(t in s.tasks && Locks(PhaseOf(s, t))) ==> forall r :: r in s.entries ==> s.entries[r].owner != Some(t)
  {
  }

  lemma EmptyTrace(s: State, t: Task)
    ensures Exec(s, []) == s && OthersPart([], t) == []
  {
  }

  // The listed count and entry carry over a wait in which nobody else touches the channel.
  lemma Waited(s: State, trace: seq<Step>, steps: seq<Step>, t: Task, c: Channel) returns (longer: seq<Step>)
    requires Base(s) && Base(Exec(s, trace)) && t in Exec(s, trace).tasks && ByOthers(steps, t)
    ensures longer == trace + steps
    ensures var u, v := Exec(s, trace), Exec(s, longer);
            && v == Exec(u, steps) && Base(v) && t in v.tasks && v.tasks[t] == u.tasks[t]
            && (HasRef(PhaseOf(v, t)) ==> PhaseOf(v, t).ref in v.entries)
            && (Alone(s, longer, t, c) ==>
                  && Alone(s, trace, t, c) && (c in v.table <==> c in u.table)
                  && (c in u.table ==> v.table[c] == u.table[c]) && ListedEntry(v, c) == ListedEntry(u, c)
                  && GrewElsewhere(u.commands, v.commands, c))
    ensures OthersPart(longer, t) == OthersPart(trace, t) + steps
  {
    longer := trace + steps;
    OthersPartGrows(trace, steps, t);
    ExecConcat(s, trace, steps);
    OthersLeave(Exec(s, trace), steps, t);
    if Alone(s, longer, t, c) {
      AlonePrefix(s, trace, steps, t, c);
      AloneLeaves(s, trace, steps, t, c);
    }
  }

  // One step further.
  lemma Moved(s: State, trace: seq<Step>, step: Step, c: Channel) returns (longer: seq<Step>)
    requires Base(Exec(s, trace)) && Enabled(Exec(s, trace), step) && !step.Process? && !step.Reconnect?
    ensures longer == trace + [step]
    ensures Exec(s, longer) == Do(Exec(s, trace), step) && Base(Exec(s, longer))
    ensures Alone(s, longer, step.t, c) ==> Alone(s, trace, step.t, c)
    ensures OthersPart(longer, step.t) == OthersPart(trace, step.t)
  {
    longer := trace + [step];
    OwnPartIsLeftOut(trace, step, step.t);
    ExecOneMore(s, trace, step);
    BaseStays(Exec(s, trace), step);
    if Alone(s, longer, step.t, c) {
      AlonePrefix(s, trace, [step], step.t, c);
    }
  }
}
