/** Why the subscription table needs its checks: a run in which an unsubscribe overtakes a subscribe. */
module Overtaking {
  import opened Prelude
  import opened Subscriptions

  // Consumers 1 and 2 of channel c around its one entry.
  function Snap(c: Channel, listed: bool, count: nat, owner: Option<Task>, first: Phase, second: Option<Phase>,
                commands: seq<Command>, processed: nat): State {
    State(if listed then map[c := 0] else map[], map[0 := Entry(c, count, owner)], 1,
          if second.None? then map[1 := Consumer(c, first)]
          else map[1 := Consumer(c, first), 2 := Consumer(c, second.value)],
          commands, processed, 0)
  }

  // Consumer 1 subscribes and holds the channel. Consumer 2 looks the entry up and waits for its lock;
  // 1 drops out, removing the entry, and sends its unsubscribe after 2 has sent its subscribe.
  function Overtaking(c: Channel): seq<(State, Step)> {
    [
      (INITIAL, SubLookup(1, c)),
      (Snap(c, true, 0, None, SubWaits(0), None, [], 0), SubLock(1)),
      (Snap(c, true, 0, Some(1), SubLocked(0), None, [], 0), SubDecide(1)),
      (Snap(c, true, 0, Some(1), SubAwaits(0, 0), None, [Sub(c)], 0), Process),
      (Snap(c, true, 0, Some(1), SubAwaits(0, 0), None, [Sub(c)], 1), SubReply(1)),
      (Snap(c, true, 0, Some(1), SubGranted(0), None, [Sub(c)], 1), SubFinish(1)),
      (Snap(c, true, 1, None, Held, None, [Sub(c)], 1), SubLookup(2, c)),
      (Snap(c, true, 1, None, Held, Some(SubWaits(0)), [Sub(c)], 1), UnsubLookup(1)),
      (Snap(c, true, 1, None, UnsubWaits(0), Some(SubWaits(0)), [Sub(c)], 1), UnsubLock(1)),
      (Snap(c, true, 1, Some(1), UnsubLocked(0), Some(SubWaits(0)), [Sub(c)], 1), UnsubDecide(1)),
      (Snap(c, false, 0, None, UnsubSends, Some(SubWaits(0)), [Sub(c)], 1), SubLock(2)),
      (Snap(c, false, 0, Some(2), UnsubSends, Some(SubLocked(0)), [Sub(c)], 1), SubDecide(2)),
      (Snap(c, false, 0, Some(2), UnsubSends, Some(SubAwaits(0, 1)), [Sub(c), Sub(c)], 1), UnsubSend(1)),
      (Snap(c, false, 0, Some(2), UnsubAwaits, Some(SubAwaits(0, 1)), [Sub(c), Sub(c), Unsub(c)], 1), Process),
      (Snap(c, false, 0, Some(2), UnsubAwaits, Some(SubAwaits(0, 1)), [Sub(c), Sub(c), Unsub(c)], 2), SubReply(2)),
      (Snap(c, false, 0, Some(2), UnsubAwaits, Some(SubGranted(0)), [Sub(c), Sub(c), Unsub(c)], 2), SubFinish(2)),
      (Snap(c, false, 1, None, UnsubAwaits, Some(Held), [Sub(c), Sub(c), Unsub(c)], 2), Process)
    ]
  }

  function OvertakingEnd(c: Channel): State {
    Snap(c, false, 1, None, UnsubAwaits, Some(Held), [Sub(c), Sub(c), Unsub(c)], 3)
  }

  ghost predicate Follows(s: State, step: Step, v: State) {
    Enabled(s, step) && v == Do(s, step)
  }

  lemma Overtaking1(c: Channel)
    ensures Follows(INITIAL, SubLookup(1, c),
                    Snap(c, true, 0, None, SubWaits(0), None, [], 0))
    ensures Follows(Snap(c, true, 0, None, SubWaits(0), None, [], 0), SubLock(1),
                    Snap(c, true, 0, Some(1), SubLocked(0), None, [], 0))
    ensures Follows(Snap(c, true, 0, Some(1), SubLocked(0), None, [], 0), SubDecide(1),
                    Snap(c, true, 0, Some(1), SubAwaits(0, 0), None, [Sub(c)], 0))
  {
  }

  lemma Overtaking2(c: Channel)
    ensures Follows(Snap(c, true, 0, Some(1), SubAwaits(0, 0), None, [Sub(c)], 0), Process,
                    Snap(c, true, 0, Some(1), SubAwaits(0, 0), None, [Sub(c)], 1))
    ensures Follows(Snap(c, true, 0, Some(1), SubAwaits(0, 0), None, [Sub(c)], 1), SubReply(1),
                    Snap(c, true, 0, Some(1), SubGranted(0), None, [Sub(c)], 1))
    ensures Follows(Snap(c, true, 0, Some(1), SubGranted(0), None, [Sub(c)], 1), SubFinish(1),
                    Snap(c, true, 1, None, Held, None, [Sub(c)], 1))
  {
  }

  lemma Overtaking3(c: Channel)
    ensures Follows(Snap(c, true, 1, None, Held, None, [Sub(c)], 1), SubLookup(2, c),
                    Snap(c, true, 1, None, Held, Some(SubWaits(0)), [Sub(c)], 1))
    ensures Follows(Snap(c, true, 1, None, Held, Some(SubWaits(0)), [Sub(c)], 1), UnsubLookup(1),
                    Snap(c, true, 1, None, UnsubWaits(0), Some(SubWaits(0)), [Sub(c)], 1))
  {
  }

  lemma Overtaking4(c: Channel)
    ensures Follows(Snap(c, true, 1, None, UnsubWaits(0), Some(SubWaits(0)), [Sub(c)], 1), UnsubLock(1),
                    Snap(c, true, 1, Some(1), UnsubLocked(0), Some(SubWaits(0)), [Sub(c)], 1))
    ensures Follows(Snap(c, true, 1, Some(1), UnsubLocked(0), Some(SubWaits(0)), [Sub(c)], 1), UnsubDecide(1),
                    Snap(c, false, 0, None, UnsubSends, Some(SubWaits(0)), [Sub(c)], 1))
  {
  }

  lemma Overtaking5(c: Channel)
    ensures Follows(Snap(c, false, 0, None, UnsubSends, Some(SubWaits(0)), [Sub(c)], 1), SubLock(2),
                    Snap(c, false, 0, Some(2), UnsubSends, Some(SubLocked(0)), [Sub(c)], 1))
    ensures Follows(Snap(c, false, 0, Some(2), UnsubSends, Some(SubLocked(0)), [Sub(c)], 1), SubDecide(2),
                    Snap(c, false, 0, Some(2), UnsubSends, Some(SubAwaits(0, 1)), [Sub(c), Sub(c)], 1))
    ensures Follows(Snap(c, false, 0, Some(2), UnsubSends, Some(SubAwaits(0, 1)), [Sub(c), Sub(c)], 1), UnsubSend(1),
                    Snap(c, false, 0, Some(2), UnsubAwaits, Some(SubAwaits(0, 1)), [Sub(c), Sub(c), Unsub(c)], 1))
  {
  }

  lemma Overtaking6(c: Channel)
    ensures Follows(Snap(c, false, 0, Some(2), UnsubAwaits, Some(SubAwaits(0, 1)), [Sub(c), Sub(c), Unsub(c)], 1),
                    Process,
                    Snap(c, false, 0, Some(2), UnsubAwaits, Some(SubAwaits(0, 1)), [Sub(c), Sub(c), Unsub(c)], 2))
    ensures Follows(Snap(c, false, 0, Some(2), UnsubAwaits, Some(SubAwaits(0, 1)), [Sub(c), Sub(c), Unsub(c)], 2),
                    SubReply(2),
                    Snap(c, false, 0, Some(2), UnsubAwaits, Some(SubGranted(0)), [Sub(c), Sub(c), Unsub(c)], 2))
    ensures Follows(Snap(c, false, 0, Some(2), UnsubAwaits, Some(SubGranted(0)), [Sub(c), Sub(c), Unsub(c)], 2),
                    SubFinish(2),
                    Snap(c, false, 1, None, UnsubAwaits, Some(Held), [Sub(c), Sub(c), Unsub(c)], 2))
    ensures Follows(Snap(c, false, 1, None, UnsubAwaits, Some(Held), [Sub(c), Sub(c), Unsub(c)], 2), Process,
                    Snap(c, false, 1, None, UnsubAwaits, Some(Held), [Sub(c), Sub(c), Unsub(c)], 3))
  {
  }

  lemma OvertakingFollows(c: Channel, i: nat)
    requires i < 17
    ensures var run := Overtaking(c);
            Follows(run[i].0, run[i].1, if i < 16 then run[i + 1].0 else OvertakingEnd(c))
  {
    hide Follows, Snap;
    if i < 3 {
      Overtaking1(c);
    } else if i < 6 {
      Overtaking2(c);
    } else if i < 8 {
      Overtaking3(c);
    } else if i < 10 {
      Overtaking4(c);
    } else if i < 13 {
      Overtaking5(c);
    } else {
      Overtaking6(c);
    }
  }

  // A run in which an unsubscribe overtakes a subscribe it overlaps with: at its end one consumer holds
  // the channel, yet the table counts none and the exchange has stopped publishing it.
  lemma OverlapBreaksTheCount(c: Channel)
    ensures exists states, steps :: Run(states, steps) && |steps| == 17 &&
              var s := states[17];
              && Holders(s, c) == {2} && CountOf(s, c) == 0
              && s.processed == |s.commands| && !Subscribed(s.commands, c)
  {
    var run := Overtaking(c);
    var states := seq(18, i requires 0 <= i < 18 => if i < 17 then run[i].0 else OvertakingEnd(c));
    var steps := seq(17, i requires 0 <= i < 17 => run[i].1);
    assert Run(states, steps) by {
      hide Do, Enabled, Snap;
      forall i | 0 <= i < 17 ensures Enabled(states[i], steps[i]) && states[i + 1] == Do(states[i], steps[i]) {
        OvertakingFollows(c, i);
      }
    }
    EndIsBroken(c);
  }

  lemma EndIsBroken(c: Channel)
    ensures var s := OvertakingEnd(c);
            && Holders(s, c) == {2} && CountOf(s, c) == 0
            && s.processed == |s.commands| && !Subscribed(s.commands, c)
  {
  }
}
