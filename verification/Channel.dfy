/** Channel names (`kind.instrument.interval`): printing, parsing, and when two are the same key. */
module Channel {
  import opened Prelude

  // The printed name, and where its first and second separators stand.
  datatype Channel = Channel(full: string, kindEnd: nat, instrumentEnd: nat) {
    // The offsets stand at separators of `full`, in order, so the parts can be sliced out.
    predicate WellFormed() {
      && kindEnd < instrumentEnd < |full|
      && full[kindEnd] == '.' && full[instrumentEnd] == '.'
    }

    function Kind(): string
      requires WellFormed()
    {
      full[..kindEnd]
    }

    function Instrument(): string
      requires WellFormed()
    {
      full[kindEnd + 1..instrumentEnd]
    }

    function Interval(): string
      requires WellFormed()
    {
      full[instrumentEnd + 1..]
    }

    // Channels are equal, and hash alike, by their printed names alone.
    predicate Same(other: Channel) {
      full == other.full
    }
  }

  function Join(kind: string, instrument: string, interval: string): string {
    kind + "." + instrument + "." + interval
  }

  function New(instrument: string, kind: string, interval: string): (channel: Channel)
    ensures channel.WellFormed()
    ensures channel.Kind() == kind && channel.Instrument() == instrument && channel.Interval() == interval
  {
    var full := Join(kind, instrument, interval);
    assert full[..|kind|] == kind;
    assert full[|kind| + 1..|kind| + 1 + |instrument|] == instrument;
    assert full[|kind| + 1 + |instrument| + 1..] == interval;
    Channel(full, |kind|, |kind| + 1 + |instrument|)
  }

  // `splitn(n, '.')`: at most n parts, the last one holding whatever is left, separators and all.
  function SplitN(s: string, n: nat): seq<string>
    decreases n
  {
    if n == 0 then []
    else if n == 1 || '.' !in s then [s]
    else [Head(s)] + SplitN(Rest(s), n - 1)
  }

  // What stands before the first dot, and after it.
  function Head(s: string): (head: string)
    requires '.' in s
    ensures '.' !in head
  {
    s[..FirstDot(s)]
  }

  function Rest(s: string): string
    requires '.' in s
  {
    s[FirstDot(s) + 1..]
  }

  function FirstDot(s: string): (k: nat)
    requires '.' in s
    ensures k < |s| && s[k] == '.' && '.' !in s[..k]
  {
    if s[0] == '.' then 0
    else
      assert '.' in s[1..];
      var k := 1 + FirstDot(s[1..]);
      assert s[..k] == [s[0]] + s[1..][..k - 1];
      k
  }

  function Parse(s: string): Option<Channel> {
    var parts := SplitN(s, 3);
    if |parts| < 3 then None
    else Some(Channel(s, |parts[0]|, |parts[0]| + 1 + |parts[1]|))
  }

  function Dots(s: string): nat {
    if s == [] then 0 else (if s[0] == '.' then 1 else 0) + Dots(s[1..])
  }

  lemma {:induction false} DotsConcat(a: string, b: string)
    ensures Dots(a + b) == Dots(a) + Dots(b)
  {
    if a == [] {
      assert a + b == b;
    } else {
      DotsConcat(a[1..], b);
      assert (a + b)[1..] == a[1..] + b;
    }
  }

  lemma {:induction false} NoDots(s: string)
    ensures Dots(s) == 0 <==> '.' !in s
  {
    if s != [] {
      NoDots(s[1..]);
      assert s == [s[0]] + s[1..];
    }
  }

  lemma Cut(s: string)
    requires '.' in s
    ensures s == Head(s) + "." + Rest(s)
  {
  }

  lemma DotsAround(s: string)
    requires '.' in s
    ensures Dots(s) == 1 + Dots(Rest(s))
  {
    Cut(s);
    NoDots(Head(s));
    hide Head, Rest, Dots;
    assert Head(s) + "." + Rest(s) == Head(s) + ("." + Rest(s));
    DotsConcat(Head(s), "." + Rest(s));
    DotFirst(Rest(s));
  }

  // Parsing succeeds exactly on names with at least two dots, and then splits at the first two.
  lemma ParseMeaning(s: string)
    ensures Parse(s).Some? <==> Dots(s) >= 2
    ensures Parse(s).Some? ==>
              var c := Parse(s).value;
              && c.full == s && c.WellFormed()
              && '.' !in c.Kind() && '.' !in c.Instrument()
              && Join(c.Kind(), c.Instrument(), c.Interval()) == s
  {
    hide Head, Rest, SplitN, Dots, Join, New;
    NoDots(s);
    PartCount(s);
    if '.' in s {
      DotsAround(s);
      NoDots(Rest(s));
      if '.' in Rest(s) {
        DotsAround(Rest(s));
        ThreeParts(s);
      }
    }
  }

  lemma SplitStep(s: string, n: nat)
    requires n > 1
    ensures SplitN(s, n) == if '.' in s then [Head(s)] + SplitN(Rest(s), n - 1) else [s]
    ensures SplitN(s, 1) == [s]
  {
  }

  lemma PartCount(s: string)
    ensures '.' !in s ==> SplitN(s, 3) == [s]
    ensures '.' in s ==>
              SplitN(s, 3) ==
              if '.' !in Rest(s) then [Head(s), Rest(s)] else [Head(s), Head(Rest(s)), Rest(Rest(s))]
  {
    hide Head, Rest, SplitN;
    SplitStep(s, 3);
    if '.' in s {
      SplitStep(Rest(s), 2);
      if '.' in Rest(s) {
        SplitStep(Rest(Rest(s)), 2);
      }
    }
  }

  lemma JoinNests(kind: string, instrument: string, interval: string)
    ensures Join(kind, instrument, interval) == kind + "." + (instrument + "." + interval)
  {
  }

  // The parsed channel is the printed one of its three parts.
  lemma ThreeParts(s: string)
    requires '.' in s && '.' in Rest(s)
    ensures Parse(s) == Some(New(Head(Rest(s)), Head(s), Rest(Rest(s))))
    ensures Join(Head(s), Head(Rest(s)), Rest(Rest(s))) == s
  {
    hide Head, Rest, SplitN, Join, Parse, New;
    assert Join(Head(s), Head(Rest(s)), Rest(Rest(s))) == s by {
      Cut(s);
      Cut(Rest(s));
      JoinNests(Head(s), Head(Rest(s)), Rest(Rest(s)));
    }
    PartCount(s);
    Assembled(s, Head(s), Head(Rest(s)), Rest(Rest(s)));
  }

  lemma Assembled(s: string, kind: string, instrument: string, interval: string)
    requires Join(kind, instrument, interval) == s && SplitN(s, 3) == [kind, instrument, interval]
    ensures Parse(s) == Some(New(instrument, kind, interval))
  {
    hide SplitN;
  }

  // Splitting a name at its first two dots can be done in one way only.
  lemma SplitIsUnique(k1: string, i1: string, t1: string, k2: string, i2: string, t2: string)
    requires '.' !in k1 && '.' !in i1 && '.' !in k2 && '.' !in i2
    requires Join(k1, i1, t1) == Join(k2, i2, t2)
    ensures k1 == k2 && i1 == i2 && t1 == t2
  {
    HeadIsUnique(k1, i1 + "." + t1, k2, i2 + "." + t2) by {
      assert Join(k1, i1, t1) == k1 + "." + (i1 + "." + t1);
      assert Join(k2, i2, t2) == k2 + "." + (i2 + "." + t2);
    }
    HeadIsUnique(i1, t1, i2, t2);
  }

  lemma HeadIsUnique(a: string, s: string, b: string, t: string)
    requires '.' !in a && '.' !in b && a + "." + s == b + "." + t
    ensures a == b && s == t
  {
    FirstDotIs(a, s);
    FirstDotIs(b, t);
    var whole := a + "." + s;
    assert whole[..|a|] == a && whole[..|b|] == b;
    assert whole[|a| + 1..] == s && whole[|b| + 1..] == t;
  }

  lemma {:induction false} FirstDotIs(a: string, s: string)
    requires '.' !in a
    ensures '.' in a + "." + s && FirstDot(a + "." + s) == |a|
  {
    var whole := a + "." + s;
    assert whole[|a|] == '.';
    if a != "" {
      FirstDotIs(a[1..], s);
      assert whole[0] == a[0] && whole[1..] == a[1..] + "." + s;
    }
  }

  // A printed channel always parses, and gives back its parts exactly when neither the kind nor the
  // instrument holds a dot; the interval may hold anything.
  lemma ParseUndoesNew(instrument: string, kind: string, interval: string)
    ensures var parsed := Parse(New(instrument, kind, interval).full);
            && parsed.Some? && parsed.value.WellFormed()
            && parsed.value.Same(New(instrument, kind, interval))
            && (parsed.value == New(instrument, kind, interval) <==> '.' !in kind && '.' !in instrument)
            && (&& parsed.value.Kind() == kind && parsed.value.Instrument() == instrument
                && parsed.value.Interval() == interval
                <==> '.' !in kind && '.' !in instrument)
  {
    var full := Join(kind, instrument, interval);
    PrintedDots(instrument, kind, interval);
    ParseMeaning(full);
    hide Dots, Parse, Join;
    var c := Parse(full).value;
    if '.' !in kind && '.' !in instrument {
      SplitIsUnique(c.Kind(), c.Instrument(), c.Interval(), kind, instrument, interval);
    }
  }

  lemma PrintedDots(instrument: string, kind: string, interval: string)
    ensures Dots(Join(kind, instrument, interval)) == Dots(kind) + Dots(instrument) + Dots(interval) + 2
  {
    hide Dots, Join;
    JoinNests(kind, instrument, interval);
    DotsConcat(kind, "." + (instrument + "." + interval));
    DotFirst(instrument + "." + interval);
    assert instrument + "." + interval == instrument + ("." + interval);
    DotsConcat(instrument, "." + interval);
    DotFirst(interval);
    assert kind + "." + (instrument + "." + interval) == kind + ("." + (instrument + "." + interval));
  }

  lemma DotFirst(s: string)
    ensures Dots("." + s) == 1 + Dots(s)
  {
  }

  // Dot-free channels are one key exactly when all their parts agree.
  lemma SameOnlyIfPartsAgree(i1: string, k1: string, t1: string, i2: string, k2: string, t2: string)
    requires '.' !in k1 && '.' !in i1 && '.' !in k2 && '.' !in i2
    ensures New(i1, k1, t1).Same(New(i2, k2, t2)) <==> i1 == i2 && k1 == k2 && t1 == t2
  {
    if New(i1, k1, t1).Same(New(i2, k2, t2)) {
      SplitIsUnique(k1, i1, t1, k2, i2, t2);
    }
  }

  // Every dotted instrument shares a key of the subscription table with a shorter one.
  lemma DottedInstrumentsCanCollide(a: string, b: string, kind: string, interval: string)
    ensures New(a + "." + b, kind, interval).Same(New(a, kind, b + "." + interval))
    ensures New(a + "." + b, kind, interval).Instrument() != New(a, kind, b + "." + interval).Instrument()
  {
    JoinNests(kind, a + "." + b, interval);
    JoinNests(kind, a, b + "." + interval);
    JoinNests(a, b, interval);
    assert |a + "." + b| != |a|;
  }

  lemma DottedKindsCollide(a: string, b: string, instrument: string, interval: string)
    ensures New(instrument, a + "." + b, interval).Same(New(b + "." + instrument, a, interval))
  {
    JoinNests(a, b, instrument);
  }

  // Other parts with the same printed name.
  ghost predicate HasTwin(instrument: string, kind: string, interval: string) {
    exists i: string, k: string, t: string ::
      New(i, k, t).Same(New(instrument, kind, interval)) && (i != instrument || k != kind || t != interval)
  }

  // A channel shares its key with another one exactly if some part of it holds a dot.
  lemma HasTwinIffDotted(instrument: string, kind: string, interval: string)
    ensures HasTwin(instrument, kind, interval) <==> '.' in kind || '.' in instrument || '.' in interval
  {
    hide Head, Rest, Join;
    if '.' in instrument {
      var a, b := Head(instrument), Rest(instrument);
      Cut(instrument);
      DottedInstrumentsCanCollide(a, b, kind, interval);
    } else if '.' in interval {
      var a, b := Head(interval), Rest(interval);
      Cut(interval);
      DottedInstrumentsCanCollide(instrument, a, kind, b);
    } else if '.' in kind {
      var a, b := Head(kind), Rest(kind);
      Cut(kind);
      DottedKindsCollide(a, b, instrument, interval);
    } else if HasTwin(instrument, kind, interval) {
      var i: string, k: string, t: string :|
        New(i, k, t).Same(New(instrument, kind, interval)) && (i != instrument || k != kind || t != interval);
      TwoDotsSplitOneWay(i, k, t, instrument, kind, interval);
    }
  }

  lemma TwoDotsSplitOneWay(i1: string, k1: string, t1: string, i2: string, k2: string, t2: string)
    requires Join(k1, i1, t1) == Join(k2, i2, t2) && '.' !in k2 && '.' !in i2 && '.' !in t2
    ensures i1 == i2 && k1 == k2 && t1 == t2
  {
    PrintedDots(i1, k1, t1);
    PrintedDots(i2, k2, t2);
    NoDots(k1);
    NoDots(i1);
    NoDots(k2);
    NoDots(i2);
    NoDots(t2);
    hide Dots, Join;
    SplitIsUnique(k1, i1, t1, k2, i2, t2);
  }

  // What the dispatch loop looks at to route a push: everything before the first dot.
  function FirstPart(s: string): string {
    if '.' in s then Head(s) else s
  }

  lemma PushesAreRoutedByKind(instrument: string, kind: string, interval: string)
    requires '.' !in kind
    ensures FirstPart(New(instrument, kind, interval).full) == kind
  {
  }
}
