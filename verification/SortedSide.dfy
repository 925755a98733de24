/** One side of the book as the ordered map the program keeps (`BTreeMap<Price, Quantity>`): a sorted
    array edited in place, together with the map it stands for. */
module SortedSide {
  import opened Prelude
  import opened Levels

  datatype Entry = Entry(price: u64, size: u64)

  ghost predicate Ascending(entries: seq<Entry>) {
    forall i, j :: 0 <= i < j < |entries| ==> entries[i].price < entries[j].price
  }

  ghost predicate Below(entries: seq<Entry>, price: u64) {
    forall i :: 0 <= i < |entries| ==> entries[i].price < price
  }

  ghost predicate Above(entries: seq<Entry>, price: u64) {
    forall i :: 0 <= i < |entries| ==> price < entries[i].price
  }

  // The map that a sorted array stands for.
  ghost function View(entries: seq<Entry>): Side {
    if entries == [] then map[]
    else var last := entries[|entries| - 1]; View(entries[..|entries| - 1])[last.price := last.size]
  }

  lemma {:induction false} ViewKeys(entries: seq<Entry>, p: u64)
    ensures p in View(entries) <==> exists i :: 0 <= i < |entries| && entries[i].price == p
  {
    if entries != [] {
      var n := |entries| - 1;
      ViewKeys(entries[..n], p);
      assert entries[n].price == p ==> exists i :: 0 <= i < |entries| && entries[i].price == p;
      if i :| 0 <= i < |entries[..n]| && entries[..n][i].price == p {
        assert entries[i].price == p;
      }
    }
  }

  lemma {:induction false} ViewAt(entries: seq<Entry>, i: nat)
    requires Ascending(entries) && i < |entries|
    ensures entries[i].price in View(entries) && View(entries)[entries[i].price] == entries[i].size
  {
    var n := |entries| - 1;
    if i < n {
      ViewAt(entries[..n], i);
    }
  }

  lemma {:induction false} ViewConcat(a: seq<Entry>, b: seq<Entry>)
    ensures View(a + b) == View(a) + View(b)
  {
    if b == [] {
      assert a + b == a;
    } else {
      var n := |b| - 1;
      ViewConcat(a, b[..n]);
      assert (a + b)[..|a + b| - 1] == a + b[..n];
    }
  }

  lemma ViewOne(e: Entry)
    ensures View([e]) == map[e.price := e.size]
  {
  }

  // An entry between two stretches of the array is one key of the map, wherever it stands.
  lemma ViewSplice(a: seq<Entry>, e: Entry, b: seq<Entry>)
    requires Below(a, e.price) && Above(b, e.price)
    ensures View(a + [e] + b) == View(a + b)[e.price := e.size]
    ensures View(a + b) == View(a + [e] + b) - {e.price}
  {
    hide View;
    ViewConcat(a + [e], b);
    ViewConcat(a, [e]);
    ViewConcat(a, b);
    ViewKeys(a, e.price);
    ViewKeys(b, e.price);
    ViewOne(e);
    assert e.price !in View(a) && e.price !in View(b);
  }

  lemma Place(entries: seq<Entry>, k: nat, e: Entry)
    requires Ascending(entries) && k <= |entries|
    requires Below(entries[..k], e.price) && Above(entries[k..], e.price)
    ensures Ascending(entries[..k] + [e] + entries[k..])
    ensures View(entries[..k] + [e] + entries[k..]) == View(entries)[e.price := e.size]
  {
    ViewSplice(entries[..k], e, entries[k..]);
    assert entries[..k] + entries[k..] == entries;
    Joined(entries[..k], e, entries[k..]);
  }

  lemma Joined(a: seq<Entry>, e: Entry, b: seq<Entry>)
    requires Ascending(a) && Ascending(b) && Below(a, e.price) && Above(b, e.price)
    ensures Ascending(a + [e] + b)
  {
  }

  lemma Around(entries: seq<Entry>, k: nat)
    requires Ascending(entries) && k < |entries|
    ensures entries == entries[..k] + [entries[k]] + entries[k + 1..]
    ensures Below(entries[..k], entries[k].price) && Above(entries[k + 1..], entries[k].price)
    ensures Ascending(entries[..k]) && Ascending(entries[k + 1..])
  {
  }

  lemma AboveFrom(entries: seq<Entry>, k: nat, price: u64)
    requires Ascending(entries) && k <= |entries|
    requires k < |entries| ==> price < entries[k].price
    ensures Above(entries[k..], price)
  {
  }

  lemma Cut(entries: seq<Entry>, k: nat)
    requires Ascending(entries) && k < |entries|
    ensures Ascending(entries[..k] + entries[k + 1..])
    ensures View(entries[..k] + entries[k + 1..]) == View(entries) - {entries[k].price}
  {
    Around(entries, k);
    ViewSplice(entries[..k], entries[k], entries[k + 1..]);
  }

  lemma Resize(entries: seq<Entry>, k: nat, size: u64)
    requires Ascending(entries) && k < |entries|
    ensures var e := Entry(entries[k].price, size);
            Ascending(entries[k := e]) && View(entries[k := e]) == View(entries)[e.price := size]
  {
    hide View;
    var e := Entry(entries[k].price, size);
    Around(entries, k);
    ViewSplice(entries[..k], entries[k], entries[k + 1..]);
    ViewSplice(entries[..k], e, entries[k + 1..]);
    assert entries[k := e] == entries[..k] + [e] + entries[k + 1..];
  }

  // The in-order walk over a side is determined by the map alone.
  lemma {:induction false} OrderIsDetermined(a: seq<Entry>, b: seq<Entry>)
    requires Ascending(a) && Ascending(b)
    requires View(a) == View(b)
    ensures a == b
  {
    EmptyView(a);
    EmptyView(b);
    if a != [] && b != [] {
      SameDearest(a, b);
      DropDearest(a);
      DropDearest(b);
      OrderIsDetermined(a[..|a| - 1], b[..|b| - 1]);
      assert a == a[..|a| - 1] + [a[|a| - 1]] && b == b[..|b| - 1] + [b[|b| - 1]];
    }
  }

  lemma EmptyView(entries: seq<Entry>)
    ensures View(entries) == map[] <==> entries == []
  {
    if entries != [] {
      assert entries[|entries| - 1].price in View(entries);
    }
  }

  lemma SameDearest(a: seq<Entry>, b: seq<Entry>)
    requires Ascending(a) && Ascending(b) && a != [] && b != []
    requires View(a) == View(b)
    ensures a[|a| - 1] == b[|b| - 1]
  {
    hide View;
    ViewAt(a, |a| - 1);
    ViewAt(b, |b| - 1);
    ViewKeys(b, a[|a| - 1].price);
    ViewKeys(a, b[|b| - 1].price);
  }

  lemma DropDearest(a: seq<Entry>)
    requires Ascending(a) && a != []
    ensures Ascending(a[..|a| - 1]) && View(a[..|a| - 1]) == View(a) - {a[|a| - 1].price}
  {
    hide View;
    Cut(a, |a| - 1);
    assert a[..|a| - 1] + a[|a|..] == a[..|a| - 1];
  }

  lemma Spliced(was: seq<Entry>, now: seq<Entry>, k: nat, e: Entry)
    requires |now| == |was| + 1 && k <= |was| && now[k] == e
    requires forall j :: 0 <= j < k ==> now[j] == was[j]
    requires forall j :: k < j < |now| ==> now[j] == was[j - 1]
    ensures now == was[..k] + [e] + was[k..]
  {
  }

  lemma Closed(was: seq<Entry>, now: seq<Entry>, k: nat)
    requires |now| + 1 == |was| && k < |was|
    requires forall j :: 0 <= j < k ==> now[j] == was[j]
    requires forall j :: k <= j < |now| ==> now[j] == was[j + 1]
    ensures now == was[..k] + was[k + 1..]
  {
  }

  // A price between two neighbouring entries is no key.
  lemma Absent(entries: seq<Entry>, k: nat, price: u64)
    requires k <= |entries| && Below(entries[..k], price) && Above(entries[k..], price)
    ensures View(entries) - {price} == View(entries)
  {
    ViewKeys(entries, price);
    hide View;
    forall i | 0 <= i < |entries| ensures entries[i].price != price {
      assert if i < k then entries[..k][i] == entries[i] else entries[k..][i - k] == entries[i];
    }
  }

  class OrderedLevels {
    var data: array<Entry>
    var len: nat

    ghost predicate Valid()
      reads this, data
    {
      len <= data.Length && Ascending(data[..len])
    }

    ghost function Entries(): (entries: seq<Entry>)
      requires Valid()
      reads this, data
      ensures Ascending(entries) && |entries| == len
    {
      data[..len]
    }

    ghost function Contents(): Side
      requires Valid()
      reads this, data
    {
      View(Entries())
    }

    constructor ()
      ensures Valid() && Contents() == map[] && fresh(data)
    {
      data := new Entry[0];
      len := 0;
    }

    // The first position whose price is not below `price`.
    method LowerBound(price: u64) returns (k: nat)
      requires Valid()
      ensures k <= len
      ensures forall i :: 0 <= i < k ==> data[i].price < price
      ensures forall i :: k <= i < len ==> price <= data[i].price
    {
      k := 0;
      var high := len;
      while k < high
        invariant k <= high <= len
        invariant forall i :: 0 <= i < k ==> data[i].price < price
        invariant forall i :: high <= i < len ==> price <= data[i].price
      {
        var mid := (k + high) / 2;
        assert data[..len][mid] == data[mid];
        assert forall i :: 0 <= i < len ==> data[..len][i] == data[i];
        if data[mid].price < price {
          k := mid + 1;
        } else {
          high := mid;
        }
      }
    }

    // Doubles the array when it is full.
    method Reserve()
      requires len <= data.Length
      modifies this
      ensures len == old(len) < data.Length && data[..len] == old(data[..len])
      ensures data == old(data) || fresh(data)
    {
      if len == data.Length {
        var bigger := new Entry[2 * len + 1](i => Entry(0, 0));
        for i := 0 to len
          modifies bigger
          invariant bigger[..i] == data[..i]
        {
          bigger[i] := data[i];
        }
        data := bigger;
      }
    }

    method Insert(price: u64, size: u64)
      requires Valid()
      modifies this, data
      ensures Valid() && Contents() == old(Contents())[price := size]
      ensures data == old(data) || fresh(data)
    {
      var k := LowerBound(price);
      ghost var was := Entries();
      if k < len && data[k].price == price {
        Resize(was, k, size);
        data[k] := Entry(price, size);
        assert Entries() == was[k := Entry(price, size)];
      } else {
        hide View;
        AboveFrom(was, k, price);
        Place(was, k, Entry(price, size));
        InsertAt(k, Entry(price, size));
      }
    }

    // Opens a gap at position k, growing the array when it is full, and fills it.
    method InsertAt(k: nat, e: Entry)
      requires len <= data.Length && k <= len
      modifies this, data
      ensures len <= data.Length && data[..len] == old(data[..len])[..k] + [e] + old(data[..len])[k..]
      ensures data == old(data) || fresh(data)
    {
      ghost var was := data[..len];
      Reserve();
      assert forall j :: 0 <= j < len ==> data[j] == was[j];
      ShiftUp(k);
      data[k] := e;
      len := len + 1;
      Spliced(was, data[..len], k, e);
    }

    // Moves the entries from position k on one place up.
    method ShiftUp(k: nat)
      requires len < data.Length && k <= len
      modifies data
      ensures forall j :: 0 <= j < k ==> data[j] == old(data[j])
      ensures forall j :: k < j <= len ==> data[j] == old(data[j - 1])
    {
      var i := len;
      while i > k
        invariant k <= i <= len
        invariant forall j :: 0 <= j <= i && j < len ==> data[j] == old(data[j])
        invariant forall j :: i < j <= len ==> data[j] == old(data[j - 1])
      {
        data[i] := data[i - 1];
        i := i - 1;
      }
    }

    method Remove(price: u64)
      requires Valid()
      modifies this, data
      ensures Valid() && Contents() == old(Contents()) - {price}
      ensures data == old(data)
    {
      var k := LowerBound(price);
      ghost var was := Entries();
      hide View, Ascending;
      if k < len && data[k].price == price {
        Cut(was, k);
        ShiftDown(k);
        len := len - 1;
        Closed(was, data[..len], k);
      } else {
        Absent(was, k, price);
      }
    }

    // Moves the entries after position k one place down, over the entry at k.
    method ShiftDown(k: nat)
      requires k < len <= data.Length
      modifies data
      ensures forall j :: 0 <= j < k ==> data[j] == old(data[j])
      ensures forall j :: k <= j < len - 1 ==> data[j] == old(data[j + 1])
    {
      var i := k;
      while i + 1 < len
        invariant k <= i < len
        invariant forall j :: 0 <= j < k || i <= j < len ==> data[j] == old(data[j])
        invariant forall j :: k <= j < i ==> data[j] == old(data[j + 1])
      {
        data[i] := data[i + 1];
        i := i + 1;
      }
    }

    // `apply_level`: insert or overwrite, remove, or ignore an unknown action.
    method Apply(level: BookLevel)
      requires Valid()
      modifies this, data
      ensures Valid() && Contents() == ApplyLevel(old(Contents()), level)
      ensures level.action == "new" || level.action == "change" ==>
                Contents() == old(Contents())[level.price := level.size]
      ensures level.action == "delete" ==> Contents() == old(Contents()) - {level.price}
      ensures level.action != "new" && level.action != "change" && level.action != "delete" ==>
                Contents() == old(Contents())
      ensures data == old(data) || fresh(data)
    {
      if level.action == "new" || level.action == "change" {
        Insert(level.price, level.size);
      } else if level.action == "delete" {
        Remove(level.price);
      }
    }

    lemma FirstIsLeast()
      requires Valid() && len > 0
      ensures Entries()[0].price in Contents() && forall p :: p in Contents() ==> Entries()[0].price <= p
    {
      ViewAt(Entries(), 0);
      forall p | p in Contents() ensures Entries()[0].price <= p {
        ViewKeys(Entries(), p);
      }
    }

    lemma LastIsGreatest()
      requires Valid() && len > 0
      ensures Entries()[len - 1].price in Contents()
      ensures forall p :: p in Contents() ==> p <= Entries()[len - 1].price
    {
      ViewAt(Entries(), len - 1);
      forall p | p in Contents() ensures p <= Entries()[len - 1].price {
        ViewKeys(Entries(), p);
      }
    }

    method ToMap() returns (copy: Side)
      requires Valid()
      ensures copy == Contents()
    {
      copy := map[];
      for i := 0 to len
        invariant copy == View(data[..i])
      {
        copy := copy[data[i].price := data[i].size];
        assert data[..i + 1][..i] == data[..i];
      }
    }

    // The smallest price, if any: the best ask of the ask side.
    method First() returns (r: Option<u64>)
      requires Valid()
      ensures r.None? <==> Contents() == map[]
      ensures r.Some? ==> r.value in Contents() && forall p :: p in Contents() ==> r.value <= p
      ensures r == if len == 0 then None else Some(Entries()[0].price)
    {
      if len == 0 {
        return None;
      }
      FirstIsLeast();
      return Some(data[0].price);
    }

    // The largest price, if any: the best bid of the bid side.
    method Last() returns (r: Option<u64>)
      requires Valid()
      ensures r.None? <==> Contents() == map[]
      ensures r.Some? ==> r.value in Contents() && forall p :: p in Contents() ==> p <= r.value
      ensures r == if len == 0 then None else Some(Entries()[len - 1].price)
    {
      if len == 0 {
        return None;
      }
      LastIsGreatest();
      return Some(data[len - 1].price);
    }
  }
}
