/** The device-list snapshot that decides whether the tracker's callback runs a pass. */
module Snapshot {
  import opened AdbDevices

  // ── Strings in dictionary order ──

  predicate Le(a: string, b: string)
  {
    a == [] || (b != [] && (a[0] < b[0] || (a[0] == b[0] && Le(a[1..], b[1..]))))
  }

  lemma {:induction false} LeTotal(a: string, b: string)
    ensures Le(a, b) || Le(b, a)
    ensures Le(a, b) && Le(b, a) ==> a == b
  {
    if a != [] && b != [] && a[0] == b[0] {
      LeTotal(a[1..], b[1..]);
      assert a == [a[0]] + a[1..] && b == [b[0]] + b[1..];
    }
  }

  lemma {:induction false} LeTrans(a: string, b: string, c: string)
    requires Le(a, b) && Le(b, c)
    ensures Le(a, c)
  {
    if a != [] && a[0] == b[0] && b[0] == c[0] {
      LeTrans(a[1..], b[1..], c[1..]);
    }
  }

  // ── Sorting ──

  predicate IsSorted(s: seq<string>)
  {
    forall i, j :: 0 <= i < j < |s| ==> Le(s[i], s[j])
  }

  function InsertSorted(x: string, s: seq<string>): (r: seq<string>)
    ensures multiset(r) == multiset(s) + multiset{x}
  {
    if s == [] || Le(x, s[0]) then [x] + s
    else
      assert s == [s[0]] + s[1..];
      [s[0]] + InsertSorted(x, s[1..])
  }

  lemma {:induction false} InsertKeepsSorted(x: string, s: seq<string>)
    requires IsSorted(s)
    ensures IsSorted(InsertSorted(x, s))
  {
    if s != [] && Le(x, s[0]) {
      forall j | 0 <= j < |s| ensures Le(x, s[j]) { if j > 0 { LeTrans(x, s[0], s[j]); } }
    } else if s != [] {
      InsertKeepsSorted(x, s[1..]);
      LeTotal(x, s[0]);
      var rest := InsertSorted(x, s[1..]);
      forall j | 0 <= j < |rest| ensures Le(s[0], rest[j]) {
        assert rest[j] in multiset(rest);
        assert rest[j] == x || rest[j] in multiset(s[1..]);
      }
    }
  }

  function Sort(s: seq<string>): (r: seq<string>)
    ensures multiset(r) == multiset(s)
  {
    if s == [] then [] else
      assert s == [s[0]] + s[1..];
      InsertSorted(s[0], Sort(s[1..]))
  }

  lemma {:induction false} SortSorts(s: seq<string>)
    ensures IsSorted(Sort(s))
  {
    if s != [] {
      SortSorts(s[1..]);
      InsertKeepsSorted(s[0], Sort(s[1..]));
    }
  }

  /** A sorted sequence is determined by its multiset. */
  lemma {:induction false} SortedUnique(a: seq<string>, b: seq<string>)
    requires IsSorted(a) && IsSorted(b) && multiset(a) == multiset(b)
    ensures a == b
  {
    if a == [] {
      assert |multiset(b)| == 0;
    } else {
      assert |multiset(b)| == |multiset(a)| != 0;
      assert a[0] in multiset(b) && b[0] in multiset(a);
      var i :| 0 <= i < |b| && b[i] == a[0];
      var j :| 0 <= j < |a| && a[j] == b[0];
      LeTotal(a[0], b[0]);
      LeTotal(a[0], a[0]);
      assert a == [a[0]] + a[1..] && b == [b[0]] + b[1..];
      assert multiset(a[1..]) == multiset(a) - multiset{a[0]};
      SortedUnique(a[1..], b[1..]);
    }
  }

  // ── Joining ──

  function Join(parts: seq<string>): string
  {
    if parts == [] then "" else if |parts| == 1 then parts[0] else parts[0] + "," + Join(parts[1..])
  }

  predicate Free(s: string, c: char)
  {
    forall i :: 0 <= i < |s| ==> s[i] != c
  }

  /** What precedes the first `c`, or the end, is determined. */
  lemma HeadUnique(x: string, s: string, y: string, t: string, c: char)
    requires Free(x, c) && Free(y, c) && x + s == y + t
    requires s == "" || s[0] == c
    requires t == "" || t[0] == c
    ensures x == y && s == t
  {
    var u := x + s;
    assert u == y + t;
    assert forall i :: 0 <= i < |x| ==> u[i] == x[i] != c;
    assert forall i :: 0 <= i < |y| ==> u[i] == y[i] != c;
    assert (s != "" ==> u[|x|] == c) && (t != "" ==> u[|y|] == c);
    assert |x| == |y|;
    assert x == u[..|x|] && y == u[..|y|] && s == u[|x|..] && t == u[|y|..];
  }

  function Rest(parts: seq<string>): string
    requires parts != []
  {
    if |parts| == 1 then "" else "," + Join(parts[1..])
  }

  lemma HeadsAgree(a: seq<string>, b: seq<string>)
    requires a != [] && b != [] && Free(a[0], ',') && Free(b[0], ',') && Join(a) == Join(b)
    ensures a[0] == b[0] && Rest(a) == Rest(b)
  {
    assert Join(a) == a[0] + Rest(a) && Join(b) == b[0] + Rest(b);
    HeadUnique(a[0], Rest(a), b[0], Rest(b), ',');
  }

  lemma {:induction false} JoinInjective(a: seq<string>, b: seq<string>)
    requires forall i :: 0 <= i < |a| ==> a[i] != "" && Free(a[i], ',')
    requires forall i :: 0 <= i < |b| ==> b[i] != "" && Free(b[i], ',')
    requires Join(a) == Join(b)
    ensures a == b
  {
    if a != [] && b != [] {
      HeadsAgree(a, b);
      assert a == [a[0]] + a[1..] && b == [b[0]] + b[1..];
      if |a| > 1 && |b| > 1 {
        assert Join(a[1..]) == Rest(a)[1..] && Join(b[1..]) == Rest(b)[1..];
        JoinInjective(a[1..], b[1..]);
      }
    }
  }

  // ── The snapshot ──

  function Part(d: Device): string
  {
    d.serial + "=" + d.state
  }

  function Parts(ds: seq<Device>): seq<string>
  {
    seq(|ds|, i requires 0 <= i < |ds| => Part(ds[i]))
  }

  function Canon(ds: seq<Device>): string
  {
    Join(Sort(Parts(ds)))
  }

  /** No separator character in the serial or the state. */
  predicate PlainDevice(d: Device)
  {
    Free(d.serial, ',') && Free(d.serial, '=') && Free(d.state, ',') && Free(d.state, '=')
  }

  predicate PlainList(ds: seq<Device>)
  {
    forall i :: 0 <= i < |ds| ==> PlainDevice(ds[i])
  }

  lemma PartInjective(d: Device, e: Device)
    requires PlainDevice(d) && PlainDevice(e) && Part(d) == Part(e)
    ensures d == e
  {
    assert Part(d) == d.serial + ("=" + d.state) && Part(e) == e.serial + ("=" + e.state);
    HeadUnique(d.serial, "=" + d.state, e.serial, "=" + e.state, '=');
    assert d.state == ("=" + d.state)[1..] && e.state == ("=" + e.state)[1..];
  }

  /** Equal parts come from equal lists, up to order. */
  lemma PartsDetermine(a: seq<Device>, b: seq<Device>)
    requires PlainList(a) && PlainList(b)
    ensures multiset(Parts(a)) == multiset(Parts(b)) <==> multiset(a) == multiset(b)
  {
    if multiset(Parts(a)) == multiset(Parts(b)) {
      forall d ensures multiset(a)[d] == multiset(b)[d] { SameDevice(a, b, d); }
    }
    if multiset(a) == multiset(b) {
      forall p ensures multiset(Parts(a))[p] == multiset(Parts(b))[p] { SamePart(a, b, p); }
    }
  }

  lemma SameDevice(a: seq<Device>, b: seq<Device>, d: Device)
    requires PlainList(a) && PlainList(b) && multiset(Parts(a)) == multiset(Parts(b))
    ensures multiset(a)[d] == multiset(b)[d]
  {
    if PlainDevice(d) {
      PartsCount(a, d);
      PartsCount(b, d);
    } else {
      assert d !in a && d !in b;
    }
  }

  lemma SamePart(a: seq<Device>, b: seq<Device>, p: string)
    requires PlainList(a) && PlainList(b) && multiset(a) == multiset(b)
    ensures multiset(Parts(a))[p] == multiset(Parts(b))[p]
  {
    if d :| PlainDevice(d) && Part(d) == p {
      PartsCount(a, d);
      PartsCount(b, d);
    } else {
      forall i | 0 <= i < |a| ensures Parts(a)[i] != p { assert PlainDevice(a[i]); }
      forall i | 0 <= i < |b| ensures Parts(b)[i] != p { assert PlainDevice(b[i]); }
    }
  }

  lemma {:induction false} PartsCount(a: seq<Device>, d: Device)
    requires PlainList(a) && PlainDevice(d)
    ensures multiset(Parts(a))[Part(d)] == multiset(a)[d]
  {
    if a != [] {
      assert a == [a[0]] + a[1..] && Parts(a) == [Part(a[0])] + Parts(a[1..]);
      PartsCount(a[1..], d);
      if Part(a[0]) == Part(d) { PartInjective(a[0], d); }
    }
  }

  /** The snapshot is a canonical form of the multiset of devices. */
  lemma Canonical(a: seq<Device>, b: seq<Device>)
    requires PlainList(a) && PlainList(b)
    ensures Canon(a) == Canon(b) <==> multiset(a) == multiset(b)
  {
    var p, q := Sort(Parts(a)), Sort(Parts(b));
    SortSorts(Parts(a));
    SortSorts(Parts(b));
    PartsDetermine(a, b);
    if Canon(a) == Canon(b) {
      SortedParts(a);
      SortedParts(b);
      JoinInjective(p, q);
    }
    if multiset(a) == multiset(b) {
      SortedUnique(p, q);
    }
  }

  lemma SortedParts(a: seq<Device>)
    requires PlainList(a)
    ensures forall i :: 0 <= i < |Sort(Parts(a))| ==> Sort(Parts(a))[i] != "" && Free(Sort(Parts(a))[i], ',')
  {
    var p := Sort(Parts(a));
    forall i | 0 <= i < |p| ensures p[i] != "" && Free(p[i], ',') {
      assert p[i] in multiset(Parts(a));
      var j :| 0 <= j < |a| && Parts(a)[j] == p[i];
      assert p[i] == Part(a[j]) && PlainDevice(a[j]);
    }
  }

  /** Only the empty list has the empty snapshot. */
  lemma CanonEmpty(ds: seq<Device>)
    ensures Canon(ds) == "" <==> ds == []
  {
    if ds != [] {
      var p := Sort(Parts(ds));
      SortSorts(Parts(ds));
      assert |multiset(p)| == |multiset(Parts(ds))|;
      assert p[0] in multiset(Parts(ds));
      var j :| 0 <= j < |ds| && Parts(ds)[j] == p[0];
      assert p[0] == Part(ds[j]);
    }
  }

  lemma JoinOne(d: Device)
    ensures Canon([d]) == Part(d)
  {
    assert Parts([d])[1..] == [];
    assert Sort(Parts([d])) == [Part(d)];
  }

  lemma JoinTwo(d: Device, e: Device)
    requires Le(Part(d), Part(e))
    ensures Canon([d, e]) == Part(d) + "," + Part(e)
  {
    var p := Parts([d, e]);
    assert p[1..] == [Part(e)] && [Part(e)][1..] == [];
    assert Sort([Part(e)]) == [Part(e)];
    var q := [Part(d), Part(e)];
    assert p[0] == Part(d) && Sort(p) == InsertSorted(p[0], Sort(p[1..])) == q;
    assert q[1..] == [Part(e)] && Join(q[1..]) == Part(e);
  }

  /** With separators in a serial or state the form is not canonical. */
  lemma SeparatorsCollide()
    ensures var a, b := [Device("a", "x,b=y")], [Device("a", "x"), Device("b", "y")];
            Canon(a) == Canon(b) && multiset(a) != multiset(b)
  {
    var d, e, f := Device("a", "x,b=y"), Device("a", "x"), Device("b", "y");
    JoinOne(d);
    assert Part(e)[0] < Part(f)[0];
    JoinTwo(e, f);
    assert Part(d) == Part(e) + "," + Part(f);
    var one, two := [d], [e, f];
    assert |multiset(one)| == 1 && |multiset(two)| == 2;
  }

  /** `sort.Strings`. */
  method SortStrings(parts: array<string>)
    modifies parts
    ensures parts[..] == Sort(old(parts[..]))
  {
    var s := Sort(parts[..]);
    assert |multiset(s)| == |multiset(parts[..])|;
    forall i | 0 <= i < parts.Length {
      parts[i] := s[i];
    }
    assert parts[..] == s;
  }

  /** `deviceSnapshot`. */
  method DeviceSnapshot(devices: seq<Device>) returns (key: string)
    ensures key == Canon(devices)
  {
    var parts := new string[|devices|];
    for i := 0 to |devices|
      invariant forall k :: 0 <= k < i ==> parts[k] == Part(devices[k])
    {
      parts[i] := devices[i].serial + "=" + devices[i].state;
    }
    assert parts[..] == Parts(devices);
    SortStrings(parts);
    key := Join(parts[..]);
  }

  // ── The tracker ──

  /** The closures around `prevSnapshot`. */
  class Tracker {
    var prevSnapshot: string
    var passes: seq<seq<Device>>       // history: lists handed to a pass
    ghost var last: seq<Device>        // the list last accepted; empty since a reconnect

    ghost predicate Valid()
      reads this
    {
      prevSnapshot == Canon(last)
    }

    constructor ()
      ensures Valid() && last == [] && passes == []
    {
      prevSnapshot, passes, last := "", [], [];
    }

    /** The change callback: without separators in the names it skips exactly when the
        devices are those of the last accepted list, a reconnect counting as the empty list. */
    method OnChange(devices: seq<Device>)
      requires Valid()
      modifies this
      ensures Valid()
      ensures (passes == old(passes) && last == old(last)) || (passes == old(passes) + [devices] && last == devices)
      ensures passes == old(passes) <==> Canon(devices) == Canon(old(last))
      ensures PlainList(devices) && PlainList(old(last)) ==>
                (passes == old(passes) <==> multiset(devices) == multiset(old(last)))
    {
      var key := DeviceSnapshot(devices);
      if PlainList(devices) && PlainList(last) { Canonical(devices, last); }
      if key == prevSnapshot {
        return;
      }
      prevSnapshot, passes, last := key, passes + [devices], devices;
    }

    /** The reconnect callback: the next list is then skipped exactly if it is empty. */
    method OnReconnect()
      requires Valid()
      modifies this
      ensures Valid() && last == [] && passes == old(passes)
      ensures forall ds :: Canon(ds) == prevSnapshot <==> ds == []
    {
      forall ds ensures Canon(ds) == "" <==> ds == [] { CanonEmpty(ds); }
      prevSnapshot, last := "", [];
    }

    method FollowOne(update: Update, ghost rest: seq<Update>)
      requires Valid() && PlainList(last) && (update.Changed? ==> PlainList(update.devices))
      modifies this
      ensures Valid() && PlainList(last) && passes + Accepted(last, rest) == old(passes) + Next(old(last), update, rest)
    {
      ghost var passes0 := passes;
      match update {
        case Reconnected => OnReconnect();
        case Changed(devices) =>
          OnChange(devices);
          Grouped(passes0, devices, Accepted(devices, rest));
      }
    }

    /** Any sequence of callbacks: the passes are exactly the ones that a deduplication by
        content lets through. */
    method Follow(updates: seq<Update>)
      requires Valid() && PlainList(last) && forall i :: 0 <= i < |updates| && updates[i].Changed? ==>
                PlainList(updates[i].devices)
      modifies this
      ensures Valid() && passes == old(passes) + Accepted(old(last), updates)
    {
      for i := 0 to |updates|
        invariant Valid() && PlainList(last)
        invariant old(passes) + Accepted(old(last), updates) == passes + Accepted(last, updates[i..])
      {
        assert updates[i..][0] == updates[i] && updates[i..][1..] == updates[i + 1..];
        FollowOne(updates[i], updates[i + 1..]);
      }
    }
  }

  lemma Grouped<T>(a: seq<T>, x: T, b: seq<T>)
    ensures (a + [x]) + b == a + ([x] + b)
  {}

  datatype Update = Reconnected | Changed(devices: seq<Device>)

  /** The lists that a deduplication by content lets through. */
  function Accepted(last: seq<Device>, updates: seq<Update>): seq<seq<Device>>
    decreases |updates|, 0
  {
    if updates == [] then [] else Next(last, updates[0], updates[1..])
  }

  function Next(last: seq<Device>, update: Update, rest: seq<Update>): seq<seq<Device>>
    decreases |rest|, 1
  {
    match update
    case Reconnected => Accepted([], rest)
    case Changed(devices) =>
      if multiset(devices) == multiset(last) then Accepted(last, rest)
      else [devices] + Accepted(devices, rest)
  }

  /** Consequently an empty list right after a reconnect is dropped, whatever came before. */
  lemma EmptyAfterReconnect(last: seq<Device>, updates: seq<Update>)
    ensures Accepted(last, [Reconnected, Changed([])] + updates) == Accepted([], updates)
  {
    var all := [Reconnected, Changed([])] + updates;
    assert all[1..][1..] == updates && all[1..][0] == Changed([]);
    assert Accepted(last, all) == Accepted([], all[1..]) == Next([], Changed([]), updates);
  }
}
