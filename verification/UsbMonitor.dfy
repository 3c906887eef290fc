/** The USB monitor: snapshots of the USB tree become an append-only event log. Replaying the
    log rebuilds the last snapshot, path by path, unless an insert was lost. */
module UsbMonitor {
  import opened Options

  type Path = string

  datatype Usb = Usb(path: Path, vid: string, pid: string, serial: string, inAdb: bool)

  /** What the log can tell about a device. */
  datatype Mode = Mode(vid: string, pid: string, inAdb: bool)

  datatype Kind = Appeared | ModeChange | Disappeared

  datatype Event = Event(kind: Kind, path: Path, serial: string, mode: Mode)

  datatype Call = Call(serial: string, path: Path, vid: string, pid: string)

  function ModeOf(d: Usb): Mode
  {
    Mode(d.vid, d.pid, d.inAdb)
  }

  function Proj(m: map<Path, Usb>): map<Path, Mode>
  {
    map p | p in m :: ModeOf(m[p])
  }

  function At(m: map<Path, Mode>, p: Path): Option<Mode>
  {
    if p in m then Some(m[p]) else None
  }

  // ── Replaying a log ──

  function Apply(m: map<Path, Mode>, e: Event): map<Path, Mode>
  {
    if e.kind == Disappeared then m - {e.path} else m[e.path := e.mode]
  }

  function Replay(log: seq<Event>): map<Path, Mode>
  {
    if log == [] then map[] else Apply(Replay(log[..|log| - 1]), log[|log| - 1])
  }

  lemma ReplayStep(log: seq<Event>, e: Event)
    ensures Replay(log + [e]) == Apply(Replay(log), e)
  {
    assert (log + [e])[..|log|] == log;
  }

  lemma SameReplay(a: map<Path, Mode>, b: map<Path, Mode>)
    requires forall p :: At(a, p) == At(b, p)
    ensures a == b
  {
    forall p ensures p in a <==> p in b { assert At(a, p) == At(b, p); }
    forall p | p in a ensures a[p] == b[p] { assert At(a, p) == At(b, p); }
  }

  // ── The life of one path ──

  /** A prefix of (appeared mode_change* disappeared)*, read outside and inside a life. */
  predicate Outside(ks: seq<Kind>)
  {
    ks == [] || (ks[0] == Appeared && Inside(ks[1..]))
  }

  predicate Inside(ks: seq<Kind>)
  {
    ks == [] || (ks[0] == ModeChange && Inside(ks[1..])) || (ks[0] == Disappeared && Outside(ks[1..]))
  }

  function Kinds(log: seq<Event>, p: Path): seq<Kind>
  {
    if log == [] then []
    else Kinds(log[..|log| - 1], p) + (if log[|log| - 1].path == p then [log[|log| - 1].kind] else [])
  }

  /** Where a path is after these events: alive or not. */
  predicate Alive(ks: seq<Kind>)
  {
    ks != [] && ks[|ks| - 1] != Disappeared
  }

  lemma {:induction false} LifeExtends(ks: seq<Kind>, k: Kind, inside: bool)
    requires if inside then Inside(ks) else Outside(ks)
    requires (k == Appeared) != (if ks == [] then inside else Alive(ks))
    ensures if inside then Inside(ks + [k]) else Outside(ks + [k])
  {
    if ks == [] {
      assert (ks + [k])[1..] == [];
    } else {
      assert (ks + [k])[1..] == ks[1..] + [k];
      LifeExtends(ks[1..], k, ks[0] != Disappeared);
    }
  }

  /** Every path's events read appeared mode_change* disappeared, over and over, and the path
      is in the replayed map exactly while it is alive. */
  ghost predicate LivesOk(log: seq<Event>)
  {
    forall p :: LifeOk(log, p)
  }

  predicate LifeOk(log: seq<Event>, p: Path)
  {
    Outside(Kinds(log, p)) && (Alive(Kinds(log, p)) <==> p in Replay(log))
  }

  /** An event that fits the state it finds, and changes it. */
  predicate Fitting(m: map<Path, Mode>, e: Event)
  {
    match e.kind
    case Appeared => e.path !in m
    case ModeChange => e.path in m && m[e.path] != e.mode
    case Disappeared => e.path in m
  }

  lemma LivesStep(log: seq<Event>, e: Event)
    requires LivesOk(log) && Fitting(Replay(log), e)
    ensures LivesOk(log + [e])
  {
    ReplayStep(log, e);
    assert (log + [e])[..|log|] == log;
    forall p ensures LifeOk(log + [e], p) {
      assert LifeOk(log, p);
      if p == e.path {
        LifeExtends(Kinds(log, p), e.kind, false);
      } else {
        assert Kinds(log + [e], p) == Kinds(log, p);
      }
    }
  }

  // ── Snapshots ──

  /** A device with a serial is in ADB exactly when ADB lists the serial. */
  function Marked(d: Usb, adb: set<string>): Usb
  {
    if d.serial != "" then d.(inAdb := d.serial in adb) else d
  }

  /** By path, the last device listed there. */
  function ByPath(ds: seq<Usb>): map<Path, Usb>
  {
    if ds == [] then map[] else ByPath(ds[..|ds| - 1])[ds[|ds| - 1].path := ds[|ds| - 1]]
  }

  function Snapshot(ds: seq<Usb>, adb: set<string>): map<Path, Usb>
  {
    ByPath(seq(|ds|, i requires 0 <= i < |ds| => Marked(ds[i], adb)))
  }

  predicate LastAt(ds: seq<Usb>, i: int, p: Path)
  {
    0 <= i < |ds| && ds[i].path == p && forall j :: i < j < |ds| ==> ds[j].path != p
  }

  lemma {:induction false} ByPathIsLast(ds: seq<Usb>, p: Path)
    ensures p !in ByPath(ds) ==> forall i :: 0 <= i < |ds| ==> ds[i].path != p
    ensures p in ByPath(ds) ==> exists i :: LastAt(ds, i, p) && ds[i] == ByPath(ds)[p]
  {
    if ds != [] {
      var front, last := ds[..|ds| - 1], |ds| - 1;
      ByPathIsLast(front, p);
      if ds[last].path == p {
        assert LastAt(ds, last, p);
      } else if p in ByPath(front) {
        var i :| LastAt(front, i, p) && front[i] == ByPath(front)[p];
        assert LastAt(ds, i, p);
      }
    }
  }

  /** What a snapshot shows, in terms of the list and of ADB's serials: exactly the paths listed,
      each with the data of the last device listed there, and the ADB flag from ADB's list if
      the device has a serial. */
  ghost predicate Shows(m: map<Path, Usb>, ds: seq<Usb>, adb: set<string>)
  {
    && (forall p :: p in m <==> exists i :: 0 <= i < |ds| && ds[i].path == p)
    && forall i :: 0 <= i < |ds| && LastAt(ds, i, ds[i].path) ==>
         && m[ds[i].path].path == ds[i].path && m[ds[i].path].serial == ds[i].serial
         && m[ds[i].path].vid == ds[i].vid && m[ds[i].path].pid == ds[i].pid
         && (ds[i].serial != "" ==> (m[ds[i].path].inAdb <==> ds[i].serial in adb))
         && (ds[i].serial == "" ==> m[ds[i].path].inAdb == ds[i].inAdb)
  }

  lemma SnapshotShows(ds: seq<Usb>, adb: set<string>)
    ensures Shows(Snapshot(ds, adb), ds, adb)
  {
    var marked := seq(|ds|, i requires 0 <= i < |ds| => Marked(ds[i], adb));
    forall p ensures p in Snapshot(ds, adb) <==> exists i :: 0 <= i < |ds| && ds[i].path == p {
      ByPathIsLast(marked, p);
      if p in ByPath(marked) {
        var i :| LastAt(marked, i, p) && marked[i] == ByPath(marked)[p];
        assert ds[i].path == p;
      }
      if i :| 0 <= i < |ds| && ds[i].path == p { assert marked[i].path == p; }
    }
    forall i | 0 <= i < |ds| && LastAt(ds, i, ds[i].path)
      ensures Snapshot(ds, adb)[ds[i].path] == Marked(ds[i], adb)
    {
      var p := ds[i].path;
      ByPathIsLast(marked, p);
      assert marked[i].path == p;
      var k :| LastAt(marked, k, p) && marked[k] == ByPath(marked)[p];
      assert ds[k].path == p && k == i;
    }
  }

  predicate ChangedIds(prev: map<Path, Usb>, cur: map<Path, Usb>, p: Path)
  {
    p in prev && p in cur && (prev[p].vid != cur[p].vid || prev[p].pid != cur[p].pid)
  }

  function CallFor(d: Usb): Call
  {
    Call(d.serial, d.path, d.vid, d.pid)
  }

  predicate Keyed(m: map<Path, Usb>)
  {
    forall p :: p in m ==> m[p].path == p
  }

  /** What is due for one path: at most one event, none exactly when its mode is as before. */
  function Due(prev: map<Path, Usb>, cur: map<Path, Usb>, p: Path): (es: seq<Event>)
    ensures |es| == if At(Proj(cur), p) == At(Proj(prev), p) then 0 else 1
  {
    if p in cur then
      if p !in prev then [Event(Appeared, p, cur[p].serial, ModeOf(cur[p]))]
      else if ModeOf(prev[p]) != ModeOf(cur[p]) then [Event(ModeChange, p, cur[p].serial, ModeOf(cur[p]))]
      else []
    else if p in prev then [Event(Disappeared, p, prev[p].serial, ModeOf(prev[p]).(inAdb := false))]
    else []
  }

  predicate Calls(prev: map<Path, Usb>, cur: map<Path, Usb>, p: Path)
  {
    ChangedIds(prev, cur, p) && cur[p].serial != ""
  }

  function CallsDue(prev: map<Path, Usb>, cur: map<Path, Usb>, p: Path): seq<Call>
  {
    if Calls(prev, cur, p) then [CallFor(cur[p])] else []
  }

  /** One path's part of the log and of the calls, in terms of what the two snapshots hold. */
  predicate Logged(p: Path, was: Option<Usb>, now: Option<Usb>, es: seq<Event>, cs: seq<Call>)
  {
    match (was, now)
    case (None, None) => es == [] && cs == []
    case (None, Some(d)) => es == [Event(Appeared, p, d.serial, Mode(d.vid, d.pid, d.inAdb))] && cs == []
    case (Some(d), None) => es == [Event(Disappeared, p, d.serial, Mode(d.vid, d.pid, false))] && cs == []
    case (Some(c), Some(d)) =>
      && es == (if c.vid == d.vid && c.pid == d.pid && c.inAdb == d.inAdb then []
                else [Event(ModeChange, p, d.serial, Mode(d.vid, d.pid, d.inAdb))])
      && cs == (if (c.vid == d.vid && c.pid == d.pid) || d.serial == "" then [] else [Call(d.serial, p, d.vid, d.pid)])
  }

  function Device(m: map<Path, Usb>, p: Path): Option<Usb>
  {
    if p in m then Some(m[p]) else None
  }

  lemma TallyLogged(prev: map<Path, Usb>, cur: map<Path, Usb>, es: seq<Event>, cs: seq<Call>)
    requires Tally(prev, cur, cur.Keys + prev.Keys, es, cs) && Keyed(cur)
    ensures forall p :: Logged(p, Device(prev, p), Device(cur, p), Of(es, p), CallsOf(cs, p))
  {
    forall p ensures Logged(p, Device(prev, p), Device(cur, p), Of(es, p), CallsOf(cs, p)) {
      assert TallyAt(prev, cur, cur.Keys + prev.Keys, es, cs, p);
    }
  }

  /** How far the diff has come: the paths in `done` are as in `cur`, all others still as in
      `prev`; the stored log, if it was in step, is the same but for the `lost` paths. `rt`
      and `rl` are the replays of all events and of the stored ones. */
  ghost predicate Between(prev: map<Path, Usb>, cur: map<Path, Usb>, done: set<Path>, lost: set<Path>, synced: bool,
                          rt: map<Path, Mode>, rl: map<Path, Mode>, missed: set<Path>)
  {
    && (forall p :: At(rt, p) == if p in done then At(Proj(cur), p) else At(Proj(prev), p))
    && (forall p :: p !in missed ==> At(rl, p) == At(rt, p))
    && (synced ==> forall p :: At(rl, p) == if p in done && p !in lost then At(Proj(cur), p) else At(Proj(prev), p))
    && (forall p :: p in lost ==> p in done && At(Proj(cur), p) != At(Proj(prev), p))
  }

  lemma ApplyAt(r: map<Path, Mode>, e: Event)
    ensures forall p :: p != e.path ==> At(Apply(r, e), p) == At(r, p)
  {}

  lemma BetweenStep(prev: map<Path, Usb>, cur: map<Path, Usb>, e: Event, done: set<Path>, lost: set<Path>, synced: bool,
                    rt: map<Path, Mode>, rl: map<Path, Mode>, missed: set<Path>, stored: bool)
    requires Between(prev, cur, done, lost, synced, rt, rl, missed) && e.path !in done
    requires At(Apply(rt, e), e.path) == At(Proj(cur), e.path) && At(Proj(cur), e.path) != At(Proj(prev), e.path)
    ensures Between(prev, cur, done + {e.path}, if stored then lost else lost + {e.path}, synced, Apply(rt, e),
                    if stored then Apply(rl, e) else rl, if stored then missed - {e.path} else missed + {e.path})
  {
    var rt', rl' := Apply(rt, e), if stored then Apply(rl, e) else rl;
    ApplyAt(rt, e);
    ApplyAt(rl, e);
    assert At(Apply(rl, e), e.path) == At(rt', e.path);
    forall p ensures At(rt', p) == if p in done + {e.path} then At(Proj(cur), p) else At(Proj(prev), p) {}
    forall p | p != e.path ensures At(rt', p) == At(rt, p) && At(rl', p) == At(rl, p) {}
  }

  /** The events and the calls that concern one path, in order. */
  function Of(es: seq<Event>, p: Path): seq<Event>
  {
    if es == [] then [] else Of(es[..|es| - 1], p) + (if es[|es| - 1].path == p then [es[|es| - 1]] else [])
  }

  function CallsOf(cs: seq<Call>, p: Path): seq<Call>
  {
    if cs == [] then [] else CallsOf(cs[..|cs| - 1], p) + (if cs[|cs| - 1].path == p then [cs[|cs| - 1]] else [])
  }

  /** Per path, the new events and calls are exactly the ones due, once. */
  ghost predicate Tally(prev: map<Path, Usb>, cur: map<Path, Usb>, done: set<Path>, es: seq<Event>, cs: seq<Call>)
  {
    forall p :: TallyAt(prev, cur, done, es, cs, p)
  }

  predicate TallyAt(prev: map<Path, Usb>, cur: map<Path, Usb>, done: set<Path>, es: seq<Event>, cs: seq<Call>, p: Path)
  {
    && Of(es, p) == (if p in done then Due(prev, cur, p) else [])
    && CallsOf(cs, p) == (if p in done then CallsDue(prev, cur, p) else [])
  }

  lemma TallyStep(prev: map<Path, Usb>, cur: map<Path, Usb>, done: set<Path>, p: Path, es: seq<Event>, cs: seq<Call>)
    requires Tally(prev, cur, done, es, cs) && p !in done && Keyed(cur)
    ensures Tally(prev, cur, done + {p}, es + Due(prev, cur, p), cs + CallsDue(prev, cur, p))
  {
    var due, calls := Due(prev, cur, p), CallsDue(prev, cur, p);
    if due != [] { assert (es + due)[..|es|] == es; } else { assert es + due == es; }
    if calls != [] { assert (cs + calls)[..|cs|] == cs; } else { assert cs + calls == cs; }
    forall q ensures TallyAt(prev, cur, done + {p}, es + due, cs + calls, q) {
      assert TallyAt(prev, cur, done, es, cs, q);
    }
  }

  /** Nothing was due for any path exactly when there are no new events. */
  lemma NothingDue(prev: map<Path, Usb>, cur: map<Path, Usb>, done: set<Path>, es: seq<Event>, cs: seq<Call>)
    requires Tally(prev, cur, done, es, cs) && done == cur.Keys + prev.Keys
    ensures es == [] <==> Proj(prev) == Proj(cur)
  {
    if es == [] {
      forall p ensures At(Proj(prev), p) == At(Proj(cur), p) { assert TallyAt(prev, cur, done, es, cs, p); }
      SameReplay(Proj(prev), Proj(cur));
    } else {
      var p := es[|es| - 1].path;
      assert TallyAt(prev, cur, done, es, cs, p);
      assert At(Proj(prev), p) != At(Proj(cur), p);
    }
  }

  /** The event due for a path fits and brings the path to its new mode. */
  lemma DueFits(prev: map<Path, Usb>, cur: map<Path, Usb>, p: Path, e: Event, rt: map<Path, Mode>)
    requires Due(prev, cur, p) == [e] && At(rt, p) == At(Proj(prev), p)
    ensures e.path == p && Fitting(rt, e) && At(Apply(rt, e), p) == At(Proj(cur), p)
            && At(Proj(cur), p) != At(Proj(prev), p)
  {}

  /** All paths done: the replays against the new snapshot. */
  lemma Finished(prev: map<Path, Usb>, cur: map<Path, Usb>, done: set<Path>, lost: set<Path>, synced: bool,
                 rt: map<Path, Mode>, rl: map<Path, Mode>, missed: set<Path>)
    requires Between(prev, cur, done, lost, synced, rt, rl, missed) && done == cur.Keys + prev.Keys
    ensures rt == Proj(cur)
    ensures synced ==> (rl == Proj(cur) <==> lost == {})
  {
    forall p ensures At(rt, p) == At(Proj(cur), p) { assert p !in done ==> p !in cur && p !in prev; }
    SameReplay(rt, Proj(cur));
    if synced && lost == {} {
      SameReplay(rl, Proj(cur));
    } else if synced {
      var p :| p in lost;
      assert At(rl, p) == At(Proj(prev), p);
    }
  }

  lemma BetweenSame(prev: map<Path, Usb>, cur: map<Path, Usb>, p: Path, done: set<Path>, lost: set<Path>, synced: bool,
                    rt: map<Path, Mode>, rl: map<Path, Mode>, missed: set<Path>)
    requires Between(prev, cur, done, lost, synced, rt, rl, missed) && At(Proj(cur), p) == At(Proj(prev), p)
             && p !in done
    ensures Between(prev, cur, done + {p}, lost, synced, rt, rl, missed)
  {}

  lemma Unstarted(prev: map<Path, Usb>, cur: map<Path, Usb>, synced: bool, rt: map<Path, Mode>, rl: map<Path, Mode>,
                  missed: set<Path>)
    requires rt == Proj(prev) && (forall p :: p !in missed ==> At(rl, p) == At(rt, p)) && (synced ==> rl == Proj(prev))
    ensures Between(prev, cur, {}, {}, synced, rt, rl, missed)
  {}

  lemma Suffix<T>(a0: seq<T>, a: seq<T>, d: seq<T>)
    requires a0 <= a
    ensures a0 <= a + d && (a + d)[|a0|..] == a[|a0|..] + d
  {}

  class Monitor {
    var prev: map<Path, Usb>
    var log: seq<Event>              // rows of usb_events
    var calls: seq<Call>             // calls of OnModeChange
    ghost var tried: seq<Event>      // every event, stored or not
    ghost var missed: set<Path>      // paths whose latest event was not stored
    ghost var losses: nat            // number of failed inserts

    ghost predicate Valid()
      reads this
    {
      && Keyed(prev) && Replay(tried) == Proj(prev) && LivesOk(tried)
      && (forall p :: p !in missed ==> At(Replay(log), p) == At(Proj(prev), p))
      && (losses == 0 ==> log == tried && missed == {})
    }

    constructor ()
      ensures Valid() && prev == map[] && log == [] && tried == [] && losses == 0
    {
      prev, log, calls := map[], [], [];
      tried, missed, losses := [], {}, 0;
      new;
      SameReplay(Replay(tried), Proj(prev));
    }

    /** `record`: the insert may fail, and then the event is gone. */
    method Record(e: Event) returns (stored: bool)
      requires LivesOk(tried) && Fitting(Replay(tried), e) && (losses == 0 ==> log == tried && missed == {})
      modifies this`log, this`tried, this`missed, this`losses
      ensures LivesOk(tried) && tried == old(tried) + [e] && (losses == 0 ==> log == tried && missed == {})
      ensures Replay(tried) == Apply(Replay(old(tried)), e)
      ensures Replay(log) == if stored then Apply(Replay(old(log)), e) else Replay(old(log))
      ensures missed == if stored then old(missed) - {e.path} else old(missed) + {e.path}
      ensures losses == if stored then old(losses) else old(losses) + 1
    {
      stored := *;
      LivesStep(tried, e);
      ReplayStep(tried, e);
      ReplayStep(log, e);
      tried := tried + [e];
      if stored {
        log, missed := log + [e], missed - {e.path};
      } else {
        missed, losses := missed + {e.path}, losses + 1;
      }
    }

    /** The first two loops: mark what ADB sees, in place, and index by path. */
    method Index(current: array<Usb>, adb: set<string>) returns (cur: map<Path, Usb>)
      modifies current
      ensures cur == Snapshot(old(current[..]), adb) && Keyed(cur) && Shows(cur, old(current[..]), adb)
    {
      ghost var ds := current[..];
      for i := 0 to current.Length
        invariant forall k :: 0 <= k < i ==> current[k] == Marked(ds[k], adb)
        invariant forall k :: i <= k < current.Length ==> current[k] == ds[k]
      {
        if current[i].serial != "" {
          current[i] := current[i].(inAdb := current[i].serial in adb);
        }
      }
      ghost var marked := seq(|ds|, i requires 0 <= i < |ds| => Marked(ds[i], adb));
      assert current[..] == marked;
      cur := map[];
      for i := 0 to current.Length
        invariant cur == ByPath(marked[..i]) && Keyed(cur)
      {
        assert marked[..i + 1][..i] == marked[..i];
        cur := cur[current[i].path := current[i]];
      }
      assert marked[..|marked|] == marked;
      SnapshotShows(ds, adb);
    }

    /** One event, or none when the device at the path is as before. */
    method Note(p: Path, cur: map<Path, Usb>, ghost done: set<Path>, ghost lost: set<Path>, ghost synced: bool)
      returns (ghost lost': set<Path>)
      requires Keyed(prev) && Keyed(cur) && p !in done && (p in cur || p in prev)
      requires LivesOk(tried) && (losses == 0 ==> log == tried && missed == {})
      requires Between(prev, cur, done, lost, synced, Replay(tried), Replay(log), missed)
      modifies this`log, this`tried, this`missed, this`losses, this`calls
      ensures LivesOk(tried) && (losses == 0 ==> log == tried && missed == {})
      ensures Between(prev, cur, done + {p}, lost', synced, Replay(tried), Replay(log), missed)
      ensures lost <= lost' && losses == old(losses) + |lost' - lost|
      ensures tried == old(tried) + Due(prev, cur, p)
      ensures calls == old(calls) + CallsDue(prev, cur, p)
    {
      lost' := lost;
      var event := Compare(p, cur);
      if event.Some? {
        lost' := Log(p, event.value, cur, done, lost, synced);
      } else {
        BetweenSame(prev, cur, p, done, lost, synced, Replay(tried), Replay(log), missed);
      }
    }

    /** The three-way comparison; it also makes the call that is due. */
    method Compare(p: Path, cur: map<Path, Usb>) returns (event: Option<Event>)
      requires p in cur || p in prev
      modifies this`calls
      ensures Due(prev, cur, p) == if event.Some? then [event.value] else []
      ensures calls == old(calls) + CallsDue(prev, cur, p)
    {
      event := None;
      if p !in cur {
        event := Some(Event(Disappeared, p, prev[p].serial, ModeOf(prev[p]).(inAdb := false)));
      } else if p !in prev {
        event := Some(Event(Appeared, p, cur[p].serial, ModeOf(cur[p])));
      } else if prev[p].vid != cur[p].vid || prev[p].pid != cur[p].pid {
        event := Some(Event(ModeChange, p, cur[p].serial, ModeOf(cur[p])));
        if cur[p].serial != "" {
          calls := calls + [CallFor(cur[p])];
        }
      } else if prev[p].inAdb != cur[p].inAdb {
        event := Some(Event(ModeChange, p, cur[p].serial, ModeOf(cur[p])));
      }
    }

    /** Records the event due for a path. */
    method Log(p: Path, e: Event, cur: map<Path, Usb>, ghost done: set<Path>, ghost lost: set<Path>, ghost synced: bool)
      returns (ghost lost': set<Path>)
      requires Due(prev, cur, p) == [e] && p !in done && LivesOk(tried)
               && (losses == 0 ==> log == tried && missed == {})
      requires Between(prev, cur, done, lost, synced, Replay(tried), Replay(log), missed)
      modifies this`log, this`tried, this`missed, this`losses
      ensures LivesOk(tried) && (losses == 0 ==> log == tried && missed == {})
      ensures Between(prev, cur, done + {p}, lost', synced, Replay(tried), Replay(log), missed)
      ensures lost <= lost' && losses == old(losses) + |lost' - lost|
      ensures tried == old(tried) + [e]
    {
      ghost var rt, rl, missed0 := Replay(tried), Replay(log), missed;
      assert At(rt, p) == At(Proj(prev), p);
      DueFits(prev, cur, p, e, rt);
      var stored := Record(e);
      lost' := if stored then lost else lost + {p};
      assert lost' - lost == if stored then {} else {p};
      BetweenStep(prev, cur, e, done, lost, synced, rt, rl, missed0, stored);
    }

    /** What holds between two iterations of the diff loops. */
    ghost predicate Polling(cur: map<Path, Usb>, done: set<Path>, lost: set<Path>, synced: bool)
      reads this
    {
      && Keyed(prev) && Keyed(cur) && LivesOk(tried) && (losses == 0 ==> log == tried && missed == {})
      && Between(prev, cur, done, lost, synced, Replay(tried), Replay(log), missed)
    }

    ghost predicate Going(cur: map<Path, Usb>, done: set<Path>, lost: set<Path>, synced: bool, tried0: seq<Event>,
                          calls0: seq<Call>, losses0: nat)
      reads this
    {
      && Polling(cur, done, lost, synced) && losses == losses0 + |lost| && tried0 <= tried && calls0 <= calls
      && Tally(prev, cur, done, tried[|tried0|..], calls[|calls0|..])
    }

    method Visit(p: Path, cur: map<Path, Usb>, ghost done: set<Path>, ghost lost: set<Path>, ghost synced: bool,
                 ghost tried0: seq<Event>, ghost calls0: seq<Call>, ghost losses0: nat) returns (ghost lost': set<Path>)
      requires Going(cur, done, lost, synced, tried0, calls0, losses0) && p !in done && (p in cur || p in prev)
      modifies this`log, this`tried, this`missed, this`losses, this`calls
      ensures Going(cur, done + {p}, lost', synced, tried0, calls0, losses0)
    {
      ghost var es, cs := tried[|tried0|..], calls[|calls0|..];
      TallyStep(prev, cur, done, p, es, cs);
      lost' := Note(p, cur, done, lost, synced);
      assert lost' == lost + (lost' - lost);
      Suffix(tried0, old(tried), Due(prev, cur, p));
      Suffix(calls0, old(calls), CallsDue(prev, cur, p));
    }

    /** The first diff loop, over the new snapshot, in some arbitrary order. */
    method DiffPresent(cur: map<Path, Usb>, ghost synced: bool) returns (ghost lost: set<Path>)
      requires Polling(cur, {}, {}, synced)
      modifies this`log, this`tried, this`missed, this`losses, this`calls
      ensures Going(cur, cur.Keys, lost, synced, old(tried), old(calls), old(losses))
    {
      var left := cur.Keys;
      ghost var done: set<Path> := {};
      lost := {};
      while left != {}
        invariant left <= cur.Keys && forall p :: p in done <==> p in cur && p !in left
        invariant Going(cur, done, lost, synced, old(tried), old(calls), old(losses))
        decreases left
      {
        var p :| p in left;
        lost := Visit(p, cur, done, lost, synced, old(tried), old(calls), old(losses));
        left, done := left - {p}, done + {p};
      }
      assert done == cur.Keys;
    }

    /** The second one, over the old snapshot. */
    method DiffAbsent(cur: map<Path, Usb>, ghost lost0: set<Path>, ghost synced: bool, ghost tried0: seq<Event>,
                      ghost calls0: seq<Call>, ghost losses0: nat)
      returns (ghost lost: set<Path>)
      requires Going(cur, cur.Keys, lost0, synced, tried0, calls0, losses0)
      modifies this`log, this`tried, this`missed, this`losses, this`calls
      ensures Going(cur, cur.Keys + prev.Keys, lost, synced, tried0, calls0, losses0)
    {
      var left := prev.Keys;
      ghost var done := cur.Keys;
      lost := lost0;
      while left != {}
        invariant left <= prev.Keys && forall p :: p in done <==> p in cur || (p in prev && p !in left)
        invariant Going(cur, done, lost, synced, tried0, calls0, losses0)
        decreases left
      {
        var p :| p in left;
        if p !in cur {
          lost := Visit(p, cur, done, lost, synced, tried0, calls0, losses0);
          done := done + {p};
        }
        left := left - {p};
      }
      assert done == cur.Keys + prev.Keys;
    }

    /** One poll. The new snapshot shows the list; per path exactly the event and the call that
        the two snapshots call for are attempted; and a log in step stays in step exactly if no
        insert fails. */
    method Poll(current: array<Usb>, adb: set<string>)
      requires Valid()
      modifies this, current
      ensures Valid() && losses >= old(losses) && old(tried) <= tried && old(calls) <= calls
      ensures prev == Snapshot(old(current[..]), adb) && Shows(prev, old(current[..]), adb)
      ensures forall p :: Logged(p, Device(old(prev), p), Device(prev, p),
                                 Of(tried[|old(tried)|..], p), CallsOf(calls[|old(calls)|..], p))
      ensures tried == old(tried) <==> Proj(prev) == Proj(old(prev))
      ensures old(Replay(log) == Proj(prev)) ==> (Replay(log) == Proj(prev) <==> losses == old(losses))
    {
      ghost var ds, prev0 := current[..], prev;
      PollSteps(current, adb);
      SnapshotShows(ds, adb);
      TallyLogged(prev0, prev, tried[|old(tried)|..], calls[|old(calls)|..]);
    }

    method PollSteps(current: array<Usb>, adb: set<string>)
      requires Valid()
      modifies this, current
      ensures Valid() && prev == Snapshot(old(current[..]), adb) && losses >= old(losses)
      ensures old(tried) <= tried && old(calls) <= calls
      ensures Tally(old(prev), prev, prev.Keys + old(prev).Keys, tried[|old(tried)|..], calls[|old(calls)|..])
      ensures tried == old(tried) <==> Proj(prev) == Proj(old(prev))
      ensures old(Replay(log) == Proj(prev)) ==> (Replay(log) == Proj(prev) <==> losses == old(losses))
    {
      var cur := Index(current, adb);
      ghost var synced := Replay(log) == Proj(prev);
      Unstarted(prev, cur, synced, Replay(tried), Replay(log), missed);
      ghost var lost := DiffPresent(cur, synced);
      lost := DiffAbsent(cur, lost, synced, old(tried), old(calls), old(losses));
      Finished(prev, cur, cur.Keys + prev.Keys, lost, synced, Replay(tried), Replay(log), missed);
      NothingDue(prev, cur, cur.Keys + prev.Keys, tried[|old(tried)|..], calls[|old(calls)|..]);
      prev := cur;
    }

    /** Any number of polls. Unless an insert was lost, the stored log replays to the last
        snapshot; and what was attempted does so in any case. */
    method PollAll(polls: seq<(seq<Usb>, set<string>)>)
      requires Valid()
      modifies this
      ensures Valid() && Replay(tried) == Proj(prev) && losses >= old(losses)
      ensures |polls| > 0 ==> Shows(prev, polls[|polls| - 1].0, polls[|polls| - 1].1)
      ensures old(Replay(log) == Proj(prev)) && losses == old(losses) ==> Replay(log) == Proj(prev)
    {
      for i := 0 to |polls|
        invariant Valid() && losses >= old(losses)
        invariant i > 0 ==> Shows(prev, polls[i - 1].0, polls[i - 1].1)
        invariant old(Replay(log) == Proj(prev)) && losses == old(losses) ==> Replay(log) == Proj(prev)
      {
        var ds := polls[i].0;
        var current := new Usb[|ds|](k requires 0 <= k < |ds| => ds[k]);
        assert current[..] == ds;
        Poll(current, polls[i].1);
      }
    }
  }
}
